/**
 * The public-data commitment of a block: the block number and the fee
 * total, each as 256 big-endian bits, are hashed; that digest, followed by
 * the packed public data of every transfer, is hashed again; the top three
 * bits of the result are cleared and the 32 bytes are read as a field
 * element.
 */
module Commitment {
  import opened Field
  import opened Bits
  import opened ProverTypes

  // ------------------------------------------------ transaction encoding

  /**
   * `encode_transactions`: the packed public data of every transfer of the
   * batch, one after the other in batch order.
   */
  function PublicData(env: Collaborators, txs: seq<Tx>): seq<bv8>
    decreases |txs|
  {
    if txs == [] then []
    else PublicData(env, txs[..|txs| - 1]) + env.packBits(env.publicDataBits(txs[|txs| - 1]))
  }

  /** The encoding of two batches laid end to end is the two encodings laid end to end. */
  lemma {:induction false} PublicDataAppend(env: Collaborators, a: seq<Tx>, b: seq<Tx>)
    ensures PublicData(env, a + b) == PublicData(env, a) + PublicData(env, b)
    decreases |b|
  {
    if b == [] {
      assert a + b == a;
    } else {
      var b' := b[..|b| - 1];
      assert (a + b)[..|a + b| - 1] == a + b';
      assert (a + b)[|a + b| - 1] == b[|b| - 1];
      PublicDataAppend(env, a, b');
    }
  }

  /**
   * Transfer i's packed public data sits in the encoding right after that of
   * the transfers before it, whatever follows.
   */
  lemma PublicDataAt(env: Collaborators, txs: seq<Tx>, i: nat)
    requires i < |txs|
    ensures var before := PublicData(env, txs[..i]);
      var own := env.packBits(env.publicDataBits(txs[i]));
      && |before| + |own| <= |PublicData(env, txs)|
      && PublicData(env, txs)[..|before|] == before
      && PublicData(env, txs)[|before|..|before| + |own|] == own
  {
    var before := PublicData(env, txs[..i]);
    var own := env.packBits(env.publicDataBits(txs[i]));
    assert txs[..i + 1][..i] == txs[..i];
    assert PublicData(env, txs[..i + 1]) == before + own;
    assert txs == txs[..i + 1] + txs[i + 1..];
    PublicDataAppend(env, txs[..i + 1], txs[i + 1..]);
    var all := PublicData(env, txs);
    assert all == (before + own) + PublicData(env, txs[i + 1..]);
    assert all[..|before|] == before;
    assert all[|before|..|before| + |own|] == own;
  }

  // ------------------------------------------------------ first preimage

  /** Zero bits in front of a big-endian bit string, up to 256 bits in all. */
  function Pad256(bits: seq<bool>): (r: seq<bool>)
    requires |bits| <= 256
    ensures |r| == 256 && r[256 - |bits|..] == bits
    ensures forall i :: 0 <= i < 256 - |bits| ==> !r[i]
  {
    seq(256 - |bits|, _ => false) + bits
  }

  /**
   * Appends one padded field to the bits being built: a zero for each bit
   * the field falls short of 256, then the field's own bits.
   */
  method AppendPadded(buf: seq<bool>, bits: seq<bool>) returns (r: seq<bool>)
    requires |bits| <= 256
    ensures r == buf + Pad256(bits)
  {
    r := buf;
    for j := 0 to 256 - |bits|
      invariant r == buf + seq(j, _ => false)
    {
      r := r + [false];
    }
    r := r + bits;
  }

  /** The 512 bits hashed first: block number, then fee total, each padded to 256 bits. */
  function FirstPreimage(blockNumber: Fr, totalFees: Fr): seq<bool>
  {
    Pad256(ReprBits(blockNumber)) + Pad256(ReprBits(totalFees))
  }

  /**
   * The first preimage is 512 bits; its first half reads back, big-endian,
   * as the block number and its second half as the fee total.
   */
  lemma FirstPreimageLayout(blockNumber: Fr, totalFees: Fr)
    ensures var bits := FirstPreimage(blockNumber, totalFees);
      && |bits| == 512
      && ValueBE(bits[..256]) == blockNumber
      && ValueBE(bits[256..]) == totalFees
  {
    var bits := FirstPreimage(blockNumber, totalFees);
    FieldWidth();
    assert Pad256(ReprBits(blockNumber)) == ReprBits(blockNumber);
    assert Pad256(ReprBits(totalFees)) == ReprBits(totalFees);
    assert bits[..256] == ReprBits(blockNumber);
    assert bits[256..] == ReprBits(totalFees);
    BitsBERoundTrip(blockNumber, 256);
    BitsBERoundTrip(totalFees, 256);
  }

  /** Different block numbers or fee totals give different first preimages. */
  lemma FirstPreimageInjective(bn1: Fr, fees1: Fr, bn2: Fr, fees2: Fr)
    requires FirstPreimage(bn1, fees1) == FirstPreimage(bn2, fees2)
    ensures bn1 == bn2 && fees1 == fees2
  {
    FirstPreimageLayout(bn1, fees1);
    FirstPreimageLayout(bn2, fees2);
  }

  // ------------------------------------------------------------ clipping

  /** `hash_result[0] &= 0x1f`: the top three bits of the digest cleared. */
  function Clip(d: Digest): Digest
  {
    d[0 := d[0] & 0x1f]
  }

  /** Dropping the top three bits of a byte worth `w` each, above a tail below `w`, is reducing modulo 32 w. */
  lemma TopBitsMod(d0: nat, w: nat, t: nat)
    requires t < w
    ensures (d0 % 32) * w + t == (d0 * w + t) % (32 * w)
  {
    var q, c0 := d0 / 32, d0 % 32;
    assert d0 * w == q * (32 * w) + c0 * w by {
      assert d0 == 32 * q + c0;
    }
    MulMonotone(c0 + 1, 32, w);
    DivModUnique(d0 * w + t, 32 * w, q, c0 * w + t);
  }

  lemma MaskLow5(b: bv8)
    ensures (b & 0x1f) as nat == (b as nat) % 32
  {
  }

  /** Clearing the top three bits of a big-endian number of n bytes reduces it modulo 2^(8n - 3). */
  lemma {:induction false} ClipBytesReduces(bytes: seq<bv8>)
    requires |bytes| > 0
    ensures ReadBE(bytes[0 := bytes[0] & 0x1f]) == ReadBE(bytes) % Pow2(8 * |bytes| - 3)
  {
    var c := bytes[0 := bytes[0] & 0x1f];
    var w := Pow2(8 * (|bytes| - 1));
    var t := ReadBE(bytes[1..]);
    assert c[1..] == bytes[1..];
    assert ReadBE(c) == (c[0] as nat) * w + t;
    MaskLow5(bytes[0]);
    ReadBEBound(bytes[1..]);
    Pow2Add(5, 8 * (|bytes| - 1));
    assert Pow2(5) == 32;
    TopBitsMod(bytes[0] as nat, w, t);
  }

  /** 2^253: a clipped digest stays below it. */
  const ClipBound: nat := 0x2000_0000_0000_0000_0000_0000_0000_0000_0000_0000_0000_0000_0000_0000_0000_0000

  /** Clearing the top three bits of a 256-bit big-endian number reduces it modulo 2^253. */
  lemma ClipReduces(d: Digest)
    ensures ReadBE(Clip(d)) == ReadBE(d) % ClipBound
  {
    ClipBytesReduces(d);
    Pow2Values();
  }

  /** A clipped digest is below 2^253, hence below the field modulus: `from_repr` cannot fail. */
  lemma ClipFits(d: Digest)
    ensures ReadBE(Clip(d)) < ClipBound < P
  {
    ClipReduces(d);
  }

  // ---------------------------------------------------------- commitment

  /** The second digest: SHA-256 over the first digest followed by the batch's public data. */
  function SecondDigest(env: Collaborators, blockNumber: Fr, totalFees: Fr, publicData: seq<bv8>): Digest
  {
    env.sha256(env.sha256(env.packBits(FirstPreimage(blockNumber, totalFees))) + publicData)
  }

  /** The commitment: the second digest, read big-endian, reduced modulo 2^253. */
  function CommitmentOf(env: Collaborators, blockNumber: Fr, totalFees: Fr, publicData: seq<bv8>): (c: Fr)
    ensures c == ReadBE(SecondDigest(env, blockNumber, totalFees, publicData)) % ClipBound
  {
    var d := SecondDigest(env, blockNumber, totalFees, publicData);
    ClipFits(d);
    ClipReduces(d);
    ReadBE(Clip(d))
  }

  /** The bits hashed first, built as the prover builds them, and checked to be 512 long. */
  method InitialBits(blockNumber: Fr, totalFees: Fr) returns (bits: seq<bool>)
    ensures bits == FirstPreimage(blockNumber, totalFees)
    ensures |bits| == 512
  {
    bits := AppendPadded([], ReprBits(blockNumber));
    bits := AppendPadded(bits, ReprBits(totalFees));
    assert |bits| == 512;
  }

  /** `h.input(data); h.result(&mut buf[..])`: the 32-byte buffer is overwritten with the digest of `data`. */
  method DigestInto(env: Collaborators, data: seq<bv8>, buf: array<bv8>)
    requires buf.Length == 32
    modifies buf
    ensures buf[..] == env.sha256(data)
  {
    var digest := env.sha256(data);
    forall k | 0 <= k < 32 {
      buf[k] := digest[k];
    }
  }

  /**
   * The commitment computation as the prover runs it: the (empty) padding
   * loops, the 512-bit check, the 32-byte hash buffer overwritten by each
   * round, the mask on its first byte and the big-endian read.
   */
  method PublicDataCommitment(env: Collaborators, blockNumber: Fr, totalFees: Fr, publicData: seq<bv8>)
    returns (c: Fr)
    ensures c == CommitmentOf(env, blockNumber, totalFees, publicData)
    ensures c < ClipBound
  {
    var initialBits := InitialBits(blockNumber, totalFees);

    var hashResult := new bv8[32];
    DigestInto(env, env.packBits(initialBits), hashResult);
    var second := env.sha256(hashResult[..] + publicData);
    DigestInto(env, hashResult[..] + publicData, hashResult);
    hashResult[0] := hashResult[0] & 0x1f;
    assert hashResult[..] == Clip(second);
    ClipFits(second);
    c := ReadBE(hashResult[..]);
  }
}
