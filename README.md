# BabyProver in Dafny

A model of the rollup prover `BabyProver` (`plasma/src/server/baby_prover.rs`).
The prover keeps its own copy of the account-balance tree. It replays a
fixed-size block of transfers against that copy. Along the way it collects
one circuit witness per transfer and the total of the fees. It then commits
to the block number, the fee total and the transfers' public data with two
rounds of SHA-256. Finally it asks the proving system for a proof and checks
that proof itself.

Field elements of BN254's scalar field are integers in `[0, P)`. Field
addition and subtraction are written out as conditional reductions. SHA-256,
the float decoder, the bit packer, the tree's hashing and Groth16 are
supplied as function values in a `Collaborators` record. Nothing about them
is assumed beyond their types.

Layout, one module per file:

- `field.dfy` (`Field`): `P`, `Fr`, field `Add`/`Sub`, `from_str`, congruence modulo P.
- `bits.dfy` (`Bits`): powers of two, the 256-bit big-endian view that
  `BitIterator` walks over a representation, little-endian views, and
  big-endian byte strings (`read_be`).
- `account_index.dfy` (`AccountIndex`): `field_element_to_u32`.
- `account_tree.dfy` (`AccountTree`): leaves, the mirrored tree as a class
  with `items` and `insert`, and the sum of all balances.
- `prover_types.dfy` (`ProverTypes`): `BabyProverErr` with its description
  and display text, transfers, blocks, the circuit's records, and the outside
  code the prover calls.
- `replay.dfy` (`BatchReplay`): the replay loop as a specification. `Step`
  is one transfer and `Replay` is a whole batch. The lemmas cover error
  precedence, leaf updates, fees, conservation and witnesses.
- `commitment.dfy` (`Commitment`): the transfers' public data, the 512-bit
  first preimage, the `0x1f` clip, and the commitment computation itself.
- `baby_prover.dfy` (`Prover`): the `BabyProver` class with `new`,
  `encode_transactions` and `apply_and_prove`, each proved against the
  specification functions.

Points where the model follows the code:

- Each `BitIterator` over `into_repr()` yields all 256 bits, most significant
  first. So the padding loops at lines 275-277 and 281-283 run zero times.
  `AppendPadded` keeps the loop for a bit string of any length up to 256.
- A missing sender or a missing recipient both give `InvalidSender`. A bad
  amount or a bad fee both give `InvalidAmountEncoding`. `InvalidRecipient`
  and `InvalidFeeEncoding` are never produced.
- Each witness holds the sender's and recipient's leaves and authentication
  paths as they were *before* that transfer's writes.
- If a transfer's sender and recipient are the same account, the recipient
  write at line 240 replaces the sender write at line 239. The account then
  only gains the amount, and its nonce stays the same. The fee is still added
  to the total. `StepSelfTransfer` states this, and the conservation lemma is
  stated for batches without such transfers.
- A transfer rejected partway through a block ends `apply_and_prove`. The
  transfers before it stay applied to the tree.

## Model

| member | source | states |
|---|---|---|
| `AccountIndex.FieldElementToU32` | plasma/src/server/baby_prover.rs:66-80 | the result is `fr mod 2^32`, which is also the value of the last 32 bits of the 256-bit big-endian representation; before each step `res < 2^i` and `base = 2^i`, so `res += base` cannot overflow |
| `AccountTree.BalanceTree.constructor` | plasma/src/server/baby_prover.rs:114 | a new tree has the given depth and no leaves |
| `AccountTree.BalanceTree.Insert` | plasma/src/server/baby_prover.rs:239-240 | the leaf at the index becomes the new leaf and every other leaf stays |
| `AccountTree.TotalBalanceUpdate` | plasma/src/server/baby_prover.rs:224-232 | overwriting one leaf changes the sum of all balances by the new balance minus the old one |
| `ProverTypes.DescriptionInjective` | plasma/src/server/baby_prover.rs:33-44 | two errors with the same description are the same error, unless both are I/O errors |
| `ProverTypes.DisplayFirstChar` | plasma/src/server/baby_prover.rs:46-55 | the displayed text is never empty and starts with `I` exactly for I/O errors |
| `ProverTypes.DisplayInjective` | plasma/src/server/baby_prover.rs:46-55 | different errors display differently, and I/O errors are told apart by their cause |
| `Field.FromStr` | plasma/src/server/baby_prover.rs:266 | `Fr::from_str` of a decimal number is that number modulo P, and the number itself when it is below P |
| `Field.FromU128` | plasma/src/server/baby_prover.rs:208-209 | a decoded `u128` is below P, so converting it through its decimal string gives the same number |
| `Bits.ReprBits` | plasma/src/server/baby_prover.rs:67 | `BitIterator` over a representation gives exactly 256 bits |
| `Bits.BitsBERoundTrip` | plasma/src/server/baby_prover.rs:274 | reading the big-endian bits of a number below `2^n` gives the number back |
| `Bits.ReadBEBound` | plasma/src/server/baby_prover.rs:316 | `read_be` of n bytes is below `2^(8n)` |
| `BatchReplay.StepErrors` | plasma/src/server/baby_prover.rs:186-206 | a missing sender or recipient leaf gives `InvalidSender` whatever the encodings; otherwise a failed amount or fee decode gives `InvalidAmountEncoding`; no other error occurs; each holds in both directions |
| `BatchReplay.StepTransfer` | plasma/src/server/baby_prover.rs:224-240 | between two different accounts: the sender's balance loses amount then fee (mod P) and its nonce goes up by one; the recipient's balance gains the amount; public keys, the recipient's nonce and all other leaves are unchanged; the fee joins the total; exactly one witness is appended |
| `BatchReplay.StepSelfTransfer` | plasma/src/server/baby_prover.rs:239-240 | when sender and recipient coincide, the account only gains the amount and keeps its nonce, while the fee still joins the total |
| `BatchReplay.StepConservesValue` | plasma/src/server/baby_prover.rs:227-234 | between two different accounts, all balances plus the fee total stay the same modulo P |
| `BatchReplay.StepFee` | plasma/src/server/baby_prover.rs:234 | an accepted transfer's fee decodes, and the total grows by it in the field |
| `BatchReplay.StepWitness` | plasma/src/server/baby_prover.rs:242-262 | an accepted transfer appends exactly one witness: the transfer's fields unchanged, the paths of both indices and both leaves as they were before the writes |
| `BatchReplay.ReplayAppend` | plasma/src/server/baby_prover.rs:180-264 | replaying two batches one after the other is replaying the first, then, unless it was rejected, the second from where the first stopped |
| `BatchReplay.AddAllSum` | plasma/src/server/baby_prover.rs:234 | adding fees one at a time in the field is adding them as integers, then reducing modulo P |
| `BatchReplay.ReplayFeeFold` | plasma/src/server/baby_prover.rs:176-234 | a completed replay adds the decoded fees to the total one at a time, in batch order |
| `BatchReplay.ReplayFeeTotal` | plasma/src/server/baby_prover.rs:176-234 | after a completed replay the fee total is the starting total plus the sum of the decoded fees, modulo P |
| `BatchReplay.ReplayConservesValue` | plasma/src/server/baby_prover.rs:180-264 | in a batch with no self-transfers, a completed replay keeps all balances plus the fee total the same modulo P |
| `BatchReplay.ReplayWitnessCount` | plasma/src/server/baby_prover.rs:174-262 | a completed replay appends exactly one witness per transfer and keeps the earlier witnesses |
| `BatchReplay.ReplaySplit` | plasma/src/server/baby_prover.rs:180-264 | every prefix of a completed batch completes, and the rest of the batch goes on from where that prefix stopped |
| `BatchReplay.ReplayFirstWitness` | plasma/src/server/baby_prover.rs:211-262 | the first witness a completed replay appends belongs to its first transfer and is taken against the starting leaves |
| `BatchReplay.ReplayWitness` | plasma/src/server/baby_prover.rs:211-262 | in a completed replay, witness i is transfer i's, taken against the leaves as the first i transfers left them |
| `BatchReplay.ReplayFailure` | plasma/src/server/baby_prover.rs:186-206 | a rejected batch stops at some transfer k with `InvalidSender` or `InvalidAmountEncoding`; the transfers before k are all applied and transfer k writes nothing |
| `Commitment.PublicDataAppend` | plasma/src/server/baby_prover.rs:150-160 | the encoding of two batches laid end to end is their two encodings laid end to end |
| `Commitment.PublicDataAt` | plasma/src/server/baby_prover.rs:154-158 | transfer i's packed public data sits in the encoding right after that of the transfers before it |
| `Commitment.Pad256` | plasma/src/server/baby_prover.rs:275-278 | the padded string is 256 bits: zeros, then the original bits at the end |
| `Commitment.AppendPadded` | plasma/src/server/baby_prover.rs:275-278 | the zero-pushing loop followed by the extend appends exactly the padded bits |
| `Commitment.InitialBits` | plasma/src/server/baby_prover.rs:270-286 | both padding loops and extends build exactly the first preimage, and the length check of 512 bits holds |
| `Commitment.DigestInto` | plasma/src/server/baby_prover.rs:294-295 | `h.result(&mut hash_result[..])` leaves the 32-byte buffer holding exactly the digest of the hashed bytes |
| `Commitment.FirstPreimageLayout` | plasma/src/server/baby_prover.rs:270-286 | the first preimage has 512 bits; its first half reads big-endian as the block number and its second half as the fee total |
| `Commitment.FirstPreimageInjective` | plasma/src/server/baby_prover.rs:270-286 | different block numbers or fee totals give different first preimages |
| `Commitment.ClipBytesReduces` | plasma/src/server/baby_prover.rs:313-316 | clearing the top three bits of an n-byte big-endian number reduces it modulo `2^(8n-3)` |
| `Commitment.ClipReduces` | plasma/src/server/baby_prover.rs:313-316 | after `hash_result[0] &= 0x1f` the digest reads as its original value modulo `2^253` |
| `Commitment.ClipFits` | plasma/src/server/baby_prover.rs:313-318 | a clipped digest is below `2^253`, which is below P, so `from_repr(...).unwrap()` cannot fail |
| `Commitment.CommitmentOf` | plasma/src/server/baby_prover.rs:288-318 | the commitment is the second digest read big-endian, modulo `2^253` |
| `Commitment.PublicDataCommitment` | plasma/src/server/baby_prover.rs:270-318 | the padding loops, the 512-bit check, both hash rounds into the 32-byte buffer, the mask and the read give `CommitmentOf`, which is below `2^253` |
| `Prover.ProofOutcome` | plasma/src/server/baby_prover.rs:333-347 | a proof is returned only if one was created and it verifies against old root, new root and commitment; every failure is `Unknown` |
| `Prover.InstanceLayout` | plasma/src/server/baby_prover.rs:322-331 | for a completed block the instance has one witness per transfer, its fee total is the sum of the decoded fees modulo P, and its commitment is below `2^253` |
| `Prover.InstanceWitness` | plasma/src/server/baby_prover.rs:322-331 | witness i of the instance is transfer i's, taken after the first i transfers |
| `Prover.BabyProver.constructor` | plasma/src/server/baby_prover.rs:132-136 | the prover holds the given batch size, tree and parameters |
| `Prover.BabyProver.New` | plasma/src/server/baby_prover.rs:93-137 | a key that failed to load gives `IoError` with its cause; otherwise the fresh tree holds exactly the state's accounts, and the result is `Ok` with batch size 128 exactly when the tree's root equals the state's claimed root, else `Unknown` |
| `Prover.BabyProver.EncodeTransactions` | plasma/src/server/baby_prover.rs:150-160 | always `Ok`, with the transfers' packed public data concatenated in order |
| `Prover.BabyProver.ApplyTransaction` | plasma/src/server/baby_prover.rs:181-263 | one loop pass does to the tree, the fee total and the witness list exactly what `Step` specifies; a rejected transfer writes nothing |
| `Prover.BabyProver.ApplyAndProve` | plasma/src/server/baby_prover.rs:163-348 | a block of the wrong size gives `Unknown` before any write; otherwise the tree ends as the replay leaves it, a rejection is returned as is, and a completed replay returns the proof outcome for the block's instance |

## Left out

- Reading `pk.key` and `BabyParameters::read` (lines 99-110) is file I/O. `New` takes their outcome as a parameter: either the parameters or the error's message, which becomes the `IoError` cause. The `println!` logging is dropped.
- `create_random_proof`, `prepare_verifying_key` and `verify_proof` (lines 335-342) are Groth16 internals. They are supplied as functions. The draw from `OsRng` (line 333) is a number passed in. The panic of `verify_proof(...).unwrap()` on a malformed input is not modelled: verification is a plain yes or no.
- The `AltJubjubBn256` curve parameters carried in `Update` (lines 320-323) are constants of the circuit library and are not part of the record.
- SHA-256 (lines 288-308) is a supplied function from bytes to 32 bytes. The claim that changing any transaction byte changes the commitment with overwhelming probability is about SHA-256 itself, so it is not stated.
- `parse_float_to_u128`, `public_data_into_bits` and `be_bit_vector_into_bytes` come from other files. They are supplied functions, and nothing is assumed about them.
- The tree's hashing (`root_hash`, `merkle_path`) is supplied as functions of the depth and the leaves. `insert` is modelled as a map update.
- `encode_proof` (lines 139-146) is `unimplemented!()` and is not modelled. The commented-out `LifetimedProver` impl (lines 82-86) is not modelled either.
- The `fmt::Display` of the wrapped `std::io::Error` is modelled as its message string.
- `initial_state.accounts_iter()` walks a hash map in an unspecified order. The copy loop in `New` picks any remaining account at each step, so its contract holds for every order.
- The `.unwrap()` on `encode_transactions` (line 165) and the `.expect` on `read_be` of 32 bytes (line 316) cannot fail, so both are modelled as total.
- `AppendPadded` and `Pad256` require at most 256 bits, because `256 - len` would underflow otherwise. Every caller passes exactly 256.
- BatchReplay.ReplayConservesValue: stated only for batches without self-transfers. A self-transfer does not conserve value (see `StepSelfTransfer`).
