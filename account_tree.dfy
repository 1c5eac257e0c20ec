/**
 * The balance tree the prover mirrors: account leaves indexed by a 32-bit
 * account number. Its hashing (root and authentication paths) belongs to the
 * tree library and is supplied as a `TreeHasher`; the map of leaves and the
 * insert that overwrites one of them are what the prover drives.
 */
module AccountTree {
  import opened Field

  /** One account: spendable balance, replay-protection counter and public-key coordinates. */
  datatype Leaf = Leaf(balance: Fr, nonce: Fr, pubX: Fr, pubY: Fr)

  /** One level of an authentication path: the sibling's hash and whether the node is a right child. */
  type PathElement = (Fr, bool)

  /**
   * The tree library's hashing: the root of a depth-d tree holding the given
   * leaves, and the authentication path of an index in it. Both depend on the
   * leaves only, never on how the tree was built.
   */
  datatype TreeHasher = TreeHasher(
    root: (nat, map<U32, Leaf>) -> Fr,
    path: (nat, map<U32, Leaf>, U32) -> seq<PathElement>)

  /** `BabyBalanceTree`: a fixed-depth indexed tree whose `items` the prover reads and overwrites. */
  class BalanceTree {
    const depth: nat
    var items: map<U32, Leaf>

    /** `BabyBalanceTree::new(depth)`: an empty tree. */
    constructor (depth: nat)
      ensures this.depth == depth && items == map[]
    {
      this.depth := depth;
      items := map[];
    }

    /** `insert`: the leaf at `index` becomes `leaf`; every other leaf stays. */
    method Insert(index: U32, leaf: Leaf)
      modifies this
      ensures items == old(items)[index := leaf]
    {
      items := items[index := leaf];
    }

    /** `root_hash` */
    function RootHash(h: TreeHasher): Fr
      reads this
    {
      h.root(depth, items)
    }

    /** `merkle_path` */
    function MerklePath(h: TreeHasher, index: U32): seq<PathElement>
      reads this
    {
      h.path(depth, items, index)
    }
  }

  // ------------------------------------------------ the sum of all balances

  /** The sum, over the given keys, of the leaves' balances (as integers, not reduced). */
  ghost function SumBalances(m: map<U32, Leaf>, keys: set<U32>): int
    requires keys <= m.Keys
    decreases keys
  {
    if keys == {} then 0
    else
      var k :| k in keys;
      m[k].balance + SumBalances(m, keys - {k})
  }

  /** The sum of every account's balance. */
  ghost function TotalBalance(m: map<U32, Leaf>): int
  {
    SumBalances(m, m.Keys)
  }

  /** Any key can be taken out of the sum first. */
  lemma {:induction false} SumBalancesRemove(m: map<U32, Leaf>, keys: set<U32>, j: U32)
    requires keys <= m.Keys && j in keys
    ensures SumBalances(m, keys) == m[j].balance + SumBalances(m, keys - {j})
    decreases keys
  {
    var k :| k in keys && SumBalances(m, keys) == m[k].balance + SumBalances(m, keys - {k});
    if k != j {
      SumBalancesRemove(m, keys - {k}, j);
      SumBalancesRemove(m, keys - {j}, k);
      assert keys - {k} - {j} == keys - {j} - {k};
    }
  }

  /** Maps that agree on the balances of the given keys have the same sum over them. */
  lemma {:induction false} SumBalancesAgree(m1: map<U32, Leaf>, m2: map<U32, Leaf>, keys: set<U32>)
    requires keys <= m1.Keys && keys <= m2.Keys
    requires forall k :: k in keys ==> m1[k].balance == m2[k].balance
    ensures SumBalances(m1, keys) == SumBalances(m2, keys)
    decreases keys
  {
    if keys != {} {
      var k :| k in keys;
      SumBalancesRemove(m1, keys, k);
      SumBalancesRemove(m2, keys, k);
      SumBalancesAgree(m1, m2, keys - {k});
    }
  }

  /** Overwriting one present leaf changes the total by exactly the change in its balance. */
  lemma TotalBalanceUpdate(m: map<U32, Leaf>, k: U32, v: Leaf)
    requires k in m
    ensures TotalBalance(m[k := v]) == TotalBalance(m) - m[k].balance + v.balance
  {
    var m' := m[k := v];
    assert m'.Keys == m.Keys;
    SumBalancesRemove(m, m.Keys, k);
    SumBalancesRemove(m', m.Keys, k);
    SumBalancesAgree(m, m', m.Keys - {k});
  }
}
