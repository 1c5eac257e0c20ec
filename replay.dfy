/**
 * The batch replay inside `apply_and_prove`, as a specification: what one
 * transfer does to the mirrored leaves, the fee total and the witness list
 * (`Step`), what a whole batch does (`Replay`), and the properties the
 * replay guarantees.
 */
module BatchReplay {
  import opened Wrappers
  import opened Field
  import opened Bits
  import opened AccountIndex
  import opened AccountTree
  import opened ProverTypes

  /** What the replay loop carries from one transfer to the next. */
  datatype ReplayState = ReplayState(
    items: map<U32, Leaf>, totalFees: Fr, witnesses: seq<WitnessEntry>)

  /** Where a batch replay stops: the state reached and, if a transfer was rejected, why. */
  datatype Replayed = Replayed(state: ReplayState, failure: Option<ProverErr>)

  /** `parse_float_to_u128` on the bits of a transfer's amount, with the amount's widths and radix 10. */
  function ParseAmount(env: Collaborators, tx: Tx): Option<U128>
  {
    env.parseFloat(ReprBits(tx.amount), env.amountExponentBits, env.amountMantissaBits, 10)
  }

  /** `parse_float_to_u128` on the bits of a transfer's fee, with the fee's widths and radix 10. */
  function ParseFee(env: Collaborators, tx: Tx): Option<U128>
  {
    env.parseFloat(ReprBits(tx.fee), env.feeExponentBits, env.feeMantissaBits, 10)
  }

  /** The decoded amount as a field element. */
  function Amount(env: Collaborators, tx: Tx): Fr
    requires ParseAmount(env, tx).Some?
  {
    FromU128(ParseAmount(env, tx).value)
  }

  /** The decoded fee as a field element. */
  function Fee(env: Collaborators, tx: Tx): Fr
    requires ParseFee(env, tx).Some?
  {
    FromU128(ParseFee(env, tx).value)
  }

  /** `.into_iter().map(|e| Some(e)).collect()` on an authentication path. */
  function WrapPath(path: seq<PathElement>): (r: seq<Option<PathElement>>)
  {
    seq(|path|, i requires 0 <= i < |path| => Some(path[i]))
  }

  /** The circuit's copy of a transfer: every field present and unchanged. */
  function CircuitCopy(tx: Tx): CircuitTransaction
  {
    CircuitTransaction(
      Some(tx.from), Some(tx.to), Some(tx.amount), Some(tx.fee),
      Some(tx.nonce), Some(tx.goodUntilBlock), Some(tx.signature))
  }

  /**
   * The witness of a transfer between two present accounts, read from the
   * leaves before either is written: both authentication paths and both
   * leaves' fields.
   */
  function WitnessOf(env: Collaborators, depth: nat, items: map<U32, Leaf>, sender: U32, recipient: U32): TransactionWitness
    requires sender in items && recipient in items
  {
    var s, r := items[sender], items[recipient];
    TransactionWitness(
      WrapPath(env.tree.path(depth, items, sender)),
      Some(s.balance), Some(s.nonce), Some(s.pubX), Some(s.pubY),
      WrapPath(env.tree.path(depth, items, recipient)),
      Some(r.balance), Some(r.nonce), Some(r.pubX), Some(r.pubY))
  }

  /** The sender's leaf after paying amount and fee: no sufficiency check, the field wraps. */
  function Debited(leaf: Leaf, amount: Fr, fee: Fr): Leaf
  {
    leaf.(balance := Sub(Sub(leaf.balance, amount), fee), nonce := Add(leaf.nonce, 1))
  }

  /** The recipient's leaf after receiving the amount. */
  function Credited(leaf: Leaf, amount: Fr): Leaf
  {
    leaf.(balance := Add(leaf.balance, amount))
  }

  /**
   * One iteration of the replay loop. Both leaves are looked up first (either
   * missing: `InvalidSender`), then both encodings are decoded (either
   * malformed: `InvalidAmountEncoding`); only then are the sender's and,
   * second, the recipient's updated leaves written, both computed from the
   * leaves as they were before the transfer.
   */
  function Step(env: Collaborators, depth: nat, st: ReplayState, tx: Tx): Result<ReplayState, ProverErr>
  {
    var sender, recipient := LowU32(tx.from), LowU32(tx.to);
    if sender !in st.items || recipient !in st.items then Err(InvalidSender)
    else if ParseAmount(env, tx).None? || ParseFee(env, tx).None? then Err(InvalidAmountEncoding)
    else
      var amount, fee := Amount(env, tx), Fee(env, tx);
      var items := st.items[sender := Debited(st.items[sender], amount, fee)]
                           [recipient := Credited(st.items[recipient], amount)];
      var entry := Some((CircuitCopy(tx), WitnessOf(env, depth, st.items, sender, recipient)));
      Ok(ReplayState(items, Add(st.totalFees, fee), st.witnesses + [entry]))
  }

  /** The replay loop over a batch: transfers in order, stopping at the first rejected one. */
  function Replay(env: Collaborators, depth: nat, st: ReplayState, txs: seq<Tx>): Replayed
    decreases |txs|
  {
    if txs == [] then Replayed(st, None)
    else
      match Step(env, depth, st, txs[0])
      case Err(e) => Replayed(st, Some(e))
      case Ok(next) => Replay(env, depth, next, txs[1..])
  }

  // ------------------------------------------------------------ one step

  /**
   * Error precedence: a missing sender or recipient is reported as
   * `InvalidSender` whatever the encodings; a malformed amount or fee as
   * `InvalidAmountEncoding`; `InvalidRecipient` and `InvalidFeeEncoding` never.
   */
  lemma StepErrors(env: Collaborators, depth: nat, st: ReplayState, tx: Tx)
    ensures Step(env, depth, st, tx) == Err(InvalidSender)
        <==> LowU32(tx.from) !in st.items || LowU32(tx.to) !in st.items
    ensures Step(env, depth, st, tx) == Err(InvalidAmountEncoding)
        <==> LowU32(tx.from) in st.items && LowU32(tx.to) in st.items
             && (ParseAmount(env, tx).None? || ParseFee(env, tx).None?)
    ensures Step(env, depth, st, tx).Err? ==>
        Step(env, depth, st, tx).error in {InvalidSender, InvalidAmountEncoding}
  {
  }

  /**
   * A transfer between two different accounts: the sender pays amount and
   * fee and its nonce goes up by one, the recipient gains the amount, public
   * keys and every other leaf stay, the fee joins the total and exactly one
   * witness is appended, taken before the writes.
   */
  lemma StepTransfer(env: Collaborators, depth: nat, st: ReplayState, tx: Tx)
    requires Step(env, depth, st, tx).Ok?
    requires LowU32(tx.from) != LowU32(tx.to)
    ensures var s, r, next := LowU32(tx.from), LowU32(tx.to), Step(env, depth, st, tx).value;
      && s in st.items && r in st.items
      && next.items.Keys == st.items.Keys
      && next.items[s].balance == Sub(Sub(st.items[s].balance, Amount(env, tx)), Fee(env, tx))
      && next.items[s].nonce == Add(st.items[s].nonce, 1)
      && next.items[s].pubX == st.items[s].pubX && next.items[s].pubY == st.items[s].pubY
      && next.items[r].balance == Add(st.items[r].balance, Amount(env, tx))
      && next.items[r].nonce == st.items[r].nonce
      && next.items[r].pubX == st.items[r].pubX && next.items[r].pubY == st.items[r].pubY
      && (forall k :: k in st.items && k != s && k != r ==> next.items[k] == st.items[k])
      && next.totalFees == Add(st.totalFees, Fee(env, tx))
      && next.witnesses == st.witnesses + [Some((CircuitCopy(tx), WitnessOf(env, depth, st.items, s, r)))]
  {
  }

  /**
   * A transfer from an account to itself: the recipient write replaces the
   * sender write, so the account only gains the amount and keeps its nonce,
   * while the fee still joins the total.
   */
  lemma StepSelfTransfer(env: Collaborators, depth: nat, st: ReplayState, tx: Tx)
    requires Step(env, depth, st, tx).Ok?
    requires LowU32(tx.from) == LowU32(tx.to)
    ensures var s, next := LowU32(tx.from), Step(env, depth, st, tx).value;
      && s in st.items
      && next.items == st.items[s := st.items[s].(balance := Add(st.items[s].balance, Amount(env, tx)))]
      && next.totalFees == Add(st.totalFees, Fee(env, tx))
  {
  }

  /** Between two different accounts, a transfer moves value and never creates it: balances plus fees stay the same modulo P. */
  lemma StepConservesValue(env: Collaborators, depth: nat, st: ReplayState, tx: Tx)
    requires Step(env, depth, st, tx).Ok?
    requires LowU32(tx.from) != LowU32(tx.to)
    ensures var next := Step(env, depth, st, tx).value;
      Congruent(TotalBalance(next.items) + next.totalFees, TotalBalance(st.items) + st.totalFees)
  {
    var s, r, next := LowU32(tx.from), LowU32(tx.to), Step(env, depth, st, tx).value;
    var a, f := Amount(env, tx), Fee(env, tx);
    var ls, lr := st.items[s], st.items[r];
    var m1 := st.items[s := Debited(ls, a, f)];
    TotalBalanceUpdate(st.items, s, Debited(ls, a, f));
    assert m1[r] == lr;
    TotalBalanceUpdate(m1, r, Credited(lr, a));
    assert next.items == m1[r := Credited(lr, a)];
    var paid := Sub(Sub(ls.balance, a), f);
    CongruentSum(Sub(ls.balance, a), ls.balance - a, -(f as int), -(f as int));
    CongruentTrans(paid, Sub(ls.balance, a) - f, ls.balance - a - f);
    CongruentSum(paid, ls.balance - a - f, Add(lr.balance, a), lr.balance + a);
    CongruentSum(paid + Add(lr.balance, a), ls.balance + lr.balance - f, next.totalFees, st.totalFees + f);
    var rest := TotalBalance(st.items) - ls.balance - lr.balance;
    CongruentSum(rest, rest, paid + Add(lr.balance, a) + next.totalFees, ls.balance + lr.balance + st.totalFees);
  }

  // ------------------------------------------------------------ a batch

  /** Replaying a + b is replaying a, then, unless a was rejected, b from where a left off. */
  lemma {:induction false} ReplayAppend(env: Collaborators, depth: nat, st: ReplayState, a: seq<Tx>, b: seq<Tx>)
    ensures Replay(env, depth, st, a + b) ==
      var mid := Replay(env, depth, st, a);
      if mid.failure.Some? then mid else Replay(env, depth, mid.state, b)
    decreases |a|
  {
    if a == [] {
      assert a + b == b;
    } else {
      assert (a + b)[0] == a[0];
      assert (a + b)[1..] == a[1..] + b;
      match Step(env, depth, st, a[0])
      case Err(_) =>
      case Ok(next) => ReplayAppend(env, depth, next, a[1..], b);
    }
  }

  /** An accepted transfer adds its decoded fee to the total. */
  lemma StepFee(env: Collaborators, depth: nat, st: ReplayState, tx: Tx)
    requires Step(env, depth, st, tx).Ok?
    ensures ParseFee(env, tx).Some?
    ensures Step(env, depth, st, tx).value.totalFees == Add(st.totalFees, ParseFee(env, tx).value % P)
  {
  }

  /** A batch whose first transfer is accepted continues from the state that transfer leaves. */
  lemma ReplayUnfold(env: Collaborators, depth: nat, st: ReplayState, txs: seq<Tx>)
    requires txs != [] && Step(env, depth, st, txs[0]).Ok?
    ensures Replay(env, depth, st, txs) == Replay(env, depth, Step(env, depth, st, txs[0]).value, txs[1..])
  {
  }

  /** The decoded fees of a batch, in order, as plain numbers (0 where a fee does not decode). */
  function DecodedFees(env: Collaborators, txs: seq<Tx>): (fees: seq<nat>)
    ensures |fees| == |txs|
  {
    if txs == [] then []
    else [match ParseFee(env, txs[0]) case Some(v) => v case None => 0] + DecodedFees(env, txs[1..])
  }

  function Sum(xs: seq<nat>): nat
  {
    if xs == [] then 0 else xs[0] + Sum(xs[1..])
  }

  /** `total_fees.add_assign(fee)` over a list of fees, starting from `total`. */
  function AddAll(total: Fr, fees: seq<nat>): Fr
    decreases |fees|
  {
    if fees == [] then total else AddAll(Add(total, fees[0] % P), fees[1..])
  }

  /** Adding fees one at a time in the field is adding them all as integers, then reducing. */
  lemma {:induction false} AddAllSum(total: Fr, fees: seq<nat>)
    ensures AddAll(total, fees) == (total + Sum(fees)) % P
    decreases |fees|
  {
    if fees == [] {
      ModCanonical(total);
    } else {
      var next := Add(total, fees[0] % P);
      AddCongruent(total, fees[0] % P);
      AddAllSum(next, fees[1..]);
      ModSumStep(total, fees[0], Sum(fees[1..]), Sum(fees), next, AddAll(total, fees));
    }
  }

  /** Reducing part way through a sum does not change the result modulo P. */
  lemma ModSumStep(t: int, v: int, rest: int, sum: int, mid: int, out: int)
    requires sum == v + rest
    requires mid == (t + v % P) % P && out == (mid + rest) % P
    ensures out == (t + sum) % P
  {
  }

  /** A completed replay folds the batch's decoded fees, in order, into the fee total. */
  lemma {:induction false} ReplayFeeFold(env: Collaborators, depth: nat, st: ReplayState, txs: seq<Tx>)
    requires Replay(env, depth, st, txs).failure.None?
    ensures Replay(env, depth, st, txs).state.totalFees == AddAll(st.totalFees, DecodedFees(env, txs))
    decreases |txs|
  {
    if txs != [] {
      var next := Step(env, depth, st, txs[0]).value;
      ReplayUnfold(env, depth, st, txs);
      ReplayFeeFold(env, depth, next, txs[1..]);
      StepFee(env, depth, st, txs[0]);
    }
  }

  /** A completed replay adds the sum of the batch's decoded fees, reduced modulo P, to the fee total. */
  lemma ReplayFeeTotal(env: Collaborators, depth: nat, st: ReplayState, txs: seq<Tx>)
    requires Replay(env, depth, st, txs).failure.None?
    ensures Replay(env, depth, st, txs).state.totalFees == (st.totalFees + Sum(DecodedFees(env, txs))) % P
  {
    var fees := DecodedFees(env, txs);
    assert Replay(env, depth, st, txs).state.totalFees == AddAll(st.totalFees, fees) by {
      ReplayFeeFold(env, depth, st, txs);
    }
    AddAllSum(st.totalFees, fees);
  }

  /** No transfer of the batch names the same account as sender and recipient. */
  predicate DistinctEndpoints(txs: seq<Tx>)
  {
    txs == [] || (LowU32(txs[0].from) != LowU32(txs[0].to) && DistinctEndpoints(txs[1..]))
  }

  /** The value a replay state holds: every balance plus the fee total collected so far. */
  ghost function Worth(st: ReplayState): int
  {
    TotalBalance(st.items) + st.totalFees
  }

  /** When no transfer is a self-transfer, a completed replay keeps balances plus fee total the same modulo P. */
  lemma {:induction false} ReplayConservesValue(env: Collaborators, depth: nat, st: ReplayState, txs: seq<Tx>)
    requires DistinctEndpoints(txs)
    requires Replay(env, depth, st, txs).failure.None?
    ensures Congruent(Worth(Replay(env, depth, st, txs).state), Worth(st))
    decreases |txs|
  {
    if txs != [] {
      var next := Step(env, depth, st, txs[0]).value;
      var out := Replay(env, depth, st, txs).state;
      assert Congruent(Worth(out), Worth(next)) by {
        ReplayUnfold(env, depth, st, txs);
        ReplayConservesValue(env, depth, next, txs[1..]);
      }
      assert Congruent(Worth(next), Worth(st)) by {
        StepConservesValue(env, depth, st, txs[0]);
      }
      CongruentTrans(Worth(out), Worth(next), Worth(st));
    }
  }

  /** Entry `entry` is the witness of `tx` taken against the leaves `items`. */
  predicate WitnessMatches(env: Collaborators, depth: nat, items: map<U32, Leaf>, tx: Tx, entry: WitnessEntry)
  {
    && LowU32(tx.from) in items && LowU32(tx.to) in items
    && entry == Some((CircuitCopy(tx), WitnessOf(env, depth, items, LowU32(tx.from), LowU32(tx.to))))
  }

  /** An accepted transfer appends exactly one witness, taken against the leaves before it. */
  lemma StepWitness(env: Collaborators, depth: nat, st: ReplayState, tx: Tx)
    requires Step(env, depth, st, tx).Ok?
    ensures var next := Step(env, depth, st, tx).value;
      && |next.witnesses| == |st.witnesses| + 1
      && next.witnesses[..|st.witnesses|] == st.witnesses
      && WitnessMatches(env, depth, st.items, tx, next.witnesses[|st.witnesses|])
  {
    var next := Step(env, depth, st, tx).value;
    assert next.witnesses[..|st.witnesses|] == st.witnesses;
  }

  /** A completed replay appends one witness per transfer and keeps the earlier ones. */
  lemma {:induction false} ReplayWitnessCount(env: Collaborators, depth: nat, st: ReplayState, txs: seq<Tx>)
    requires Replay(env, depth, st, txs).failure.None?
    ensures var out := Replay(env, depth, st, txs).state;
      && |out.witnesses| == |st.witnesses| + |txs|
      && out.witnesses[..|st.witnesses|] == st.witnesses
    decreases |txs|
  {
    if txs != [] {
      var next := Step(env, depth, st, txs[0]).value;
      var out := Replay(env, depth, st, txs).state;
      var n := |st.witnesses|;
      assert |out.witnesses| == |next.witnesses| + |txs| - 1
          && out.witnesses[..n + 1] == next.witnesses by {
        ReplayUnfold(env, depth, st, txs);
        ReplayWitnessCount(env, depth, next, txs[1..]);
      }
      assert |next.witnesses| == n + 1 && next.witnesses[..n] == st.witnesses by {
        StepWitness(env, depth, st, txs[0]);
      }
      assert out.witnesses[..n] == out.witnesses[..n + 1][..n];
    }
  }

  /** A completed replay completes every prefix, and goes on from where that prefix leaves off. */
  lemma ReplaySplit(env: Collaborators, depth: nat, st: ReplayState, txs: seq<Tx>, i: nat)
    requires Replay(env, depth, st, txs).failure.None?
    requires i <= |txs|
    ensures var mid := Replay(env, depth, st, txs[..i]);
      mid.failure.None? && Replay(env, depth, mid.state, txs[i..]) == Replay(env, depth, st, txs)
  {
    assert txs == txs[..i] + txs[i..];
    ReplayAppend(env, depth, st, txs[..i], txs[i..]);
  }

  /** In a completed replay, the first new witness is that of the first transfer, taken against the starting leaves. */
  lemma ReplayFirstWitness(env: Collaborators, depth: nat, st: ReplayState, txs: seq<Tx>)
    requires Replay(env, depth, st, txs).failure.None?
    requires txs != []
    ensures var out := Replay(env, depth, st, txs).state;
      && |st.witnesses| < |out.witnesses|
      && WitnessMatches(env, depth, st.items, txs[0], out.witnesses[|st.witnesses|])
  {
    var out := Replay(env, depth, st, txs).state;
    var next := Step(env, depth, st, txs[0]).value;
    var k := |st.witnesses|;
    assert out == Replay(env, depth, next, txs[1..]).state by {
      ReplayUnfold(env, depth, st, txs);
    }
    StepWitness(env, depth, st, txs[0]);
    ReplayWitnessCount(env, depth, next, txs[1..]);
    assert out.witnesses[k] == out.witnesses[..k + 1][k];
  }

  /**
   * In a completed replay, the witness of transfer i sits at position i of
   * the appended witnesses and is taken against the leaves as the first i
   * transfers left them.
   */
  lemma ReplayWitness(env: Collaborators, depth: nat, st: ReplayState, txs: seq<Tx>, i: nat)
    requires Replay(env, depth, st, txs).failure.None?
    requires i < |txs|
    ensures var mid := Replay(env, depth, st, txs[..i]);
      && mid.failure.None?
      && |st.witnesses| + i < |Replay(env, depth, st, txs).state.witnesses|
      && WitnessMatches(env, depth, mid.state.items, txs[i],
                        Replay(env, depth, st, txs).state.witnesses[|st.witnesses| + i])
  {
    var mid := Replay(env, depth, st, txs[..i]);
    var out := Replay(env, depth, st, txs);
    assert mid.failure.None? && Replay(env, depth, mid.state, txs[i..]) == out by {
      ReplaySplit(env, depth, st, txs, i);
    }
    assert |mid.state.witnesses| == |st.witnesses| + i by {
      ReplayWitnessCount(env, depth, st, txs[..i]);
    }
    ReplayFirstWitness(env, depth, mid.state, txs[i..]);
    assert txs[i..][0] == txs[i];
  }

  /**
   * A rejected batch stops at some transfer k: the transfers before it are
   * applied and kept, transfer k itself writes nothing, and the reason is
   * one of the two the replay reports.
   */
  lemma {:induction false} ReplayFailure(env: Collaborators, depth: nat, st: ReplayState, txs: seq<Tx>)
    requires Replay(env, depth, st, txs).failure.Some?
    ensures var out := Replay(env, depth, st, txs);
      && out.failure.value in {InvalidSender, InvalidAmountEncoding}
      && exists k :: 0 <= k < |txs|
           && Replay(env, depth, st, txs[..k]) == Replayed(out.state, None)
           && Step(env, depth, out.state, txs[k]) == Err(out.failure.value)
    decreases |txs|
  {
    var out := Replay(env, depth, st, txs);
    StepErrors(env, depth, st, txs[0]);
    match Step(env, depth, st, txs[0])
    case Err(e) =>
      assert txs[..0] == [];
      assert Replay(env, depth, st, txs[..0]) == Replayed(out.state, None);
    case Ok(next) =>
      ReplayFailure(env, depth, next, txs[1..]);
      var k :| 0 <= k < |txs[1..]|
           && Replay(env, depth, next, txs[1..][..k]) == Replayed(out.state, None)
           && Step(env, depth, out.state, txs[1..][k]) == Err(out.failure.value);
      assert txs[..k + 1][0] == txs[0];
      assert txs[..k + 1][1..] == txs[1..][..k];
      assert txs[1..][k] == txs[k + 1];
      assert Replay(env, depth, st, txs[..k + 1]) == Replayed(out.state, None);
  }
}
