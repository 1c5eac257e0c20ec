/**
 * `BabyProver`: mirrors the authoritative account state in its own balance
 * tree, replays a fixed-size batch of transfers against it while collecting
 * the circuit's witnesses and the fee total, builds the public-data
 * commitment, and asks the proving system for a proof that it then checks
 * itself.
 */
module Prover {
  import opened Wrappers
  import opened Field
  import opened Bits
  import opened AccountIndex
  import opened AccountTree
  import opened ProverTypes
  import opened BatchReplay
  import opened Commitment

  /** The number of transfers the circuit takes per block. */
  const BatchSize: nat := 128

  /** The authoritative state the prover mirrors: the accounts by index and the root it claims. */
  datatype State = State(accounts: map<U32, Leaf>, rootHash: Fr)

  /** The state the replay of a block starts from: the tree's leaves, no fees, no witnesses. */
  function Start(items: map<U32, Leaf>): ReplayState
  {
    ReplayState(items, 0, [])
  }

  /** The public inputs a proof is checked against: old root, new root, commitment. */
  function PublicInputs(u: Update): seq<Fr>
    requires u.oldRoot.Some? && u.newRoot.Some? && u.publicDataCommitment.Some?
  {
    [u.oldRoot.value, u.newRoot.value, u.publicDataCommitment.value]
  }

  /**
   * The circuit instance for a block, built from the leaves before the block
   * and the replay of its transfers.
   */
  function Instance(env: Collaborators, depth: nat, items: map<U32, Leaf>, block: Block): Update
  {
    var run := Replay(env, depth, Start(items), block.transactions).state;
    var blockNumber := FromStr(block.blockNumber);
    Update(
      |block.transactions|,
      Some(env.tree.root(depth, items)),
      Some(env.tree.root(depth, run.items)),
      Some(CommitmentOf(env, blockNumber, run.totalFees, PublicData(env, block.transactions))),
      Some(blockNumber),
      Some(run.totalFees),
      run.witnesses)
  }

  /**
   * Proof creation and self-verification: a proof is returned only when the
   * proving system produced one and that proof verifies against the
   * instance's old root, new root and commitment; every failure is `Unknown`.
   */
  function ProofOutcome(env: Collaborators, params: Parameters, u: Update, rng: nat): (r: Result<Proof, ProverErr>)
    requires u.oldRoot.Some? && u.newRoot.Some? && u.publicDataCommitment.Some?
    ensures r.Ok? ==> env.createProof(params, u, rng) == Some(r.value)
    ensures r.Ok? ==> env.verifyProof(params, r.value, PublicInputs(u))
    ensures r.Err? ==> r.error == Unknown
    ensures r.Err? <==> env.createProof(params, u, rng).None?
                        || !env.verifyProof(params, env.createProof(params, u, rng).value, PublicInputs(u))
  {
    match env.createProof(params, u, rng)
    case None => Err(Unknown)
    case Some(proof) =>
      if env.verifyProof(params, proof, PublicInputs(u)) then Ok(proof) else Err(Unknown)
  }

  /**
   * The instance of a block whose transfers were all applied: one witness per
   * transfer, in order, each taken against the leaves the earlier transfers
   * left; the fee total is the sum of the decoded fees modulo P; the
   * commitment fits in 253 bits.
   */
  lemma InstanceLayout(env: Collaborators, depth: nat, items: map<U32, Leaf>, block: Block)
    requires Replay(env, depth, Start(items), block.transactions).failure.None?
    ensures var u := Instance(env, depth, items, block);
      && u.numberOfTransactions == |u.transactions| == |block.transactions|
      && u.totalFee == Some(Sum(DecodedFees(env, block.transactions)) % P)
      && u.publicDataCommitment.value < ClipBound
  {
    var txs := block.transactions;
    ReplayWitnessCount(env, depth, Start(items), txs);
    ReplayFeeTotal(env, depth, Start(items), txs);
  }

  /** Witness i of a completed block's instance is transfer i's, taken after the first i transfers. */
  lemma InstanceWitness(env: Collaborators, depth: nat, items: map<U32, Leaf>, block: Block, i: nat)
    requires Replay(env, depth, Start(items), block.transactions).failure.None?
    requires i < |block.transactions|
    ensures var u := Instance(env, depth, items, block);
      var before := Replay(env, depth, Start(items), block.transactions[..i]);
      && before.failure.None?
      && i < |u.transactions|
      && WitnessMatches(env, depth, before.state.items, block.transactions[i], u.transactions[i])
  {
    ReplayWitness(env, depth, Start(items), block.transactions, i);
  }

  class BabyProver {
    const batchSize: nat
    const accountsTree: BalanceTree
    const parameters: Parameters

    constructor (batchSize: nat, accountsTree: BalanceTree, parameters: Parameters)
      ensures this.batchSize == batchSize && this.accountsTree == accountsTree
      ensures this.parameters == parameters
    {
      this.batchSize := batchSize;
      this.accountsTree := accountsTree;
      this.parameters := parameters;
    }

    /**
     * `new`: the proving key as read from `pk.key` (or the I/O error that
     * reading it raised), every account copied into a fresh tree, and the
     * tree's root compared with the root the state claims.
     */
    static method New(env: Collaborators, initialState: State, provingKey: Result<Parameters, string>)
      returns (r: Result<BabyProver, ProverErr>)
      ensures provingKey.Err? ==> r == Err(IoError(provingKey.error))
      ensures provingKey.Ok? ==>
        (r.Ok? <==> env.tree.root(env.treeDepth, initialState.accounts) == initialState.rootHash)
      ensures r.Err? && provingKey.Ok? ==> r.error == Unknown
      ensures r.Ok? ==>
        && fresh(r.value) && fresh(r.value.accountsTree)
        && r.value.batchSize == BatchSize
        && r.value.parameters == provingKey.value
        && r.value.accountsTree.depth == env.treeDepth
        && r.value.accountsTree.items == initialState.accounts
    {
      if provingKey.Err? {
        return Err(IoError(provingKey.error));
      }
      var tree := new BalanceTree(env.treeDepth);
      var remaining := initialState.accounts.Keys;
      while remaining != {}
        invariant remaining <= initialState.accounts.Keys
        invariant forall k :: k in tree.items <==> k in initialState.accounts && k !in remaining
        invariant forall k :: k in tree.items ==> tree.items[k] == initialState.accounts[k]
        decreases |remaining|
      {
        var accNumber :| accNumber in remaining;
        tree.Insert(accNumber, initialState.accounts[accNumber]);
        remaining := remaining - {accNumber};
      }
      assert tree.items == initialState.accounts;
      var root := tree.RootHash(env.tree);
      if root != initialState.rootHash {
        return Err(Unknown);
      }
      var prover := new BabyProver(BatchSize, tree, provingKey.value);
      return Ok(prover);
    }

    /**
     * `encode_transactions`: the packed public data of the block's transfers,
     * in order, built up one transfer at a time; it never fails.
     */
    static method EncodeTransactions(env: Collaborators, block: Block) returns (r: Result<seq<bv8>, ProverErr>)
      ensures r == Ok(PublicData(env, block.transactions))
    {
      var encoding: seq<bv8> := [];
      var transactions := block.transactions;
      for i := 0 to |transactions|
        invariant encoding == PublicData(env, transactions[..i])
      {
        var txBits := env.publicDataBits(transactions[i]);
        var txEncoding := env.packBits(txBits);
        assert transactions[..i + 1][..i] == transactions[..i];
        encoding := encoding + txEncoding;
      }
      assert transactions[..|transactions|] == transactions;
      return Ok(encoding);
    }

    /**
     * One pass of the replay loop of `apply_and_prove` on the prover's own
     * tree: look both leaves up, decode amount and fee, take both paths,
     * write the updated leaves back and record the witness. It does exactly
     * what `Step` specifies, tree included; a rejected transfer writes
     * nothing.
     */
    method ApplyTransaction(env: Collaborators, tx: Tx, totalFees: Fr, witnesses: seq<WitnessEntry>)
      returns (r: Result<(Fr, seq<WitnessEntry>), ProverErr>)
      modifies accountsTree
      ensures match Step(env, accountsTree.depth, ReplayState(old(accountsTree.items), totalFees, witnesses), tx)
        case Err(e) => r == Err(e) && accountsTree.items == old(accountsTree.items)
        case Ok(next) => r == Ok((next.totalFees, next.witnesses)) && accountsTree.items == next.items
    {
      var senderLeafNumber := FieldElementToU32(tx.from);
      var recipientLeafNumber := FieldElementToU32(tx.to);
      if senderLeafNumber !in accountsTree.items || recipientLeafNumber !in accountsTree.items {
        return Err(InvalidSender);
      }
      var senderLeaf := accountsTree.items[senderLeafNumber];
      var recipientLeaf := accountsTree.items[recipientLeafNumber];

      var parsedTransferAmount := env.parseFloat(ReprBits(tx.amount), env.amountExponentBits, env.amountMantissaBits, 10);
      var parsedFee := env.parseFloat(ReprBits(tx.fee), env.feeExponentBits, env.feeMantissaBits, 10);
      if parsedTransferAmount.None? || parsedFee.None? {
        return Err(InvalidAmountEncoding);
      }
      var transferAmount := FromU128(parsedTransferAmount.value);
      var fee := FromU128(parsedFee.value);

      var pathFrom := WrapPath(accountsTree.MerklePath(env.tree, senderLeafNumber));
      var pathTo := WrapPath(accountsTree.MerklePath(env.tree, recipientLeafNumber));
      var transaction := CircuitCopy(tx);

      var updatedSenderLeaf := senderLeaf;
      updatedSenderLeaf := updatedSenderLeaf.(balance := Sub(updatedSenderLeaf.balance, transferAmount));
      updatedSenderLeaf := updatedSenderLeaf.(balance := Sub(updatedSenderLeaf.balance, fee));
      updatedSenderLeaf := updatedSenderLeaf.(nonce := Add(updatedSenderLeaf.nonce, 1));
      var updatedRecipientLeaf := recipientLeaf.(balance := Add(recipientLeaf.balance, transferAmount));
      var fees := Add(totalFees, fee);

      accountsTree.Insert(senderLeafNumber, updatedSenderLeaf);
      accountsTree.Insert(recipientLeafNumber, updatedRecipientLeaf);

      var transactionWitness := TransactionWitness(
        pathFrom,
        Some(senderLeaf.balance), Some(senderLeaf.nonce), Some(senderLeaf.pubX), Some(senderLeaf.pubY),
        pathTo,
        Some(recipientLeaf.balance), Some(recipientLeaf.nonce), Some(recipientLeaf.pubX), Some(recipientLeaf.pubY));
      return Ok((fees, witnesses + [Some((transaction, transactionWitness))]));
    }

    /**
     * `apply_and_prove`: a block of the wrong size is refused before the
     * tree is touched; otherwise the transfers are replayed on the tree (a
     * rejected transfer ends the call, the earlier ones staying applied),
     * and a completed replay yields whatever proof creation and
     * self-verification of the block's instance yield. `rng` is the random
     * draw proof creation consumes.
     */
    method ApplyAndProve(env: Collaborators, block: Block, rng: nat) returns (r: Result<Proof, ProverErr>)
      modifies accountsTree
      ensures |block.transactions| != batchSize ==>
        r == Err(Unknown) && accountsTree.items == old(accountsTree.items)
      ensures |block.transactions| == batchSize ==>
        var run := Replay(env, accountsTree.depth, Start(old(accountsTree.items)), block.transactions);
        && accountsTree.items == run.state.items
        && (run.failure.Some? ==> r == Err(run.failure.value))
        && (run.failure.None? ==>
              r == ProofOutcome(env, parameters, Instance(env, accountsTree.depth, old(accountsTree.items), block), rng))
    {
      var blockNumber := block.blockNumber;
      var publicData := EncodeTransactions(env, block);
      var transactions := block.transactions;
      var numTxes := |transactions|;
      if numTxes != batchSize {
        return Err(Unknown);
      }
      var depth := accountsTree.depth;
      ghost var initialItems := accountsTree.items;
      ghost var outcome := Replay(env, depth, Start(initialItems), transactions);
      var witnesses: seq<WitnessEntry> := [];
      var totalFees: Fr := 0;
      var initialRoot := accountsTree.RootHash(env.tree);

      for i := 0 to |transactions|
        invariant Replay(env, depth, ReplayState(accountsTree.items, totalFees, witnesses), transactions[i..]) == outcome
      {
        ghost var cur := ReplayState(accountsTree.items, totalFees, witnesses);
        var applied := ApplyTransaction(env, transactions[i], totalFees, witnesses);
        assert transactions[i..][0] == transactions[i];
        if applied.Err? {
          return Err(applied.error);
        }
        assert transactions[i..][1..] == transactions[i + 1..];
        ReplayUnfold(env, depth, cur, transactions[i..]);
        totalFees, witnesses := applied.value.0, applied.value.1;
      }
      assert transactions[|transactions|..] == [];

      var blockNumberFr := FromStr(blockNumber);
      var finalRoot := accountsTree.RootHash(env.tree);
      var publicDataCommitment := PublicDataCommitment(env, blockNumberFr, totalFees, publicData.value);
      var instance := Update(numTxes, Some(initialRoot), Some(finalRoot), Some(publicDataCommitment),
                             Some(blockNumberFr), Some(totalFees), witnesses);
      assert instance == Instance(env, depth, initialItems, block);
      var proof := env.createProof(parameters, instance, rng);
      if proof.None? {
        return Err(Unknown);
      }
      var success := env.verifyProof(parameters, proof.value, [initialRoot, finalRoot, publicDataCommitment]);
      if !success {
        return Err(Unknown);
      }
      return Ok(proof.value);
    }
  }
}
