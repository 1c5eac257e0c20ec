/**
 * The records the prover consumes and produces: block transactions, the
 * circuit's copies of them and their witnesses, the proving instance, the
 * error kinds, and the outside code the prover calls into.
 */
module ProverTypes {
  import opened Wrappers
  import opened Field
  import opened AccountTree

  // ------------------------------------------------------------- errors

  /** `BabyProverErr`; an I/O error carries the text its own `Display` prints. */
  datatype ProverErr =
    | Unknown
    | InvalidAmountEncoding
    | InvalidFeeEncoding
    | InvalidSender
    | InvalidRecipient
    | IoError(cause: string)

  /** `Error::description` */
  function Description(e: ProverErr): string
  {
    match e
    case Unknown => "Unknown error"
    case InvalidAmountEncoding => "transfer amount is malformed or too large"
    case InvalidFeeEncoding => "transfer fee is malformed or too large"
    case InvalidSender => "sender account is unknown"
    case InvalidRecipient => "recipient account is unknown"
    case IoError(_) => "encountered an I/O error"
  }

  /** `fmt::Display`: an I/O error shows its cause after a prefix, every other error its description. */
  function Display(e: ProverErr): string
  {
    if e.IoError? then "I/O error: " + e.cause else Description(e)
  }

  /** Every error kind has its own description, I/O errors aside, which share one. */
  lemma DescriptionInjective(a: ProverErr, b: ProverErr)
    requires Description(a) == Description(b)
    ensures a == b || (a.IoError? && b.IoError?)
  {
  }

  /** Only an I/O error's text starts with an `I`. */
  lemma DisplayFirstChar(e: ProverErr)
    ensures |Display(e)| > 0
    ensures Display(e)[0] == 'I' <==> e.IoError?
  {
  }

  /** What is displayed determines the error, the cause of an I/O error included. */
  lemma DisplayInjective(a: ProverErr, b: ProverErr)
    requires Display(a) == Display(b)
    ensures a == b
  {
    if a.IoError? && b.IoError? {
      assert a.cause == Display(a)[11..] && b.cause == Display(b)[11..];
    } else {
      DisplayFirstChar(a);
      DisplayFirstChar(b);
      DescriptionInjective(a, b);
    }
  }

  // ------------------------------------------------------- transactions

  /** A transaction signature, kept opaque: the prover only copies it. */
  type Signature = seq<bv8>

  /**
   * A transfer of a block. `from` and `to` carry the account indices in
   * their low 32 bits; `amount` and `fee` hold fixed-point encodings.
   */
  datatype Tx = Tx(
    from: Fr, to: Fr, amount: Fr, fee: Fr, nonce: Fr, goodUntilBlock: Fr,
    signature: Signature)

  datatype Block = Block(blockNumber: nat, transactions: seq<Tx>)

  /** The circuit's copy of a transfer, every field optional. */
  datatype CircuitTransaction = CircuitTransaction(
    from: Option<Fr>, to: Option<Fr>, amount: Option<Fr>, fee: Option<Fr>,
    nonce: Option<Fr>, goodUntilBlock: Option<Fr>, signature: Option<Signature>)

  /** What the circuit needs about the two accounts a transfer touches. */
  datatype TransactionWitness = TransactionWitness(
    authPathFrom: seq<Option<PathElement>>,
    balanceFrom: Option<Fr>, nonceFrom: Option<Fr>, pubXFrom: Option<Fr>, pubYFrom: Option<Fr>,
    authPathTo: seq<Option<PathElement>>,
    balanceTo: Option<Fr>, nonceTo: Option<Fr>, pubXTo: Option<Fr>, pubYTo: Option<Fr>)

  /** One slot of the circuit's transaction list. */
  type WitnessEntry = Option<(CircuitTransaction, TransactionWitness)>

  /** `Update`: the circuit instance a proof is requested for. */
  datatype Update = Update(
    numberOfTransactions: nat,
    oldRoot: Option<Fr>, newRoot: Option<Fr>, publicDataCommitment: Option<Fr>,
    blockNumber: Option<Fr>, totalFee: Option<Fr>,
    transactions: seq<WitnessEntry>)

  // ----------------------------------------------------- outside code

  /** A SHA-256 digest. */
  type Digest = s: seq<bv8> | |s| == 32 witness seq(32, _ => 0 as bv8)

  /** Serialized proving parameters and proofs, opaque to the prover. */
  type Parameters = seq<bv8>
  type Proof = seq<bv8>

  /**
   * The code the prover calls but does not define:
   * `parse_float_to_u128(bits, exponent width, mantissa width, radix)`, the
   * bit widths of the amount and fee encodings, the depth of the balance
   * tree, the tree's hashing, a transaction's `public_data_into_bits`,
   * `be_bit_vector_into_bytes`, SHA-256, and the proving system's
   * `create_random_proof` (given its random draw) and `verify_proof`.
   */
  datatype Collaborators = Collaborators(
    parseFloat: (seq<bool>, nat, nat, nat) -> Option<U128>,
    amountExponentBits: nat,
    amountMantissaBits: nat,
    feeExponentBits: nat,
    feeMantissaBits: nat,
    treeDepth: nat,
    tree: TreeHasher,
    publicDataBits: Tx -> seq<bool>,
    packBits: seq<bool> -> seq<bv8>,
    sha256: seq<bv8> -> Digest,
    createProof: (Parameters, Update, nat) -> Option<Proof>,
    verifyProof: (Parameters, Proof, seq<Fr>) -> bool)
}
