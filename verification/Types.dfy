/** The data model shared by every layer of the node: machine integers, identifiers, tasks,
    on-ledger records, transactions and blocks. */
module Types {

  datatype Option<+T> = None | Some(value: T) {
    predicate IsFailure() { None? }

    function PropagateFailure<U>(): Option<U>
      requires None?
    {
      None
    }

    function Extract(): T
      requires Some?
    {
      value
    }
  }

  datatype Result<+T, +E> = Ok(value: T) | Err(error: E) {
    predicate IsFailure() { Err? }

    function PropagateFailure<U>(): Result<U, E>
      requires Err?
    {
      Err(error)
    }

    function Extract(): T
      requires Ok?
    {
      value
    }
  }

  // ---- machine integers and byte strings ----

  const TWO_32: int := 0x1_0000_0000
  const TWO_64: int := 0x1_0000_0000_0000_0000
  const TWO_127: int := 0x8000_0000_0000_0000_0000_0000_0000_0000
  const TWO_128: int := 0x1_0000_0000_0000_0000_0000_0000_0000_0000

  const TWO_256: int := 0x1_0000_0000_0000_0000_0000_0000_0000_0000_0000_0000_0000_0000_0000_0000_0000_0000

  type u8 = n: int | 0 <= n < 256
  type u32 = n: int | 0 <= n < TWO_32
  type u64 = n: int | 0 <= n < TWO_64
  type u128 = n: int | 0 <= n < TWO_128

  /** A 32-byte string, read as the number its bytes spell little endian. The bound `TWO_256` matters
      to the byte layout alone and is stated there; the ledger only compares identifiers. */
  type Hash = int

  type Signature = bs: seq<u8> | |bs| == 64 witness seq(64, _ => 0)

  /** A byte vector the canonical encoding can carry: its length is written as a `u32`. */
  type Blob = bs: seq<u8> | |bs| < TWO_32

  type Identity = Hash
  type ContentId = Hash
  type TaskId = Hash
  type TxId = Hash

  const UCU_SCALE: nat := 1_000_000_000

  // ---- rejections ----

  datatype Reject =
    | BadSignature
    | BadNonce
    | UnknownTask
    | InsufficientBalance
    | BadStatus
    | DeadlinePassed
    | WrongProvider
    | UcuExceedsLimit
    | BenchmarkMismatch
    | NotInClawbackWindow
    | BondTooSmall
    | Invalid

  // ---- tasks ----

  datatype IrId = Wasm

  datatype Limits = Limits(maxUcu: u128, maxMemoryBytes: u64)

  datatype VerificationTier = SampledReexec | Tee | Zk

  datatype FailurePolicy = AutoRequeue | ReturnOnFailure | RetryThenReturn(retries: u8)

  datatype TaskBody = TaskBody(
    ir: IrId,
    program: ContentId,
    input: ContentId,
    limits: Limits,
    tier: VerificationTier,
    benchmark: u32,
    deadline: u64,
    failurePolicy: FailurePolicy,
    nonce: u64)

  datatype TaskStatus = Submitted | Matched | Executing | Verified | Settled | Failed

  /** `ucuCount` and `claimStake` stay 0 until the proof and the claim write them. */
  datatype Submission = Submission(
    task: TaskId,
    requester: Identity,
    ucuCount: nat,
    fee: nat,
    status: TaskStatus,
    provider: Option<Identity>,
    claimStake: nat)

  datatype TierData = ReexecData | TeeData(attestation: Blob) | ZkData(proof: Blob)

  datatype SealGrade = S0Identity | S1Witnessed | S2Locked

  datatype Boundary = Chip | Node | Facility

  datatype PowerSeal = PowerSeal(
    sealGrade: SealGrade,
    boundary: Boundary,
    powerCapMilliwatts: u64,
    windowMillis: u64,
    tMaxMillikelvin: u64,
    attestationEvidence: ContentId,
    benchmark: u32)

  datatype ComputeProof = ComputeProof(
    task: TaskId,
    provider: Identity,
    output: ContentId,
    resultHash: Hash,
    ucuCount: u128,
    benchmark: u32,
    tierData: TierData,
    powerSeal: Option<PowerSeal>)

  datatype Receipt = Receipt(
    task: TaskId,
    paidToProvider: nat,
    workIssuance: nat,
    validatorFee: nat,
    standingDelta: int,
    settledEpoch: nat,
    clawbackUntil: nat)

  datatype QLedgerEntry = QLedgerEntry(
    task: TaskId,
    ucu: nat,
    q: Option<u64>,
    sealGrade: Option<SealGrade>,
    boundary: Option<Boundary>,
    benchmark: u32)

  // ---- accounts ----

  /** The three pots of an account. They are `int`, so that an unchecked machine subtraction which
      would underflow shows up in the model as a negative pot. */
  datatype Account = Account(id: Identity, balance: int, escrowed: int, bonded: int)

  datatype StandingRecord = StandingRecord(id: Identity, sp: int, lastDecayEpoch: nat, strikes: nat)

  // ---- transactions and blocks ----

  datatype Tx =
    | SubmitTask(body: TaskBody)
    | ClaimTask(task: TaskId)
    | SubmitProof(proof: ComputeProof)
    | Challenge(challenged: TaskId, bond: u128)
    | Transfer(to: Identity, amount: u128)

  datatype SignedTx = SignedTx(author: Identity, tx: Tx, nonce: u64, sig: Signature)

  /** Heights and epochs are counted without a bound here; `Codec` says when they fit their
      machine width. */
  datatype Block = Block(
    height: nat,
    parent: Hash,
    epoch: nat,
    txs: seq<TxId>,
    stateRoot: Hash,
    proposer: Identity)

  function Min(a: int, b: int): int {
    if a <= b then a else b
  }
}
