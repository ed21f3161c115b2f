/** The ledger as a pure transition system: what every transaction, epoch boundary and challenge
    verdict does to the whole state. `Ledger` holds the step-by-step code that computes these
    functions; the theorems about them are in the modules named after each invariant. */
module LedgerSpec {
  import opened Types
  import opened Governance
  import opened Sums

  datatype Supply = Supply(minted: int, burned: int)

  datatype ChallengeRecord = ChallengeRecord(challenger: Identity, bond: nat)

  datatype State = State(
    accounts: map<Identity, Account>,
    standing: map<Identity, StandingRecord>,
    bodies: map<TaskId, TaskBody>,
    tasks: map<TaskId, Submission>,
    proofs: map<TaskId, ComputeProof>,
    receipts: map<TaskId, Receipt>,
    qLedger: map<TaskId, QLedgerEntry>,
    pending: map<TaskId, ChallengeRecord>,
    slashed: set<TaskId>,
    released: set<TaskId>,
    nonces: map<Identity, nat>,
    supply: Supply,
    feePool: int,
    epoch: nat)

  /** What the ledger asks of cryptography, uninterpreted: the id of a task body, whether a
      transaction's signature verifies, the id of a transaction, the hash of a block and the
      commitment to a whole state. `Hashing` builds it from BLAKE3 and Ed25519. */
  datatype Crypto = Crypto(
    taskId: TaskBody -> TaskId,
    verifies: SignedTx -> bool,
    txId: SignedTx -> TxId,
    blockHash: Block -> Hash,
    root: State -> Hash)

  // ---- reading and adjusting ----

  function AccountOf(accounts: map<Identity, Account>, id: Identity): Account {
    if id in accounts then accounts[id] else Account(id, 0, 0, 0)
  }

  function StandingOf(s: State, id: Identity): int {
    if id in s.standing then s.standing[id].sp else 0
  }

  function NonceOf(nonces: map<Identity, nat>, id: Identity): nat {
    if id in nonces then nonces[id] else 0
  }

  /** Move amounts into (or, negative, out of) the three pots of one account, opening it first. */
  function Adjust(accounts: map<Identity, Account>, id: Identity, dBalance: int, dEscrowed: int, dBonded: int)
    : map<Identity, Account>
  {
    var a := AccountOf(accounts, id);
    accounts[id := Account(a.id, a.balance + dBalance, a.escrowed + dEscrowed, a.bonded + dBonded)]
  }

  function StandingRecordOf(standing: map<Identity, StandingRecord>, id: Identity, epoch: nat): StandingRecord {
    if id in standing then standing[id] else StandingRecord(id, 0, epoch, 0)
  }

  // ---- genesis ----

  /** What an allocation list gives to one identity; duplicates add up. */
  function AllocatedTo(allocations: seq<(Identity, nat)>, id: Identity): nat {
    if allocations == [] then 0
    else
      var n := |allocations| - 1;
      AllocatedTo(allocations[..n], id) + if allocations[n].0 == id then allocations[n].1 else 0
  }

  function AllocatedTotal(allocations: seq<(Identity, nat)>): nat {
    if allocations == [] then 0
    else
      var n := |allocations| - 1;
      AllocatedTotal(allocations[..n]) + allocations[n].1
  }

  function GenesisAccounts(allocations: seq<(Identity, nat)>): map<Identity, Account> {
    if allocations == [] then map[]
    else
      var n := |allocations| - 1;
      Adjust(GenesisAccounts(allocations[..n]), allocations[n].0, allocations[n].1, 0, 0)
  }

  function Genesis(allocations: seq<(Identity, nat)>, epoch: nat): State {
    State(GenesisAccounts(allocations), map[], map[], map[], map[], map[], map[], map[], {}, {}, map[],
          Supply(AllocatedTotal(allocations), 0), 0, epoch)
  }

  // ---- transactions ----

  function Submit(c: Crypto, p: Params, s: State, requester: Identity, body: TaskBody): Result<State, Reject> {
    var task := c.taskId(body);
    var fee := Fee(p, body.limits.maxUcu);
    var need := body.limits.maxUcu + fee;
    if body.tier != SampledReexec || task in s.tasks || need >= TWO_128 then Err(Invalid)
    else if AccountOf(s.accounts, requester).balance < need then Err(InsufficientBalance)
    else Ok(s.(
      accounts := Adjust(s.accounts, requester, -need, need, 0),
      bodies := s.bodies[task := body],
      tasks := s.tasks[task := Submission(task, requester, 0, fee, Submitted, None, 0)]))
  }

  function Claim(p: Params, s: State, provider: Identity, task: TaskId): Result<State, Reject> {
    if task !in s.bodies || task !in s.tasks then Err(UnknownTask)
    else if s.tasks[task].status != Submitted then Err(BadStatus)
    else if s.epoch > s.bodies[task].deadline then Err(DeadlinePassed)
    else
      var stake: int := ClaimStake(p, s.bodies[task].limits.maxUcu, StandingOf(s, provider));
      if AccountOf(s.accounts, provider).balance < stake then Err(InsufficientBalance)
      else Ok(s.(
        accounts := Adjust(s.accounts, provider, -stake, 0, stake),
        tasks := s.tasks[task := s.tasks[task].(provider := Some(provider), status := Executing, claimStake := stake)]))
  }

  function ReceiptFor(p: Params, epoch: nat, proof: ComputeProof, fee: nat): Receipt {
    var u := proof.ucuCount;
    Receipt(proof.task, u, Issuance(p, u), fee, Accrual(p, u), epoch, epoch + p.clawbackEpochs)
  }

  /** The effects of a settlement: the requester's escrow splits into payment, refund and fee; the
      provider also receives the work issuance and Standing. */
  function Settle(p: Params, s: State, body: TaskBody, sub: Submission, proof: ComputeProof): State {
    var u, max: int := proof.ucuCount, body.limits.maxUcu;
    var r := ReceiptFor(p, s.epoch, proof, sub.fee);
    var st := StandingRecordOf(s.standing, proof.provider, s.epoch);
    s.(
      accounts := Adjust(Adjust(s.accounts, sub.requester, max - u, -(max + sub.fee), 0),
                         proof.provider, u + r.workIssuance, 0, 0),
      standing := s.standing[proof.provider := st.(sp := st.sp + r.standingDelta)],
      tasks := s.tasks[proof.task := sub.(status := Settled, ucuCount := u)],
      receipts := s.receipts[proof.task := r],
      qLedger := s.qLedger[proof.task := QLedgerEntry(proof.task, u, None, None, None, body.benchmark)],
      supply := s.supply.(minted := s.supply.minted + r.workIssuance),
      feePool := s.feePool + sub.fee)
  }

  function Prove(p: Params, s: State, author: Identity, proof: ComputeProof): Result<State, Reject> {
    if proof.task !in s.bodies || proof.task !in s.tasks then Err(UnknownTask)
    else
      var body, sub := s.bodies[proof.task], s.tasks[proof.task];
      if sub.status != Executing then Err(BadStatus)
      else if sub.provider != Some(author) || proof.provider != author then Err(WrongProvider)
      else if proof.ucuCount > body.limits.maxUcu then Err(UcuExceedsLimit)
      else if proof.benchmark != body.benchmark then Err(BenchmarkMismatch)
      else Ok(Settle(p, s.(proofs := s.proofs[proof.task := proof]), body, sub, proof))
  }

  function OpenChallenge(p: Params, s: State, challenger: Identity, task: TaskId, bond: nat): Result<State, Reject> {
    if task !in s.receipts || task !in s.tasks then Err(UnknownTask)
    else if s.tasks[task].status != Settled then Err(BadStatus)
    else if s.epoch > s.receipts[task].clawbackUntil then Err(NotInClawbackWindow)
    else if task in s.slashed || task in s.pending then Err(Invalid)
    else if bond < BondMin(p, s.receipts[task].paidToProvider) then Err(BondTooSmall)
    else if AccountOf(s.accounts, challenger).balance < bond then Err(InsufficientBalance)
    else Ok(s.(
      accounts := Adjust(s.accounts, challenger, -(bond as int), 0, bond),
      pending := s.pending[task := ChallengeRecord(challenger, bond)]))
  }

  function TransferTo(s: State, from: Identity, to: Identity, amount: nat): Result<State, Reject> {
    if AccountOf(s.accounts, from).balance < amount then Err(InsufficientBalance)
    else Ok(s.(accounts := Adjust(Adjust(s.accounts, from, -(amount as int), 0, 0), to, amount, 0, 0)))
  }

  function BumpNonce(s: State, author: Identity): State {
    s.(nonces := s.nonces[author := NonceOf(s.nonces, author) + 1])
  }

  function Dispatch(c: Crypto, p: Params, s: State, author: Identity, tx: Tx): Result<State, Reject> {
    match tx
    case SubmitTask(body) => Submit(c, p, s, author, body)
    case ClaimTask(task) => Claim(p, s, author, task)
    case SubmitProof(proof) => Prove(p, s, author, proof)
    case Transfer(to, amount) => TransferTo(s, author, to, amount)
    case Challenge(task, bond) => OpenChallenge(p, s, author, task, bond)
  }

  function Apply(c: Crypto, p: Params, s: State, stx: SignedTx): Result<State, Reject> {
    if !c.verifies(stx) then Err(BadSignature)
    else if stx.nonce != NonceOf(s.nonces, stx.author) then Err(BadNonce)
    else Dispatch(c, p, BumpNonce(s, stx.author), stx.author, stx.tx)
  }

  // ---- epoch boundary ----

  /** A settled task whose clawback window has closed at `epoch` with its stake still locked. */
  predicate Due(s: State, epoch: nat, task: TaskId) {
    && task in s.receipts
    && s.receipts[task].clawbackUntil <= epoch
    && task !in s.released
    && task !in s.slashed
    && task in s.tasks
    && s.tasks[task].provider.Some?
  }

  /** Give the stake of one task back to its provider, as far as the bond reaches. */
  function Release(accounts: map<Identity, Account>, tasks: map<TaskId, Submission>,
                   t: TaskId): map<Identity, Account> {
    if t in tasks && tasks[t].provider.Some? then
      var id := tasks[t].provider.value;
      var amount := Min(tasks[t].claimStake, AccountOf(accounts, id).bonded);
      Adjust(accounts, id, amount, 0, -amount)
    else accounts
  }

  /** Release all of `done`. The order is left open; `Release` shows that it does not matter. */
  ghost function ReleaseAll(accounts: map<Identity, Account>, tasks: map<TaskId, Submission>,
                            done: set<TaskId>): map<Identity, Account>
    decreases |done|
  {
    if done == {} then accounts
    else
      var t := Pick(done);
      Release(ReleaseAll(accounts, tasks, done - {t}), tasks, t)
  }

  function DecayAll(p: Params, standing: map<Identity, StandingRecord>, epoch: nat): map<Identity, StandingRecord> {
    map id | id in standing :: standing[id].(sp := Decay(p, standing[id].sp), lastDecayEpoch := epoch)
  }

  function DueTasks(s: State, epoch: nat): set<TaskId> {
    set t | t in s.receipts && Due(s, epoch, t)
  }

  ghost function AdvanceEpoch(p: Params, s: State): State {
    var due := DueTasks(s, s.epoch + 1);
    s.(
      epoch := s.epoch + 1,
      standing := DecayAll(p, s.standing, s.epoch + 1),
      accounts := ReleaseAll(s.accounts, s.tasks, due),
      released := s.released + due)
  }

  // ---- verdicts ----

  /** What a fraud verdict takes from the provider, computed from the state before it. */
  datatype Penalty = Penalty(recovered: int, burnedIssuance: int, fine: int, reward: int)

  function PenaltyFor(p: Params, accounts: map<Identity, Account>, r: Receipt, provider: Identity,
                      requester: Identity): Penalty {
    var a := AccountOf(accounts, provider);
    var recovered := Min(r.paidToProvider, a.bonded);
    var spendable := a.balance + if provider == requester then recovered else 0;
    var fine := Min(Fine(p, r.paidToProvider), a.bonded - recovered);
    Penalty(recovered, Min(r.workIssuance, spendable), fine, Min(ChallengerReward(p, Fine(p, r.paidToProvider)), fine))
  }

  /** The accounts after the penalties: the provider pays, the requester is made whole as far as the
      bond reaches, the reward goes to whoever claims it. */
  function Punish(accounts: map<Identity, Account>, provider: Identity, requester: Identity, x: Penalty,
                  rewardTo: Option<Identity>): map<Identity, Account> {
    var punished := Adjust(Adjust(accounts, provider, -x.burnedIssuance, 0, -(x.recovered + x.fine)),
                           requester, x.recovered, 0, 0);
    match rewardTo case Some(id) => Adjust(punished, id, x.reward, 0, 0) case None => punished
  }

  /** A verdict can bite: the task was settled by somebody and not slashed before. */
  predicate Slashable(s: State, task: TaskId) {
    task !in s.slashed && task in s.receipts && task in s.tasks && s.tasks[task].provider.Some?
  }

  function ResolveFraud(p: Params, s: State, task: TaskId, rewardTo: Option<Identity>): State {
    if !Slashable(s, task) then s
    else
      var sub := s.tasks[task];
      var provider := sub.provider.value;
      var x := PenaltyFor(p, s.accounts, s.receipts[task], provider, sub.requester);
      var st := StandingRecordOf(s.standing, provider, s.epoch);
      s.(
        accounts := Punish(s.accounts, provider, sub.requester, x, rewardTo),
        feePool := s.feePool + if rewardTo.None? then x.reward else 0,
        supply := s.supply.(burned := s.supply.burned + x.burnedIssuance + x.fine - x.reward),
        standing := s.standing[provider := st.(sp := 0, strikes := st.strikes + 1)],
        slashed := s.slashed + {task},
        tasks := s.tasks[task := sub.(status := Failed)])
  }

  /** Close a challenge: the bond goes back to the challenger of a fraud and is burned otherwise. */
  function CloseChallenge(s: State, pc: ChallengeRecord, fraud: bool): State {
    var b := Min(pc.bond, AccountOf(s.accounts, pc.challenger).bonded);
    s.(
      accounts := Adjust(s.accounts, pc.challenger, if fraud then b else 0, 0, -b),
      supply := s.supply.(burned := s.supply.burned + if fraud then 0 else b))
  }

  function ResolveChallenge(p: Params, s: State, task: TaskId, fraud: bool): State {
    if task !in s.pending then s
    else
      var pc := s.pending[task];
      var s1 := s.(pending := s.pending - {task});
      CloseChallenge(if fraud then ResolveFraud(p, s1, task, Some(pc.challenger)) else s1, pc, fraud)
  }

  // ---- runs ----

  /** Everything that can happen to a ledger. A rejected transaction leaves it as it was. */
  datatype Action =
    | Transact(stx: SignedTx)
    | Boundary
    | FraudVerdict(task: TaskId, rewardTo: Option<Identity>)
    | ChallengeVerdict(challenged: TaskId, fraud: bool)

  ghost function Step(c: Crypto, p: Params, s: State, a: Action): State {
    match a
    case Transact(stx) => (match Apply(c, p, s, stx) case Ok(s') => s' case Err(_) => s)
    case Boundary => AdvanceEpoch(p, s)
    case FraudVerdict(task, rewardTo) => ResolveFraud(p, s, task, rewardTo)
    case ChallengeVerdict(task, fraud) => ResolveChallenge(p, s, task, fraud)
  }

  ghost function Run(c: Crypto, p: Params, s: State, actions: seq<Action>): State {
    if actions == [] then s
    else
      var n := |actions| - 1;
      Step(c, p, Run(c, p, s, actions[..n]), actions[n])
  }
}
