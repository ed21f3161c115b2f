/** The ledger in machine integers: the same transitions with every single addition, subtraction and
    multiplication checked against the width the code computes it in. `None` stands for an
    arithmetic overflow or underflow anywhere on the way. */
module MachineSpec {
  import opened Types
  import opened Governance
  import opened Sums
  import opened LedgerSpec

  function U128(n: int): Option<int> {
    if 0 <= n < TWO_128 then Some(n) else None
  }

  function I128(n: int): Option<int> {
    if -TWO_127 <= n < TWO_127 then Some(n) else None
  }

  function U64(n: int): Option<nat> {
    if 0 <= n < TWO_64 then Some(n) else None
  }

  function U32(n: int): Option<nat> {
    if 0 <= n < TWO_32 then Some(n) else None
  }

  // ---- parameters ----

  function Ppm(a: nat, rate: nat): Option<nat> {
    var product :- U128(a * rate);
    Some(product / PPM)
  }

  function AccrualM(p: Params, u: nat): Option<int> {
    var base :- Ppm(u, p.spRatePpm);
    var delta :- Ppm(base, p.efficiencyMultPpm);
    I128(delta)
  }

  function DiscountM(p: Params, sp: int): Option<int> {
    if p.spRef <= 0 then Some(0)
    else
      var spPos := if sp < 0 then 0 else sp;
      var scaled :- U128(spPos * PPM);
      Some(Min(scaled / p.spRef, p.discountMaxPpm))
  }

  function ClaimStakeM(p: Params, maxUcu: nat, sp: int): Option<nat> {
    var base :- Ppm(maxUcu, p.stakeBasePpm);
    var reduction :- DiscountM(p, sp);
    var rest :- U128(PPM - reduction);
    var product :- U128(base * rest);
    Some(product / PPM)
  }

  function DecayM(p: Params, sp: int): Option<int> {
    var keep :- I128(PPM - p.decayRatePpm);
    var product :- I128(sp * keep);
    Some(TruncDiv(product, PPM))
  }

  // ---- accounts ----

  function AdjustM(accounts: map<Identity, Account>, id: Identity, dBalance: int, dEscrowed: int, dBonded: int)
    : Option<map<Identity, Account>>
  {
    var a := AccountOf(accounts, id);
    var after := Account(a.id, a.balance + dBalance, a.escrowed + dEscrowed, a.bonded + dBonded);
    if U128(after.balance).Some? && U128(after.escrowed).Some? && U128(after.bonded).Some?
    then Some(accounts[id := after])
    else None
  }

  // ---- transactions ----

  function SubmitM(c: Crypto, p: Params, s: State, requester: Identity, body: TaskBody): Option<Result<State, Reject>> {
    var task := c.taskId(body);
    if body.tier != SampledReexec || task in s.tasks then Some(Err(Invalid))
    else
      var fee :- Ppm(body.limits.maxUcu, p.feePpm);
      var need := body.limits.maxUcu + fee;
      if need >= TWO_128 then Some(Err(Invalid))
      else if AccountOf(s.accounts, requester).balance < need then Some(Err(InsufficientBalance))
      else
        var accounts :- AdjustM(s.accounts, requester, -need, need, 0);
        Some(Ok(s.(
          accounts := accounts,
          bodies := s.bodies[task := body],
          tasks := s.tasks[task := Submission(task, requester, 0, fee, Submitted, None, 0)])))
  }

  function ClaimM(p: Params, s: State, provider: Identity, task: TaskId): Option<Result<State, Reject>> {
    if task !in s.bodies || task !in s.tasks then Some(Err(UnknownTask))
    else if s.tasks[task].status != Submitted then Some(Err(BadStatus))
    else if s.epoch > s.bodies[task].deadline then Some(Err(DeadlinePassed))
    else
      var stake: nat :- ClaimStakeM(p, s.bodies[task].limits.maxUcu, StandingOf(s, provider));
      if AccountOf(s.accounts, provider).balance < stake then Some(Err(InsufficientBalance))
      else
        var accounts :- AdjustM(s.accounts, provider, -(stake as int), 0, stake);
        Some(Ok(s.(
          accounts := accounts,
          tasks := s.tasks[task := s.tasks[task].(provider := Some(provider), status := Executing,
            claimStake := stake)])))
  }

  /** Drain the escrow and refund the unused ceiling. */
  function RefundM(accounts: map<Identity, Account>, requester: Identity, maxUcu: nat, fee: nat,
                   u: nat): Option<map<Identity, Account>> {
    var locked :- U128(maxUcu + fee);
    var drained :- AdjustM(accounts, requester, 0, -locked, 0);
    var refund :- U128(maxUcu - u);
    AdjustM(drained, requester, refund, 0, 0)
  }

  /** The accounts after refund, payment and issuance, step by step. */
  function PayM(accounts: map<Identity, Account>, requester: Identity, provider: Identity, maxUcu: nat, fee: nat,
                u: nat, w: nat)
    : Option<map<Identity, Account>>
  {
    var refunded :- RefundM(accounts, requester, maxUcu, fee, u);
    var paid :- AdjustM(refunded, provider, u, 0, 0);
    AdjustM(paid, provider, w, 0, 0)
  }

  function AccrueM(p: Params, standing: map<Identity, StandingRecord>, provider: Identity, epoch: nat,
                   u: nat): Option<(map<Identity, StandingRecord>, int)> {
    var delta :- AccrualM(p, u);
    var st := StandingRecordOf(standing, provider, epoch);
    var sp :- I128(st.sp + delta);
    Some((standing[provider := st.(sp := sp)], delta))
  }

  function SettleM(p: Params, s: State, body: TaskBody, sub: Submission, proof: ComputeProof): Option<State> {
    var u := proof.ucuCount;
    var w :- Ppm(u, p.issuanceRatePpm);
    var accounts :- PayM(s.accounts, sub.requester, proof.provider, body.limits.maxUcu, sub.fee, u, w);
    var feePool :- U128(s.feePool + sub.fee);
    var minted :- U128(s.supply.minted + w);
    var (standing, delta) :- AccrueM(p, s.standing, proof.provider, s.epoch, u);
    var clawbackUntil :- U64(s.epoch + p.clawbackEpochs);
    Some(s.(
      accounts := accounts,
      standing := standing,
      tasks := s.tasks[proof.task := sub.(status := Settled, ucuCount := u)],
      receipts := s.receipts[proof.task := Receipt(proof.task, u, w, sub.fee, delta, s.epoch, clawbackUntil)],
      qLedger := s.qLedger[proof.task := QLedgerEntry(proof.task, u, None, None, None, body.benchmark)],
      supply := s.supply.(minted := minted),
      feePool := feePool))
  }

  function ProveM(p: Params, s: State, author: Identity, proof: ComputeProof): Option<Result<State, Reject>> {
    if proof.task !in s.bodies || proof.task !in s.tasks then Some(Err(UnknownTask))
    else
      var body, sub := s.bodies[proof.task], s.tasks[proof.task];
      if sub.status != Executing then Some(Err(BadStatus))
      else if sub.provider != Some(author) || proof.provider != author then Some(Err(WrongProvider))
      else if proof.ucuCount > body.limits.maxUcu then Some(Err(UcuExceedsLimit))
      else if proof.benchmark != body.benchmark then Some(Err(BenchmarkMismatch))
      else
        var settled :- SettleM(p, s.(proofs := s.proofs[proof.task := proof]), body, sub, proof);
        Some(Ok(settled))
  }

  function OpenM(p: Params, s: State, challenger: Identity, task: TaskId, bond: nat): Option<Result<State, Reject>> {
    if task !in s.receipts || task !in s.tasks then Some(Err(UnknownTask))
    else if s.tasks[task].status != Settled then Some(Err(BadStatus))
    else if s.epoch > s.receipts[task].clawbackUntil then Some(Err(NotInClawbackWindow))
    else if task in s.slashed || task in s.pending then Some(Err(Invalid))
    else
      var least :- Ppm(s.receipts[task].paidToProvider, p.bondMinPpm);
      if bond < least then Some(Err(BondTooSmall))
      else if AccountOf(s.accounts, challenger).balance < bond then Some(Err(InsufficientBalance))
      else
        var accounts :- AdjustM(s.accounts, challenger, -(bond as int), 0, bond);
        Some(Ok(s.(accounts := accounts, pending := s.pending[task := ChallengeRecord(challenger, bond)])))
  }

  function TransferM(s: State, from: Identity, to: Identity, amount: nat): Option<Result<State, Reject>> {
    if AccountOf(s.accounts, from).balance < amount then Some(Err(InsufficientBalance))
    else
      var debited :- AdjustM(s.accounts, from, -(amount as int), 0, 0);
      var credited :- AdjustM(debited, to, amount, 0, 0);
      Some(Ok(s.(accounts := credited)))
  }

  function DispatchM(c: Crypto, p: Params, s: State, author: Identity, tx: Tx): Option<Result<State, Reject>> {
    match tx
    case SubmitTask(body) => SubmitM(c, p, s, author, body)
    case ClaimTask(task) => ClaimM(p, s, author, task)
    case SubmitProof(proof) => ProveM(p, s, author, proof)
    case Transfer(to, amount) => TransferM(s, author, to, amount)
    case Challenge(task, bond) => OpenM(p, s, author, task, bond)
  }

  function ApplyM(c: Crypto, p: Params, s: State, stx: SignedTx): Option<Result<State, Reject>> {
    if !c.verifies(stx) then Some(Err(BadSignature))
    else if stx.nonce != NonceOf(s.nonces, stx.author) then Some(Err(BadNonce))
    else
      var nonce :- U64(NonceOf(s.nonces, stx.author) + 1);
      DispatchM(c, p, s.(nonces := s.nonces[stx.author := nonce]), stx.author, stx.tx)
  }

  // ---- genesis and audit ----

  /** The allocation loop: balances and the minted total, each sum checked. */
  function GenesisM(allocations: seq<(Identity, nat)>): Option<(map<Identity, Account>, int)> {
    if allocations == [] then Some((map[], 0))
    else
      var (id, amount) := allocations[|allocations| - 1];
      var (before, minted) :- GenesisM(allocations[..|allocations| - 1]);
      var accounts :- AdjustM(before, id, amount, 0, 0);
      var total :- U128(minted + amount);
      Some((accounts, total))
  }

  function PotsM(a: Account): Option<int> {
    var two :- U128(a.balance + a.escrowed);
    U128(two + a.bonded)
  }

  /** The audit loop: the pots of every account added to what was held so far, each sum checked. */
  ghost function AuditM(accounts: map<Identity, Account>, held: int): Option<int>
    decreases |accounts|
  {
    if accounts == map[] then Some(held)
    else
      var id := Pick(accounts.Keys);
      var pots :- PotsM(accounts[id]);
      var sum :- U128(held + pots);
      AuditM(accounts - {id}, sum)
  }

  // ---- epoch boundary ----

  function ReleaseM(accounts: map<Identity, Account>, tasks: map<TaskId, Submission>,
                    t: TaskId): Option<map<Identity, Account>> {
    if t in tasks && tasks[t].provider.Some? then
      var id := tasks[t].provider.value;
      var amount := Min(tasks[t].claimStake, AccountOf(accounts, id).bonded);
      AdjustM(accounts, id, amount, 0, -amount)
    else Some(accounts)
  }

  ghost function ReleaseAllM(accounts: map<Identity, Account>, tasks: map<TaskId, Submission>,
                             done: set<TaskId>): Option<map<Identity, Account>>
    decreases |done|
  {
    if done == {} then Some(accounts)
    else
      var t := Pick(done);
      var before :- ReleaseAllM(accounts, tasks, done - {t});
      ReleaseM(before, tasks, t)
  }

  /** Change every record, if every change goes through. */
  function MapM(standing: map<Identity, StandingRecord>,
                f: StandingRecord -> Option<StandingRecord>): Option<map<Identity, StandingRecord>> {
    if forall id :: id in standing ==> f(standing[id]).Some?
    then Some(map id | id in standing :: f(standing[id]).value)
    else None
  }

  function DecayRecordM(p: Params, epoch: nat): StandingRecord -> Option<StandingRecord> {
    (st: StandingRecord) =>
      var sp :- DecayM(p, st.sp);
      Some(st.(sp := sp, lastDecayEpoch := epoch))
  }

  function DecayAllM(p: Params, standing: map<Identity, StandingRecord>,
                     epoch: nat): Option<map<Identity, StandingRecord>> {
    MapM(standing, DecayRecordM(p, epoch))
  }

  ghost function AdvanceEpochM(p: Params, s: State): Option<State> {
    var epoch :- U64(s.epoch + 1);
    var standing :- DecayAllM(p, s.standing, epoch);
    var due := DueTasks(s, epoch);
    var accounts :- ReleaseAllM(s.accounts, s.tasks, due);
    Some(s.(epoch := epoch, standing := standing, accounts := accounts, released := s.released + due))
  }

  // ---- verdicts ----

  datatype Seizure = Seizure(accounts: map<Identity, Account>, burned: int, fine: int, reward: int)

  function ClawBackM(accounts: map<Identity, Account>, paid: nat, provider: Identity,
                     requester: Identity): Option<map<Identity, Account>> {
    var recovered := Min(paid, AccountOf(accounts, provider).bonded);
    var clawed :- AdjustM(accounts, provider, 0, 0, -recovered);
    AdjustM(clawed, requester, recovered, 0, 0)
  }

  function BurnAndFineM(p: Params, accounts: map<Identity, Account>, burned: int, r: Receipt,
                        provider: Identity): Option<Seizure> {
    var burnW := Min(r.workIssuance, AccountOf(accounts, provider).balance);
    var offset :- AdjustM(accounts, provider, -burnW, 0, 0);
    var burned1 :- U128(burned + burnW);
    var f :- Ppm(r.paidToProvider, p.fineMultPpm);
    var fine := Min(f, AccountOf(offset, provider).bonded);
    var fined :- AdjustM(offset, provider, 0, 0, -fine);
    var share :- Ppm(f, p.challengerRewardPpm);
    var reward := Min(share, fine);
    var rest :- U128(fine - reward);
    var burned2 :- U128(burned1 + rest);
    Some(Seizure(fined, burned2, fine, reward))
  }

  /** Clawback, burn and fine, each computed from what the step before left. */
  function SeizeM(p: Params, accounts: map<Identity, Account>, burned: int, r: Receipt, provider: Identity,
                  requester: Identity): Option<Seizure> {
    var repaid :- ClawBackM(accounts, r.paidToProvider, provider, requester);
    BurnAndFineM(p, repaid, burned, r, provider)
  }

  function RewardM(x: Seizure, feePool: int, rewardTo: Option<Identity>): Option<(map<Identity, Account>, int)> {
    match rewardTo
    case Some(id) =>
      var rewarded :- AdjustM(x.accounts, id, x.reward, 0, 0);
      Some((rewarded, feePool))
    case None =>
      var pool :- U128(feePool + x.reward);
      Some((x.accounts, pool))
  }

  /** Accounts, burned total and fee pool after all penalties and the reward. */
  function PenaltiesM(p: Params, accounts: map<Identity, Account>, burned: int, feePool: int, r: Receipt,
                      provider: Identity, requester: Identity, rewardTo: Option<Identity>)
    : Option<(map<Identity, Account>, int, int)>
  {
    var x :- SeizeM(p, accounts, burned, r, provider, requester);
    var (rewarded, pool) :- RewardM(x, feePool, rewardTo);
    Some((rewarded, x.burned, pool))
  }

  function ResolveFraudM(p: Params, s: State, task: TaskId, rewardTo: Option<Identity>): Option<State> {
    if !Slashable(s, task) then Some(s)
    else
      var sub := s.tasks[task];
      var provider := sub.provider.value;
      var (accounts, burned, feePool) :-
        PenaltiesM(p, s.accounts, s.supply.burned, s.feePool, s.receipts[task], provider, sub.requester, rewardTo);
      var st := StandingRecordOf(s.standing, provider, s.epoch);
      var strikes :- U32(st.strikes + 1);
      Some(s.(
        accounts := accounts,
        feePool := feePool,
        supply := s.supply.(burned := burned),
        standing := s.standing[provider := st.(sp := 0, strikes := strikes)],
        slashed := s.slashed + {task},
        tasks := s.tasks[task := sub.(status := Failed)]))
  }

  function CloseChallengeM(s: State, pc: ChallengeRecord, fraud: bool): Option<State> {
    var b := Min(pc.bond, AccountOf(s.accounts, pc.challenger).bonded);
    var accounts :- AdjustM(s.accounts, pc.challenger, if fraud then b else 0, 0, -b);
    var burned :- U128(s.supply.burned + if fraud then 0 else b);
    Some(s.(accounts := accounts, supply := s.supply.(burned := burned)))
  }

  function ResolveChallengeM(p: Params, s: State, task: TaskId, fraud: bool): Option<State> {
    if task !in s.pending then Some(s)
    else
      var pc := s.pending[task];
      var s1 := s.(pending := s.pending - {task});
      var ruled :- if fraud then ResolveFraudM(p, s1, task, Some(pc.challenger)) else Some(s1);
      CloseChallengeM(ruled, pc, fraud)
  }

  // ---- runs ----

  ghost function StepM(c: Crypto, p: Params, s: State, a: Action): Option<State> {
    match a
    case Transact(stx) =>
      var r :- ApplyM(c, p, s, stx);
      Some(match r case Ok(s') => s' case Err(_) => s)
    case Boundary => AdvanceEpochM(p, s)
    case FraudVerdict(task, rewardTo) => ResolveFraudM(p, s, task, rewardTo)
    case ChallengeVerdict(task, fraud) => ResolveChallengeM(p, s, task, fraud)
  }

  ghost function RunM(c: Crypto, p: Params, s: State, actions: seq<Action>): Option<State> {
    if actions == [] then Some(s)
    else
      var n := |actions| - 1;
      var before :- RunM(c, p, s, actions[..n]);
      StepM(c, p, before, actions[n])
  }
}
