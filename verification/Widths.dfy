/** The checked arithmetic of `MachineSpec` for all parameters and all amounts: each check fails
    exactly where the exact value does not fit its type, and a run in which no check failed stored
    only numbers that fit and is the run of unbounded integers. */
module Widths {
  import opened Types
  import opened Governance
  import opened Sums
  import opened LedgerSpec
  import opened Lifecycle
  import opened Escrow
  import opened MachineSpec
  import opened Machine

  predicate IsU128(n: int) {
    0 <= n < 0x1_0000_0000_0000_0000_0000_0000_0000_0000
  }

  predicate IsI128(n: int) {
    -0x8000_0000_0000_0000_0000_0000_0000_0000 <= n < 0x8000_0000_0000_0000_0000_0000_0000_0000
  }

  predicate IsU64(n: int) {
    0 <= n < 0x1_0000_0000_0000_0000
  }

  predicate IsU32(n: int) {
    0 <= n < 0x1_0000_0000
  }

  // ---- single computations ----

  /** A rate overflows exactly when the product does, however small the quotient is. */
  lemma RateFailsIff(a: nat, rate: nat)
    ensures Ppm(a, rate).None? <==> !IsU128(a * rate)
    ensures Ppm(a, rate).Some? ==> IsFloor(Ppm(a, rate).value, a * rate, 1_000_000) && IsU128(Ppm(a, rate).value)
  {
    DivBounds(a * rate, PPM);
  }

  /** The stake overflows exactly when one of its three products does. */
  lemma StakeFailsIff(p: Params, maxUcu: nat, sp: int)
    ensures ClaimStakeM(p, maxUcu, sp).None?
            <==> || !IsU128(maxUcu * p.stakeBasePpm)
                 || (p.spRef > 0 && sp > 0 && !IsU128(sp * 1_000_000))
                 || !IsU128(StakeBase(p, maxUcu) * (1_000_000 - DiscountReductionPpm(p, sp)))
    ensures ClaimStakeM(p, maxUcu, sp).Some? ==> ClaimStakeM(p, maxUcu, sp).value == ClaimStake(p, maxUcu, sp)
  {
  }

  /** Standing earned overflows when a product leaves 128 bits, or the result the signed range. */
  lemma AccrualFailsIff(p: Params, u: nat)
    ensures AccrualM(p, u).None?
            <==> || !IsU128(u * p.spRatePpm)
                 || !IsU128(u * p.spRatePpm / 1_000_000 * p.efficiencyMultPpm)
                 || !IsI128(Accrual(p, u))
    ensures AccrualM(p, u).Some? ==> AccrualM(p, u).value == Accrual(p, u)
  {
  }

  lemma DecayFailsIff(p: Params, sp: int)
    ensures DecayM(p, sp).None? <==> !IsI128(1_000_000 - p.decayRatePpm) || !IsI128(sp * (1_000_000 - p.decayRatePpm))
    ensures DecayM(p, sp).Some? ==> DecayM(p, sp).value == Decay(p, sp) && IsI128(Decay(p, sp))
  {
    var x := sp * (PPM - p.decayRatePpm);
    DivBounds(x, PPM);
    DivBounds(-x, PPM);
  }

  /** A movement overflows exactly when it would leave one of the three pots outside its type. */
  lemma MovementFailsIff(accounts: map<Identity, Account>, id: Identity, b: int, e: int, d: int)
    ensures var a := AccountOf(accounts, id);
            AdjustM(accounts, id, b, e, d)
            == if IsU128(a.balance + b) && IsU128(a.escrowed + e) && IsU128(a.bonded + d)
               then Some(Adjust(accounts, id, b, e, d)) else None
  {
  }

  // ---- whatever is computed is right ----

  lemma SubmitExact(c: Crypto, p: Params, s: State, requester: Identity, body: TaskBody)
    requires SubmitM(c, p, s, requester, body).Some?
    ensures SubmitM(c, p, s, requester, body).value == Submit(c, p, s, requester, body)
  {
  }

  lemma ClaimExact(p: Params, s: State, provider: Identity, task: TaskId)
    requires ClaimM(p, s, provider, task).Some?
    ensures ClaimM(p, s, provider, task).value == Claim(p, s, provider, task)
  {
    if task in s.bodies {
      StakeFailsIff(p, s.bodies[task].limits.maxUcu, StandingOf(s, provider));
    }
  }

  lemma PayExact(accounts: map<Identity, Account>, requester: Identity, provider: Identity, maxUcu: nat, fee: nat,
                 u: nat, w: nat)
    requires PayM(accounts, requester, provider, maxUcu, fee, u, w).Some?
    ensures PayM(accounts, requester, provider, maxUcu, fee, u, w).value
            == Adjust(Adjust(accounts, requester, maxUcu - u, -(maxUcu + fee), 0), provider, u + w, 0, 0)
  {
    AdjustTwice(accounts, requester, 0, -(maxUcu + fee), 0, maxUcu - u, 0, 0);
    AdjustTwice(Adjust(accounts, requester, maxUcu - u, -(maxUcu + fee), 0), provider, u, 0, 0, w, 0, 0);
  }

  lemma ProveExact(p: Params, s: State, author: Identity, proof: ComputeProof)
    requires ProveM(p, s, author, proof).Some?
    ensures ProveM(p, s, author, proof).value == Prove(p, s, author, proof)
  {
    if Prove(p, s, author, proof).Ok? {
      SettleExact(p, s.(proofs := s.proofs[proof.task := proof]), s.bodies[proof.task], s.tasks[proof.task], proof);
    }
  }

  lemma SettleExact(p: Params, s: State, body: TaskBody, sub: Submission, proof: ComputeProof)
    requires SettleM(p, s, body, sub, proof).Some?
    ensures SettleM(p, s, body, sub, proof).value == Settle(p, s, body, sub, proof)
  {
    var u := proof.ucuCount;
    SettleStored(p, s, body, sub, proof);
    PayExact(s.accounts, sub.requester, proof.provider, body.limits.maxUcu, sub.fee, u, Issuance(p, u));
    SettleShape(p, s, body, sub, proof);
  }

  lemma SettleStored(p: Params, s: State, body: TaskBody, sub: Submission, proof: ComputeProof)
    requires SettleM(p, s, body, sub, proof).Some?
    ensures var u, w := proof.ucuCount, Issuance(p, proof.ucuCount);
            var paid := PayM(s.accounts, sub.requester, proof.provider, body.limits.maxUcu, sub.fee, u, w);
            && paid.Some?
            && SettleM(p, s, body, sub, proof).value
               == SettledWith(p, s, body, sub, proof, w, Accrual(p, u)).(accounts := paid.value)
  {
    AccrueExact(p, s.standing, proof.provider, s.epoch, proof.ucuCount);
  }

  lemma AccrueExact(p: Params, standing: map<Identity, StandingRecord>, provider: Identity, epoch: nat, u: nat)
    requires AccrueM(p, standing, provider, epoch, u).Some?
    ensures var st := StandingRecordOf(standing, provider, epoch);
            AccrueM(p, standing, provider, epoch, u).value
            == (standing[provider := st.(sp := st.sp + Accrual(p, u))], Accrual(p, u) as int)
  {
  }

  lemma OpenExact(p: Params, s: State, challenger: Identity, task: TaskId, bond: nat)
    requires OpenM(p, s, challenger, task, bond).Some?
    ensures OpenM(p, s, challenger, task, bond).value == OpenChallenge(p, s, challenger, task, bond)
  {
  }

  lemma ApplyExact(c: Crypto, p: Params, s: State, stx: SignedTx)
    requires ApplyM(c, p, s, stx).Some?
    ensures ApplyM(c, p, s, stx).value == Apply(c, p, s, stx)
  {
    if c.verifies(stx) && stx.nonce == NonceOf(s.nonces, stx.author) {
      var s1 := BumpNonce(s, stx.author);
      assert ApplyM(c, p, s, stx) == DispatchM(c, p, s1, stx.author, stx.tx);
      DispatchExact(c, p, s1, stx.author, stx.tx);
    }
  }

  lemma DispatchExact(c: Crypto, p: Params, s: State, author: Identity, tx: Tx)
    requires DispatchM(c, p, s, author, tx).Some?
    ensures DispatchM(c, p, s, author, tx).value == Dispatch(c, p, s, author, tx)
  {
    match tx
    case SubmitTask(body) => SubmitExact(c, p, s, author, body);
    case ClaimTask(task) => ClaimExact(p, s, author, task);
    case SubmitProof(proof) => ProveExact(p, s, author, proof);
    case Challenge(task, bond) => OpenExact(p, s, author, task, bond);
    case Transfer(to, amount) =>
  }

  lemma {:induction false} ReleaseExact(accounts: map<Identity, Account>, tasks: map<TaskId, Submission>,
                                        done: set<TaskId>)
    requires ReleaseAllM(accounts, tasks, done).Some?
    ensures ReleaseAllM(accounts, tasks, done).value == ReleaseAll(accounts, tasks, done)
    decreases |done|
  {
    if done != {} {
      ReleaseExact(accounts, tasks, done - {Pick(done)});
    }
  }

  lemma DecayAllExact(p: Params, standing: map<Identity, StandingRecord>, epoch: nat)
    requires DecayAllM(p, standing, epoch).Some?
    ensures DecayAllM(p, standing, epoch).value == DecayAll(p, standing, epoch)
    ensures forall id :: id in standing ==> IsI128(DecayAll(p, standing, epoch)[id].sp)
  {
    var after := DecayAll(p, standing, epoch);
    forall id | id in standing
      ensures DecayRecordM(p, epoch)(standing[id]) == Some(after[id]) && IsI128(after[id].sp)
    {
      assert DecayRecordM(p, epoch)(standing[id]).Some?;
      DecayFailsIff(p, standing[id].sp);
    }
    MapOk(standing, DecayRecordM(p, epoch), after);
  }

  lemma BoundaryExact(p: Params, s: State)
    requires AdvanceEpochM(p, s).Some?
    ensures AdvanceEpochM(p, s).value == AdvanceEpoch(p, s)
  {
    BoundaryParts(p, s);
    DecayAllExact(p, s.standing, s.epoch + 1);
    ReleaseExact(s.accounts, s.tasks, DueTasks(s, s.epoch + 1));
  }

  lemma BoundaryParts(p: Params, s: State)
    requires AdvanceEpochM(p, s).Some?
    ensures var due := DueTasks(s, s.epoch + 1);
            var decayed, paid := DecayAllM(p, s.standing, s.epoch + 1), ReleaseAllM(s.accounts, s.tasks, due);
            && decayed.Some? && paid.Some?
            && AdvanceEpochM(p, s).value
               == s.(epoch := s.epoch + 1, standing := decayed.value, accounts := paid.value, released := s.released
                  + due)
  {
  }

  lemma PenaltiesExact(p: Params, accounts: map<Identity, Account>, burned: int, feePool: int, r: Receipt,
                       provider: Identity, requester: Identity, rewardTo: Option<Identity>)
    requires PenaltiesM(p, accounts, burned, feePool, r, provider, requester, rewardTo).Some?
    ensures var x := PenaltyFor(p, accounts, r, provider, requester);
            PenaltiesM(p, accounts, burned, feePool, r, provider, requester, rewardTo).value
            == (Punish(accounts, provider, requester, x, rewardTo), burned + x.burnedIssuance + x.fine - x.reward,
                feePool + if rewardTo.None? then x.reward else 0)
  {
    SeizeExact(p, accounts, burned, r, provider, requester);
  }

  lemma SeizeExact(p: Params, accounts: map<Identity, Account>, burned: int, r: Receipt, provider: Identity,
                   requester: Identity)
    requires SeizeM(p, accounts, burned, r, provider, requester).Some?
    ensures var x := PenaltyFor(p, accounts, r, provider, requester);
            SeizeM(p, accounts, burned, r, provider, requester).value
            == Seizure(Punish(accounts, provider, requester, x, None), burned + x.burnedIssuance + x.fine - x.reward,
                       x.fine, x.reward)
  {
    var x := PenaltyFor(p, accounts, r, provider, requester);
    var repaid := Adjust(Adjust(accounts, provider, 0, 0, -x.recovered), requester, x.recovered, 0, 0);
    AfterClawBack(accounts, provider, requester, x.recovered);
    SeizeJoin(p, accounts, burned, r, provider, requester, repaid);
    BurnAndFineExact(p, repaid, burned, r, provider);
    SeizeInSteps(accounts, provider, requester, x.recovered, x.burnedIssuance, x.fine);
  }

  lemma BurnAndFineExact(p: Params, accounts: map<Identity, Account>, burned: int, r: Receipt, provider: Identity)
    requires BurnAndFineM(p, accounts, burned, r, provider).Some?
    ensures var a := AccountOf(accounts, provider);
            var burnW, fine := Min(r.workIssuance, a.balance), Min(Fine(p, r.paidToProvider), a.bonded);
            var reward := Min(ChallengerReward(p, Fine(p, r.paidToProvider)), fine);
            BurnAndFineM(p, accounts, burned, r, provider).value
            == Seizure(Adjust(accounts, provider, -burnW, 0, -fine), burned + burnW + fine - reward, fine, reward)
  {
    var a := AccountOf(accounts, provider);
    AdjustTwice(accounts, provider, -Min(r.workIssuance, a.balance), 0, 0, 0, 0,
      -Min(Fine(p, r.paidToProvider), a.bonded));
  }

  lemma FraudExact(p: Params, s: State, t: TaskId, rewardTo: Option<Identity>)
    requires ResolveFraudM(p, s, t, rewardTo).Some?
    ensures ResolveFraudM(p, s, t, rewardTo).value == ResolveFraud(p, s, t, rewardTo)
  {
    if Slashable(s, t) {
      var sub := s.tasks[t];
      PenaltiesExact(p, s.accounts, s.supply.burned, s.feePool, s.receipts[t], sub.provider.value, sub.requester,
        rewardTo);
      FraudShape(p, s, t, rewardTo);
    }
  }

  lemma VerdictExact(p: Params, s: State, t: TaskId, fraud: bool)
    requires ResolveChallengeM(p, s, t, fraud).Some?
    ensures ResolveChallengeM(p, s, t, fraud).value == ResolveChallenge(p, s, t, fraud)
  {
    if t in s.pending && fraud {
      FraudExact(p, s.(pending := s.pending - {t}), t, Some(s.pending[t].challenger));
    }
  }

  /** An action whose checks all went through did what unbounded integers would do. */
  lemma StepExact(c: Crypto, p: Params, s: State, a: Action)
    requires StepM(c, p, s, a).Some?
    ensures StepM(c, p, s, a).value == Step(c, p, s, a)
  {
    match a
    case Transact(stx) => ApplyExact(c, p, s, stx);
    case Boundary => BoundaryExact(p, s);
    case FraudVerdict(t, rewardTo) => FraudExact(p, s, t, rewardTo);
    case ChallengeVerdict(t, fraud) => VerdictExact(p, s, t, fraud);
  }

  // ---- whatever is stored fits ----

  predicate AccountFits(a: Account) {
    IsU128(a.balance) && IsU128(a.escrowed) && IsU128(a.bonded)
  }

  ghost predicate AccountsFit(accounts: map<Identity, Account>) {
    forall id :: id in accounts ==> AccountFits(accounts[id])
  }

  ghost predicate StandingFits(standing: map<Identity, StandingRecord>) {
    forall id :: id in standing ==>
      IsI128(standing[id].sp) && IsU32(standing[id].strikes) && IsU64(standing[id].lastDecayEpoch)
  }

  ghost predicate RecordsFit(s: State) {
    && (forall t :: t in s.tasks ==>
          IsU128(s.tasks[t].ucuCount) && IsU128(s.tasks[t].fee) && IsU128(s.tasks[t].claimStake))
    && (forall t :: t in s.receipts ==> ReceiptFits(s.receipts[t]))
    && (forall t :: t in s.qLedger ==> IsU128(s.qLedger[t].ucu))
    && (forall t :: t in s.pending ==> IsU128(s.pending[t].bond))
  }

  predicate ReceiptFits(r: Receipt) {
    && IsU128(r.paidToProvider) && IsU128(r.workIssuance) && IsU128(r.validatorFee) && IsI128(r.standingDelta)
    && IsU64(r.settledEpoch) && IsU64(r.clawbackUntil)
  }

  /** Every number in the state fits the type the code stores it in. */
  ghost predicate Fits(s: State) {
    && AccountsFit(s.accounts) && StandingFits(s.standing) && RecordsFit(s)
    && (forall id :: id in s.nonces ==> IsU64(s.nonces[id]))
    && IsU128(s.supply.minted) && IsU128(s.supply.burned) && IsU128(s.feePool) && IsU64(s.epoch)
  }

  lemma MovementFits(accounts: map<Identity, Account>, id: Identity, b: int, e: int, d: int)
    requires AccountsFit(accounts) && AdjustM(accounts, id, b, e, d).Some?
    ensures AccountsFit(AdjustM(accounts, id, b, e, d).value)
  {
  }

  lemma PayFits(accounts: map<Identity, Account>, requester: Identity, provider: Identity, maxUcu: nat, fee: nat,
                u: nat, w: nat)
    requires AccountsFit(accounts) && PayM(accounts, requester, provider, maxUcu, fee, u, w).Some?
    ensures AccountsFit(PayM(accounts, requester, provider, maxUcu, fee, u, w).value)
  {
    var drained := AdjustM(accounts, requester, 0, -(maxUcu + fee), 0).value;
    var refunded := AdjustM(drained, requester, maxUcu - u, 0, 0).value;
    MovementFits(accounts, requester, 0, -(maxUcu + fee), 0);
    MovementFits(drained, requester, maxUcu - u, 0, 0);
    MovementFits(refunded, provider, u, 0, 0);
    MovementFits(AdjustM(refunded, provider, u, 0, 0).value, provider, w, 0, 0);
  }

  lemma SubmitFits(c: Crypto, p: Params, s: State, requester: Identity, body: TaskBody, s': State)
    requires Fits(s) && SubmitM(c, p, s, requester, body) == Some(Ok(s'))
    ensures Fits(s')
  {
    RateFailsIff(body.limits.maxUcu, p.feePpm);
    var need := body.limits.maxUcu + Ppm(body.limits.maxUcu, p.feePpm).value;
    MovementFits(s.accounts, requester, -need, need, 0);
  }

  lemma ClaimFits(p: Params, s: State, provider: Identity, task: TaskId, s': State)
    requires Fits(s) && ClaimM(p, s, provider, task) == Some(Ok(s'))
    ensures Fits(s')
  {
    var max, sp := s.bodies[task].limits.maxUcu, StandingOf(s, provider);
    StakeFailsIff(p, max, sp);
    var stake := ClaimStake(p, max, sp);
    DivBounds(StakeBase(p, max) * (PPM - DiscountReductionPpm(p, sp)), PPM);
    MovementFits(s.accounts, provider, -(stake as int), 0, stake);
  }

  lemma ProveFits(p: Params, s: State, author: Identity, proof: ComputeProof, s': State)
    requires Fits(s) && ProveM(p, s, author, proof) == Some(Ok(s'))
    ensures Fits(s')
  {
    SettleFits(p, s.(proofs := s.proofs[proof.task := proof]), s.bodies[proof.task], s.tasks[proof.task], proof, s');
  }

  lemma SettleFits(p: Params, s: State, body: TaskBody, sub: Submission, proof: ComputeProof, s': State)
    requires Fits(s) && SettleM(p, s, body, sub, proof) == Some(s') && IsU128(sub.fee) && IsU128(sub.claimStake)
    ensures Fits(s')
  {
    var u := proof.ucuCount;
    RateFailsIff(u, p.issuanceRatePpm);
    PayFits(s.accounts, sub.requester, proof.provider, body.limits.maxUcu, sub.fee, u, Ppm(u, p.issuanceRatePpm).value);
    AccrueFits(p, s.standing, proof.provider, s.epoch, u);
  }

  lemma AccrueFits(p: Params, standing: map<Identity, StandingRecord>, provider: Identity, epoch: u64, u: u128)
    requires StandingFits(standing) && AccrueM(p, standing, provider, epoch, u).Some?
    ensures var (after, delta) := AccrueM(p, standing, provider, epoch, u).value;
            StandingFits(after) && IsI128(delta)
  {
  }

  lemma OpenFits(p: Params, s: State, challenger: Identity, task: TaskId, bond: u128, s': State)
    requires Fits(s) && OpenM(p, s, challenger, task, bond) == Some(Ok(s'))
    ensures Fits(s')
  {
    MovementFits(s.accounts, challenger, -(bond as int), 0, bond);
  }

  lemma TransferFits(s: State, from: Identity, to: Identity, amount: nat, s': State)
    requires Fits(s) && TransferM(s, from, to, amount) == Some(Ok(s'))
    ensures Fits(s')
  {
    MovementFits(s.accounts, from, -(amount as int), 0, 0);
    MovementFits(AdjustM(s.accounts, from, -(amount as int), 0, 0).value, to, amount, 0, 0);
  }

  lemma ApplyFits(c: Crypto, p: Params, s: State, stx: SignedTx, s': State)
    requires Fits(s) && ApplyM(c, p, s, stx) == Some(Ok(s'))
    ensures Fits(s')
  {
    var s1 := BumpNonce(s, stx.author);
    assert Fits(s1);
    match stx.tx
    case SubmitTask(body) => SubmitFits(c, p, s1, stx.author, body, s');
    case ClaimTask(task) => ClaimFits(p, s1, stx.author, task, s');
    case SubmitProof(proof) => ProveFits(p, s1, stx.author, proof, s');
    case Challenge(task, bond) => OpenFits(p, s1, stx.author, task, bond, s');
    case Transfer(to, amount) => TransferFits(s1, stx.author, to, amount, s');
  }

  lemma {:induction false} ReleaseFits(accounts: map<Identity, Account>, tasks: map<TaskId, Submission>,
                                       done: set<TaskId>)
    requires AccountsFit(accounts) && ReleaseAllM(accounts, tasks, done).Some?
    ensures AccountsFit(ReleaseAllM(accounts, tasks, done).value)
    decreases |done|
  {
    if done != {} {
      ReleaseFits(accounts, tasks, done - {Pick(done)});
    }
  }

  lemma BoundaryFits(p: Params, s: State, s': State)
    requires Fits(s) && AdvanceEpochM(p, s) == Some(s')
    ensures Fits(s')
  {
    DecayAllExact(p, s.standing, s.epoch + 1);
    ReleaseFits(s.accounts, s.tasks, DueTasks(s, s.epoch + 1));
    assert StandingFits(s'.standing);
  }

  lemma ClawBackFits(accounts: map<Identity, Account>, paid: nat, provider: Identity, requester: Identity)
    requires AccountsFit(accounts) && ClawBackM(accounts, paid, provider, requester).Some?
    ensures AccountsFit(ClawBackM(accounts, paid, provider, requester).value)
  {
    var recovered := Min(paid, AccountOf(accounts, provider).bonded);
    MovementFits(accounts, provider, 0, 0, -recovered);
    MovementFits(AdjustM(accounts, provider, 0, 0, -recovered).value, requester, recovered, 0, 0);
  }

  lemma BurnAndFineFits(p: Params, accounts: map<Identity, Account>, burned: int, r: Receipt, provider: Identity)
    requires AccountsFit(accounts) && BurnAndFineM(p, accounts, burned, r, provider).Some?
    ensures var x := BurnAndFineM(p, accounts, burned, r, provider).value; AccountsFit(x.accounts) && IsU128(x.burned)
  {
    var burnW := Min(r.workIssuance, AccountOf(accounts, provider).balance);
    var offset := AdjustM(accounts, provider, -burnW, 0, 0).value;
    MovementFits(accounts, provider, -burnW, 0, 0);
    MovementFits(offset, provider, 0, 0, -Min(Fine(p, r.paidToProvider), AccountOf(offset, provider).bonded));
  }

  lemma PenaltiesFit(p: Params, accounts: map<Identity, Account>, burned: int, feePool: int, r: Receipt,
                     provider: Identity, requester: Identity, rewardTo: Option<Identity>)
    requires AccountsFit(accounts) && IsU128(feePool)
    requires PenaltiesM(p, accounts, burned, feePool, r, provider, requester, rewardTo).Some?
    ensures var (after, b, f) := PenaltiesM(p, accounts, burned, feePool, r, provider, requester, rewardTo).value;
            AccountsFit(after) && IsU128(b) && IsU128(f)
  {
    var repaid := ClawBackM(accounts, r.paidToProvider, provider, requester).value;
    ClawBackFits(accounts, r.paidToProvider, provider, requester);
    BurnAndFineFits(p, repaid, burned, r, provider);
    var x := BurnAndFineM(p, repaid, burned, r, provider).value;
    if rewardTo.Some? {
      MovementFits(x.accounts, rewardTo.value, x.reward, 0, 0);
    }
  }

  lemma FraudFits(p: Params, s: State, t: TaskId, rewardTo: Option<Identity>, s': State)
    requires Fits(s) && ResolveFraudM(p, s, t, rewardTo) == Some(s')
    ensures Fits(s')
  {
    if Slashable(s, t) {
      var sub := s.tasks[t];
      PenaltiesFit(p, s.accounts, s.supply.burned, s.feePool, s.receipts[t], sub.provider.value, sub.requester,
        rewardTo);
      assert StandingFits(s'.standing);
    }
  }

  lemma VerdictFits(p: Params, s: State, t: TaskId, fraud: bool, s': State)
    requires Fits(s) && ResolveChallengeM(p, s, t, fraud) == Some(s')
    ensures Fits(s')
  {
    if t in s.pending {
      var pc, s1 := s.pending[t], s.(pending := s.pending - {t});
      var ruled := if fraud then ResolveFraudM(p, s1, t, Some(pc.challenger)).value else s1;
      if fraud {
        FraudFits(p, s1, t, Some(pc.challenger), ruled);
      }
      CloseFits(ruled, pc, fraud, s');
    }
  }

  lemma CloseFits(s: State, pc: ChallengeRecord, fraud: bool, s': State)
    requires Fits(s) && CloseChallengeM(s, pc, fraud) == Some(s')
    ensures Fits(s')
  {
    var b := Min(pc.bond, AccountOf(s.accounts, pc.challenger).bonded);
    MovementFits(s.accounts, pc.challenger, if fraud then b else 0, 0, -b);
  }

  lemma StepFits(c: Crypto, p: Params, s: State, a: Action, s': State)
    requires Fits(s) && StepM(c, p, s, a) == Some(s')
    ensures Fits(s')
  {
    match a
    case Transact(stx) =>
      if ApplyM(c, p, s, stx).value.Ok? {
        ApplyFits(c, p, s, stx, s');
      }
    case Boundary => BoundaryFits(p, s, s');
    case FraudVerdict(t, rewardTo) => FraudFits(p, s, t, rewardTo, s');
    case ChallengeVerdict(t, fraud) => VerdictFits(p, s, t, fraud, s');
  }

  // ---- runs ----

  /** The allocations fit exactly when the machine genesis goes through, and then so does every number
      in the state it opens. */
  lemma {:induction false} GenesisStored(allocations: seq<(Identity, nat)>)
    requires GenesisM(allocations).Some?
    ensures AccountsFit(GenesisAccounts(allocations)) && IsU128(AllocatedTotal(allocations))
  {
    GenesisFitsIff(allocations);
    if allocations != [] {
      var n := |allocations| - 1;
      GenesisStored(allocations[..n]);
      GenesisFitsIff(allocations[..n]);
    }
  }

  /** For every parameter set, every allocation and every run: if no check of the machine ledger failed,
      it is in the state that unbounded integers give, and every number in that state fits its type. */
  lemma {:induction false} RunExact(c: Crypto, p: Params, allocations: seq<(Identity, nat)>, epoch: u64,
                                    actions: seq<Action>)
    requires GenesisM(allocations).Some? && RunM(c, p, Genesis(allocations, epoch), actions).Some?
    ensures RunM(c, p, Genesis(allocations, epoch), actions).value == Run(c, p, Genesis(allocations, epoch), actions)
    ensures Fits(Run(c, p, Genesis(allocations, epoch), actions))
  {
    if actions == [] {
      GenesisStored(allocations);
    } else {
      var n, g := |actions| - 1, Genesis(allocations, epoch);
      RunExact(c, p, allocations, epoch, actions[..n]);
      StepExact(c, p, Run(c, p, g, actions[..n]), actions[n]);
      StepFits(c, p, Run(c, p, g, actions[..n]), actions[n], Run(c, p, g, actions));
    }
  }
}
