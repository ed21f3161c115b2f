/** Machine arithmetic refines unbounded integers: as long as what was minted, Standing and the
    counters stay within stated bounds, no computation of the ledger leaves its machine width. The
    bounds on every other amount follow from conservation and from the balance check at submission. */
module Machine {
  import opened Types
  import opened Governance
  import opened Sums
  import opened LedgerSpec
  import opened Lifecycle
  import opened Escrow
  import opened Conservation
  import opened Books
  import opened Runs
  import opened MachineSpec

  const MONEY_BOUND: nat := TWO_128 / 2_000_000
  const STANDING_BOUND: nat := TWO_127 / 1_000_000

  /** Rates of at most 200%, and pairs of rates applied one after the other of at most 200% together. */
  predicate Moderate(p: Params) {
    && p.feePpm <= 2 * PPM && p.issuanceRatePpm <= 2 * PPM && p.efficiencyMultPpm <= 2 * PPM
    && p.stakeBasePpm <= 2 * PPM && p.fineMultPpm <= 2 * PPM && p.bondMinPpm <= 2 * PPM
    && p.spRatePpm <= PPM && p.challengerRewardPpm <= PPM
  }

  /** What a run is assumed to keep: minted currency and Standing below their bounds, counters short
      of the end of their types. */
  predicate StateInRange(p: Params, s: State) {
    && AmountsInRange(p, s)
    && forall id :: id in s.nonces ==> s.nonces[id] + 1 < TWO_64
  }

  predicate AmountsInRange(p: Params, s: State) {
    && s.supply.minted <= MONEY_BOUND
    && (forall id :: id in s.standing ==> s.standing[id].sp <= STANDING_BOUND && s.standing[id].strikes + 1 < TWO_32)
    && s.epoch + p.clawbackEpochs + 1 < TWO_64
  }

  predicate ActionInRange(a: Action) {
    a.Transact? && a.stx.tx.SubmitTask? ==> a.stx.tx.body.limits.maxUcu <= MONEY_BOUND
  }

  // ---- parameter arithmetic ----

  lemma PpmOk(a: nat, rate: nat, k: nat)
    requires rate <= k * PPM && a * k <= 2 * MONEY_BOUND
    ensures Ppm(a, rate) == Some(a * rate / PPM)
    ensures a * rate / PPM <= a * k
  {
    MulMonotone(a, rate, k * PPM);
    assert a * (k * PPM) == a * k * PPM;
    DivMonotone(a * rate, a * k * PPM, PPM);
  }

  lemma FeeOk(p: Params, maxUcu: nat)
    requires Moderate(p) && maxUcu <= MONEY_BOUND
    ensures Ppm(maxUcu, p.feePpm) == Some(Fee(p, maxUcu)) && Fee(p, maxUcu) <= 2 * MONEY_BOUND
  {
    PpmOk(maxUcu, p.feePpm, 2);
  }

  lemma IssuanceOk(p: Params, u: nat)
    requires Moderate(p) && u <= MONEY_BOUND
    ensures Ppm(u, p.issuanceRatePpm) == Some(Issuance(p, u)) && Issuance(p, u) <= 2 * MONEY_BOUND
  {
    PpmOk(u, p.issuanceRatePpm, 2);
  }

  lemma AccrualOk(p: Params, u: nat)
    requires Moderate(p) && u <= MONEY_BOUND
    ensures AccrualM(p, u) == Some(Accrual(p, u)) && Accrual(p, u) <= 2 * MONEY_BOUND
  {
    PpmOk(u, p.spRatePpm, 1);
    PpmOk(u * p.spRatePpm / PPM, p.efficiencyMultPpm, 2);
  }

  lemma ClaimStakeOk(p: Params, maxUcu: nat, sp: int)
    requires Moderate(p) && maxUcu <= MONEY_BOUND && sp <= STANDING_BOUND
    ensures ClaimStakeM(p, maxUcu, sp) == Some(ClaimStake(p, maxUcu, sp))
            && ClaimStake(p, maxUcu, sp) <= 2 * MONEY_BOUND
  {
    PpmOk(maxUcu, p.stakeBasePpm, 2);
    var base, rest := StakeBase(p, maxUcu), PPM - DiscountReductionPpm(p, sp);
    MulMonotone(base, rest, PPM);
    DivMonotone(base * rest, base * PPM, PPM);
  }

  lemma DecayOk(p: Params, sp: int)
    requires 0 <= sp <= STANDING_BOUND
    ensures DecayM(p, sp) == Some(Decay(p, sp))
  {
    MulMonotone(sp, PPM - p.decayRatePpm, PPM);
    MulMonotone(sp, 0, PPM - p.decayRatePpm);
  }

  lemma FineOk(p: Params, paid: nat)
    requires Moderate(p) && paid <= MONEY_BOUND
    ensures Ppm(paid, p.fineMultPpm) == Some(Fine(p, paid)) && Fine(p, paid) <= 2 * MONEY_BOUND
    ensures Ppm(Fine(p, paid), p.challengerRewardPpm) == Some(ChallengerReward(p, Fine(p, paid)))
  {
    PpmOk(paid, p.fineMultPpm, 2);
    PpmOk(Fine(p, paid), p.challengerRewardPpm, 1);
  }

  // ---- accounts ----

  /** Every pot is between zero and `bound`. */
  ghost predicate Within(accounts: map<Identity, Account>, bound: int) {
    forall id {:trigger AccountOf(accounts, id)} ::
      var a := AccountOf(accounts, id);
      NonNegative(a) && a.balance <= bound && a.escrowed <= bound && a.bonded <= bound
  }

  lemma HeldWithin(accounts: map<Identity, Account>)
    requires Solvent(accounts)
    ensures Within(accounts, Held(accounts)) && Held(accounts) >= 0
  {
    var m := PotMap(accounts);
    forall id | id in m
      ensures m[id] >= 0
    {
      assert NonNegative(AccountOf(accounts, id));
    }
    SumBounds(m);
    forall id
      ensures NonNegative(AccountOf(accounts, id)) && Pots(AccountOf(accounts, id)) <= Held(accounts)
    {
      assert NonNegative(AccountOf(accounts, id));
      assert id in accounts ==> m[id] <= Sum(m);
    }
  }

  lemma WithinMore(accounts: map<Identity, Account>, bound: int, more: int)
    requires Within(accounts, bound) && bound <= more
    ensures Within(accounts, more)
  {
  }

  lemma MoneyWithin(s: State)
    requires Conserved(s) && Sound(s) && s.supply.minted <= MONEY_BOUND
    ensures Within(s.accounts, MONEY_BOUND)
    ensures 0 <= s.feePool <= MONEY_BOUND && 0 <= s.supply.burned <= s.supply.minted && Held(s.accounts) <= MONEY_BOUND
  {
    HeldWithin(s.accounts);
    WithinMore(s.accounts, Held(s.accounts), MONEY_BOUND);
  }

  /** One checked movement: it goes through, and pots grow by at most `grow`. */
  lemma AdjustOk(accounts: map<Identity, Account>, bound: int, id: Identity, dBalance: int, dEscrowed: int,
                 dBonded: int, grow: nat)
    requires Within(accounts, bound) && bound + grow < TWO_128
    requires dBalance <= grow && dEscrowed <= grow && dBonded <= grow
    requires var a := AccountOf(accounts, id);
             a.balance + dBalance >= 0 && a.escrowed + dEscrowed >= 0 && a.bonded + dBonded >= 0
    ensures AdjustM(accounts, id, dBalance, dEscrowed, dBonded)
            == Some(Adjust(accounts, id, dBalance, dEscrowed, dBonded))
    ensures Within(Adjust(accounts, id, dBalance, dEscrowed, dBonded), bound + grow)
  {
    var after := Adjust(accounts, id, dBalance, dEscrowed, dBonded);
    assert NonNegative(AccountOf(accounts, id));
    forall x
      ensures var a := AccountOf(after, x);
              NonNegative(a) && a.balance <= bound + grow && a.escrowed <= bound + grow && a.bonded <= bound + grow
    {
      assert NonNegative(AccountOf(accounts, x));
    }
  }

  lemma AdjustTwice(accounts: map<Identity, Account>, id: Identity, b: int, e: int, d: int, b': int, e': int, d': int)
    ensures Adjust(Adjust(accounts, id, b, e, d), id, b', e', d') == Adjust(accounts, id, b + b', e + e', d + d')
  {
  }

  // ---- transactions ----

  /** The fee of an absurd ceiling is the one computation a caller can drive out of range: a submission
      fails in machine arithmetic if and only if the product of ceiling and fee rate does. */
  lemma SubmitFailsIff(c: Crypto, p: Params, s: State, requester: Identity, body: TaskBody)
    requires Within(s.accounts, MONEY_BOUND)
    ensures SubmitM(c, p, s, requester, body).None?
            <==> body.tier == SampledReexec && c.taskId(body) !in s.tasks && body.limits.maxUcu * p.feePpm >= TWO_128
    ensures SubmitM(c, p, s, requester, body).Some?
            ==> SubmitM(c, p, s, requester, body).value == Submit(c, p, s, requester, body)
  {
    var need := body.limits.maxUcu + Fee(p, body.limits.maxUcu);
    assert NonNegative(AccountOf(s.accounts, requester));
    if AccountOf(s.accounts, requester).balance >= need {
      AdjustOk(s.accounts, MONEY_BOUND, requester, -need, need, 0, need);
    }
  }

  lemma SubmitOk(c: Crypto, p: Params, s: State, requester: Identity, body: TaskBody)
    requires Moderate(p) && Within(s.accounts, MONEY_BOUND) && body.limits.maxUcu <= MONEY_BOUND
    ensures SubmitM(c, p, s, requester, body) == Some(Submit(c, p, s, requester, body))
  {
    FeeOk(p, body.limits.maxUcu);
    SubmitFailsIff(c, p, s, requester, body);
  }

  lemma ClaimOk(c: Crypto, p: Params, s: State, provider: Identity, task: TaskId)
    requires Moderate(p) && AmountsInRange(p, s) && Affordable(s) && Within(s.accounts, MONEY_BOUND)
    ensures ClaimM(p, s, provider, task) == Some(Claim(p, s, provider, task))
  {
    if task in s.bodies && task in s.tasks {
      var max, sp := s.bodies[task].limits.maxUcu, StandingOf(s, provider);
      ClaimStakeOk(p, max, sp);
      var stake: int := ClaimStake(p, max, sp);
      assert NonNegative(AccountOf(s.accounts, provider));
      if AccountOf(s.accounts, provider).balance >= stake {
        AdjustOk(s.accounts, MONEY_BOUND, provider, -stake, 0, stake, stake);
      }
    }
  }

  lemma RefundOk(accounts: map<Identity, Account>, requester: Identity, maxUcu: nat, fee: nat, u: nat)
    requires Within(accounts, MONEY_BOUND)
    requires u <= maxUcu <= MONEY_BOUND && fee <= 2 * MONEY_BOUND
    requires AccountOf(accounts, requester).escrowed >= maxUcu + fee
    ensures var refunded := Adjust(accounts, requester, maxUcu - u, -(maxUcu + fee), 0);
            RefundM(accounts, requester, maxUcu, fee, u) == Some(refunded) && Within(refunded, 2 * MONEY_BOUND)
  {
    var drained := Adjust(accounts, requester, 0, -(maxUcu + fee), 0);
    assert NonNegative(AccountOf(accounts, requester));
    AdjustOk(accounts, MONEY_BOUND, requester, 0, -(maxUcu + fee), 0, 0);
    assert NonNegative(AccountOf(drained, requester));
    AdjustOk(drained, MONEY_BOUND, requester, maxUcu - u, 0, 0, MONEY_BOUND);
    AdjustTwice(accounts, requester, 0, -(maxUcu + fee), 0, maxUcu - u, 0, 0);
  }

  lemma PayOk(accounts: map<Identity, Account>, requester: Identity, provider: Identity, maxUcu: nat, fee: nat,
              u: nat, w: nat)
    requires Within(accounts, MONEY_BOUND)
    requires u <= maxUcu <= MONEY_BOUND && fee <= 2 * MONEY_BOUND && w <= 2 * MONEY_BOUND
    requires AccountOf(accounts, requester).escrowed >= maxUcu + fee
    ensures PayM(accounts, requester, provider, maxUcu, fee, u, w)
            == Some(Adjust(Adjust(accounts, requester, maxUcu - u, -(maxUcu + fee), 0), provider, u + w, 0, 0))
  {
    var refunded := Adjust(accounts, requester, maxUcu - u, -(maxUcu + fee), 0);
    RefundOk(accounts, requester, maxUcu, fee, u);
    var paid := Adjust(refunded, provider, u, 0, 0);
    assert NonNegative(AccountOf(refunded, provider));
    AdjustOk(refunded, 2 * MONEY_BOUND, provider, u, 0, 0, MONEY_BOUND);
    assert NonNegative(AccountOf(paid, provider));
    AdjustOk(paid, 3 * MONEY_BOUND, provider, w, 0, 0, 2 * MONEY_BOUND);
    AdjustTwice(refunded, provider, u, 0, 0, w, 0, 0);
  }

  /** The settled state as a function of the amounts that come out of a rate. */
  function SettledWith(p: Params, s: State, body: TaskBody, sub: Submission, proof: ComputeProof, w: nat,
                       delta: nat): State {
    var max, u: int := body.limits.maxUcu, proof.ucuCount;
    var st := StandingRecordOf(s.standing, proof.provider, s.epoch);
    s.(
      accounts := Adjust(Adjust(s.accounts, sub.requester, max - u, -(max + sub.fee), 0), proof.provider, u + w, 0, 0),
      standing := s.standing[proof.provider := st.(sp := st.sp + delta)],
      tasks := s.tasks[proof.task := sub.(status := Settled, ucuCount := u)],
      receipts := s.receipts[proof.task := Receipt(proof.task, u, w, sub.fee, delta,
                                                   s.epoch, s.epoch + p.clawbackEpochs)],
      qLedger := s.qLedger[proof.task := QLedgerEntry(proof.task, u, None, None, None, body.benchmark)],
      supply := s.supply.(minted := s.supply.minted + w),
      feePool := s.feePool + sub.fee)
  }

  lemma SettleShape(p: Params, s: State, body: TaskBody, sub: Submission, proof: ComputeProof)
    ensures Settle(p, s, body, sub, proof) == SettledWith(p, s, body, sub, proof, Issuance(p, proof.ucuCount),
            Accrual(p, proof.ucuCount))
  {
  }

  lemma SettleJoin(p: Params, s: State, body: TaskBody, sub: Submission, proof: ComputeProof, w: nat, delta: nat)
    requires 0 <= s.feePool + sub.fee < TWO_128 && 0 <= s.supply.minted + w < TWO_128
    requires s.epoch + p.clawbackEpochs < TWO_64
    requires Ppm(proof.ucuCount, p.issuanceRatePpm) == Some(w)
    requires var max, u: int := body.limits.maxUcu, proof.ucuCount;
             PayM(s.accounts, sub.requester, proof.provider, max, sub.fee, u, w)
             == Some(Adjust(Adjust(s.accounts, sub.requester, max - u, -(max + sub.fee), 0),
                            proof.provider, u + w, 0, 0))
    requires var st := StandingRecordOf(s.standing, proof.provider, s.epoch);
             AccrueM(p, s.standing, proof.provider, s.epoch, proof.ucuCount)
             == Some((s.standing[proof.provider := st.(sp := st.sp + delta)], delta as int))
    ensures SettleM(p, s, body, sub, proof) == Some(SettledWith(p, s, body, sub, proof, w, delta))
  {
  }

  lemma SettleWithOk(p: Params, s: State, body: TaskBody, sub: Submission, proof: ComputeProof, w: nat, delta: nat)
    requires AmountsInRange(p, s)
    requires Within(s.accounts, MONEY_BOUND) && 0 <= s.feePool <= MONEY_BOUND && 0 <= s.supply.minted
    requires proof.ucuCount <= body.limits.maxUcu <= MONEY_BOUND && sub.fee <= 2 * MONEY_BOUND && w <= 2 * MONEY_BOUND
    requires AccountOf(s.accounts, sub.requester).escrowed >= body.limits.maxUcu + sub.fee
    requires Ppm(proof.ucuCount, p.issuanceRatePpm) == Some(w)
    requires var st := StandingRecordOf(s.standing, proof.provider, s.epoch);
             AccrueM(p, s.standing, proof.provider, s.epoch, proof.ucuCount)
             == Some((s.standing[proof.provider := st.(sp := st.sp + delta)], delta as int))
    ensures SettleM(p, s, body, sub, proof) == Some(SettledWith(p, s, body, sub, proof, w, delta))
  {
    PayOk(s.accounts, sub.requester, proof.provider, body.limits.maxUcu, sub.fee, proof.ucuCount, w);
    SettleJoin(p, s, body, sub, proof, w, delta);
  }

  lemma SettleOk(p: Params, s: State, body: TaskBody, sub: Submission, proof: ComputeProof)
    requires Moderate(p) && AmountsInRange(p, s) && StandingNonNegative(s)
    requires Within(s.accounts, MONEY_BOUND) && 0 <= s.feePool <= MONEY_BOUND && 0 <= s.supply.minted
    requires proof.ucuCount <= body.limits.maxUcu <= MONEY_BOUND && sub.fee == Fee(p, body.limits.maxUcu)
    requires AccountOf(s.accounts, sub.requester).escrowed >= body.limits.maxUcu + sub.fee
    ensures SettleM(p, s, body, sub, proof) == Some(Settle(p, s, body, sub, proof))
  {
    IssuanceOk(p, proof.ucuCount);
    FeeOk(p, body.limits.maxUcu);
    AccrueOk(p, s.standing, proof.provider, s.epoch, proof.ucuCount);
    SettleWithOk(p, s, body, sub, proof, Issuance(p, proof.ucuCount), Accrual(p, proof.ucuCount));
    SettleShape(p, s, body, sub, proof);
  }

  lemma AccrueOk(p: Params, standing: map<Identity, StandingRecord>, provider: Identity, epoch: nat, u: nat)
    requires Moderate(p) && u <= MONEY_BOUND
    requires forall id :: id in standing ==> 0 <= standing[id].sp <= STANDING_BOUND
    ensures var st := StandingRecordOf(standing, provider, epoch);
            AccrueM(p, standing, provider, epoch, u)
            == Some((standing[provider := st.(sp := st.sp + Accrual(p, u))], Accrual(p, u) as int))
  {
    AccrualOk(p, u);
  }

  lemma ProveOk(c: Crypto, p: Params, s: State, author: Identity, proof: ComputeProof)
    requires Consistent(c, p, s) && Sound(s) && Conserved(s) && Affordable(s) && StandingNonNegative(s)
    requires Moderate(p) && AmountsInRange(p, s)
    ensures ProveM(p, s, author, proof) == Some(Prove(p, s, author, proof))
  {
    if Prove(p, s, author, proof).Ok? {
      About(c, p, s, proof.task);
      MoneyWithin(s);
      ProveSound(c, p, s, author, proof);
      SettleOk(p, s.(proofs := s.proofs[proof.task := proof]), s.bodies[proof.task], s.tasks[proof.task], proof);
    }
  }

  lemma OpenOk(c: Crypto, p: Params, s: State, challenger: Identity, task: TaskId, bond: nat)
    requires Consistent(c, p, s) && Affordable(s) && Within(s.accounts, MONEY_BOUND) && s.supply.minted <= MONEY_BOUND
            && Moderate(p)
    ensures OpenM(p, s, challenger, task, bond) == Some(OpenChallenge(p, s, challenger, task, bond))
  {
    if task in s.receipts && task in s.tasks {
      About(c, p, s, task);
      PpmOk(s.receipts[task].paidToProvider, p.bondMinPpm, 2);
      assert NonNegative(AccountOf(s.accounts, challenger));
      if AccountOf(s.accounts, challenger).balance >= bond {
        AdjustOk(s.accounts, MONEY_BOUND, challenger, -(bond as int), 0, bond, bond);
      }
    }
  }

  lemma TransferOk(s: State, from: Identity, to: Identity, amount: nat)
    requires Within(s.accounts, MONEY_BOUND)
    ensures TransferM(s, from, to, amount) == Some(TransferTo(s, from, to, amount))
  {
    assert NonNegative(AccountOf(s.accounts, from));
    if AccountOf(s.accounts, from).balance >= amount {
      var debited := Adjust(s.accounts, from, -(amount as int), 0, 0);
      AdjustOk(s.accounts, MONEY_BOUND, from, -(amount as int), 0, 0, 0);
      assert NonNegative(AccountOf(debited, to));
      AdjustOk(debited, MONEY_BOUND, to, amount, 0, 0, amount);
    }
  }


  /** What a transition needs of the state it starts from. */
  ghost predicate Ready(c: Crypto, p: Params, s: State) {
    Consistent(c, p, s) && Sound(s) && Conserved(s) && Affordable(s) && StandingNonNegative(s) && AmountsInRange(p, s)
  }

  lemma DispatchOk(c: Crypto, p: Params, s: State, author: Identity, tx: Tx)
    requires Ready(c, p, s) && Moderate(p)
    requires tx.SubmitTask? ==> tx.body.limits.maxUcu <= MONEY_BOUND
    ensures DispatchM(c, p, s, author, tx) == Some(Dispatch(c, p, s, author, tx))
  {
    MoneyWithin(s);
    match tx
    case SubmitTask(body) => SubmitOk(c, p, s, author, body);
    case ClaimTask(task) => ClaimOk(c, p, s, author, task);
    case SubmitProof(proof) => ProveOk(c, p, s, author, proof);
    case Transfer(to, amount) => TransferOk(s, author, to, amount);
    case Challenge(task, bond) => OpenOk(c, p, s, author, task, bond);
  }

  lemma BumpReady(c: Crypto, p: Params, s: State, author: Identity)
    requires Ready(c, p, s)
    ensures Ready(c, p, BumpNonce(s, author))
  {
    assert SameRecords(s, BumpNonce(s, author));
    SameLifecycle(c, p, s, BumpNonce(s, author));
  }

  lemma ApplyOk(c: Crypto, p: Params, s: State, stx: SignedTx)
    requires Ready(c, p, s) && StateInRange(p, s) && Moderate(p)
    requires stx.tx.SubmitTask? ==> stx.tx.body.limits.maxUcu <= MONEY_BOUND
    ensures ApplyM(c, p, s, stx) == Some(Apply(c, p, s, stx))
  {
    BumpReady(c, p, s, stx.author);
    DispatchOk(c, p, BumpNonce(s, stx.author), stx.author, stx.tx);
  }

  // ---- epoch boundary ----

  lemma ReleaseOk(accounts: map<Identity, Account>, tasks: map<TaskId, Submission>, t: TaskId)
    requires Within(accounts, MONEY_BOUND)
    ensures ReleaseM(accounts, tasks, t) == Some(LedgerSpec.Release(accounts, tasks, t))
  {
    if t in tasks && tasks[t].provider.Some? {
      var id := tasks[t].provider.value;
      assert NonNegative(AccountOf(accounts, id));
      var amount := Min(tasks[t].claimStake, AccountOf(accounts, id).bonded);
      AdjustOk(accounts, MONEY_BOUND, id, amount, 0, -amount, amount);
    }
  }

  lemma {:induction false} ReleaseAllOk(accounts: map<Identity, Account>, tasks: map<TaskId, Submission>,
                                        bodies: map<TaskId, TaskBody>, done: set<TaskId>)
    requires Solvent(accounts) && Backed(accounts, tasks, bodies) && Held(accounts) <= MONEY_BOUND
    ensures ReleaseAllM(accounts, tasks, done) == Some(ReleaseAll(accounts, tasks, done))
    decreases |done|
  {
    if done != {} {
      var t := Pick(done);
      var before := ReleaseAll(accounts, tasks, done - {t});
      ReleaseAllOk(accounts, tasks, bodies, done - {t});
      ReleaseSound(accounts, tasks, bodies, done - {t});
      HeldRelease(accounts, tasks, done - {t});
      HeldWithin(before);
      WithinMore(before, Held(before), MONEY_BOUND);
      ReleaseOk(before, tasks, t);
    }
  }

  lemma MapOk(standing: map<Identity, StandingRecord>, f: StandingRecord -> Option<StandingRecord>,
              after: map<Identity, StandingRecord>)
    requires after.Keys == standing.Keys
    requires forall id :: id in standing ==> f(standing[id]) == Some(after[id])
    ensures MapM(standing, f) == Some(after)
  {
    var r := MapM(standing, f);
    assert r.Some? && r.value.Keys == after.Keys;
    assert forall id :: id in after ==> r.value[id] == after[id];
    assert r.value == after;
  }

  lemma DecayAllOk(p: Params, standing: map<Identity, StandingRecord>, epoch: nat)
    requires forall id :: id in standing ==> 0 <= standing[id].sp <= STANDING_BOUND
    ensures DecayAllM(p, standing, epoch) == Some(DecayAll(p, standing, epoch))
  {
    var after := DecayAll(p, standing, epoch);
    forall id | id in standing
      ensures DecayRecordM(p, epoch)(standing[id]) == Some(after[id])
    {
      DecayOk(p, standing[id].sp);
    }
    MapOk(standing, DecayRecordM(p, epoch), after);
  }

  lemma AdvanceEpochOk(c: Crypto, p: Params, s: State)
    requires Ready(c, p, s)
    ensures AdvanceEpochM(p, s) == Some(AdvanceEpoch(p, s))
  {
    MoneyWithin(s);
    DecayAllOk(p, s.standing, s.epoch + 1);
    ReleaseAllOk(s.accounts, s.tasks, s.bodies, DueTasks(s, s.epoch + 1));
  }

  // ---- verdicts ----

  lemma ClawBackOk(accounts: map<Identity, Account>, paid: nat, provider: Identity, requester: Identity)
    requires Within(accounts, MONEY_BOUND)
    ensures var recovered := Min(paid, AccountOf(accounts, provider).bonded);
            var repaid := Adjust(Adjust(accounts, provider, 0, 0, -recovered), requester, recovered, 0, 0);
            ClawBackM(accounts, paid, provider, requester) == Some(repaid) && Within(repaid, 2 * MONEY_BOUND)
  {
    assert NonNegative(AccountOf(accounts, provider));
    var recovered := Min(paid, AccountOf(accounts, provider).bonded);
    var clawed := Adjust(accounts, provider, 0, 0, -recovered);
    AdjustOk(accounts, MONEY_BOUND, provider, 0, 0, -recovered, 0);
    assert NonNegative(AccountOf(clawed, requester));
    AdjustOk(clawed, MONEY_BOUND, requester, recovered, 0, 0, MONEY_BOUND);
  }

  lemma BurnAndFineOk(p: Params, accounts: map<Identity, Account>, burned: int, r: Receipt, provider: Identity)
    requires Moderate(p) && Within(accounts, 2 * MONEY_BOUND) && 0 <= burned <= MONEY_BOUND
    requires r.paidToProvider <= MONEY_BOUND && r.workIssuance <= 2 * MONEY_BOUND
    ensures var a := AccountOf(accounts, provider);
            var burnW, fine := Min(r.workIssuance, a.balance), Min(Fine(p, r.paidToProvider), a.bonded);
            var reward := Min(ChallengerReward(p, Fine(p, r.paidToProvider)), fine);
            var fined := Adjust(accounts, provider, -burnW, 0, -fine);
            && BurnAndFineM(p, accounts, burned, r, provider)
               == Some(Seizure(fined, burned + burnW + fine - reward, fine, reward))
            && Within(fined, 2 * MONEY_BOUND) && 0 <= reward <= 2 * MONEY_BOUND
  {
    FineOk(p, r.paidToProvider);
    assert NonNegative(AccountOf(accounts, provider));
    var burnW := Min(r.workIssuance, AccountOf(accounts, provider).balance);
    var offset := Adjust(accounts, provider, -burnW, 0, 0);
    AdjustOk(accounts, 2 * MONEY_BOUND, provider, -burnW, 0, 0, 0);
    var fine := Min(Fine(p, r.paidToProvider), AccountOf(offset, provider).bonded);
    AdjustOk(offset, 2 * MONEY_BOUND, provider, 0, 0, -fine, 0);
    AdjustTwice(accounts, provider, -burnW, 0, 0, 0, 0, -fine);
  }

  /** What burn and fine can draw on once the clawback is through. */
  lemma AfterClawBack(accounts: map<Identity, Account>, provider: Identity, requester: Identity, recovered: int)
    ensures var a := AccountOf(accounts, provider);
            var b := AccountOf(Adjust(Adjust(accounts, provider, 0, 0, -recovered), requester, recovered, 0, 0),
              provider);
            b.balance == a.balance + (if provider == requester then recovered else 0)
              && b.bonded == a.bonded - recovered
  {
  }

  lemma SeizeOk(p: Params, accounts: map<Identity, Account>, burned: int, r: Receipt, provider: Identity,
                requester: Identity)
    requires Moderate(p) && Within(accounts, MONEY_BOUND) && 0 <= burned <= MONEY_BOUND
    requires r.paidToProvider <= MONEY_BOUND && r.workIssuance <= 2 * MONEY_BOUND
    ensures var x := PenaltyFor(p, accounts, r, provider, requester);
            var after := Punish(accounts, provider, requester, x, None);
            && SeizeM(p, accounts, burned, r, provider, requester)
               == Some(Seizure(after, burned + x.burnedIssuance + x.fine - x.reward, x.fine, x.reward))
            && Within(after, 2 * MONEY_BOUND)
            && 0 <= x.reward <= 2 * MONEY_BOUND
  {
    var x := PenaltyFor(p, accounts, r, provider, requester);
    var repaid := Adjust(Adjust(accounts, provider, 0, 0, -x.recovered), requester, x.recovered, 0, 0);
    ClawBackOk(accounts, r.paidToProvider, provider, requester);
    AfterClawBack(accounts, provider, requester, x.recovered);
    SeizeJoin(p, accounts, burned, r, provider, requester, repaid);
    BurnAndFineOk(p, repaid, burned, r, provider);
    SeizeInSteps(accounts, provider, requester, x.recovered, x.burnedIssuance, x.fine);
  }

  lemma SeizeJoin(p: Params, accounts: map<Identity, Account>, burned: int, r: Receipt, provider: Identity,
                  requester: Identity, repaid: map<Identity, Account>)
    requires ClawBackM(accounts, r.paidToProvider, provider, requester) == Some(repaid)
    ensures SeizeM(p, accounts, burned, r, provider, requester) == BurnAndFineM(p, repaid, burned, r, provider)
  {
  }

  lemma RewardOk(x: Seizure, feePool: int, rewardTo: Option<Identity>)
    requires Within(x.accounts, 2 * MONEY_BOUND) && 0 <= feePool <= MONEY_BOUND && 0 <= x.reward <= 2 * MONEY_BOUND
    ensures RewardM(x, feePool, rewardTo)
            == Some((match rewardTo case Some(id) => Adjust(x.accounts, id, x.reward, 0, 0) case None => x.accounts,
                     feePool + if rewardTo.None? then x.reward else 0))
  {
    if rewardTo.Some? {
      assert NonNegative(AccountOf(x.accounts, rewardTo.value));
      AdjustOk(x.accounts, 2 * MONEY_BOUND, rewardTo.value, x.reward, 0, 0, 2 * MONEY_BOUND);
    }
  }

  lemma ReceiptInRange(c: Crypto, p: Params, s: State, t: TaskId)
    requires Ready(c, p, s) && Moderate(p) && t in s.receipts
    ensures s.receipts[t].paidToProvider <= MONEY_BOUND && s.receipts[t].workIssuance <= 2 * MONEY_BOUND
  {
    About(c, p, s, t);
    IssuanceOk(p, s.receipts[t].paidToProvider);
  }

  lemma PenaltiesOk(p: Params, accounts: map<Identity, Account>, burned: int, feePool: int, r: Receipt,
                    provider: Identity, requester: Identity, rewardTo: Option<Identity>)
    requires Moderate(p) && Within(accounts, MONEY_BOUND) && 0 <= burned <= MONEY_BOUND && 0 <= feePool <= MONEY_BOUND
    requires r.paidToProvider <= MONEY_BOUND && r.workIssuance <= 2 * MONEY_BOUND
    ensures var x := PenaltyFor(p, accounts, r, provider, requester);
            PenaltiesM(p, accounts, burned, feePool, r, provider, requester, rewardTo)
            == Some((Punish(accounts, provider, requester, x, rewardTo), burned + x.burnedIssuance + x.fine - x.reward,
                     feePool + if rewardTo.None? then x.reward else 0))
  {
    var x := PenaltyFor(p, accounts, r, provider, requester);
    var after := Punish(accounts, provider, requester, x, None);
    SeizeOk(p, accounts, burned, r, provider, requester);
    RewardOk(Seizure(after, burned + x.burnedIssuance + x.fine - x.reward, x.fine, x.reward), feePool, rewardTo);
  }

  /** The state after a fraud verdict as a function of the amounts it leaves. */
  function FraudWith(s: State, t: TaskId, accounts: map<Identity, Account>, burned: int, feePool: int): State
    requires Slashable(s, t)
  {
    var sub := s.tasks[t];
    var st := StandingRecordOf(s.standing, sub.provider.value, s.epoch);
    s.(
      accounts := accounts,
      feePool := feePool,
      supply := s.supply.(burned := burned),
      standing := s.standing[sub.provider.value := st.(sp := 0, strikes := st.strikes + 1)],
      slashed := s.slashed + {t},
      tasks := s.tasks[t := sub.(status := Failed)])
  }

  lemma FraudShape(p: Params, s: State, t: TaskId, rewardTo: Option<Identity>)
    requires Slashable(s, t)
    ensures var sub := s.tasks[t];
            var x := PenaltyFor(p, s.accounts, s.receipts[t], sub.provider.value, sub.requester);
            ResolveFraud(p, s, t, rewardTo)
            == FraudWith(s, t, Punish(s.accounts, sub.provider.value, sub.requester, x, rewardTo),
                         s.supply.burned + x.burnedIssuance + x.fine - x.reward,
                         s.feePool + if rewardTo.None? then x.reward else 0)
  {
  }

  lemma FraudWithOk(p: Params, s: State, t: TaskId, rewardTo: Option<Identity>, accounts: map<Identity, Account>,
                    burned: int, feePool: int)
    requires Slashable(s, t) && StandingRecordOf(s.standing, s.tasks[t].provider.value, s.epoch).strikes + 1 < TWO_32
    requires PenaltiesM(p, s.accounts, s.supply.burned, s.feePool, s.receipts[t], s.tasks[t].provider.value,
                        s.tasks[t].requester, rewardTo) == Some((accounts, burned, feePool))
    ensures ResolveFraudM(p, s, t, rewardTo) == Some(FraudWith(s, t, accounts, burned, feePool))
  {
  }

  lemma FraudOk(c: Crypto, p: Params, s: State, t: TaskId, rewardTo: Option<Identity>)
    requires Ready(c, p, s) && Moderate(p)
    ensures ResolveFraudM(p, s, t, rewardTo) == Some(ResolveFraud(p, s, t, rewardTo))
  {
    if Slashable(s, t) {
      MoneyWithin(s);
      ReceiptInRange(c, p, s, t);
      SlashOk(p, s, t, rewardTo);
    }
  }

  lemma SlashOk(p: Params, s: State, t: TaskId, rewardTo: Option<Identity>)
    requires Slashable(s, t) && Moderate(p) && AmountsInRange(p, s)
    requires Within(s.accounts, MONEY_BOUND) && 0 <= s.supply.burned <= MONEY_BOUND && 0 <= s.feePool <= MONEY_BOUND
    requires s.receipts[t].paidToProvider <= MONEY_BOUND && s.receipts[t].workIssuance <= 2 * MONEY_BOUND
    ensures ResolveFraudM(p, s, t, rewardTo) == Some(ResolveFraud(p, s, t, rewardTo))
  {
    var sub := s.tasks[t];
    var x := PenaltyFor(p, s.accounts, s.receipts[t], sub.provider.value, sub.requester);
    PenaltiesOk(p, s.accounts, s.supply.burned, s.feePool, s.receipts[t], sub.provider.value, sub.requester, rewardTo);
    FraudWithOk(p, s, t, rewardTo, Punish(s.accounts, sub.provider.value, sub.requester, x, rewardTo),
                s.supply.burned + x.burnedIssuance + x.fine - x.reward,
                s.feePool + if rewardTo.None? then x.reward else 0);
    FraudShape(p, s, t, rewardTo);
  }

  lemma CloseOk(s: State, pc: ChallengeRecord, fraud: bool)
    requires Conserved(s) && Sound(s) && s.supply.minted <= MONEY_BOUND
    ensures CloseChallengeM(s, pc, fraud) == Some(CloseChallenge(s, pc, fraud))
  {
    MoneyWithin(s);
    assert NonNegative(AccountOf(s.accounts, pc.challenger));
    var b := Min(pc.bond, AccountOf(s.accounts, pc.challenger).bonded);
    AdjustOk(s.accounts, MONEY_BOUND, pc.challenger, if fraud then b else 0, 0, -b, MONEY_BOUND);
  }

  lemma VerdictOk(c: Crypto, p: Params, s: State, t: TaskId, fraud: bool)
    requires Ready(c, p, s) && Moderate(p)
    ensures ResolveChallengeM(p, s, t, fraud) == Some(ResolveChallenge(p, s, t, fraud))
  {
    if t in s.pending {
      var pc := s.pending[t];
      var s1 := s.(pending := s.pending - {t});
      assert SameRecords(s, s1);
      SameLifecycle(c, p, s, s1);
      if fraud {
        FraudOk(c, p, s1, t, Some(pc.challenger));
        FraudSound(c, p, s1, t, Some(pc.challenger));
        FraudConserved(p, s1, t, Some(pc.challenger));
        FraudBooks(p, s1, t, Some(pc.challenger));
      }
      CloseOk(if fraud then ResolveFraud(p, s1, t, Some(pc.challenger)) else s1, pc, fraud);
    }
  }

  // ---- runs ----

  /** Within the bounds no step leaves machine arithmetic, and it computes what unbounded integers
      would. */
  lemma StepRefines(c: Crypto, p: Params, s: State, a: Action)
    requires Invariant(c, p, s) && Moderate(p) && StateInRange(p, s) && ActionInRange(a)
    ensures StepM(c, p, s, a) == Some(Step(c, p, s, a))
  {
    match a
    case Transact(stx) => ApplyOk(c, p, s, stx);
    case Boundary => AdvanceEpochOk(c, p, s);
    case FraudVerdict(t, rewardTo) => FraudOk(c, p, s, t, rewardTo);
    case ChallengeVerdict(t, fraud) => VerdictOk(c, p, s, t, fraud);
  }

  /** The states a run passes through before its last step stay in range. */
  ghost predicate RunInRange(c: Crypto, p: Params, s: State, actions: seq<Action>) {
    forall i :: 0 <= i < |actions| ==> StateInRange(p, Run(c, p, s, actions[..i])) && ActionInRange(actions[i])
  }

  /** The machine theorem: from genesis, while minted currency, Standing, submitted ceilings and
      counters are in range, the checked arithmetic never fails and the machine ledger is the
      unbounded one. */
  lemma {:induction false} RunRefines(c: Crypto, p: Params, allocations: seq<(Identity, nat)>, epoch: nat,
                                      actions: seq<Action>)
    requires Moderate(p) && RunInRange(c, p, Genesis(allocations, epoch), actions)
    ensures RunM(c, p, Genesis(allocations, epoch), actions) == Some(Run(c, p, Genesis(allocations, epoch), actions))
  {
    if actions != [] {
      var n, g := |actions| - 1, Genesis(allocations, epoch);
      var earlier := actions[..n];
      forall i | 0 <= i < n
        ensures StateInRange(p, Run(c, p, g, earlier[..i])) && ActionInRange(earlier[i])
      {
        assert earlier[..i] == actions[..i];
      }
      RunRefines(c, p, allocations, epoch, earlier);
      GenesisInvariant(c, p, allocations, epoch);
      RunInvariant(c, p, g, earlier);
      StepRefines(c, p, Run(c, p, g, earlier), actions[n]);
    }
  }

  /** In particular under the devnet parameters. */
  lemma DevnetRefines(c: Crypto, allocations: seq<(Identity, nat)>, epoch: nat, actions: seq<Action>)
    requires RunInRange(c, Devnet(), Genesis(allocations, epoch), actions)
    ensures RunM(c, Devnet(), Genesis(allocations, epoch), actions)
            == Some(Run(c, Devnet(), Genesis(allocations, epoch), actions))
  {
    RunRefines(c, Devnet(), allocations, epoch, actions);
  }

  // ---- genesis and audit ----

  lemma {:induction false} AllocatedWithin(allocations: seq<(Identity, nat)>, id: Identity)
    ensures AllocatedTo(allocations, id) <= AllocatedTotal(allocations)
  {
    if allocations != [] {
      AllocatedWithin(allocations[..|allocations| - 1], id);
    }
  }

  /** Genesis leaves machine arithmetic if and only if all allocations together do. */
  lemma {:induction false} GenesisFitsIff(allocations: seq<(Identity, nat)>)
    ensures GenesisM(allocations)
            == if AllocatedTotal(allocations) < TWO_128
               then Some((GenesisAccounts(allocations), AllocatedTotal(allocations) as int)) else None
  {
    if allocations != [] {
      var n := |allocations| - 1;
      GenesisFitsIff(allocations[..n]);
      GenesisConserved(allocations[..n], 0);
      AllocatedWithin(allocations[..n], allocations[n].0);
      var id := allocations[n].0;
      var before := Genesis(allocations[..n], 0);
      assert AccountOf(before.accounts, id) == Account(id, AllocatedTo(allocations[..n], id), 0, 0);
    }
  }

  lemma HeldSplit(accounts: map<Identity, Account>, id: Identity)
    requires id in accounts && forall k :: k in accounts ==> NonNegative(accounts[k])
    ensures Held(accounts) == Pots(accounts[id]) + Held(accounts - {id}) && Held(accounts - {id}) >= 0
  {
    var m := PotMap(accounts - {id});
    SumRemove(PotMap(accounts), id);
    assert PotMap(accounts) - {id} == m;
    assert forall k :: k in m ==> m[k] >= 0;
    SumBounds(m);
  }

  /** From any amount it may have reached, the audit overflows exactly when everything held together does. */
  lemma {:induction false} AuditFailsIff(accounts: map<Identity, Account>, held: int)
    requires forall id :: id in accounts ==> NonNegative(accounts[id])
    requires 0 <= held < TWO_128
    ensures AuditM(accounts, held) == if held + Held(accounts) < TWO_128 then Some(held + Held(accounts)) else None
    decreases |accounts|
  {
    if accounts == map[] {
      assert PotMap(accounts) == map[];
    } else {
      var id := Pick(accounts.Keys);
      HeldSplit(accounts, id);
      assert NonNegative(accounts[id]);
      if held + Pots(accounts[id]) < TWO_128 {
        AuditFailsIff(accounts - {id}, held + Pots(accounts[id]));
      }
    }
  }

  /** The audit of a reachable state never overflows: its last sum is what is in circulation. */
  lemma AuditOk(c: Crypto, p: Params, s: State)
    requires Invariant(c, p, s) && s.supply.minted < TWO_128
    ensures AuditM(s.accounts, s.feePool) == Some(s.supply.minted - s.supply.burned)
  {
    forall id | id in s.accounts
      ensures NonNegative(s.accounts[id])
    {
      assert NonNegative(AccountOf(s.accounts, id));
    }
    HeldWithin(s.accounts);
    AuditFailsIff(s.accounts, s.feePool);
  }
}
