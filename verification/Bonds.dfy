/** Each account's `bonded` pot against what is locked in it: the stakes of its claimed, unreleased
    tasks and the bonds of its open challenges. */
module Bonds {
  import opened Types
  import opened Governance
  import opened Sums
  import opened LedgerSpec
  import opened Lifecycle
  import opened Release
  import opened Escrow

  ghost function LockMap(tasks: map<TaskId, Submission>, released: set<TaskId>, id: Identity): map<TaskId, int> {
    map t | t in tasks :: if t !in released && tasks[t].provider == Some(id) then tasks[t].claimStake else 0
  }

  ghost function ChallengeMap(pending: map<TaskId, ChallengeRecord>, id: Identity): map<TaskId, int> {
    map t | t in pending :: if pending[t].challenger == id then pending[t].bond else 0
  }

  ghost function Locked(tasks: map<TaskId, Submission>, released: set<TaskId>, pending: map<TaskId, ChallengeRecord>,
                        id: Identity): int {
    Sum(LockMap(tasks, released, id)) + Sum(ChallengeMap(pending, id))
  }

  /** What is locked for `id` beyond its bond: zero until a fraud verdict draws on the bond. */
  ghost function Shortfall(s: State, id: Identity): int {
    Locked(s.tasks, s.released, s.pending, id) - AccountOf(s.accounts, id).bonded
  }

  /** No bond is larger than what is locked in it. */
  ghost predicate Covered(s: State) {
    forall id :: Shortfall(s, id) >= 0
  }

  /** Every bond is exactly what is locked in it. */
  ghost predicate Exact(s: State) {
    forall id :: Shortfall(s, id) == 0
  }

  // ---- how one entry moves the sums ----

  lemma PutLock(tasks: map<TaskId, Submission>, released: set<TaskId>, t: TaskId, sub: Submission, id: Identity)
    requires t !in released
    ensures Sum(LockMap(tasks[t := sub], released, id))
            == Sum(LockMap(tasks, released, id))
               + (if sub.provider == Some(id) then sub.claimStake else 0)
               - (if t in tasks && tasks[t].provider == Some(id) then tasks[t].claimStake else 0)
  {
    var before, after := LockMap(tasks, released, id), LockMap(tasks[t := sub], released, id);
    SumUpdate(before, t, after[t]);
    assert after == before[t := after[t]];
  }

  /** A task keeps its lock through settlement and failure. */
  lemma KeepLock(tasks: map<TaskId, Submission>, released: set<TaskId>, t: TaskId, sub: Submission, id: Identity)
    requires t in tasks && sub.provider == tasks[t].provider && sub.claimStake == tasks[t].claimStake
    ensures LockMap(tasks[t := sub], released, id) == LockMap(tasks, released, id)
  {
  }

  lemma PutChallenge(pending: map<TaskId, ChallengeRecord>, t: TaskId, pc: ChallengeRecord, id: Identity)
    requires t !in pending
    ensures Sum(ChallengeMap(pending[t := pc], id))
            == Sum(ChallengeMap(pending, id)) + if pc.challenger == id then pc.bond else 0
  {
    var before, after := ChallengeMap(pending, id), ChallengeMap(pending[t := pc], id);
    SumUpdate(before, t, after[t]);
    assert after == before[t := after[t]];
  }

  lemma TakeChallenge(pending: map<TaskId, ChallengeRecord>, t: TaskId, id: Identity)
    requires t in pending
    ensures Sum(ChallengeMap(pending - {t}, id))
            == Sum(ChallengeMap(pending, id)) - if pending[t].challenger == id then pending[t].bond else 0
  {
    PutChallenge(pending - {t}, t, pending[t], id);
    assert (pending - {t})[t := pending[t]] == pending;
  }

  lemma LockedNonNegative(tasks: map<TaskId, Submission>, released: set<TaskId>,
                          pending: map<TaskId, ChallengeRecord>, id: Identity)
    ensures Sum(LockMap(tasks, released, id)) >= 0 && Sum(ChallengeMap(pending, id)) >= 0
  {
    var a, b := LockMap(tasks, released, id), ChallengeMap(pending, id);
    assert forall t :: t in a ==> a[t] >= 0;
    assert forall t :: t in b ==> b[t] >= 0;
    SumBounds(a);
    SumBounds(b);
  }

  /** Released stakes leave the locked total by exactly what they owe. */
  lemma ReleaseLock(tasks: map<TaskId, Submission>, released: set<TaskId>, done: set<TaskId>, id: Identity)
    requires done !! released
    ensures Sum(LockMap(tasks, released, id)) == Sum(LockMap(tasks, released + done, id)) + Owed(tasks, done, id)
  {
    SumAdd(LockMap(tasks, released + done, id), StakeMap(tasks, done, id), LockMap(tasks, released, id));
  }

  // ---- one transition at a time ----

  lemma GenesisExact(allocations: seq<(Identity, nat)>, epoch: nat)
    ensures Exact(Genesis(allocations, epoch))
  {
    var s := Genesis(allocations, epoch);
    forall id
      ensures Shortfall(s, id) == 0
    {
      GenesisBond(allocations, id);
      assert LockMap(s.tasks, s.released, id) == map[] && ChallengeMap(s.pending, id) == map[];
    }
  }

  lemma {:induction false} GenesisBond(allocations: seq<(Identity, nat)>, id: Identity)
    ensures AccountOf(GenesisAccounts(allocations), id).bonded == 0
  {
    if allocations != [] {
      GenesisBond(allocations[..|allocations| - 1], id);
    }
  }

  /** No transaction opens or closes a gap between bonds and what they secure. */
  lemma DispatchShortfall(c: Crypto, p: Params, s: State, author: Identity, tx: Tx, id: Identity)
    requires Consistent(c, p, s) && Dispatch(c, p, s, author, tx).Ok?
    ensures Shortfall(Dispatch(c, p, s, author, tx).value, id) == Shortfall(s, id)
  {
    match tx
    case SubmitTask(body) => SubmitShortfall(c, p, s, author, body, id);
    case ClaimTask(t) => ClaimShortfall(c, p, s, author, t, id);
    case SubmitProof(proof) => ProveShortfall(p, s, author, proof, id);
    case Challenge(t, bond) => OpenShortfall(p, s, author, t, bond, id);
    case Transfer(to, amount) =>
  }

  lemma SubmitShortfall(c: Crypto, p: Params, s: State, requester: Identity, body: TaskBody, id: Identity)
    requires Consistent(c, p, s) && Submit(c, p, s, requester, body).Ok?
    ensures Shortfall(Submit(c, p, s, requester, body).value, id) == Shortfall(s, id)
  {
    var t := c.taskId(body);
    PutLock(s.tasks, s.released, t, Submit(c, p, s, requester, body).value.tasks[t], id);
  }

  lemma ClaimShortfall(c: Crypto, p: Params, s: State, provider: Identity, t: TaskId, id: Identity)
    requires Consistent(c, p, s) && Claim(p, s, provider, t).Ok?
    ensures Shortfall(Claim(p, s, provider, t).value, id) == Shortfall(s, id)
  {
    About(c, p, s, t);
    PutLock(s.tasks, s.released, t, Claim(p, s, provider, t).value.tasks[t], id);
  }

  lemma ProveShortfall(p: Params, s: State, author: Identity, proof: ComputeProof, id: Identity)
    requires Prove(p, s, author, proof).Ok?
    ensures Shortfall(Prove(p, s, author, proof).value, id) == Shortfall(s, id)
  {
    KeepLock(s.tasks, s.released, proof.task, Prove(p, s, author, proof).value.tasks[proof.task], id);
  }

  lemma OpenShortfall(p: Params, s: State, challenger: Identity, t: TaskId, bond: nat, id: Identity)
    requires OpenChallenge(p, s, challenger, t, bond).Ok?
    ensures Shortfall(OpenChallenge(p, s, challenger, t, bond).value, id) == Shortfall(s, id)
  {
    PutChallenge(s.pending, t, ChallengeRecord(challenger, bond), id);
  }

  /** An exact bond stays exact over a boundary and covers all that falls due; a covered one stays
      covered although the clamp may bite. */
  lemma BoundaryShortfall(p: Params, s: State, id: Identity)
    requires Sound(s) && Shortfall(s, id) >= 0
    ensures Shortfall(AdvanceEpoch(p, s), id) >= 0
    ensures Shortfall(s, id) == 0 ==>
              && Shortfall(AdvanceEpoch(p, s), id) == 0
              && Owed(s.tasks, DueTasks(s, s.epoch + 1), id) <= AccountOf(s.accounts, id).bonded
  {
    assert NonNegative(AccountOf(s.accounts, id));
    ReleaseCovered(s.accounts, s.tasks, s.released, s.pending, DueTasks(s, s.epoch + 1), id);
  }

  lemma ReleaseCovered(accounts: map<Identity, Account>, tasks: map<TaskId, Submission>, released: set<TaskId>,
                       pending: map<TaskId, ChallengeRecord>, due: set<TaskId>, id: Identity)
    requires due !! released && 0 <= AccountOf(accounts, id).bonded <= Locked(tasks, released, pending, id)
    ensures var bonded := AccountOf(ReleaseAll(accounts, tasks, due), id).bonded;
            && bonded <= Locked(tasks, released + due, pending, id)
            && (AccountOf(accounts, id).bonded == Locked(tasks, released, pending, id) ==>
                  bonded == Locked(tasks, released + due, pending, id)
                    && Owed(tasks, due, id) <= AccountOf(accounts, id).bonded)
  {
    ReleaseClosedForm(accounts, tasks, due, id);
    ReleaseLock(tasks, released, due, id);
    LockedNonNegative(tasks, released + due, pending, id);
  }

  /** A fraud verdict opens a gap as large as what it seizes from the provider's whole bond. */
  lemma FraudShortfall(p: Params, s: State, t: TaskId, rewardTo: Option<Identity>, id: Identity)
    requires Sound(s)
    ensures Shortfall(ResolveFraud(p, s, t, rewardTo), id)
            == Shortfall(s, id)
               + if Slashable(s, t) && s.tasks[t].provider == Some(id)
                 then
                   var paid := s.receipts[t].paidToProvider;
                   Min(paid + Fine(p, paid), AccountOf(s.accounts, id).bonded)
                 else 0
  {
    if Slashable(s, t) {
      var sub := s.tasks[t];
      KeepLock(s.tasks, s.released, t, sub.(status := Failed), id);
      assert NonNegative(AccountOf(s.accounts, sub.provider.value));
      var x := PenaltyFor(p, s.accounts, s.receipts[t], sub.provider.value, sub.requester);
      PunishBond(s.accounts, sub.provider.value, sub.requester, x, rewardTo, id);
      FraudEffect(p, s, t, rewardTo);
    }
  }

  lemma PunishBond(accounts: map<Identity, Account>, provider: Identity, requester: Identity, x: Penalty,
                   rewardTo: Option<Identity>, id: Identity)
    ensures AccountOf(Punish(accounts, provider, requester, x, rewardTo), id).bonded
            == AccountOf(accounts, id).bonded - if id == provider then x.recovered + x.fine else 0
  {
  }

  /** A closed challenge takes its bond out of both sides, as far as the bond reaches. */
  lemma CloseShortfall(p: Params, s: State, t: TaskId, id: Identity)
    requires Sound(s) && Shortfall(s, id) >= 0
    ensures Shortfall(ResolveChallenge(p, s, t, false), id) >= 0
    ensures Shortfall(s, id) == 0 ==> Shortfall(ResolveChallenge(p, s, t, false), id) == 0
    ensures Shortfall(s, id) == 0 && t in s.pending && s.pending[t].challenger == id ==>
              s.pending[t].bond <= AccountOf(s.accounts, id).bonded
  {
    if t in s.pending {
      assert NonNegative(AccountOf(s.accounts, id));
      TakeChallenge(s.pending, t, id);
      LockedNonNegative(s.tasks, s.released, s.pending - {t}, id);
    }
  }

  lemma FraudVerdictShortfall(p: Params, s: State, t: TaskId, id: Identity)
    requires Sound(s) && Shortfall(s, id) >= 0
    ensures Shortfall(ResolveChallenge(p, s, t, true), id) >= 0
  {
    if t in s.pending {
      var pc := s.pending[t];
      var s1 := s.(pending := s.pending - {t});
      assert NonNegative(AccountOf(s.accounts, id));
      TakeChallenge(s.pending, t, id);
      FraudShortfall(p, s1, t, Some(pc.challenger), id);
      CloseCovered(ResolveFraud(p, s1, t, Some(pc.challenger)), pc, id);
    }
  }

  lemma CloseCovered(s: State, pc: ChallengeRecord, id: Identity)
    requires Shortfall(s, id) + (if pc.challenger == id then pc.bond else 0) >= 0
    ensures Shortfall(CloseChallenge(s, pc, true), id) >= 0
  {
    LockedNonNegative(s.tasks, s.released, s.pending, id);
  }

  // ---- whole steps ----

  predicate IsFraudVerdict(a: Action) {
    a.FraudVerdict? || (a.ChallengeVerdict? && a.fraud)
  }

  lemma StepCovered(c: Crypto, p: Params, s: State, a: Action)
    requires Consistent(c, p, s) && Sound(s) && Covered(s)
    ensures Covered(Step(c, p, s, a))
  {
    forall id
      ensures Shortfall(Step(c, p, s, a), id) >= 0
    {
      assert Shortfall(s, id) >= 0;
      match a
      case Transact(stx) =>
        if Apply(c, p, s, stx).Ok? {
          TransactShortfall(c, p, s, stx, id);
        }
      case Boundary => BoundaryShortfall(p, s, id);
      case FraudVerdict(t, rewardTo) =>
        if t in s.tasks && s.tasks[t].provider == Some(id) {
          assert NonNegative(AccountOf(s.accounts, id));
        }
        FraudShortfall(p, s, t, rewardTo, id);
      case ChallengeVerdict(t, fraud) =>
        if fraud {
          FraudVerdictShortfall(p, s, t, id);
        } else {
          CloseShortfall(p, s, t, id);
        }
    }
  }

  lemma TransactShortfall(c: Crypto, p: Params, s: State, stx: SignedTx, id: Identity)
    requires Consistent(c, p, s) && Apply(c, p, s, stx).Ok?
    ensures Shortfall(Apply(c, p, s, stx).value, id) == Shortfall(s, id)
  {
    var s1 := BumpNonce(s, stx.author);
    assert SameRecords(s, s1);
    SameLifecycle(c, p, s, s1);
    DispatchShortfall(c, p, s1, stx.author, stx.tx, id);
  }

  /** Without a fraud verdict bonds stay exact. */
  lemma StepExact(c: Crypto, p: Params, s: State, a: Action)
    requires Consistent(c, p, s) && Sound(s) && Exact(s) && !IsFraudVerdict(a)
    ensures Exact(Step(c, p, s, a))
  {
    forall id
      ensures Shortfall(Step(c, p, s, a), id) == 0
    {
      assert Shortfall(s, id) == 0;
      match a
      case Transact(stx) =>
        if Apply(c, p, s, stx).Ok? {
          TransactShortfall(c, p, s, stx, id);
        }
      case Boundary => BoundaryShortfall(p, s, id);
      case ChallengeVerdict(t, fraud) => CloseShortfall(p, s, t, id);
    }
  }

  /** A fraud verdict leaves exact bonds exact if and only if it has nothing to seize. */
  lemma FraudExactIff(p: Params, s: State, t: TaskId, rewardTo: Option<Identity>)
    requires Sound(s) && Exact(s) && Slashable(s, t)
    ensures var paid := s.receipts[t].paidToProvider;
            Exact(ResolveFraud(p, s, t, rewardTo))
            <==> paid + Fine(p, paid) == 0 || AccountOf(s.accounts, s.tasks[t].provider.value).bonded == 0
  {
    var s' := ResolveFraud(p, s, t, rewardTo);
    var provider, paid := s.tasks[t].provider.value, s.receipts[t].paidToProvider;
    assert NonNegative(AccountOf(s.accounts, provider));
    forall id
      ensures Shortfall(s', id)
              == if id == provider then Min(paid + Fine(p, paid), AccountOf(s.accounts, id).bonded) else 0
    {
      assert Shortfall(s, id) == 0;
      FraudShortfall(p, s, t, rewardTo, id);
    }
  }

  /** Returning a bond to a challenger moves its gap by what is returned. */
  lemma CloseFraudShortfall(s: State, pc: ChallengeRecord, id: Identity)
    ensures Shortfall(CloseChallenge(s, pc, true), id)
            == Shortfall(s, id) + if id == pc.challenger then Min(pc.bond, AccountOf(s.accounts, id).bonded) else 0
  {
  }

  lemma FraudBonded(p: Params, s: State, t: TaskId, rewardTo: Option<Identity>, id: Identity)
    requires Sound(s) && Slashable(s, t)
    ensures AccountOf(ResolveFraud(p, s, t, rewardTo).accounts, id).bonded
            == AccountOf(s.accounts, id).bonded - if s.tasks[t].provider == Some(id) then Seized(p, s, t) else 0
  {
    var sub := s.tasks[t];
    var x := PenaltyFor(p, s.accounts, s.receipts[t], sub.provider.value, sub.requester);
    assert NonNegative(AccountOf(s.accounts, sub.provider.value));
    PunishBond(s.accounts, sub.provider.value, sub.requester, x, rewardTo, id);
    FraudEffect(p, s, t, rewardTo);
  }

  /** What a fraud verdict takes out of the provider's bond. */
  function Seized(p: Params, s: State, t: TaskId): int
    requires Slashable(s, t)
  {
    var paid := s.receipts[t].paidToProvider;
    Min(paid + Fine(p, paid), AccountOf(s.accounts, s.tasks[t].provider.value).bonded)
  }

  /** A proven challenge leaves a gap for the provider as large as what was seized, less what its own
      challenge bond could not be paid back. */
  lemma VerdictShortfall(p: Params, s: State, t: TaskId, id: Identity)
    requires Sound(s) && t in s.pending && Slashable(s, t) && Shortfall(s, id) == 0
    ensures var pc, own := s.pending[t], s.tasks[t].provider == Some(id);
            var bonded, seized := AccountOf(s.accounts, id).bonded, if own then Seized(p, s, t) else 0;
            Shortfall(ResolveChallenge(p, s, t, true), id)
            == seized - if pc.challenger == id then pc.bond - Min(pc.bond, bonded - seized) else 0
  {
    var pc := s.pending[t];
    var s1 := s.(pending := s.pending - {t});
    TakeChallenge(s.pending, t, id);
    FraudShortfall(p, s1, t, Some(pc.challenger), id);
    FraudBonded(p, s1, t, Some(pc.challenger), id);
    CloseFraudShortfall(ResolveFraud(p, s1, t, Some(pc.challenger)), pc, id);
  }

  /** A proven challenge leaves exact bonds exact if and only if there is nothing to seize, or the
      provider challenged itself and its bond holds that challenge alone. */
  lemma VerdictExactIff(p: Params, s: State, t: TaskId)
    requires Sound(s) && Exact(s) && t in s.pending && Slashable(s, t)
    ensures var paid, provider, pc := s.receipts[t].paidToProvider, s.tasks[t].provider.value, s.pending[t];
            var bonded := AccountOf(s.accounts, provider).bonded;
            Exact(ResolveChallenge(p, s, t, true))
            <==> paid + Fine(p, paid) == 0 || bonded == 0 || (pc.challenger == provider && bonded == pc.bond)
  {
    var s', provider, pc := ResolveChallenge(p, s, t, true), s.tasks[t].provider.value, s.pending[t];
    forall id
      ensures id != provider ==> Shortfall(s', id) == 0
    {
      assert Shortfall(s, id) == 0;
      VerdictShortfall(p, s, t, id);
      CloseShortfall(p, s, t, id);
    }
    assert Shortfall(s, provider) == 0 && NonNegative(AccountOf(s.accounts, provider));
    VerdictShortfall(p, s, t, provider);
    CloseShortfall(p, s, t, provider);
  }
}
