/** The other books the ledger keeps: what was minted and charged against the receipts, strikes
    against slashed tasks, Standing, and which stakes are back with their owners when. */
module Books {
  import opened Types
  import opened Governance
  import opened Sums
  import opened LedgerSpec
  import opened Lifecycle
  import opened Escrow
  import opened Conservation

  // ---- minting and fees ----

  ghost function IssuanceMap(receipts: map<TaskId, Receipt>): map<TaskId, int> {
    map t | t in receipts :: receipts[t].workIssuance
  }

  ghost function FeeMap(receipts: map<TaskId, Receipt>): map<TaskId, int> {
    map t | t in receipts :: receipts[t].validatorFee
  }

  /** Minted currency that no receipt accounts for. */
  ghost function UnreceiptedMint(s: State): int {
    s.supply.minted - Sum(IssuanceMap(s.receipts))
  }

  /** Fee pool money that no receipt accounts for. */
  ghost function UnreceiptedFees(s: State): int {
    s.feePool - Sum(FeeMap(s.receipts))
  }

  lemma PutReceipt(receipts: map<TaskId, Receipt>, t: TaskId, r: Receipt)
    requires t !in receipts
    ensures Sum(IssuanceMap(receipts[t := r])) == Sum(IssuanceMap(receipts)) + r.workIssuance
    ensures Sum(FeeMap(receipts[t := r])) == Sum(FeeMap(receipts)) + r.validatorFee
  {
    SumUpdate(IssuanceMap(receipts), t, r.workIssuance);
    assert IssuanceMap(receipts[t := r]) == IssuanceMap(receipts)[t := r.workIssuance];
    SumUpdate(FeeMap(receipts), t, r.validatorFee);
    assert FeeMap(receipts[t := r]) == FeeMap(receipts)[t := r.validatorFee];
  }

  /** What a verdict whose reward nobody claims adds to the fee pool. */
  function AuditReward(p: Params, s: State, a: Action): int {
    if a.FraudVerdict? && a.rewardTo.None? && Slashable(s, a.task) then
      var sub := s.tasks[a.task];
      PenaltyFor(p, s.accounts, s.receipts[a.task], sub.provider.value, sub.requester).reward
    else 0
  }

  lemma ProveBooks(c: Crypto, p: Params, s: State, author: Identity, proof: ComputeProof)
    requires Consistent(c, p, s) && Prove(p, s, author, proof).Ok?
    ensures var s' := Prove(p, s, author, proof).value;
            UnreceiptedMint(s') == UnreceiptedMint(s) && UnreceiptedFees(s') == UnreceiptedFees(s)
  {
    About(c, p, s, proof.task);
    PutReceipt(s.receipts, proof.task, Prove(p, s, author, proof).value.receipts[proof.task]);
  }

  lemma TransactBooks(c: Crypto, p: Params, s: State, stx: SignedTx)
    requires Consistent(c, p, s) && Apply(c, p, s, stx).Ok?
    ensures var s' := Apply(c, p, s, stx).value;
            UnreceiptedMint(s') == UnreceiptedMint(s) && UnreceiptedFees(s') == UnreceiptedFees(s)
  {
    var s1 := BumpNonce(s, stx.author);
    assert SameRecords(s, s1);
    SameLifecycle(c, p, s, s1);
    if stx.tx.SubmitProof? {
      ProveBooks(c, p, s1, stx.author, stx.tx.proof);
    } else {
      var s' := Apply(c, p, s, stx).value;
      assert s'.supply == s.supply && s'.feePool == s.feePool && s'.receipts == s.receipts;
    }
  }

  lemma VerdictBooks(p: Params, s: State, t: TaskId, fraud: bool)
    ensures var s' := ResolveChallenge(p, s, t, fraud);
            s'.supply.minted == s.supply.minted && s'.feePool == s.feePool && s'.receipts == s.receipts
  {
  }

  /** Settlement is the only mint, and its receipt says how much; the fee pool grows by receipted
      fees and by unclaimed rewards. */
  lemma StepMintAndFees(c: Crypto, p: Params, s: State, a: Action)
    requires Consistent(c, p, s)
    ensures UnreceiptedMint(Step(c, p, s, a)) == UnreceiptedMint(s)
    ensures UnreceiptedFees(Step(c, p, s, a)) == UnreceiptedFees(s) + AuditReward(p, s, a)
  {
    match a
    case Transact(stx) =>
      if Apply(c, p, s, stx).Ok? {
        TransactBooks(c, p, s, stx);
      }
    case Boundary =>
    case FraudVerdict(t, rewardTo) => FraudBooks(p, s, t, rewardTo);
    case ChallengeVerdict(t, fraud) => VerdictBooks(p, s, t, fraud);
  }

  lemma FraudBooks(p: Params, s: State, t: TaskId, rewardTo: Option<Identity>)
    ensures var s' := ResolveFraud(p, s, t, rewardTo);
            && s'.supply.minted == s.supply.minted && s'.receipts == s.receipts
            && s'.feePool == s.feePool + AuditReward(p, s, FraudVerdict(t, rewardTo))
  {
  }

  // ---- the size of one task ----

  /** No task on record is larger than all currency ever minted: its ceiling was once in a
      balance. */
  ghost predicate Affordable(s: State) {
    forall t :: t in s.bodies ==> s.bodies[t].limits.maxUcu <= s.supply.minted
  }

  /** Each pot is at most what was minted. */
  lemma PotsBounded(s: State, id: Identity)
    requires Conserved(s) && Sound(s)
    ensures Pots(AccountOf(s.accounts, id)) + s.feePool <= s.supply.minted - s.supply.burned
    ensures s.supply.burned <= s.supply.minted
  {
    var m := PotMap(s.accounts);
    forall k | k in m
      ensures m[k] >= 0
    {
      assert NonNegative(AccountOf(s.accounts, k));
    }
    SumBounds(m);
    if id in s.accounts {
      assert m[id] <= Sum(m);
    }
  }

  lemma SubmitAffordable(c: Crypto, p: Params, s: State, requester: Identity, body: TaskBody)
    requires Conserved(s) && Sound(s) && Affordable(s) && Submit(c, p, s, requester, body).Ok?
    ensures Affordable(Submit(c, p, s, requester, body).value)
  {
    PotsBounded(s, requester);
    assert NonNegative(AccountOf(s.accounts, requester));
  }

  lemma DispatchAffordable(c: Crypto, p: Params, s: State, author: Identity, tx: Tx)
    requires Conserved(s) && Sound(s) && Affordable(s) && Dispatch(c, p, s, author, tx).Ok?
    ensures Affordable(Dispatch(c, p, s, author, tx).value)
  {
    if tx.SubmitTask? {
      SubmitAffordable(c, p, s, author, tx.body);
    } else {
      var s' := Dispatch(c, p, s, author, tx).value;
      assert s'.bodies == s.bodies && s'.supply.minted >= s.supply.minted;
    }
  }

  lemma AffordableLater(s: State, s': State)
    requires Affordable(s) && s'.bodies == s.bodies && s'.supply.minted >= s.supply.minted
    ensures Affordable(s')
  {
  }

  lemma SystemAffordable(c: Crypto, p: Params, s: State, a: Action)
    requires !a.Transact? && Affordable(s)
    ensures Affordable(Step(c, p, s, a))
  {
    match a
    case Boundary => AffordableLater(s, AdvanceEpoch(p, s));
    case FraudVerdict(t, rewardTo) =>
      FraudRecords(p, s, t, rewardTo);
      FraudBooks(p, s, t, rewardTo);
      AffordableLater(s, ResolveFraud(p, s, t, rewardTo));
    case ChallengeVerdict(t, fraud) =>
      VerdictRecords(p, s, t, fraud);
      VerdictBooks(p, s, t, fraud);
      AffordableLater(s, ResolveChallenge(p, s, t, fraud));
  }

  lemma StepAffordable(c: Crypto, p: Params, s: State, a: Action)
    requires Conserved(s) && Sound(s) && Affordable(s)
    ensures Affordable(Step(c, p, s, a))
  {
    if a.Transact? {
      if Apply(c, p, s, a.stx).Ok? {
        DispatchAffordable(c, p, BumpNonce(s, a.stx.author), a.stx.author, a.stx.tx);
      }
    } else {
      SystemAffordable(c, p, s, a);
    }
  }

  // ---- what a transaction does to receipts and Standing ----

  /** From `s` to `s'` a proof was accepted, and with it came one receipt and one accrual. */
  ghost predicate Rewarded(p: Params, s: State, s': State, proof: ComputeProof) {
    var st := StandingRecordOf(s.standing, proof.provider, s.epoch);
    && proof.task in s'.receipts
    && s'.receipts == s.receipts[proof.task := s'.receipts[proof.task]]
    && s'.receipts[proof.task].clawbackUntil == s.epoch + p.clawbackEpochs
    && s'.standing == s.standing[proof.provider := st.(sp := st.sp + Accrual(p, proof.ucuCount))]
  }

  /** Only an accepted proof touches receipts or Standing; no transaction slashes or releases. */
  lemma DispatchKeeps(c: Crypto, p: Params, s: State, author: Identity, tx: Tx)
    requires Dispatch(c, p, s, author, tx).Ok?
    ensures var s' := Dispatch(c, p, s, author, tx).value;
            && s'.slashed == s.slashed && s'.released == s.released && s'.epoch == s.epoch
            && if tx.SubmitProof? then Rewarded(p, s, s', tx.proof)
               else s'.receipts == s.receipts && s'.standing == s.standing
  {
    match tx
    case SubmitTask(body) =>
    case ClaimTask(t) =>
    case SubmitProof(proof) =>
    case Challenge(t, bond) =>
    case Transfer(to, amount) =>
  }

  lemma ApplyKeeps(c: Crypto, p: Params, s: State, stx: SignedTx)
    requires Apply(c, p, s, stx).Ok?
    ensures var s' := Apply(c, p, s, stx).value;
            && s'.slashed == s.slashed && s'.released == s.released && s'.epoch == s.epoch
            && if stx.tx.SubmitProof? then Rewarded(p, s, s', stx.tx.proof)
               else s'.receipts == s.receipts && s'.standing == s.standing
  {
    DispatchKeeps(c, p, BumpNonce(s, stx.author), stx.author, stx.tx);
  }

  // ---- strikes and Standing ----

  ghost function SlashedOf(tasks: map<TaskId, Submission>, slashed: set<TaskId>, id: Identity): set<TaskId> {
    set t | t in slashed && t in tasks && tasks[t].provider == Some(id)
  }

  function StrikesOf(standing: map<Identity, StandingRecord>, id: Identity): nat {
    if id in standing then standing[id].strikes else 0
  }

  /** Strikes count slashed tasks. */
  ghost predicate StrikesCount(s: State) {
    forall id :: StrikesOf(s.standing, id) == |SlashedOf(s.tasks, s.slashed, id)|
  }

  ghost predicate StandingNonNegative(s: State) {
    forall id :: id in s.standing ==> s.standing[id].sp >= 0
  }

  lemma DecayNonNegative(p: Params, sp: int)
    requires sp >= 0
    ensures 0 <= Decay(p, sp) <= sp
  {
    DecayStep(p, sp);
  }

  lemma DecayAllNonNegative(p: Params, standing: map<Identity, StandingRecord>, epoch: nat)
    requires forall id :: id in standing ==> standing[id].sp >= 0
    ensures var after := DecayAll(p, standing, epoch); forall id :: id in after ==> after[id].sp >= 0
  {
    forall id | id in standing
      ensures Decay(p, standing[id].sp) >= 0
    {
      DecayNonNegative(p, standing[id].sp);
    }
  }

  lemma TransactStanding(c: Crypto, p: Params, s: State, stx: SignedTx)
    requires StandingNonNegative(s) && Apply(c, p, s, stx).Ok?
    ensures StandingNonNegative(Apply(c, p, s, stx).value)
  {
    var s' := Apply(c, p, s, stx).value;
    ApplyKeeps(c, p, s, stx);
    if stx.tx.SubmitProof? {
      RewardedStanding(p, s, s', stx.tx.proof);
    }
  }

  lemma RewardedStanding(p: Params, s: State, s': State, proof: ComputeProof)
    requires StandingNonNegative(s) && Rewarded(p, s, s', proof)
    ensures StandingNonNegative(s')
  {
  }

  lemma VerdictStanding(p: Params, s: State, t: TaskId, rewardTo: Option<Identity>, fraud: bool)
    requires StandingNonNegative(s)
    ensures StandingNonNegative(ResolveFraud(p, s, t, rewardTo))
    ensures StandingNonNegative(ResolveChallenge(p, s, t, fraud))
  {
  }

  lemma StepStanding(c: Crypto, p: Params, s: State, a: Action)
    requires StandingNonNegative(s)
    ensures StandingNonNegative(Step(c, p, s, a))
  {
    match a
    case Transact(stx) =>
      if Apply(c, p, s, stx).Ok? {
        TransactStanding(c, p, s, stx);
      }
    case Boundary => DecayAllNonNegative(p, s.standing, s.epoch + 1);
    case FraudVerdict(t, rewardTo) => VerdictStanding(p, s, t, rewardTo, true);
    case ChallengeVerdict(t, fraud) => VerdictStanding(p, s, t, None, fraud);
  }

  /** Nothing but a fraud verdict touches strikes, slashed tasks or who provided them. */
  lemma SameStrikes(s: State, s': State)
    requires StrikesCount(s) && s'.slashed == s.slashed
    requires forall t :: t in s.slashed ==> t in s.tasks && t in s'.tasks && s'.tasks[t].provider == s.tasks[t].provider
    requires forall id :: StrikesOf(s'.standing, id) == StrikesOf(s.standing, id)
    ensures StrikesCount(s')
  {
    forall id
      ensures SlashedOf(s'.tasks, s'.slashed, id) == SlashedOf(s.tasks, s.slashed, id)
    {
      forall t
        ensures t in SlashedOf(s'.tasks, s'.slashed, id) <==> t in SlashedOf(s.tasks, s.slashed, id)
      {
      }
    }
  }

  lemma SlashedGrows(tasks: map<TaskId, Submission>, slashed: set<TaskId>, t: TaskId, id: Identity)
    requires t in tasks && t !in slashed
    ensures |SlashedOf(tasks[t := tasks[t].(status := Failed)], slashed + {t}, id)|
            == |SlashedOf(tasks, slashed, id)| + if tasks[t].provider == Some(id) then 1 else 0
  {
    var before := SlashedOf(tasks, slashed, id);
    var after := SlashedOf(tasks[t := tasks[t].(status := Failed)], slashed + {t}, id);
    assert after == if tasks[t].provider == Some(id) then before + {t} else before;
  }

  lemma FraudStrikes(p: Params, s: State, t: TaskId, rewardTo: Option<Identity>)
    requires StrikesCount(s)
    ensures StrikesCount(ResolveFraud(p, s, t, rewardTo))
  {
    if Slashable(s, t) {
      var s' := ResolveFraud(p, s, t, rewardTo);
      FraudRecords(p, s, t, rewardTo);
      var provider := s.tasks[t].provider.value;
      assert forall id :: StrikesOf(s'.standing, id) == StrikesOf(s.standing, id) + if id == provider then 1 else 0;
      forall id
        ensures StrikesOf(s'.standing, id) == |SlashedOf(s'.tasks, s'.slashed, id)|
      {
        assert StrikesOf(s.standing, id) == |SlashedOf(s.tasks, s.slashed, id)|;
        SlashedGrows(s.tasks, s.slashed, t, id);
      }
    }
  }

  lemma TransactStrikes(c: Crypto, p: Params, s: State, stx: SignedTx)
    requires Consistent(c, p, s) && StrikesCount(s) && Apply(c, p, s, stx).Ok?
    ensures StrikesCount(Apply(c, p, s, stx).value)
  {
    var s' := Apply(c, p, s, stx).value;
    SlashedUntouched(c, p, s, stx);
    SameStrikes(s, s');
  }

  lemma SlashedUntouched(c: Crypto, p: Params, s: State, stx: SignedTx)
    requires Consistent(c, p, s) && Apply(c, p, s, stx).Ok?
    ensures var s' := Apply(c, p, s, stx).value;
            && s'.slashed == s.slashed
            && (forall t :: t in s.slashed ==>
                  t in s.tasks && t in s'.tasks && s'.tasks[t].provider == s.tasks[t].provider)
            && (forall id :: StrikesOf(s'.standing, id) == StrikesOf(s.standing, id))
  {
    var s' := Apply(c, p, s, stx).value;
    ApplyKeeps(c, p, s, stx);
    ApplyLifecycle(c, p, s, stx);
    forall t | t in s.slashed
      ensures t in s.tasks && t in s'.tasks && s'.tasks[t].provider == s.tasks[t].provider
    {
      SlashedProvider(c, p, s, s', t);
    }
    if stx.tx.SubmitProof? {
      RewardedStrikes(p, s, s', stx.tx.proof);
    }
  }

  lemma SlashedProvider(c: Crypto, p: Params, s: State, s': State, t: TaskId)
    requires Consistent(c, p, s) && Extends(s, s') && t in s.slashed
    ensures t in s.tasks && t in s'.tasks && s'.tasks[t].provider == s.tasks[t].provider
  {
    About(c, p, s, t);
  }

  lemma RewardedStrikes(p: Params, s: State, s': State, proof: ComputeProof)
    requires Rewarded(p, s, s', proof)
    ensures forall id :: StrikesOf(s'.standing, id) == StrikesOf(s.standing, id)
  {
  }

  lemma StepStrikes(c: Crypto, p: Params, s: State, a: Action)
    requires Consistent(c, p, s) && StrikesCount(s)
    ensures StrikesCount(Step(c, p, s, a))
  {
    match a
    case Transact(stx) =>
      if Apply(c, p, s, stx).Ok? {
        TransactStrikes(c, p, s, stx);
      }
    case Boundary => SameStrikes(s, AdvanceEpoch(p, s));
    case FraudVerdict(t, rewardTo) => FraudStrikes(p, s, t, rewardTo);
    case ChallengeVerdict(t, fraud) =>
      if t in s.pending {
        var s1 := s.(pending := s.pending - {t});
        SameStrikes(s, s1);
        FraudStrikes(p, s1, t, Some(s.pending[t].challenger));
        SameStrikes(if fraud then ResolveFraud(p, s1, t, Some(s.pending[t].challenger)) else s1,
                    ResolveChallenge(p, s, t, fraud));
      }
  }

  /** A verdict is final: ruling the same task fraudulent again changes nothing. */
  lemma FraudIdempotent(p: Params, s: State, t: TaskId, rewardTo: Option<Identity>, rewardTo': Option<Identity>)
    ensures var s' := ResolveFraud(p, s, t, rewardTo); ResolveFraud(p, s', t, rewardTo') == s'
  {
  }

  // ---- when stakes come back ----

  /** No stake comes back before its window has closed. */
  ghost predicate NeverEarly(s: State) {
    forall t :: t in s.released && t in s.receipts ==> s.receipts[t].clawbackUntil <= s.epoch
  }

  /** Once its window has closed a settled task is released or slashed. */
  ghost predicate Timely(s: State) {
    forall t :: t in s.receipts && s.receipts[t].clawbackUntil <= s.epoch ==> t in s.released || t in s.slashed
  }

  lemma StepNeverEarly(c: Crypto, p: Params, s: State, a: Action)
    requires Consistent(c, p, s) && NeverEarly(s)
    ensures NeverEarly(Step(c, p, s, a))
  {
    match a
    case Transact(stx) =>
      if Apply(c, p, s, stx).Ok? {
        ApplyKeeps(c, p, s, stx);
        ApplyLifecycle(c, p, s, stx);
        ReleasedKeep(c, p, s, Apply(c, p, s, stx).value);
      }
    case Boundary =>
    case FraudVerdict(t, rewardTo) => FraudRecords(p, s, t, rewardTo);
    case ChallengeVerdict(t, fraud) => VerdictRecords(p, s, t, fraud);
  }

  lemma ReleasedKeep(c: Crypto, p: Params, s: State, s': State)
    requires Consistent(c, p, s) && NeverEarly(s) && Extends(s, s') && s'.released == s.released
    ensures NeverEarly(s')
  {
  }

  lemma StepTimely(c: Crypto, p: Params, s: State, a: Action)
    requires Consistent(c, p, s) && Timely(s) && p.clawbackEpochs >= 1
    ensures Timely(Step(c, p, s, a))
  {
    match a
    case Transact(stx) =>
      if Apply(c, p, s, stx).Ok? {
        ApplyKeeps(c, p, s, stx);
      }
    case Boundary => BoundaryTimely(c, p, s);
    case FraudVerdict(t, rewardTo) => FraudRecords(p, s, t, rewardTo);
    case ChallengeVerdict(t, fraud) => VerdictRecords(p, s, t, fraud);
  }

  /** A boundary releases or finds slashed whatever is due, even if it was overdue before. */
  lemma BoundaryTimely(c: Crypto, p: Params, s: State)
    requires Consistent(c, p, s)
    ensures Timely(AdvanceEpoch(p, s))
  {
    forall t | t in s.receipts && s.receipts[t].clawbackUntil <= s.epoch + 1
      ensures t in s.released + DueTasks(s, s.epoch + 1) || t in s.slashed
    {
      About(c, p, s, t);
    }
  }

  /** With an empty clawback window a fresh settlement is already overdue: it is timely if and only
      if the window is at least one epoch long. */
  lemma ProveTimelyIff(c: Crypto, p: Params, s: State, author: Identity, proof: ComputeProof)
    requires Consistent(c, p, s) && Timely(s) && Prove(p, s, author, proof).Ok?
    ensures Timely(Prove(p, s, author, proof).value) <==> p.clawbackEpochs >= 1
  {
    var t, s' := proof.task, Prove(p, s, author, proof).value;
    About(c, p, s, t);
    assert t in s'.receipts && t !in s'.slashed && t !in s'.released;
  }

  // ---- released and slashed ----

  /** No slashed task has its stake back. */
  predicate Disjoint(s: State) {
    s.released !! s.slashed
  }

  /** Transactions and boundaries keep released and slashed tasks apart. */
  lemma PeacefulDisjoint(c: Crypto, p: Params, s: State, a: Action)
    requires Disjoint(s) && (a.Transact? || a.Boundary?)
    ensures Disjoint(Step(c, p, s, a))
  {
    if a.Transact? && Apply(c, p, s, a.stx).Ok? {
      ApplyKeeps(c, p, s, a.stx);
    }
  }

  /** A fraud verdict keeps them apart if and only if the task it slashes was not released. */
  lemma FraudDisjointIff(p: Params, s: State, t: TaskId, rewardTo: Option<Identity>)
    requires Disjoint(s)
    ensures Disjoint(ResolveFraud(p, s, t, rewardTo)) <==> !(Slashable(s, t) && t in s.released)
  {
    FraudRecords(p, s, t, rewardTo);
    if Slashable(s, t) {
      assert t in ResolveFraud(p, s, t, rewardTo).slashed;
    }
  }

  /** The same for the verdict on a challenge. */
  lemma VerdictDisjointIff(p: Params, s: State, t: TaskId, fraud: bool)
    requires Disjoint(s)
    ensures Disjoint(ResolveChallenge(p, s, t, fraud))
            <==> !(t in s.pending && fraud && Slashable(s, t) && t in s.released)
  {
    VerdictRecords(p, s, t, fraud);
    if t in s.pending && fraud && Slashable(s, t) {
      assert t in ResolveChallenge(p, s, t, fraud).slashed;
    }
  }

  /** When a challenge opens about a task that was already released: exactly when it is opened in the
      very epoch in which the window closes, after the boundary has given the stake back. An earlier
      challenge does not hold the stake; the lemmas below are about those. */
  lemma OpenReleasedIff(c: Crypto, p: Params, s: State, challenger: Identity, t: TaskId, bond: nat)
    requires Consistent(c, p, s) && Timely(s) && NeverEarly(s)
    requires OpenChallenge(p, s, challenger, t, bond).Ok?
    ensures t in s.released <==> s.epoch == s.receipts[t].clawbackUntil
  {
  }

  /** Open challenges are about settled tasks that were not slashed. */
  ghost predicate PendingSettled(s: State) {
    forall t :: t in s.pending ==> t in s.tasks && s.tasks[t].status == Settled && t !in s.slashed
  }

  /** A task under challenge is released exactly from the epoch on in which its window closes, whenever
      the challenge was opened. */
  lemma PendingReleasedIff(c: Crypto, p: Params, s: State, t: TaskId)
    requires Consistent(c, p, s) && Timely(s) && NeverEarly(s) && PendingSettled(s) && t in s.pending
    ensures t in s.released <==> s.receipts[t].clawbackUntil <= s.epoch
  {
  }

  /** So a proven challenge keeps released and slashed tasks apart if and only if its verdict comes
      before the epoch in which the window closes. */
  lemma PendingDisjointIff(c: Crypto, p: Params, s: State, t: TaskId)
    requires Consistent(c, p, s) && Timely(s) && NeverEarly(s) && PendingSettled(s) && t in s.pending
    requires Disjoint(s)
    ensures Disjoint(ResolveChallenge(p, s, t, true)) <==> s.epoch < s.receipts[t].clawbackUntil
  {
    About(c, p, s, t);
    PendingReleasedIff(c, p, s, t);
    VerdictDisjointIff(p, s, t, true);
  }

  /** An open challenge does not hold the stake: the boundary that closes the window gives it back, and
      the challenge stays open. */
  lemma ReleasedUnderChallengeIff(c: Crypto, p: Params, s: State, t: TaskId)
    requires Consistent(c, p, s) && Timely(s) && NeverEarly(s) && PendingSettled(s) && t in s.pending
    requires t !in s.released
    ensures var s' := AdvanceEpoch(p, s);
            && t in s'.pending
            && (t in s'.released <==> s.receipts[t].clawbackUntil == s.epoch + 1)
  {
    About(c, p, s, t);
    PendingReleasedIff(c, p, s, t);
  }
}
