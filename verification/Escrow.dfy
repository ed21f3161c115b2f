/** Each account's `escrowed` pot is the sum, over its open tasks, of what their submission locked,
    and no pot is ever negative. Together these make the unchecked subtractions of the ledger
    safe. */
module Escrow {
  import opened Types
  import opened Governance
  import opened Sums
  import opened LedgerSpec
  import opened Lifecycle

  function Open(status: TaskStatus): bool {
    status.Submitted? || status.Executing?
  }

  /** What one submission keeps in escrow for `id`. */
  function Share(sub: Submission, body: TaskBody, id: Identity): int {
    if sub.requester == id && Open(sub.status) then body.limits.maxUcu + sub.fee else 0
  }

  ghost function ShareMap(tasks: map<TaskId, Submission>, bodies: map<TaskId, TaskBody>,
                          id: Identity): map<TaskId, int> {
    map t | t in tasks && t in bodies :: Share(tasks[t], bodies[t], id)
  }

  ghost function EscrowDue(tasks: map<TaskId, Submission>, bodies: map<TaskId, TaskBody>, id: Identity): int {
    Sum(ShareMap(tasks, bodies, id))
  }

  ghost predicate Backed(accounts: map<Identity, Account>, tasks: map<TaskId, Submission>,
                         bodies: map<TaskId, TaskBody>) {
    forall id {:trigger AccountOf(accounts, id)} :: AccountOf(accounts, id).escrowed == EscrowDue(tasks, bodies, id)
  }

  predicate NonNegative(a: Account) {
    a.balance >= 0 && a.escrowed >= 0 && a.bonded >= 0
  }

  ghost predicate Solvent(accounts: map<Identity, Account>) {
    forall id {:trigger AccountOf(accounts, id)} :: NonNegative(AccountOf(accounts, id))
  }

  ghost predicate Sound(s: State) {
    && Backed(s.accounts, s.tasks, s.bodies)
    && Solvent(s.accounts)
    && s.feePool >= 0
    && s.supply.burned >= 0
  }

  // ---- how one task's change moves the sums ----

  lemma PutShare(tasks: map<TaskId, Submission>, bodies: map<TaskId, TaskBody>, id: Identity, t: TaskId,
                 sub: Submission, body: TaskBody)
    requires t in tasks <==> t in bodies
    requires t in bodies ==> body == bodies[t]
    ensures EscrowDue(tasks[t := sub], bodies[t := body], id)
            == EscrowDue(tasks, bodies, id) + Share(sub, body, id) - if t in tasks then Share(tasks[t], body, id) else 0
  {
    var before, after := ShareMap(tasks, bodies, id), ShareMap(tasks[t := sub], bodies[t := body], id);
    SumUpdate(before, t, Share(sub, body, id));
    assert after == before[t := Share(sub, body, id)];
  }

  /** A task's share is covered by its requester's escrow. */
  lemma ShareCovered(tasks: map<TaskId, Submission>, bodies: map<TaskId, TaskBody>, t: TaskId, id: Identity)
    requires t in tasks && t in bodies
    ensures 0 <= Share(tasks[t], bodies[t], id) <= EscrowDue(tasks, bodies, id)
  {
    var m := ShareMap(tasks, bodies, id);
    assert forall u :: u in m ==> m[u] >= 0;
    SumBounds(m);
    assert t in ShareMap(tasks, bodies, id);
  }

  /** Changing a task without opening or closing it, or changing a closed one, moves no escrow. */
  lemma BackedKeep(accounts: map<Identity, Account>, tasks: map<TaskId, Submission>, bodies: map<TaskId, TaskBody>,
                   t: TaskId, sub: Submission)
    requires Backed(accounts, tasks, bodies) && t in tasks && t in bodies
    requires sub.requester == tasks[t].requester && sub.fee == tasks[t].fee && Open(sub.status) == Open(tasks[t].status)
    ensures Backed(accounts, tasks[t := sub], bodies)
  {
    forall id
      ensures EscrowDue(tasks[t := sub], bodies, id) == EscrowDue(tasks, bodies, id)
    {
      PutShare(tasks, bodies, id, t, sub, bodies[t]);
      assert bodies[t := bodies[t]] == bodies;
    }
  }

  /** Moving money without touching anybody's escrow. */
  lemma BackedAdjust(accounts: map<Identity, Account>, tasks: map<TaskId, Submission>, bodies: map<TaskId, TaskBody>,
                     id: Identity, dBalance: int, dBonded: int)
    requires Backed(accounts, tasks, bodies)
    ensures Backed(Adjust(accounts, id, dBalance, 0, dBonded), tasks, bodies)
  {
    var after := Adjust(accounts, id, dBalance, 0, dBonded);
    forall x
      ensures AccountOf(after, x).escrowed == EscrowDue(tasks, bodies, x)
    {
      assert AccountOf(accounts, x).escrowed == EscrowDue(tasks, bodies, x);
    }
  }

  lemma SolventAdjust(accounts: map<Identity, Account>, id: Identity, dBalance: int, dEscrowed: int, dBonded: int)
    requires Solvent(accounts)
    requires var a := AccountOf(accounts, id);
             a.balance + dBalance >= 0 && a.escrowed + dEscrowed >= 0 && a.bonded + dBonded >= 0
    ensures Solvent(Adjust(accounts, id, dBalance, dEscrowed, dBonded))
  {
    var after := Adjust(accounts, id, dBalance, dEscrowed, dBonded);
    forall x
      ensures NonNegative(AccountOf(after, x))
    {
      assert NonNegative(AccountOf(accounts, x));
    }
  }

  // ---- one transition at a time ----

  lemma {:induction false} GenesisSound(allocations: seq<(Identity, nat)>, epoch: nat)
    ensures Sound(Genesis(allocations, epoch))
  {
    if allocations != [] {
      var n := |allocations| - 1;
      GenesisSound(allocations[..n], epoch);
      Credit(GenesisAccounts(allocations[..n]), map[], map[], allocations[n].0, allocations[n].1);
    } else {
      forall id
        ensures EscrowDue(map[], map[], id) == 0
      {
        assert ShareMap(map[], map[], id) == map[];
      }
    }
  }

  lemma SubmitSound(c: Crypto, p: Params, s: State, requester: Identity, body: TaskBody)
    requires Consistent(c, p, s) && Sound(s) && Submit(c, p, s, requester, body).Ok?
    ensures Sound(Submit(c, p, s, requester, body).value)
  {
    var t, s' := c.taskId(body), Submit(c, p, s, requester, body).value;
    var sub := s'.tasks[t];
    var need := body.limits.maxUcu + sub.fee;
    SolventAdjust(s.accounts, requester, -need, need, 0);
    forall id
      ensures AccountOf(s'.accounts, id).escrowed == EscrowDue(s'.tasks, s'.bodies, id)
    {
      assert AccountOf(s.accounts, id).escrowed == EscrowDue(s.tasks, s.bodies, id);
      PutShare(s.tasks, s.bodies, id, t, sub, body);
    }
  }

  lemma ClaimSound(c: Crypto, p: Params, s: State, provider: Identity, t: TaskId)
    requires Consistent(c, p, s) && Sound(s) && Claim(p, s, provider, t).Ok?
    ensures Sound(Claim(p, s, provider, t).value)
  {
    var s' := Claim(p, s, provider, t).value;
    var stake: int := s'.tasks[t].claimStake;
    SolventAdjust(s.accounts, provider, -stake, 0, stake);
    BackedAdjust(s.accounts, s.tasks, s.bodies, provider, -stake, stake);
    BackedKeep(s'.accounts, s.tasks, s.bodies, t, s'.tasks[t]);
  }

  /** Settlement finds exactly the task's share in the requester's escrow: the subtraction cannot
      underflow, also when requester and provider are one identity. */
  lemma ProveSound(c: Crypto, p: Params, s: State, author: Identity, proof: ComputeProof)
    requires Consistent(c, p, s) && Sound(s) && Prove(p, s, author, proof).Ok?
    ensures Sound(Prove(p, s, author, proof).value)
    ensures var sub := s.tasks[proof.task];
            AccountOf(s.accounts, sub.requester).escrowed >= s.bodies[proof.task].limits.maxUcu + sub.fee
  {
    var t, s' := proof.task, Prove(p, s, author, proof).value;
    About(c, p, s, t);
    SoundAfterProof(s, s', t, author, proof.ucuCount, s'.receipts[t].workIssuance);
  }

  /** Where a settlement moves money, pot by pot: the whole of what was locked leaves the requester's
      escrow, the unused part of the ceiling comes back to its balance, work and issuance go to the
      provider's balance and the fee to the pool. If requester and provider are one identity it gets
      both. No bond moves. */
  lemma SettlementSplit(p: Params, s: State, author: Identity, proof: ComputeProof, id: Identity)
    requires Prove(p, s, author, proof).Ok?
    ensures var s' := Prove(p, s, author, proof).value;
            var sub, max, u: int := s.tasks[proof.task], s.bodies[proof.task].limits.maxUcu, proof.ucuCount;
            var before, after := AccountOf(s.accounts, id), AccountOf(s'.accounts, id);
            && after.escrowed == before.escrowed - (if id == sub.requester then max + sub.fee else 0)
            && after.balance == before.balance + (if id == sub.requester then max - u else 0)
                                + (if id == author then u + Issuance(p, u) else 0)
            && after.bonded == before.bonded
            && s'.feePool == s.feePool + sub.fee
  {
  }

  lemma SoundAfterProof(s: State, s': State, t: TaskId, author: Identity, u: nat, w: nat)
    requires Sound(s) && t in s.tasks && t in s.bodies && t in s'.tasks && Open(s.tasks[t].status)
            && !Open(s'.tasks[t].status)
    requires u <= s.bodies[t].limits.maxUcu
    requires var max, sub := s.bodies[t].limits.maxUcu, s.tasks[t];
             && s'.accounts
                == Adjust(Adjust(s.accounts, sub.requester, max - u, -(max + sub.fee), 0), author, u + w, 0, 0)
             && s'.feePool == s.feePool + sub.fee
    requires s'.supply.burned == s.supply.burned
    requires s'.tasks == s.tasks[t := s'.tasks[t]] && s'.bodies == s.bodies
    ensures Sound(s')
    ensures AccountOf(s.accounts, s.tasks[t].requester).escrowed >= s.bodies[t].limits.maxUcu + s.tasks[t].fee
  {
    var max := s.bodies[t].limits.maxUcu;
    SettledSound(s.accounts, s.tasks, s.bodies, t, s'.tasks[t], max - u);
    Credit(Adjust(s.accounts, s.tasks[t].requester, max - u, -(max + s.tasks[t].fee), 0), s'.tasks, s.bodies,
           author, u + w);
  }

  lemma SettledSound(accounts: map<Identity, Account>, tasks: map<TaskId, Submission>, bodies: map<TaskId, TaskBody>,
                     t: TaskId, sub: Submission, refund: nat)
    requires Solvent(accounts) && Backed(accounts, tasks, bodies) && t in tasks && t in bodies
    requires Open(tasks[t].status) && !Open(sub.status)
    ensures var locked, requester := bodies[t].limits.maxUcu + tasks[t].fee, tasks[t].requester;
            && AccountOf(accounts, requester).escrowed >= locked
            && Solvent(Adjust(accounts, requester, refund, -locked, 0))
            && Backed(Adjust(accounts, requester, refund, -locked, 0), tasks[t := sub], bodies)
  {
    var locked, requester := bodies[t].limits.maxUcu + tasks[t].fee, tasks[t].requester;
    ShareCovered(tasks, bodies, t, requester);
    assert NonNegative(AccountOf(accounts, requester));
    SolventAdjust(accounts, requester, refund, -locked, 0);
    BackedDrained(accounts, tasks, bodies, t, sub, refund);
  }

  /** Closing an open task while taking its share out of escrow. */
  lemma BackedDrained(accounts: map<Identity, Account>, tasks: map<TaskId, Submission>,
                      bodies: map<TaskId, TaskBody>, t: TaskId, sub: Submission, dBalance: int)
    requires Backed(accounts, tasks, bodies) && t in tasks && t in bodies
    requires Open(tasks[t].status) && !Open(sub.status)
    ensures var locked := bodies[t].limits.maxUcu + tasks[t].fee;
            Backed(Adjust(accounts, tasks[t].requester, dBalance, -locked, 0), tasks[t := sub], bodies)
  {
    var after := Adjust(accounts, tasks[t].requester, dBalance, -(bodies[t].limits.maxUcu + tasks[t].fee), 0);
    forall id
      ensures AccountOf(after, id).escrowed == EscrowDue(tasks[t := sub], bodies, id)
    {
      assert AccountOf(accounts, id).escrowed == EscrowDue(tasks, bodies, id);
      PutShare(tasks, bodies, id, t, sub, bodies[t]);
      assert bodies[t := bodies[t]] == bodies;
    }
  }

  lemma OpenSound(p: Params, s: State, challenger: Identity, t: TaskId, bond: nat)
    requires Sound(s) && OpenChallenge(p, s, challenger, t, bond).Ok?
    ensures Sound(OpenChallenge(p, s, challenger, t, bond).value)
  {
    SolventAdjust(s.accounts, challenger, -(bond as int), 0, bond);
    BackedAdjust(s.accounts, s.tasks, s.bodies, challenger, -(bond as int), bond);
  }

  lemma TransferSound(s: State, from: Identity, to: Identity, amount: nat)
    requires Sound(s) && TransferTo(s, from, to, amount).Ok?
    ensures Sound(TransferTo(s, from, to, amount).value)
  {
    var paid := Adjust(s.accounts, from, -(amount as int), 0, 0);
    SolventAdjust(s.accounts, from, -(amount as int), 0, 0);
    SolventAdjust(paid, to, amount, 0, 0);
    BackedAdjust(s.accounts, s.tasks, s.bodies, from, -(amount as int), 0);
    BackedAdjust(paid, s.tasks, s.bodies, to, amount, 0);
  }

  lemma BoundarySound(p: Params, s: State)
    requires Sound(s)
    ensures Sound(AdvanceEpoch(p, s))
  {
    ReleaseSound(s.accounts, s.tasks, s.bodies, DueTasks(s, s.epoch + 1));
  }

  lemma {:induction false} ReleaseSound(accounts: map<Identity, Account>, tasks: map<TaskId, Submission>,
                                        bodies: map<TaskId, TaskBody>, done: set<TaskId>)
    requires Solvent(accounts) && Backed(accounts, tasks, bodies)
    ensures Solvent(ReleaseAll(accounts, tasks, done)) && Backed(ReleaseAll(accounts, tasks, done), tasks, bodies)
    decreases |done|
  {
    if done != {} {
      var t := Pick(done);
      ReleaseSound(accounts, tasks, bodies, done - {t});
      if t in tasks && tasks[t].provider.Some? {
        BondReturned(ReleaseAll(accounts, tasks, done - {t}), tasks, bodies, tasks[t].provider.value,
          tasks[t].claimStake, true);
      }
    }
  }

  /** No clamp of the penalties goes below zero. */
  lemma PenaltyRange(p: Params, accounts: map<Identity, Account>, r: Receipt, provider: Identity, requester: Identity)
    requires NonNegative(AccountOf(accounts, provider))
    ensures var x := PenaltyFor(p, accounts, r, provider, requester);
            var a := AccountOf(accounts, provider);
            && 0 <= x.recovered && 0 <= x.reward <= x.fine
            && x.recovered + x.fine <= a.bonded
            && 0 <= x.burnedIssuance <= a.balance + if provider == requester then x.recovered else 0
  {
  }

  /** Crediting the requester before debiting the provider gives the same accounts, and then no
      step on the way goes below zero either. */
  lemma SeizeSound(accounts: map<Identity, Account>, tasks: map<TaskId, Submission>, bodies: map<TaskId, TaskBody>,
                   provider: Identity, requester: Identity, recovered: nat, seized: nat, burned: nat)
    requires Solvent(accounts) && Backed(accounts, tasks, bodies)
    requires seized <= AccountOf(accounts, provider).bonded
    requires burned <= AccountOf(accounts, provider).balance + if provider == requester then recovered else 0
    ensures var after := Adjust(Adjust(accounts, provider, -(burned as int), 0, -(seized as int)),
                                requester, recovered, 0, 0);
            Solvent(after) && Backed(after, tasks, bodies)
  {
    var credited := Adjust(accounts, requester, recovered, 0, 0);
    CreditFirst(accounts, provider, requester, -(burned as int), -(seized as int), recovered);
    Credit(accounts, tasks, bodies, requester, recovered);
    assert NonNegative(AccountOf(accounts, provider));
    SolventAdjust(credited, provider, -(burned as int), 0, -(seized as int));
    BackedAdjust(credited, tasks, bodies, provider, -(burned as int), -(seized as int));
  }

  lemma PunishSound(accounts: map<Identity, Account>, tasks: map<TaskId, Submission>, bodies: map<TaskId, TaskBody>,
                    provider: Identity, requester: Identity, x: Penalty, rewardTo: Option<Identity>)
    requires Solvent(accounts) && Backed(accounts, tasks, bodies)
    requires 0 <= x.recovered && 0 <= x.reward && x.fine >= 0
    requires x.recovered + x.fine <= AccountOf(accounts, provider).bonded
    requires 0 <= x.burnedIssuance
             <= AccountOf(accounts, provider).balance + if provider == requester then x.recovered else 0
    ensures Solvent(Punish(accounts, provider, requester, x, rewardTo))
    ensures Backed(Punish(accounts, provider, requester, x, rewardTo), tasks, bodies)
  {
    SeizeSound(accounts, tasks, bodies, provider, requester, x.recovered, x.recovered + x.fine, x.burnedIssuance);
    if rewardTo.Some? {
      Credit(Punish(accounts, provider, requester, x, None), tasks, bodies, rewardTo.value, x.reward);
    }
  }

  lemma CreditFirst(accounts: map<Identity, Account>, a: Identity, b: Identity, dBalance: int, dBonded: int,
                    credit: int)
    ensures Adjust(Adjust(accounts, a, dBalance, 0, dBonded), b, credit, 0, 0)
            == Adjust(Adjust(accounts, b, credit, 0, 0), a, dBalance, 0, dBonded)
  {
  }

  /** Clawback and repayment, then burn and fine, as the code orders them, add up to one debit and one
      credit. */
  lemma SeizeInSteps(accounts: map<Identity, Account>, provider: Identity, requester: Identity, recovered: int,
                     burned: int, fine: int)
    ensures Adjust(Adjust(Adjust(accounts, provider, 0, 0, -recovered), requester, recovered, 0, 0),
                   provider, -burned, 0, -fine)
            == Adjust(Adjust(accounts, provider, -burned, 0, -(recovered + fine)), requester, recovered, 0, 0)
  {
  }

  lemma Credit(accounts: map<Identity, Account>, tasks: map<TaskId, Submission>, bodies: map<TaskId, TaskBody>,
               id: Identity, amount: nat)
    requires Solvent(accounts) && Backed(accounts, tasks, bodies)
    ensures Solvent(Adjust(accounts, id, amount, 0, 0)) && Backed(Adjust(accounts, id, amount, 0, 0), tasks, bodies)
  {
    assert NonNegative(AccountOf(accounts, id));
    SolventAdjust(accounts, id, amount, 0, 0);
    BackedAdjust(accounts, tasks, bodies, id, amount, 0);
  }

  /** The penalties of a verdict, as a change of the accounts. */
  lemma FraudEffect(p: Params, s: State, t: TaskId, rewardTo: Option<Identity>)
    requires Slashable(s, t)
    ensures var s' := ResolveFraud(p, s, t, rewardTo);
            var sub := s.tasks[t];
            var x := PenaltyFor(p, s.accounts, s.receipts[t], sub.provider.value, sub.requester);
            && s'.accounts == Punish(s.accounts, sub.provider.value, sub.requester, x, rewardTo)
            && s'.feePool == s.feePool + (if rewardTo.None? then x.reward else 0)
            && s'.supply == Supply(s.supply.minted, s.supply.burned + x.burnedIssuance + x.fine - x.reward)
            && s'.tasks == s.tasks[t := sub.(status := Failed)]
            && s'.bodies == s.bodies
  {
  }

  lemma FraudSound(c: Crypto, p: Params, s: State, t: TaskId, rewardTo: Option<Identity>)
    requires Consistent(c, p, s) && Sound(s)
    ensures Sound(ResolveFraud(p, s, t, rewardTo))
  {
    if Slashable(s, t) {
      About(c, p, s, t);
      var sub := s.tasks[t];
      var x := PenaltyFor(p, s.accounts, s.receipts[t], sub.provider.value, sub.requester);
      PenaltyRange(p, s.accounts, s.receipts[t], sub.provider.value, sub.requester);
      FraudEffect(p, s, t, rewardTo);
      SoundAfterPenalty(s, ResolveFraud(p, s, t, rewardTo), t, x, rewardTo);
    }
  }

  lemma SoundAfterPenalty(s: State, s': State, t: TaskId, x: Penalty, rewardTo: Option<Identity>)
    requires Sound(s) && t in s.tasks && t in s.bodies && s.tasks[t].provider.Some? && !Open(s.tasks[t].status)
    requires 0 <= x.recovered && 0 <= x.reward <= x.fine
    requires x.recovered + x.fine <= AccountOf(s.accounts, s.tasks[t].provider.value).bonded
    requires var provider, requester := s.tasks[t].provider.value, s.tasks[t].requester;
             0 <= x.burnedIssuance
             <= AccountOf(s.accounts, provider).balance + if provider == requester then x.recovered else 0
    requires s'.accounts == Punish(s.accounts, s.tasks[t].provider.value, s.tasks[t].requester, x, rewardTo)
    requires s'.feePool == s.feePool + if rewardTo.None? then x.reward else 0
    requires s'.supply == Supply(s.supply.minted, s.supply.burned + x.burnedIssuance + x.fine - x.reward)
    requires s'.tasks == s.tasks[t := s.tasks[t].(status := Failed)] && s'.bodies == s.bodies
    ensures Sound(s')
  {
    PunishSound(s.accounts, s.tasks, s.bodies, s.tasks[t].provider.value, s.tasks[t].requester, x, rewardTo);
    BackedKeep(s'.accounts, s.tasks, s.bodies, t, s'.tasks[t]);
  }

  /** Part of a bond is given back (or, with `back` 0, burned). */
  lemma BondReturned(accounts: map<Identity, Account>, tasks: map<TaskId, Submission>, bodies: map<TaskId, TaskBody>,
                     id: Identity, bond: nat, back: bool)
    requires Solvent(accounts) && Backed(accounts, tasks, bodies)
    ensures var b := Min(bond, AccountOf(accounts, id).bonded);
            && b >= 0
            && Solvent(Adjust(accounts, id, if back then b else 0, 0, -b))
            && Backed(Adjust(accounts, id, if back then b else 0, 0, -b), tasks, bodies)
  {
    assert NonNegative(AccountOf(accounts, id));
    var b := Min(bond, AccountOf(accounts, id).bonded);
    var d := if back then b else 0;
    SolventAdjust(accounts, id, d, 0, -b);
    BackedAdjust(accounts, tasks, bodies, id, d, -b);
  }

  lemma VerdictSound(c: Crypto, p: Params, s: State, t: TaskId, fraud: bool)
    requires Consistent(c, p, s) && Sound(s)
    ensures Sound(ResolveChallenge(p, s, t, fraud))
  {
    if t in s.pending {
      var pc := s.pending[t];
      var s1 := s.(pending := s.pending - {t});
      assert SameRecords(s, s1);
      SameLifecycle(c, p, s, s1);
      if fraud {
        FraudSound(c, p, s1, t, Some(pc.challenger));
      }
      CloseSound(if fraud then ResolveFraud(p, s1, t, Some(pc.challenger)) else s1, pc, fraud);
    }
  }

  lemma CloseSound(s: State, pc: ChallengeRecord, fraud: bool)
    requires Sound(s)
    ensures Sound(CloseChallenge(s, pc, fraud))
  {
    BondReturned(s.accounts, s.tasks, s.bodies, pc.challenger, pc.bond, fraud);
  }

  lemma ApplySound(c: Crypto, p: Params, s: State, stx: SignedTx)
    requires Consistent(c, p, s) && Sound(s) && Apply(c, p, s, stx).Ok?
    ensures Sound(Apply(c, p, s, stx).value)
  {
    var s1 := BumpNonce(s, stx.author);
    assert SameRecords(s, s1);
    SameLifecycle(c, p, s, s1);
    match stx.tx
    case SubmitTask(body) => SubmitSound(c, p, s1, stx.author, body);
    case ClaimTask(task) => ClaimSound(c, p, s1, stx.author, task);
    case SubmitProof(proof) => ProveSound(c, p, s1, stx.author, proof);
    case Challenge(task, bond) => OpenSound(p, s1, stx.author, task, bond);
    case Transfer(to, amount) => TransferSound(s1, stx.author, to, amount);
  }

  /** Every action keeps escrow backed and every pot non-negative. */
  lemma StepSound(c: Crypto, p: Params, s: State, a: Action)
    requires Consistent(c, p, s) && Sound(s)
    ensures Sound(Step(c, p, s, a))
  {
    match a
    case Transact(stx) =>
      if Apply(c, p, s, stx).Ok? {
        ApplySound(c, p, s, stx);
      }
    case Boundary => BoundarySound(p, s);
    case FraudVerdict(task, rewardTo) => FraudSound(c, p, s, task, rewardTo);
    case ChallengeVerdict(task, fraud) => VerdictSound(c, p, s, task, fraud);
  }
}
