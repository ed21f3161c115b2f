/** Life of a task on the ledger: which statuses it passes through, which records exist at each of
    them and agree with each other, and what is never written twice. */
module Lifecycle {
  import opened Types
  import opened Governance
  import opened LedgerSpec

  function Rank(status: TaskStatus): nat {
    match status
    case Submitted => 0
    case Matched => 1
    case Executing => 2
    case Verified => 3
    case Settled => 4
    case Failed => 5
  }

  /** What is on record about a task that was submitted. */
  ghost predicate TaskOk(c: Crypto, p: Params, t: TaskId, sub: Submission, body: TaskBody, settled: bool,
                         slashed: bool) {
    && sub.task == t == c.taskId(body)
    && sub.fee == Fee(p, body.limits.maxUcu)
    && (sub.status.Submitted? || sub.status.Executing? || sub.status.Settled? || sub.status.Failed?)
    && (sub.status.Submitted? <==> sub.provider.None?)
    && (sub.status.Submitted? ==> sub.claimStake == 0)
    && (!settled ==> sub.ucuCount == 0)
    && (settled <==> sub.status.Settled? || sub.status.Failed?)
    && (slashed <==> sub.status.Failed?)
  }

  /** The records of a settled task agree on who, how much and under which benchmark, and Q is
      null. */
  ghost predicate RecordsAgree(p: Params, epoch: nat, t: TaskId, sub: Submission, body: TaskBody,
                               proof: ComputeProof, r: Receipt, q: QLedgerEntry) {
    && proof.task == t
    && sub.provider == Some(proof.provider)
    && sub.ucuCount == proof.ucuCount <= body.limits.maxUcu
    && proof.benchmark == body.benchmark
    && q == QLedgerEntry(t, proof.ucuCount, None, None, None, body.benchmark)
    && r == Receipt(t, proof.ucuCount, Issuance(p, proof.ucuCount), sub.fee,
                    Accrual(p, proof.ucuCount),
                    r.settledEpoch, r.settledEpoch + p.clawbackEpochs)
    && r.settledEpoch <= epoch
  }

  ghost predicate TasksOk(c: Crypto, p: Params, tasks: map<TaskId, Submission>, bodies: map<TaskId, TaskBody>,
                          settled: set<TaskId>, slashed: set<TaskId>) {
    && bodies.Keys == tasks.Keys
    && forall t :: t in tasks ==> TaskOk(c, p, t, tasks[t], bodies[t], t in settled, t in slashed)
  }

  ghost predicate RecordsOk(p: Params, epoch: nat, tasks: map<TaskId, Submission>, bodies: map<TaskId, TaskBody>,
                            proofs: map<TaskId, ComputeProof>, receipts: map<TaskId, Receipt>,
                            qLedger: map<TaskId, QLedgerEntry>)
  {
    && proofs.Keys == receipts.Keys == qLedger.Keys
    && receipts.Keys <= tasks.Keys
    && receipts.Keys <= bodies.Keys
    && forall t :: t in receipts ==> RecordsAgree(p, epoch, t, tasks[t], bodies[t], proofs[t], receipts[t], qLedger[t])
  }

  ghost predicate Consistent(c: Crypto, p: Params, s: State) {
    && TasksOk(c, p, s.tasks, s.bodies, s.receipts.Keys, s.slashed)
    && RecordsOk(p, s.epoch, s.tasks, s.bodies, s.proofs, s.receipts, s.qLedger)
    && s.slashed <= s.receipts.Keys
    && s.pending.Keys <= s.receipts.Keys
    && s.released <= s.receipts.Keys
  }

  /** What the life cycle says about one task. */
  lemma About(c: Crypto, p: Params, s: State, t: TaskId)
    requires Consistent(c, p, s) && t in s.tasks
    ensures t in s.bodies && TaskOk(c, p, t, s.tasks[t], s.bodies[t], t in s.receipts, t in s.slashed)
    ensures t in s.receipts ==>
              && t in s.proofs && t in s.qLedger
              && RecordsAgree(p, s.epoch, t, s.tasks[t], s.bodies[t], s.proofs[t], s.receipts[t], s.qLedger[t])
  {
  }

  lemma GenesisLifecycle(c: Crypto, p: Params, allocations: seq<(Identity, nat)>, epoch: nat)
    ensures Consistent(c, p, Genesis(allocations, epoch))
  {
  }

  // ---- what is written once stays ----

  /** Nothing is taken out of `m` or overwritten on the way to `m'`. */
  ghost predicate Grows<K, V>(m: map<K, V>, m': map<K, V>) {
    forall k :: k in m ==> k in m' && m'[k] == m[k]
  }

  ghost predicate SubmissionExtends(a: Submission, b: Submission) {
    && a.requester == b.requester
    && a.fee == b.fee
    && Rank(a.status) <= Rank(b.status)
    && (a.provider.Some? ==> b.provider == a.provider && b.claimStake == a.claimStake)
  }

  ghost predicate TasksExtend(m: map<TaskId, Submission>, m': map<TaskId, Submission>) {
    forall t :: t in m ==> t in m' && SubmissionExtends(m[t], m'[t])
  }

  /** `s'` is a later state than `s`: bodies, proofs, receipts and Q entries are only added,
      statuses only move forward, and a slashed task that was not released stays unreleased. */
  ghost predicate Extends(s: State, s': State) {
    && Grows(s.bodies, s'.bodies)
    && Grows(s.proofs, s'.proofs)
    && Grows(s.receipts, s'.receipts)
    && Grows(s.qLedger, s'.qLedger)
    && TasksExtend(s.tasks, s'.tasks)
    && s.slashed <= s'.slashed
    && s.released <= s'.released
    && s.slashed * s'.released <= s.released
    && s.epoch <= s'.epoch
  }

  lemma GrowsPut<K, V>(m: map<K, V>, k: K, v: V)
    requires k !in m
    ensures Grows(m, m[k := v]) && Grows(m, m)
  {
  }

  lemma ExtendTask(m: map<TaskId, Submission>, t: TaskId, sub: Submission)
    requires t in m ==> SubmissionExtends(m[t], sub)
    ensures TasksExtend(m, m[t := sub]) && TasksExtend(m, m)
  {
  }

  lemma ExtendsTransitive(s: State, s': State, s'': State)
    requires Extends(s, s') && Extends(s', s'')
    ensures Extends(s, s'')
  {
  }

  // ---- one task changes, the others keep what they had ----

  lemma PutTask(c: Crypto, p: Params, tasks: map<TaskId, Submission>, bodies: map<TaskId, TaskBody>,
                settled: set<TaskId>, slashed: set<TaskId>, t: TaskId, sub: Submission, settled': set<TaskId>,
                slashed': set<TaskId>)
    requires TasksOk(c, p, tasks, bodies, settled, slashed) && t in tasks
    requires settled <= settled' <= settled + {t} && slashed <= slashed' <= slashed + {t}
    requires TaskOk(c, p, t, sub, bodies[t], t in settled', t in slashed')
    ensures TasksOk(c, p, tasks[t := sub], bodies, settled', slashed')
  {
  }

  lemma PutRecords(p: Params, epoch: nat, tasks: map<TaskId, Submission>, bodies: map<TaskId, TaskBody>,
                   proofs: map<TaskId, ComputeProof>, receipts: map<TaskId, Receipt>,
                   qLedger: map<TaskId, QLedgerEntry>,
                   t: TaskId, sub: Submission, proof: ComputeProof, r: Receipt, q: QLedgerEntry)
    requires RecordsOk(p, epoch, tasks, bodies, proofs, receipts, qLedger) && t in tasks && t in bodies
    requires RecordsAgree(p, epoch, t, sub, bodies[t], proof, r, q)
    ensures RecordsOk(p, epoch, tasks[t := sub], bodies, proofs[t := proof], receipts[t := r], qLedger[t := q])
  {
  }

  lemma KeepRecords(p: Params, epoch: nat, tasks: map<TaskId, Submission>, bodies: map<TaskId, TaskBody>,
                    proofs: map<TaskId, ComputeProof>, receipts: map<TaskId, Receipt>,
                    qLedger: map<TaskId, QLedgerEntry>,
                    t: TaskId, sub: Submission)
    requires RecordsOk(p, epoch, tasks, bodies, proofs, receipts, qLedger)
    requires t in receipts ==> RecordsAgree(p, epoch, t, sub, bodies[t], proofs[t], receipts[t], qLedger[t])
    ensures RecordsOk(p, epoch, tasks[t := sub], bodies, proofs, receipts, qLedger)
  {
  }

  // ---- one transition at a time ----

  lemma SubmitLifecycle(c: Crypto, p: Params, s: State, requester: Identity, body: TaskBody)
    requires Consistent(c, p, s) && Submit(c, p, s, requester, body).Ok?
    ensures var s' := Submit(c, p, s, requester, body).value; Consistent(c, p, s')
  {
    var t := c.taskId(body);
    assert t !in s.receipts;
    var s' := Submit(c, p, s, requester, body).value;
    assert TaskOk(c, p, t, s'.tasks[t], body, false, false);
  }

  lemma ClaimLifecycle(c: Crypto, p: Params, s: State, provider: Identity, t: TaskId)
    requires Consistent(c, p, s) && Claim(p, s, provider, t).Ok?
    ensures var s' := Claim(p, s, provider, t).value; Consistent(c, p, s')
  {
    About(c, p, s, t);
    var sub := Claim(p, s, provider, t).value.tasks[t];
    PutTask(c, p, s.tasks, s.bodies, s.receipts.Keys, s.slashed, t, sub, s.receipts.Keys, s.slashed);
    KeepRecords(p, s.epoch, s.tasks, s.bodies, s.proofs, s.receipts, s.qLedger, t, sub);
  }

  lemma ProveLifecycle(c: Crypto, p: Params, s: State, author: Identity, proof: ComputeProof)
    requires Consistent(c, p, s) && Prove(p, s, author, proof).Ok?
    ensures var s' := Prove(p, s, author, proof).value; Consistent(c, p, s')
  {
    var t, s' := proof.task, Prove(p, s, author, proof).value;
    About(c, p, s, t);
    assert s'.receipts.Keys == s.receipts.Keys + {t};
    PutTask(c, p, s.tasks, s.bodies, s.receipts.Keys, s.slashed, t, s'.tasks[t], s'.receipts.Keys, s.slashed);
    PutRecords(p, s.epoch, s.tasks, s.bodies, s.proofs, s.receipts, s.qLedger, t, s'.tasks[t], proof, s'.receipts[t],
      s'.qLedger[t]);
  }

  lemma BoundaryLifecycle(c: Crypto, p: Params, s: State)
    requires Consistent(c, p, s)
    ensures Consistent(c, p, AdvanceEpoch(p, s)) && Extends(s, AdvanceEpoch(p, s))
  {
  }

  /** `s'` differs from `s` only in money, reputation, nonces and closed challenges. */
  ghost predicate SameRecords(s: State, s': State) {
    && s'.bodies == s.bodies && s'.tasks == s.tasks && s'.proofs == s.proofs && s'.receipts == s.receipts
    && s'.qLedger == s.qLedger && s'.slashed == s.slashed && s'.released == s.released && s'.epoch == s.epoch
    && s'.pending.Keys <= s.pending.Keys
  }

  ghost function MarkFailed(s: State, t: TaskId): State
    requires t in s.tasks
  {
    s.(slashed := s.slashed + {t}, tasks := s.tasks[t := s.tasks[t].(status := Failed)])
  }

  lemma MarkLifecycle(c: Crypto, p: Params, s: State, t: TaskId)
    requires Consistent(c, p, s) && Slashable(s, t)
    ensures Consistent(c, p, MarkFailed(s, t))
  {
    var s' := MarkFailed(s, t);
    About(c, p, s, t);
    PutTask(c, p, s.tasks, s.bodies, s.receipts.Keys, s.slashed, t, s'.tasks[t], s.receipts.Keys, s'.slashed);
    KeepRecords(p, s.epoch, s.tasks, s.bodies, s.proofs, s.receipts, s.qLedger, t, s'.tasks[t]);
  }

  lemma MarkExtends(c: Crypto, p: Params, s: State, t: TaskId)
    requires Consistent(c, p, s) && Slashable(s, t)
    ensures Extends(s, MarkFailed(s, t))
  {
    About(c, p, s, t);
    ExtendTask(s.tasks, t, s.tasks[t].(status := Failed));
  }

  lemma FraudRecords(p: Params, s: State, t: TaskId, rewardTo: Option<Identity>)
    ensures SameRecords(if Slashable(s, t) then MarkFailed(s, t) else s, ResolveFraud(p, s, t, rewardTo))
  {
  }

  lemma SameLifecycle(c: Crypto, p: Params, s: State, s': State)
    requires Consistent(c, p, s) && SameRecords(s, s')
    ensures Consistent(c, p, s')
  {
  }

  lemma SameExtends(s: State, s': State, s'': State)
    requires Extends(s, s') && SameRecords(s', s'')
    ensures Extends(s, s'')
  {
  }

  lemma FraudLifecycle(c: Crypto, p: Params, s: State, t: TaskId, rewardTo: Option<Identity>)
    requires Consistent(c, p, s)
    ensures Consistent(c, p, ResolveFraud(p, s, t, rewardTo)) && Extends(s, ResolveFraud(p, s, t, rewardTo))
  {
    var marked := if Slashable(s, t) then MarkFailed(s, t) else s;
    if Slashable(s, t) {
      MarkLifecycle(c, p, s, t);
      MarkExtends(c, p, s, t);
    }
    FraudRecords(p, s, t, rewardTo);
    SameLifecycle(c, p, marked, ResolveFraud(p, s, t, rewardTo));
    SameExtends(s, marked, ResolveFraud(p, s, t, rewardTo));
  }

  lemma VerdictRecords(p: Params, s: State, t: TaskId, fraud: bool)
    ensures SameRecords(if t in s.pending && fraud && Slashable(s, t) then MarkFailed(s, t) else s,
                        ResolveChallenge(p, s, t, fraud))
  {
    if t in s.pending {
      FraudRecords(p, s.(pending := s.pending - {t}), t, Some(s.pending[t].challenger));
    }
  }

  lemma VerdictLifecycle(c: Crypto, p: Params, s: State, t: TaskId, fraud: bool)
    requires Consistent(c, p, s)
    ensures Consistent(c, p, ResolveChallenge(p, s, t, fraud)) && Extends(s, ResolveChallenge(p, s, t, fraud))
  {
    var slash := t in s.pending && fraud && Slashable(s, t);
    var marked := if slash then MarkFailed(s, t) else s;
    if slash {
      MarkLifecycle(c, p, s, t);
      MarkExtends(c, p, s, t);
    }
    VerdictRecords(p, s, t, fraud);
    SameLifecycle(c, p, marked, ResolveChallenge(p, s, t, fraud));
    SameExtends(s, marked, ResolveChallenge(p, s, t, fraud));
  }

  lemma OpenLifecycle(c: Crypto, p: Params, s: State, challenger: Identity, t: TaskId, bond: nat)
    requires Consistent(c, p, s) && OpenChallenge(p, s, challenger, t, bond).Ok?
    ensures var s' := OpenChallenge(p, s, challenger, t, bond).value; Consistent(c, p, s')
  {
  }

  lemma SubmitExtends(c: Crypto, p: Params, s: State, requester: Identity, body: TaskBody)
    requires Consistent(c, p, s) && Submit(c, p, s, requester, body).Ok?
    ensures Extends(s, Submit(c, p, s, requester, body).value)
  {
    var t, s' := c.taskId(body), Submit(c, p, s, requester, body).value;
    GrowsPut(s.bodies, t, body);
    ExtendTask(s.tasks, t, s'.tasks[t]);
  }

  lemma ClaimExtends(c: Crypto, p: Params, s: State, provider: Identity, t: TaskId)
    requires Consistent(c, p, s) && Claim(p, s, provider, t).Ok?
    ensures Extends(s, Claim(p, s, provider, t).value)
  {
    About(c, p, s, t);
    ExtendTask(s.tasks, t, Claim(p, s, provider, t).value.tasks[t]);
  }

  lemma ProveExtends(c: Crypto, p: Params, s: State, author: Identity, proof: ComputeProof)
    requires Consistent(c, p, s) && Prove(p, s, author, proof).Ok?
    ensures Extends(s, Prove(p, s, author, proof).value)
  {
    var t, s' := proof.task, Prove(p, s, author, proof).value;
    About(c, p, s, t);
    GrowsPut(s.proofs, t, proof);
    GrowsPut(s.receipts, t, s'.receipts[t]);
    GrowsPut(s.qLedger, t, s'.qLedger[t]);
    ExtendTask(s.tasks, t, s'.tasks[t]);
  }

  lemma ApplyLifecycle(c: Crypto, p: Params, s: State, stx: SignedTx)
    requires Consistent(c, p, s) && Apply(c, p, s, stx).Ok?
    ensures var s' := Apply(c, p, s, stx).value; Consistent(c, p, s') && Extends(s, s')
  {
    var s1 := BumpNonce(s, stx.author);
    assert SameRecords(s, s1);
    SameLifecycle(c, p, s, s1);
    match stx.tx
    case SubmitTask(body) => SubmitLifecycle(c, p, s1, stx.author, body); SubmitExtends(c, p, s1, stx.author, body);
    case ClaimTask(task) => ClaimLifecycle(c, p, s1, stx.author, task); ClaimExtends(c, p, s1, stx.author, task);
    case SubmitProof(proof) => ProveLifecycle(c, p, s1, stx.author, proof); ProveExtends(c, p, s1, stx.author, proof);
    case Challenge(task, bond) => OpenLifecycle(c, p, s1, stx.author, task, bond);
    case Transfer(to, amount) =>
      assert SameRecords(s1, Apply(c, p, s, stx).value);
      SameLifecycle(c, p, s1, Apply(c, p, s, stx).value);
  }

  /** Every action keeps the life cycle and only extends what is on record. */
  lemma StepLifecycle(c: Crypto, p: Params, s: State, a: Action)
    requires Consistent(c, p, s)
    ensures Consistent(c, p, Step(c, p, s, a))
    ensures Extends(s, Step(c, p, s, a))
  {
    match a
    case Transact(stx) =>
      if Apply(c, p, s, stx).Ok? {
        ApplyLifecycle(c, p, s, stx);
      }
    case Boundary => BoundaryLifecycle(c, p, s);
    case FraudVerdict(task, rewardTo) => FraudLifecycle(c, p, s, task, rewardTo);
    case ChallengeVerdict(task, fraud) => VerdictLifecycle(c, p, s, task, fraud);
  }

  /** The moves a status can make in one step. */
  predicate Edge(a: TaskStatus, b: TaskStatus) {
    a == b || (a.Submitted? && b.Executing?) || (a.Executing? && b.Settled?) || (a.Settled? && b.Failed?)
  }

  ghost predicate TaskMoves(tasks: map<TaskId, Submission>, tasks': map<TaskId, Submission>) {
    && (forall t :: t in tasks ==> t in tasks' && Edge(tasks[t].status, tasks'[t].status))
    && (forall t :: t in tasks' && t !in tasks ==> tasks'[t].status == Submitted)
  }

  lemma DispatchMoves(c: Crypto, p: Params, s: State, author: Identity, tx: Tx)
    requires Dispatch(c, p, s, author, tx).Ok?
    ensures TaskMoves(s.tasks, Dispatch(c, p, s, author, tx).value.tasks)
  {
    match tx
    case SubmitTask(body) =>
    case ClaimTask(task) =>
    case SubmitProof(proof) =>
    case Challenge(task, bond) =>
    case Transfer(to, amount) =>
  }

  lemma MarkMoves(c: Crypto, p: Params, s: State, t: TaskId)
    requires Consistent(c, p, s) && Slashable(s, t)
    ensures TaskMoves(s.tasks, MarkFailed(s, t).tasks)
  {
    About(c, p, s, t);
  }

  /** A task starts as submitted and then moves to executing, settled and failed, one at a time. */
  lemma StepMoves(c: Crypto, p: Params, s: State, a: Action)
    requires Consistent(c, p, s)
    ensures TaskMoves(s.tasks, Step(c, p, s, a).tasks)
  {
    match a
    case Transact(stx) =>
      if Apply(c, p, s, stx).Ok? {
        DispatchMoves(c, p, BumpNonce(s, stx.author), stx.author, stx.tx);
      }
    case Boundary =>
    case FraudVerdict(task, rewardTo) =>
      FraudRecords(p, s, task, rewardTo);
      if Slashable(s, task) {
        MarkMoves(c, p, s, task);
      }
    case ChallengeVerdict(task, fraud) =>
      VerdictRecords(p, s, task, fraud);
      if Slashable(s, task) {
        MarkMoves(c, p, s, task);
      }
  }

  /** Submitted, unclaimed and past its deadline. */
  predicate Expired(s: State, t: TaskId) {
    t in s.tasks && t in s.bodies && s.tasks[t].status == Submitted && s.bodies[t].deadline < s.epoch
  }

  /** `t` has the submission and the body it had. */
  predicate Unmoved(s: State, s': State, t: TaskId)
    requires t in s.tasks && t in s.bodies
  {
    t in s'.tasks && t in s'.bodies && s'.tasks[t] == s.tasks[t] && s'.bodies[t] == s.bodies[t] && s.epoch <= s'.epoch
  }

  lemma DispatchExpired(c: Crypto, p: Params, s: State, author: Identity, tx: Tx, t: TaskId)
    requires Expired(s, t) && Dispatch(c, p, s, author, tx).Ok?
    ensures Unmoved(s, Dispatch(c, p, s, author, tx).value, t)
  {
    match tx
    case SubmitTask(body) =>
    case ClaimTask(task) =>
    case SubmitProof(proof) =>
    case Challenge(task, bond) =>
    case Transfer(to, amount) =>
  }

  lemma MarkExpired(c: Crypto, p: Params, s: State, t: TaskId, failed: TaskId)
    requires Consistent(c, p, s) && Expired(s, t) && Slashable(s, failed)
    ensures Unmoved(s, MarkFailed(s, failed), t)
  {
    About(c, p, s, t);
  }

  /** Nothing moves an expired task: the deadline stops claims, and nothing else takes a submitted task
      anywhere. */
  lemma StepExpired(c: Crypto, p: Params, s: State, a: Action, t: TaskId)
    requires Consistent(c, p, s) && Expired(s, t)
    ensures Unmoved(s, Step(c, p, s, a), t)
  {
    match a
    case Transact(stx) =>
      if Apply(c, p, s, stx).Ok? {
        DispatchExpired(c, p, BumpNonce(s, stx.author), stx.author, stx.tx, t);
      }
    case Boundary =>
    case FraudVerdict(task, rewardTo) =>
      FraudRecords(p, s, task, rewardTo);
      if Slashable(s, task) {
        MarkExpired(c, p, s, t, task);
      }
    case ChallengeVerdict(task, fraud) =>
      VerdictRecords(p, s, task, fraud);
      if Slashable(s, task) {
        MarkExpired(c, p, s, t, task);
      }
  }
}
