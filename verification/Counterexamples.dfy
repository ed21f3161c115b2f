/** Inputs at which a property the code is described to have fails. The exact conditions are proved
    beside each property; here is one point on the failing side of every one of them, for the ledger
    along one short run: a task is submitted, claimed, proved, its stake released, and then challenged
    by its own provider in the last epoch that allows it. */
module Counterexamples {
  import opened Types
  import opened Codec
  import opened Governance
  import opened Sums
  import opened LedgerSpec
  import opened Lifecycle
  import opened Escrow
  import opened Bonds
  import opened Books
  import opened Runs
  import opened MachineSpec
  import opened Dvm
  import opened Verification
  import ConsensusSpec

  /** One task, valid signatures, and the epoch for a state root. */
  const TOY: Crypto := Crypto(
    (body: TaskBody) => 7,
    (stx: SignedTx) => true,
    (stx: SignedTx) => stx.nonce,
    (block: Block) => block.height,
    (s: State) => s.epoch)

  const SHORT_WINDOW: Params := Devnet().(clawbackEpochs := 1)
  const NO_WINDOW: Params := Devnet().(clawbackEpochs := 0)

  const REQUESTER: Identity := 1
  const PROVIDER: Identity := 2
  const TASK: TaskId := 7

  const BODY: TaskBody := TaskBody(Wasm, 0, 0, Limits(1000, 0), SampledReexec, 0, 0, AutoRequeue, 0)
  const PROOF: ComputeProof := ComputeProof(TASK, PROVIDER, 0, 0, 1000, 0, ReexecData, None)
  const SIGNATURE: Signature := seq(64, _ => 0)
  const ALLOCATIONS: seq<(Identity, nat)> := [(REQUESTER, 2000), (PROVIDER, 2000)]

  const SUBMIT: Action := Transact(SignedTx(REQUESTER, SubmitTask(BODY), 0, SIGNATURE))
  const CLAIM: Action := Transact(SignedTx(PROVIDER, ClaimTask(TASK), 0, SIGNATURE))
  const PROVE: Action := Transact(SignedTx(PROVIDER, SubmitProof(PROOF), 1, SIGNATURE))
  const CHALLENGE: Action := Transact(SignedTx(PROVIDER, Challenge(TASK, 250), 2, SIGNATURE))

  // ---- the states of the run ----

  function Start(): State {
    State(map[REQUESTER := Account(REQUESTER, 2000, 0, 0), PROVIDER := Account(PROVIDER, 2000, 0, 0)],
          map[], map[], map[], map[], map[], map[], map[], {}, {}, map[], Supply(4000, 0), 0, 0)
  }

  function AfterSubmit(): State {
    Start().(
      accounts := map[REQUESTER := Account(REQUESTER, 999, 1001, 0), PROVIDER := Account(PROVIDER, 2000, 0, 0)],
      bodies := map[TASK := BODY],
      tasks := map[TASK := Submission(TASK, REQUESTER, 0, 1, Submitted, None, 0)],
      nonces := map[REQUESTER := 1])
  }

  function AfterClaim(): State {
    AfterSubmit().(
      accounts := map[REQUESTER := Account(REQUESTER, 999, 1001, 0), PROVIDER := Account(PROVIDER, 1500, 0, 500)],
      tasks := map[TASK := Submission(TASK, REQUESTER, 0, 1, Executing, Some(PROVIDER), 500)],
      nonces := map[REQUESTER := 1, PROVIDER := 1])
  }

  function AfterProof(): State {
    AfterClaim().(
      accounts := map[REQUESTER := Account(REQUESTER, 999, 0, 0), PROVIDER := Account(PROVIDER, 2510, 0, 500)],
      standing := map[PROVIDER := StandingRecord(PROVIDER, 1000, 0, 0)],
      tasks := map[TASK := Submission(TASK, REQUESTER, 1000, 1, Settled, Some(PROVIDER), 500)],
      proofs := map[TASK := PROOF],
      receipts := map[TASK := Receipt(TASK, 1000, 10, 1, 1000, 0, 1)],
      qLedger := map[TASK := QLedgerEntry(TASK, 1000, None, None, None, 0)],
      nonces := map[REQUESTER := 1, PROVIDER := 2],
      supply := Supply(4010, 0),
      feePool := 1)
  }

  function AfterBoundary(): State {
    AfterProof().(
      accounts := map[REQUESTER := Account(REQUESTER, 999, 0, 0), PROVIDER := Account(PROVIDER, 3010, 0, 0)],
      standing := map[PROVIDER := StandingRecord(PROVIDER, 980, 1, 0)],
      released := {TASK},
      epoch := 1)
  }

  function AfterChallenge(): State {
    AfterBoundary().(
      accounts := map[REQUESTER := Account(REQUESTER, 999, 0, 0), PROVIDER := Account(PROVIDER, 2760, 0, 250)],
      pending := map[TASK := ChallengeRecord(PROVIDER, 250)],
      nonces := map[REQUESTER := 1, PROVIDER := 3])
  }

  /** The same challenge, opened before the boundary instead of after it. */
  function AfterEarlyChallenge(): State {
    AfterProof().(
      accounts := map[REQUESTER := Account(REQUESTER, 999, 0, 0), PROVIDER := Account(PROVIDER, 2260, 0, 750)],
      pending := map[TASK := ChallengeRecord(PROVIDER, 250)],
      nonces := map[REQUESTER := 1, PROVIDER := 3])
  }

  lemma StartState()
    ensures Genesis(ALLOCATIONS, 0) == Start()
  {
    var one := [(REQUESTER, 2000)];
    assert one[..0] == [] && ALLOCATIONS[..1] == one;
    assert GenesisAccounts(one) == map[REQUESTER := Account(REQUESTER, 2000, 0, 0)];
    assert AllocatedTotal([]) == 0 && one[0] == (REQUESTER, 2000);
    assert AllocatedTotal(one) == 2000;
    assert GenesisAccounts(ALLOCATIONS) == Start().accounts;
  }

  lemma SubmitState()
    ensures Step(TOY, SHORT_WINDOW, Start(), SUBMIT) == AfterSubmit()
  {
  }

  lemma ClaimState()
    ensures Step(TOY, SHORT_WINDOW, AfterSubmit(), CLAIM) == AfterClaim()
  {
  }

  lemma ProofState()
    ensures Step(TOY, SHORT_WINDOW, AfterClaim(), PROVE) == AfterProof()
  {
  }

  lemma ReleaseSingle(accounts: map<Identity, Account>, tasks: map<TaskId, Submission>, t: TaskId)
    ensures ReleaseAll(accounts, tasks, {t}) == LedgerSpec.Release(accounts, tasks, t)
  {
    assert Pick({t}) == t;
    assert {t} - {t} == {};
  }

  lemma BoundaryState()
    ensures Step(TOY, SHORT_WINDOW, AfterProof(), Boundary) == AfterBoundary()
  {
    var s := AfterProof();
    assert DueTasks(s, 1) == {TASK};
    ReleaseSingle(s.accounts, s.tasks, TASK);
    assert DecayAll(SHORT_WINDOW, s.standing, 1) == map[PROVIDER := StandingRecord(PROVIDER, 980, 1, 0)];
  }

  lemma ChallengeState()
    ensures Step(TOY, SHORT_WINDOW, AfterBoundary(), CHALLENGE) == AfterChallenge()
  {
  }

  lemma EarlyChallengeState()
    ensures Step(TOY, SHORT_WINDOW, AfterProof(), CHALLENGE) == AfterEarlyChallenge()
  {
  }

  lemma LateBoundaryState()
    ensures Step(TOY, SHORT_WINDOW, AfterEarlyChallenge(), Boundary) == AfterChallenge()
  {
    var s := AfterEarlyChallenge();
    assert DueTasks(s, 1) == {TASK};
    ReleaseSingle(s.accounts, s.tasks, TASK);
    assert DecayAll(SHORT_WINDOW, s.standing, 1) == map[PROVIDER := StandingRecord(PROVIDER, 980, 1, 0)];
  }

  /** The run reaches the state, and no fraud verdict fell on the way. */
  ghost predicate Reaches(actions: seq<Action>, s: State) {
    && Run(TOY, SHORT_WINDOW, Genesis(ALLOCATIONS, 0), actions) == s
    && NoFraudVerdicts(actions)
  }

  lemma ReachesNext(actions: seq<Action>, a: Action, s: State, s': State)
    requires Reaches(actions, s) && Step(TOY, SHORT_WINDOW, s, a) == s' && !IsFraudVerdict(a)
    ensures Reaches(actions + [a], s')
  {
    assert (actions + [a])[..|actions|] == actions;
  }

  const PROOF_RUN: seq<Action> := [] + [SUBMIT] + [CLAIM] + [PROVE]

  lemma ProofReached()
    ensures Reaches(PROOF_RUN, AfterProof())
  {
    StartState();
    assert Reaches([], Start());
    SubmitState();
    ReachesNext([], SUBMIT, Start(), AfterSubmit());
    ClaimState();
    ReachesNext([] + [SUBMIT], CLAIM, AfterSubmit(), AfterClaim());
    ProofState();
    ReachesNext([] + [SUBMIT] + [CLAIM], PROVE, AfterClaim(), AfterProof());
  }

  lemma ChallengeReached()
    ensures Reaches(PROOF_RUN + [Boundary] + [CHALLENGE], AfterChallenge())
  {
    ProofReached();
    BoundaryState();
    ReachesNext(PROOF_RUN, Boundary, AfterProof(), AfterBoundary());
    ChallengeState();
    ReachesNext(PROOF_RUN + [Boundary], CHALLENGE, AfterBoundary(), AfterChallenge());
  }

  lemma ExactAt(actions: seq<Action>, s: State)
    requires Reaches(actions, s)
    ensures Sound(s) && Exact(s)
  {
    ReachableExact(TOY, SHORT_WINDOW, ALLOCATIONS, 0, actions);
  }

  lemma ExactStates()
    ensures Sound(AfterProof()) && Exact(AfterProof())
    ensures Sound(AfterChallenge()) && Exact(AfterChallenge())
  {
    ProofReached();
    ExactAt(PROOF_RUN, AfterProof());
    ChallengeReached();
    ExactAt(PROOF_RUN + [Boundary] + [CHALLENGE], AfterChallenge());
  }

  // ---- the failures ----

  /** Bonds stop being exact: 1000 were paid, 500 are bonded, and the verdict takes the 500 while the
      stake they secured stays on record. */
  lemma BondsNotExact()
    ensures Exact(AfterProof()) && !Exact(ResolveFraud(SHORT_WINDOW, AfterProof(), TASK, None))
  {
    ExactStates();
    FraudExactIff(SHORT_WINDOW, AfterProof(), TASK, None);
  }

  /** Bonds may stay exact through a fraud verdict: all the provider has bonded is the bond of its own
      challenge, so what the verdict seizes is no longer owed to anybody. */
  lemma BondsExactThroughFraud()
    ensures Exact(AfterChallenge()) && Exact(ResolveChallenge(SHORT_WINDOW, AfterChallenge(), TASK, true))
    ensures AccountOf(AfterChallenge().accounts, PROVIDER).bonded > 0
            && AfterChallenge().receipts[TASK].paidToProvider > 0
  {
    ExactStates();
    VerdictExactIff(SHORT_WINDOW, AfterChallenge(), TASK);
  }

  /** A stake that is back with its provider, of a task that is slashed. */
  lemma ReleasedAndSlashed()
    ensures Disjoint(AfterChallenge())
    ensures var s := ResolveChallenge(SHORT_WINDOW, AfterChallenge(), TASK, true); TASK in s.released * s.slashed
  {
    VerdictDisjointIff(SHORT_WINDOW, AfterChallenge(), TASK, true);
  }

  /** The other way there: challenged well within the window, and released under the open challenge. */
  lemma ReleasedUnderChallenge()
    ensures Reaches(PROOF_RUN + [CHALLENGE], AfterEarlyChallenge())
    ensures var s := AfterEarlyChallenge();
            && TASK in s.pending && TASK !in s.released && s.epoch < s.receipts[TASK].clawbackUntil
            && Step(TOY, SHORT_WINDOW, s, Boundary) == AfterChallenge()
    ensures TASK in AfterChallenge().pending && TASK in AfterChallenge().released
  {
    ProofReached();
    EarlyChallengeState();
    ReachesNext(PROOF_RUN, CHALLENGE, AfterProof(), AfterEarlyChallenge());
    LateBoundaryState();
  }

  /** An open challenge about a failed task, left by a verdict that bypassed it. */
  lemma PendingNotSettled()
    ensures PendingSettled(AfterChallenge())
    ensures !PendingSettled(ResolveFraud(SHORT_WINDOW, AfterChallenge(), TASK, None))
  {
    assert TASK in ResolveFraud(SHORT_WINDOW, AfterChallenge(), TASK, None).slashed;
  }

  /** A task that outlived its deadline unclaimed, with 1001 in escrow from here on. */
  lemma UnclaimedTask()
    ensures Reaches([] + [SUBMIT] + [Boundary], AfterSubmit().(epoch := 1)) && Expired(AfterSubmit().(epoch := 1), TASK)
  {
    StartState();
    SubmitState();
    ReachesNext([], SUBMIT, Start(), AfterSubmit());
    assert DueTasks(AfterSubmit(), 1) == {};
    assert AdvanceEpoch(SHORT_WINDOW, AfterSubmit()) == AfterSubmit().(epoch := 1);
    ReachesNext([] + [SUBMIT], Boundary, AfterSubmit(), AfterSubmit().(epoch := 1));
  }

  /** A settlement that is overdue at once, under a window of no epochs. */
  lemma OverdueAtOnce()
    ensures Timely(AfterClaim()) && !Timely(Step(TOY, NO_WINDOW, AfterClaim(), PROVE))
  {
    var s := Step(TOY, NO_WINDOW, AfterClaim(), PROVE);
    assert TASK in s.receipts && s.receipts[TASK].clawbackUntil == 0 && s.epoch == 0;
  }

  /** A system block that cannot be replayed: it seals a boundary, and the root moved. */
  lemma SealedNotReplayed(head: ConsensusSpec.Head)
    ensures var after := AdvanceEpoch(SHORT_WINDOW, AfterProof());
            ConsensusSpec.Commit(TOY, SHORT_WINDOW, ConsensusSpec.SealBlock(TOY, head, after), [], AfterProof()).Err?
  {
    ConsensusSpec.SealedCommitIff(TOY, SHORT_WINDOW, head, AfterProof(), AdvanceEpoch(SHORT_WINDOW, AfterProof()));
  }

  /** Decay that is not the floor: a Standing of -1 goes to 0, the floor is -1. */
  lemma DecayNotFloor()
    ensures Decay(Devnet(), -1) == 0 && -1 * (PPM - Devnet().decayRatePpm) / PPM == -1
  {
  }

  /** A submission whose fee leaves 128 bits, at the largest ceiling there is. */
  lemma FeeOverflows(c: Crypto, s: State, requester: Identity, body: TaskBody)
    requires body.tier == SampledReexec && c.taskId(body) !in s.tasks && body.limits.maxUcu == TWO_128 - 1
    ensures SubmitM(c, Devnet(), s, requester, body).None?
  {
  }

  /** A fuel ceiling whose product wraps to zero. */
  lemma CeilingNotLargest()
    ensures UcuToFuelCeiling(BenchmarkData(0, 0, 2, 137, 300_000), TWO_127) == 0
    ensures !LargestAffordable(BenchmarkData(0, 0, 2, 137, 300_000), TWO_127)
  {
    CeilingIsLargestIff(BenchmarkData(0, 0, 2, 137, 300_000), TWO_127);
  }

  /** The empty program traps, any other one outputs what stands for a trap. */
  function Imitator(): Engine {
    (program: Bytes, input: Bytes, ceiling: u64, memory: u64) =>
      if program == [] then Raised(None, false, None) else Returned(FAIL_DOMAIN + PutKind(Trap), None)
  }

  /** A failure and a success with one result hash, whatever the hash function. */
  lemma FailureImitated(hash: Bytes -> Hash, limits: Limits, b: Benchmark)
    ensures var r := Execute(hash, Imitator(), [], [], limits, b);
            var r' := Execute(hash, Imitator(), [0], [], limits, b);
            r.status == Failure(Trap) && r'.status == Success && r.resultHash == r'.resultHash
  {
  }

  /** A proof that is accepted with whatever output id its provider chose. */
  lemma WrongOutputAccepted(hash: Bytes -> Hash, limits: Limits, b: Benchmark, output: ContentId)
    ensures var r := Execute(hash, Imitator(), [0], [], limits, b);
            var proof := PROOF.(resultHash := r.resultHash, ucuCount := r.ucuCount, output := output);
            Check(hash, Imitator(), proof, [0], [], limits, b) == Accept
  {
  }

  /** Any program completes with ten units of fuel, if it gets them. */
  function TenUnits(): Engine {
    (program: Bytes, input: Bytes, ceiling: u64, memory: u64) =>
      if ceiling >= 10 then Returned([], Some(ceiling - 10)) else Raised(None, true, Some(0))
  }

  /** Honest work under a version with twice the rate, ruled fraud by a node that runs the first
      version. */
  lemma HonestElsewhere(hash: Bytes -> Hash, program: Bytes, input: Bytes)
    ensures var limits, b := Limits(100 * UCU_SCALE, 0), BenchmarkData(0, 0, 1, 137, 300_000);
            var b' := BenchmarkData(1, 0, 2, 137, 300_000);
            var r := Execute(hash, TenUnits(), program, input, limits, b');
            var proof := PROOF.(resultHash := r.resultHash, ucuCount := r.ucuCount, benchmark := 1);
            && Honest(hash, TenUnits(), proof, program, input, limits, b')
            && Check(hash, TenUnits(), proof, program, input, limits, b).Fraud?
  {
  }
}
