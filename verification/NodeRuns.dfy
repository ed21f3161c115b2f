/** Theorems about every interleaving of a node's threads: the chain it keeps, that a challenge
    resolution is atomic in effect although it re-executes between two locks, and who gets
    slashed. */
module NodeRuns {
  import opened Types
  import opened Codec
  import opened Governance
  import opened LedgerSpec
  import opened Lifecycle
  import opened Books
  import opened Runs
  import opened Hashing
  import opened Dvm
  import opened Verification
  import opened ConsensusSpec
  import opened NodeSpec

  // ---- the chain ----

  predicate LinkedAt(cfg: Config, blocks: seq<Block>, blockTxs: seq<seq<SignedTx>>, i: nat)
    requires i < |blocks| == |blockTxs|
  {
    && blocks[i].height == i + 1
    && blocks[i].parent == (if i == 0 then 0 else cfg.c.blockHash(blocks[i - 1]))
    && blocks[i].txs == Ids(cfg.c, blockTxs[i])
  }

  /** Block `i` has height `i + 1` and links to the block before it, and the head, the ledger and the
      storage stand where the last block left them. */
  predicate ChainOk(cfg: Config, n: NodeState) {
    && |n.blocks| == |n.blockTxs| == n.head.height
    && (forall i :: 0 <= i < |n.blocks| ==> LinkedAt(cfg, n.blocks, n.blockTxs, i))
    && n.head.parent == (if n.blocks == [] then 0 else cfg.c.blockHash(n.blocks[|n.blocks| - 1]))
    && (n.blocks != [] ==>
          n.blocks[|n.blocks| - 1].stateRoot == cfg.c.root(n.state) && n.blocks[|n.blocks| - 1].epoch == n.state.epoch)
    && n.head.epoch == n.state.epoch
    && n.saved == Some(n.state)
    && n.mempool == []
    && (forall i :: 0 <= i < |n.blocks| ==> n.blocks[i].proposer == n.head.proposer)
  }

  lemma AppendChain(cfg: Config, n: NodeState, n0: NodeState, txs: seq<SignedTx>, after: State, block: Block)
    requires ChainOk(cfg, n0) && n.blocks == n0.blocks && n.blockTxs == n0.blockTxs && n.mempool == []
    requires n.head.proposer == n0.head.proposer
    requires block == Block(n0.head.height + 1, n0.head.parent, after.epoch, Ids(cfg.c, txs), cfg.c.root(after),
            n0.head.proposer)
    ensures ChainOk(cfg, Append(cfg, n, block, txs, after))
  {
    var n' := Append(cfg, n, block, txs, after);
    forall i | 0 <= i < |n'.blocks|
      ensures LinkedAt(cfg, n'.blocks, n'.blockTxs, i)
    {
      assert i < |n0.blocks| ==> LinkedAt(cfg, n0.blocks, n0.blockTxs, i);
    }
  }

  lemma OrderOne(c: Crypto, p: Params, s: State, stx: SignedTx)
    ensures Order(c, p, s, [stx])
            == match Apply(c, p, s, stx)
               case Ok(s') => Ordering(s', [stx], [TxResult(c.txId(stx), true, None)])
               case Err(e) => Ordering(s, [], [TxResult(c.txId(stx), false, Some(e))])
  {
    assert Order(c, p, s, [stx][..0]) == Ordering(s, [], []);
  }

  /** A submit succeeds exactly when the ledger accepts the transaction. A rejected one changes
      nothing at all and reports the ledger's reason; an accepted one adds one block that a replica
      can replay from the state before. */
  lemma SubmitIff(cfg: Config, n: NodeState, stx: SignedTx)
    requires n.mempool == []
    ensures var (n', r) := SubmitTx(cfg, n, stx);
            match Apply(cfg.c, cfg.p, n.state, stx)
            case Err(e) => n' == n && r == Err(e)
            case Ok(s') =>
              && r == Ok(cfg.c.txId(stx))
              && n'.state == s' && n'.blockTxs == n.blockTxs + [[stx]] && |n'.blocks| == |n.blocks| + 1
              && n'.blobs == n.blobs && n'.mempool == [] && n'.saved == Some(s')
              && Commit(cfg.c, cfg.p, n'.blocks[|n.blocks|], [stx], n.state) == Ok(s')
  {
    assert n.mempool + [stx] == [stx];
    OrderOne(cfg.c, cfg.p, n.state, stx);
    CommitReproduces(cfg.c, cfg.p, n.head, n.state, [stx]);
  }

  /** From any state, also one with transactions waiting: a submit orders all that wait and then its own,
      leaves nothing waiting, and extends the chain by a block of what was accepted, or not at all. */
  lemma SubmitEffect(cfg: Config, n: NodeState, stx: SignedTx)
    ensures var o, n' := Order(cfg.c, cfg.p, n.state, n.mempool + [stx]), SubmitTx(cfg, n, stx).0;
            && n'.mempool == [] && n'.blobs == n.blobs
            && n'.state == o.state
            && n'.blockTxs == (if o.txs == [] then n.blockTxs else n.blockTxs + [o.txs])
            && (o.txs == [] ==> n'.(mempool := n.mempool) == n)
            && (o.txs != [] ==>
                  && |n'.blocks| == |n.blocks| + 1 && n'.blocks[..|n.blocks|] == n.blocks && n'.saved == Some(o.state)
                  && Commit(cfg.c, cfg.p, n'.blocks[|n.blocks|], o.txs, n.state) == Ok(o.state))
  {
    EmptyOrder(cfg.c, cfg.p, n.state, n.mempool + [stx]);
    CommitReproduces(cfg.c, cfg.p, n.head, n.state, n.mempool + [stx]);
  }

  lemma {:induction false} EmptyOrder(c: Crypto, p: Params, s: State, mempool: seq<SignedTx>)
    ensures Order(c, p, s, mempool).txs == [] ==> Order(c, p, s, mempool).state == s
  {
    if mempool != [] {
      EmptyOrder(c, p, s, mempool[..|mempool| - 1]);
    }
  }

  lemma SubmitChain(cfg: Config, n: NodeState, stx: SignedTx)
    requires ChainOk(cfg, n)
    ensures ChainOk(cfg, SubmitTx(cfg, n, stx).0)
  {
    SubmitIff(cfg, n, stx);
    assert n.mempool + [stx] == [stx];
    OrderOne(cfg.c, cfg.p, n.state, stx);
    if Apply(cfg.c, cfg.p, n.state, stx).Ok? {
      var s' := Apply(cfg.c, cfg.p, n.state, stx).value;
      ApplyKeeps(cfg.c, cfg.p, n.state, stx);
      AppendChain(cfg, n.(mempool := []), n, [stx], s', Produce(cfg.c, cfg.p, n.head, n.state, [stx]).block);
    }
  }

  lemma VerdictChain(cfg: Config, n: NodeState, task: TaskId, fraud: bool)
    requires ChainOk(cfg, n)
    ensures ChainOk(cfg, CommitVerdict(cfg, n, task, fraud))
  {
    var after := ResolveChallenge(cfg.p, n.state, task, fraud);
    VerdictRecords(cfg.p, n.state, task, fraud);
    AppendChain(cfg, n, n, [], after, SealBlock(cfg.c, n.head, after));
  }

  lemma EpochChain(cfg: Config, n: NodeState)
    requires ChainOk(cfg, n)
    ensures ChainOk(cfg, NextEpoch(cfg, n))
  {
    var after := AdvanceEpoch(cfg.p, n.state);
    var head := n.head.(epoch := after.epoch);
    AppendChain(cfg, n.(head := head), n, [], after, SealBlock(cfg.c, head, after));
  }

  /** What a client sees: every height up to the head has its block and the transactions the block
      lists, and no other has any. */
  lemma BlocksByHeight(cfg: Config, n: NodeState, height: nat)
    requires ChainOk(cfg, n)
    ensures BlockAt(n, height).Some? <==> 1 <= height <= n.head.height
    ensures BlockAt(n, height).Some? ==> BlockAt(n, height).value.height == height
    ensures BlockTxsAt(n, height).Some? <==> BlockAt(n, height).Some?
    ensures BlockAt(n, height).Some? ==> BlockAt(n, height).value.txs == Ids(cfg.c, BlockTxsAt(n, height).value)
  {
    if 1 <= height <= n.head.height {
      assert LinkedAt(cfg, n.blocks, n.blockTxs, height - 1);
    }
  }

  // ---- pending challenges ----

  lemma TransactPending(c: Crypto, p: Params, s: State, stx: SignedTx)
    requires Consistent(c, p, s) && PendingSettled(s) && Apply(c, p, s, stx).Ok?
    ensures PendingSettled(Apply(c, p, s, stx).value)
  {
    var s1 := BumpNonce(s, stx.author);
    match stx.tx
    case SubmitTask(body) =>
    case ClaimTask(task) =>
    case SubmitProof(proof) =>
    case Challenge(task, bond) =>
    case Transfer(to, amount) =>
  }

  /** Kept by everything but a fraud verdict that bypasses the challenge. */
  lemma StepPending(c: Crypto, p: Params, s: State, a: Action)
    requires Consistent(c, p, s) && PendingSettled(s) && !a.FraudVerdict?
    ensures PendingSettled(Step(c, p, s, a))
  {
    match a
    case Transact(stx) =>
      if Apply(c, p, s, stx).Ok? {
        TransactPending(c, p, s, stx);
      }
    case Boundary =>
    case ChallengeVerdict(t, fraud) => VerdictEffect(c, p, s, t, fraud);
  }

  /** A direct fraud verdict keeps the property if and only if its task is not under challenge. */
  lemma FraudPendingIff(c: Crypto, p: Params, s: State, t: TaskId, rewardTo: Option<Identity>)
    requires Consistent(c, p, s) && PendingSettled(s)
    ensures PendingSettled(ResolveFraud(p, s, t, rewardTo)) <==> t !in s.pending
  {
    if t in s.pending {
      About(c, p, s, t);
      assert t in ResolveFraud(p, s, t, rewardTo).slashed && t in ResolveFraud(p, s, t, rewardTo).pending;
    } else {
      assert ResolveFraud(p, s, t, rewardTo).pending == s.pending;
    }
  }

  /** What a verdict on an open challenge does to the records: the challenge closes, and the task is
      slashed exactly when fraud was found. */
  lemma VerdictEffect(c: Crypto, p: Params, s: State, t: TaskId, fraud: bool)
    requires Consistent(c, p, s) && PendingSettled(s)
    ensures var s' := ResolveChallenge(p, s, t, fraud);
            var slash := t in s.pending && fraud;
            && s'.pending == s.pending - {t}
            && s'.slashed == (if slash then s.slashed + {t} else s.slashed)
            && (slash ==> t in s.tasks)
            && s'.tasks == (if slash then s.tasks[t := s.tasks[t].(status := Failed)] else s.tasks)
            && PendingSettled(s')
  {
    if t in s.pending {
      About(c, p, s, t);
      VerdictRecords(p, s, t, fraud);
      VerdictPending(p, s, t, fraud);
    } else {
      assert s.pending - {t} == s.pending;
    }
  }

  lemma VerdictPending(p: Params, s: State, t: TaskId, fraud: bool)
    requires t in s.pending
    ensures ResolveChallenge(p, s, t, fraud).pending == s.pending - {t}
  {
  }

  // ---- slashing is just ----

  /** Program and input with the content ids the task's body commits to, on which a re-execution
      differs from the task's proof. */
  predicate Mismatch(cfg: Config, s: State, t: TaskId, program: Bytes, input: Bytes) {
    && t in s.bodies && t in s.proofs
    && cfg.hash(program) == s.bodies[t].program
    && cfg.hash(input) == s.bodies[t].input
    && !Honest(cfg.hash, cfg.engine, s.proofs[t], program, input, s.bodies[t].limits, cfg.benchmark)
  }

  /** The byte strings that some thread uploaded. */
  function Uploads(events: seq<Event>): set<Bytes> {
    if events == [] then {} else Uploads(events[..|events| - 1]) + UploadedBy(events[|events| - 1])
  }

  function UploadedBy(e: Event): set<Bytes> {
    if e.BlobStored? then {e.bytes} else {}
  }

  lemma {:induction false} UploadsAreEvents(events: seq<Event>, bytes: Bytes)
    ensures bytes in Uploads(events) <==> BlobStored(bytes) in events
  {
    if events != [] {
      var n := |events| - 1;
      UploadsAreEvents(events[..n], bytes);
      assert events == events[..n] + [events[n]];
    }
  }

  /** Nothing is slashed without a mismatching re-execution of uploaded content. */
  ghost predicate SlashedJustly(cfg: Config, up: set<Bytes>, s: State) {
    forall t :: t in s.slashed ==>
      exists program, input :: program in up && input in up && Mismatch(cfg, s, t, program, input)
  }

  lemma JustLater(cfg: Config, up: set<Bytes>, s: State, s': State)
    requires SlashedJustly(cfg, up, s) && Grows(s.bodies, s'.bodies) && Grows(s.proofs, s'.proofs)
    requires forall t :: t in s'.slashed ==>
               || t in s.slashed
               || exists program, input :: program in up && input in up && Mismatch(cfg, s, t, program, input)
    ensures SlashedJustly(cfg, up, s')
  {
    forall t | t in s'.slashed
      ensures exists program, input :: program in up && input in up && Mismatch(cfg, s', t, program, input)
    {
      var program, input :| program in up && input in up && Mismatch(cfg, s, t, program, input);
      assert Mismatch(cfg, s', t, program, input);
    }
  }

  lemma JustMore(cfg: Config, up: set<Bytes>, more: set<Bytes>, s: State)
    requires SlashedJustly(cfg, up, s) && up <= more
    ensures SlashedJustly(cfg, more, s)
  {
    forall t | t in s.slashed
      ensures exists program, input :: program in more && input in more && Mismatch(cfg, s, t, program, input)
    {
      var program, input :| program in up && input in up && Mismatch(cfg, s, t, program, input);
    }
  }

  // ---- the invariant of all interleavings ----

  /** Blobs were uploaded and sit under their own content ids, and every upload has a blob there. */
  predicate BlobsOk(cfg: Config, up: set<Bytes>, blobs: map<ContentId, Bytes>) {
    && (forall id :: id in blobs ==> cfg.hash(blobs[id]) == id && blobs[id] in up)
    && (forall bytes :: bytes in up ==> cfg.hash(bytes) in blobs)
  }

  /** What a thread copied under the first lock is still on record, and its content was uploaded and
      has successors under the same ids. */
  predicate TicketOk(cfg: Config, up: set<Bytes>, s: State, blobs: map<ContentId, Bytes>, t: Ticket) {
    && t.task in s.bodies && s.bodies[t.task] == t.body
    && t.task in s.proofs && s.proofs[t.task] == t.proof
    && t.body.program in blobs && cfg.hash(t.program) == t.body.program && t.program in up
    && t.body.input in blobs && cfg.hash(t.input) == t.body.input && t.input in up
  }

  predicate TicketsOk(cfg: Config, up: set<Bytes>, s: State, blobs: map<ContentId, Bytes>, tickets: map<nat, Ticket>) {
    forall k :: k in tickets ==> TicketOk(cfg, up, s, blobs, tickets[k])
  }

  /** What every interleaving keeps, given what was uploaded so far. */
  ghost predicate SystemOk(cfg: Config, up: set<Bytes>, sys: System) {
    && Invariant(cfg.c, cfg.p, sys.node.state)
    && PendingSettled(sys.node.state)
    && SlashedJustly(cfg, up, sys.node.state)
    && ChainOk(cfg, sys.node)
    && BlobsOk(cfg, up, sys.node.blobs)
    && TicketsOk(cfg, up, sys.node.state, sys.node.blobs, sys.tickets)
  }

  lemma NewNodeOk(cfg: Config, proposer: Identity, allocations: seq<(Identity, nat)>)
    ensures SystemOk(cfg, {}, System(NewNode(proposer, allocations), map[]))
  {
    GenesisInvariant(cfg.c, cfg.p, allocations, 0);
  }

  /** The ledger action a move amounts to. */
  function LedgerAction(cfg: Config, sys: System, e: Event): Option<Action> {
    match e
    case Submitted(stx) => Some(Transact(stx))
    case EpochAdvanced => Some(Boundary)
    case ResolutionFinished(thread) =>
      if thread in sys.tickets
      then Some(ChallengeVerdict(sys.tickets[thread].task, FindsFraud(cfg, sys.tickets[thread])))
      else None
    case _ => None
  }

  lemma SubmittedIsStep(cfg: Config, n: NodeState, stx: SignedTx)
    requires n.mempool == []
    ensures SubmitTx(cfg, n, stx).0.state
            == match Apply(cfg.c, cfg.p, n.state, stx) case Ok(s') => s' case Err(_) => n.state
  {
    SubmitIff(cfg, n, stx);
  }

  lemma MoveIsStep(cfg: Config, sys: System, e: Event)
    requires sys.node.mempool == []
    ensures var a := LedgerAction(cfg, sys, e);
            Move(cfg, sys, e).node.state
            == if a.Some? then Step(cfg.c, cfg.p, sys.node.state, a.value) else sys.node.state
  {
    match e
    case Submitted(stx) => SubmittedIsStep(cfg, sys.node, stx);
    case BlobStored(bytes) =>
    case EpochAdvanced =>
    case ResolutionStarted(thread, task) =>
    case ResolutionFinished(thread) =>
  }

  lemma TicketsLater(cfg: Config, up: set<Bytes>, up': set<Bytes>, s: State, s': State, blobs: map<ContentId, Bytes>,
                     blobs': map<ContentId, Bytes>, tickets: map<nat, Ticket>)
    requires TicketsOk(cfg, up, s, blobs, tickets) && up <= up'
    requires Grows(s.bodies, s'.bodies) && Grows(s.proofs, s'.proofs) && blobs.Keys <= blobs'.Keys
    ensures TicketsOk(cfg, up', s', blobs', tickets)
  {
    forall k | k in tickets
      ensures TicketOk(cfg, up', s', blobs', tickets[k])
    {
      assert TicketOk(cfg, up, s, blobs, tickets[k]);
    }
  }

  /** A fraud verdict from a ticket has its mismatch on record. */
  lemma TicketMismatch(cfg: Config, up: set<Bytes>, s: State, blobs: map<ContentId, Bytes>, t: Ticket)
    requires TicketOk(cfg, up, s, blobs, t)
    ensures FindsFraud(cfg, t) <==> Mismatch(cfg, s, t.task, t.program, t.input)
  {
  }

  /** The ledger part of the invariant over one action, given that a verdict of fraud is backed by a
      mismatch on uploaded content. */
  lemma StepOk(cfg: Config, up: set<Bytes>, s: State, a: Action)
    requires Invariant(cfg.c, cfg.p, s) && PendingSettled(s) && SlashedJustly(cfg, up, s) && !a.FraudVerdict?
    requires a.ChallengeVerdict? && a.fraud ==>
               exists program, input :: program in up && input in up && Mismatch(cfg, s, a.challenged, program, input)
    ensures var s' := Step(cfg.c, cfg.p, s, a);
            && Invariant(cfg.c, cfg.p, s') && PendingSettled(s') && SlashedJustly(cfg, up, s')
            && Grows(s.bodies, s'.bodies) && Grows(s.proofs, s'.proofs)
  {
    var s' := Step(cfg.c, cfg.p, s, a);
    StepInvariant(cfg.c, cfg.p, s, a);
    StepLifecycle(cfg.c, cfg.p, s, a);
    StepPending(cfg.c, cfg.p, s, a);
    StepSlashes(cfg.c, cfg.p, s, a);
    JustLater(cfg, up, s, s');
  }

  lemma StepSlashes(c: Crypto, p: Params, s: State, a: Action)
    requires Consistent(c, p, s) && PendingSettled(s) && !a.FraudVerdict?
    ensures forall t :: t in Step(c, p, s, a).slashed ==>
              t in s.slashed || (a.ChallengeVerdict? && a.fraud && t == a.challenged)
  {
    match a
    case Transact(stx) =>
      if Apply(c, p, s, stx).Ok? {
        ApplyKeeps(c, p, s, stx);
      }
    case Boundary =>
    case ChallengeVerdict(t, fraud) => VerdictEffect(c, p, s, t, fraud);
  }

  lemma MoveLedger(cfg: Config, up: set<Bytes>, sys: System, e: Event)
    requires SystemOk(cfg, up, sys)
    ensures var s, s' := sys.node.state, Move(cfg, sys, e).node.state;
            && Invariant(cfg.c, cfg.p, s') && PendingSettled(s') && SlashedJustly(cfg, up, s')
            && Grows(s.bodies, s'.bodies) && Grows(s.proofs, s'.proofs)
  {
    MoveIsStep(cfg, sys, e);
    var a := LedgerAction(cfg, sys, e);
    if a.Some? {
      if e.ResolutionFinished? {
        var t := sys.tickets[e.thread];
        assert TicketOk(cfg, up, sys.node.state, sys.node.blobs, t);
        TicketMismatch(cfg, up, sys.node.state, sys.node.blobs, t);
      }
      StepOk(cfg, up, sys.node.state, a.value);
    }
  }

  lemma MoveChain(cfg: Config, up: set<Bytes>, sys: System, e: Event)
    requires SystemOk(cfg, up, sys)
    ensures ChainOk(cfg, Move(cfg, sys, e).node)
  {
    match e
    case Submitted(stx) => SubmitChain(cfg, sys.node, stx);
    case BlobStored(bytes) =>
      var n, n' := sys.node, NodeSpec.PutBlob(cfg, sys.node, bytes);
      forall i | 0 <= i < |n'.blocks|
        ensures LinkedAt(cfg, n'.blocks, n'.blockTxs, i)
      {
        assert LinkedAt(cfg, n.blocks, n.blockTxs, i);
      }
    case EpochAdvanced => EpochChain(cfg, sys.node);
    case ResolutionStarted(thread, task) =>
    case ResolutionFinished(thread) =>
      if thread in sys.tickets {
        VerdictChain(cfg, sys.node, sys.tickets[thread].task, FindsFraud(cfg, sys.tickets[thread]));
      }
  }

  lemma MoveBlobs(cfg: Config, up: set<Bytes>, sys: System, e: Event)
    requires BlobsOk(cfg, up, sys.node.blobs) && sys.node.mempool == []
    ensures BlobsOk(cfg, up + UploadedBy(e), Move(cfg, sys, e).node.blobs)
    ensures sys.node.blobs.Keys <= Move(cfg, sys, e).node.blobs.Keys
  {
    if e.Submitted? {
      SubmitIff(cfg, sys.node, e.stx);
    }
  }

  /** What gathering copies is a sound ticket. */
  lemma GatherTicket(cfg: Config, up: set<Bytes>, n: NodeState, task: TaskId)
    requires BlobsOk(cfg, up, n.blobs) && Gather(n, task).Ok?
    ensures TicketOk(cfg, up, n.state, n.blobs, Gather(n, task).value)
  {
  }

  /** A move leaves the tickets, takes one out, or adds the one it gathered. */
  lemma MoveTicketMap(cfg: Config, sys: System, e: Event)
    ensures var tickets := Move(cfg, sys, e).tickets;
            forall k :: k in tickets ==>
              || (k in sys.tickets && tickets[k] == sys.tickets[k])
              || (&& e.ResolutionStarted? && Gather(sys.node, e.task) == Ok(tickets[k])
                 && Move(cfg, sys, e).node == sys.node)
  {
  }

  lemma MoveTickets(cfg: Config, up: set<Bytes>, sys: System, e: Event)
    requires SystemOk(cfg, up, sys)
    ensures var sys' := Move(cfg, sys, e);
            TicketsOk(cfg, up + UploadedBy(e), sys'.node.state, sys'.node.blobs, sys'.tickets)
  {
    var sys', up' := Move(cfg, sys, e), up + UploadedBy(e);
    MoveLedger(cfg, up, sys, e);
    MoveBlobs(cfg, up, sys, e);
    TicketsLater(cfg, up, up', sys.node.state, sys'.node.state, sys.node.blobs, sys'.node.blobs, sys.tickets);
    MoveTicketMap(cfg, sys, e);
    forall k | k in sys'.tickets
      ensures TicketOk(cfg, up', sys'.node.state, sys'.node.blobs, sys'.tickets[k])
    {
      if k in sys.tickets && sys'.tickets[k] == sys.tickets[k] {
        assert TicketOk(cfg, up', sys'.node.state, sys'.node.blobs, sys.tickets[k]);
      } else {
        GatherTicket(cfg, up', sys'.node, e.task);
      }
    }
  }

  lemma MoveOk(cfg: Config, up: set<Bytes>, sys: System, e: Event)
    requires SystemOk(cfg, up, sys)
    ensures SystemOk(cfg, up + UploadedBy(e), Move(cfg, sys, e))
  {
    MoveLedger(cfg, up, sys, e);
    JustMore(cfg, up, up + UploadedBy(e), Move(cfg, sys, e).node.state);
    MoveChain(cfg, up, sys, e);
    MoveBlobs(cfg, up, sys, e);
    MoveTickets(cfg, up, sys, e);
  }

  lemma {:induction false} MovesOk(cfg: Config, proposer: Identity, allocations: seq<(Identity, nat)>,
                                   events: seq<Event>)
    ensures SystemOk(cfg, Uploads(events), Moves(cfg, System(NewNode(proposer, allocations), map[]), events))
  {
    if events == [] {
      NewNodeOk(cfg, proposer, allocations);
    } else {
      var n := |events| - 1;
      MovesOk(cfg, proposer, allocations, events[..n]);
      MoveOk(cfg, Uploads(events[..n]), Moves(cfg, System(NewNode(proposer, allocations), map[]), events[..n]),
        events[n]);
    }
  }

  // ---- main results ----

  /** The chain invariant, on every interleaving. */
  lemma ReachableChain(cfg: Config, proposer: Identity, allocations: seq<(Identity, nat)>, events: seq<Event>)
    ensures ChainOk(cfg, Moves(cfg, System(NewNode(proposer, allocations), map[]), events).node)
  {
    MovesOk(cfg, proposer, allocations, events);
  }

  /** Only the node's own proposer ever signs for a block. */
  lemma {:induction false} ReachableProposer(cfg: Config, proposer: Identity, allocations: seq<(Identity, nat)>,
                                             events: seq<Event>)
    ensures Moves(cfg, System(NewNode(proposer, allocations), map[]), events).node.head.proposer == proposer
  {
    if events != [] {
      ReachableProposer(cfg, proposer, allocations, events[..|events| - 1]);
    }
  }

  /** Blocks are final: a move leaves the chain or puts one block on top, which carries the root and the
      epoch of the state it leads to. */
  lemma MoveAppends(cfg: Config, up: set<Bytes>, sys: System, e: Event)
    requires SystemOk(cfg, up, sys)
    ensures var n, n' := sys.node, Move(cfg, sys, e).node;
            || (n'.blocks == n.blocks && n'.blockTxs == n.blockTxs && n'.state == n.state)
            || (&& |n'.blocks| == |n.blocks| + 1 == |n'.blockTxs|
                && n'.blocks[..|n.blocks|] == n.blocks && n'.blockTxs[..|n.blocks|] == n.blockTxs
                && n'.blocks[|n.blocks|].stateRoot == cfg.c.root(n'.state)
                && n'.blocks[|n.blocks|].epoch == n'.state.epoch)
  {
    MoveChain(cfg, up, sys, e);
    if e.Submitted? {
      SubmitIff(cfg, sys.node, e.stx);
      assert sys.node.mempool + [e.stx] == [e.stx];
      OrderOne(cfg.c, cfg.p, sys.node.state, e.stx);
    }
  }

  /** What the last of some events did to the blocks. */
  lemma LastMove(cfg: Config, proposer: Identity, allocations: seq<(Identity, nat)>, events: seq<Event>)
    requires events != []
    ensures var start, m := System(NewNode(proposer, allocations), map[]), |events| - 1;
            var n, n' := Moves(cfg, start, events[..m]).node, Moves(cfg, start, events).node;
            || n'.blocks == n.blocks
            || (&& |n'.blocks| == |n.blocks| + 1 && n'.blocks[..|n.blocks|] == n.blocks
                && n'.blocks[|n.blocks|].stateRoot == cfg.c.root(n'.state)
                && n'.blocks[|n.blocks|].epoch == n'.state.epoch)
  {
    var start, m := System(NewNode(proposer, allocations), map[]), |events| - 1;
    MovesOk(cfg, proposer, allocations, events[..m]);
    MoveAppends(cfg, Uploads(events[..m]), Moves(cfg, start, events[..m]), events[m]);
  }

  /** Every block of the chain closed with the root and the epoch of the state the node was in when the
      block was its newest, and has stayed where it was since. */
  lemma {:induction false} BlockHistory(cfg: Config, proposer: Identity, allocations: seq<(Identity, nat)>,
                                        events: seq<Event>,
                                        i: nat, blocks: seq<Block>) returns (k: nat)
    requires blocks == Moves(cfg, System(NewNode(proposer, allocations), map[]), events).node.blocks && i < |blocks|
    ensures k <= |events|
    ensures var n := Moves(cfg, System(NewNode(proposer, allocations), map[]), events[..k]).node;
            && n.blocks == blocks[..i + 1]
            && blocks[i].stateRoot == cfg.c.root(n.state) && blocks[i].epoch == n.state.epoch
  {
    var m, start := |events| - 1, System(NewNode(proposer, allocations), map[]);
    var before := Moves(cfg, start, events[..m]);
    LastMove(cfg, proposer, allocations, events);
    if i < |before.node.blocks| {
      k := BlockHistory(cfg, proposer, allocations, events[..m], i, before.node.blocks);
      assert events[..m][..k] == events[..k];
      assert blocks[..i + 1] == before.node.blocks[..i + 1];
    } else {
      k := |events|;
      assert events[..k] == events && blocks[..i + 1] == blocks;
    }
  }

  /** Threads do not disturb each other. A thread that finishes is done until it starts again, and one that
      was not between its locks changes nothing; a thread that starts holds what it gathered, if it gathered
      anything and was not between its locks already; nothing else moves a thread. */
  lemma ThreadEffect(cfg: Config, sys: System, e: Event, thread: nat)
    ensures var now := Move(cfg, sys, e).tickets;
            match e
            case ResolutionFinished(other) =>
              && (thread in now <==> thread in sys.tickets && thread != other)
              && (thread in now ==> now[thread] == sys.tickets[thread])
              && (other !in sys.tickets ==> Move(cfg, sys, e) == sys)
            case ResolutionStarted(other, task) =>
              && Move(cfg, sys, e).node == sys.node
              && (thread in now <==> thread in sys.tickets || (thread == other && Gather(sys.node, task).Ok?))
              && (thread in sys.tickets ==> thread in now && now[thread] == sys.tickets[thread])
              && (thread in now && thread !in sys.tickets ==> now[thread] == Gather(sys.node, task).value)
            case _ => now == sys.tickets
  {
  }

  /** The outcome reported for an id is that of the first result under it; without one it is invalid. */
  lemma {:induction false} OutcomeIsFirst(results: seq<TxResult>, id: TxId, i: nat)
    requires i <= |results| && forall j :: 0 <= j < i ==> results[j].txId != id
    requires i < |results| ==> results[i].txId == id
    ensures var r := Outcome(results, id);
            if i == |results| then r == Err(Invalid)
            else if results[i].accepted then r == Ok(id)
            else r == Err(if results[i].reject == None then Invalid else results[i].reject.value)
  {
    if i > 0 {
      OutcomeIsFirst(results[1..], id, i - 1);
    }
  }

  /** An upload can be read back under its content id, and touches nothing else. */
  lemma UploadEffect(cfg: Config, n: NodeState, bytes: Bytes)
    ensures var n' := NodeSpec.PutBlob(cfg, n, bytes);
            && cfg.hash(bytes) in n'.blobs && n'.blobs[cfg.hash(bytes)] == bytes
            && (forall id :: id != cfg.hash(bytes) ==>
                  (id in n'.blobs <==> id in n.blobs) && (id in n.blobs ==> n'.blobs[id] == n.blobs[id]))
            && n'.(blobs := n.blobs) == n
  {
  }

  /** What a resolution copies: the records of the task and what is stored under the ids its body
      commits to. */
  lemma TicketContents(n: NodeState, task: TaskId)
    requires Gather(n, task).Ok?
    ensures var t := Gather(n, task).value;
            && task in n.state.bodies && task in n.state.proofs
            && t.task == task && t.body == n.state.bodies[task] && t.proof == n.state.proofs[task]
            && t.body.program in n.blobs && t.program == n.blobs[t.body.program]
            && t.body.input in n.blobs && t.input == n.blobs[t.body.input]
  {
  }

  /** Finishing now gives the node the state a resolution gathered, executed and committed in one go
      would give it, or two different uploaded byte strings have one content id. */
  ghost predicate AtomicNow(cfg: Config, up: set<Bytes>, sys: System, thread: nat)
    requires thread in sys.tickets
  {
    var t := sys.tickets[thread];
    var now := Gather(sys.node, t.task);
    && now.Ok?
    && {t.program, t.input, now.value.program, now.value.input} <= up
    && (|| (&& FindsFraud(cfg, t) == FindsFraud(cfg, now.value)
            && Move(cfg, sys, ResolutionFinished(thread)).node == ResolveAtOnce(cfg, sys.node, t.task).0)
        || Collides(cfg.hash, t.program, now.value.program)
        || Collides(cfg.hash, t.input, now.value.input))
  }

  /** Resolution is atomic in effect, whatever happened since a thread gathered its inputs. */
  lemma ResolutionAtomic(cfg: Config, proposer: Identity, allocations: seq<(Identity, nat)>, events: seq<Event>,
                         thread: nat, sys: System)
    requires sys == Moves(cfg, System(NewNode(proposer, allocations), map[]), events)
    requires thread in sys.tickets
    ensures AtomicNow(cfg, Uploads(events), sys, thread)
  {
    MovesOk(cfg, proposer, allocations, events);
    FinishIsAtomic(cfg, Uploads(events), sys, thread);
  }

  lemma FinishIsAtomic(cfg: Config, up: set<Bytes>, sys: System, thread: nat)
    requires SystemOk(cfg, up, sys) && thread in sys.tickets
    ensures AtomicNow(cfg, up, sys, thread)
  {
    var t := sys.tickets[thread];
    assert TicketOk(cfg, up, sys.node.state, sys.node.blobs, t);
    var now := Gather(sys.node, t.task).value;
    if t.program == now.program && t.input == now.input {
      assert t == now;
    }
  }

  /** Something was uploaded under the content id. */
  ghost predicate Available(cfg: Config, events: seq<Event>, id: ContentId) {
    exists bytes :: BlobStored(bytes) in events && cfg.hash(bytes) == id
  }

  /** On every interleaving, a resolution can start exactly when the task has settled, at some time, and
      both contents its body commits to were uploaded. No open challenge is asked for. */
  lemma CanStartIff(cfg: Config, proposer: Identity, allocations: seq<(Identity, nat)>, events: seq<Event>,
                    n: NodeState, task: TaskId)
    requires n == Moves(cfg, System(NewNode(proposer, allocations), map[]), events).node
    ensures Gather(n, task).Ok?
            <==> && task in n.state.tasks
                 && (n.state.tasks[task].status.Settled? || n.state.tasks[task].status.Failed?)
                 && task in n.state.bodies
                 && Available(cfg, events, n.state.bodies[task].program)
                 && Available(cfg, events, n.state.bodies[task].input)
    ensures Gather(n, task).Err? ==> Gather(n, task).error == UnknownTask
  {
    MovesOk(cfg, proposer, allocations, events);
    if task in n.state.tasks {
      About(cfg.c, cfg.p, n.state, task);
      var body := n.state.bodies[task];
      BlobsAvailable(cfg, events, n.blobs, body.program);
      BlobsAvailable(cfg, events, n.blobs, body.input);
    }
  }

  lemma BlobsAvailable(cfg: Config, events: seq<Event>, blobs: map<ContentId, Bytes>, id: ContentId)
    requires BlobsOk(cfg, Uploads(events), blobs)
    ensures id in blobs <==> Available(cfg, events, id)
  {
    if id in blobs {
      UploadsAreEvents(events, blobs[id]);
    }
    if Available(cfg, events, id) {
      var bytes :| BlobStored(bytes) in events && cfg.hash(bytes) == id;
      UploadsAreEvents(events, bytes);
    }
  }

  /** Without an open challenge the verdict is reported all the same and changes nothing on the ledger:
      the node seals one more block over the state it had. */
  lemma IdleResolution(cfg: Config, n: NodeState, task: TaskId)
    requires Gather(n, task).Ok? && task !in n.state.pending
    ensures var (n', r) := ResolveAtOnce(cfg, n, task);
            && r == Ok(FindsFraud(cfg, Gather(n, task).value))
            && n'.state == n.state && n'.blobs == n.blobs
            && |n'.blocks| == |n.blocks| + 1 && n'.blocks[|n.blocks|].txs == []
  {
  }

  /** A challenge that is still open when its window closes does not hold the stake: on every
      interleaving the challenged task is released exactly from that epoch on. */
  lemma ChallengedReleasedIff(cfg: Config, proposer: Identity, allocations: seq<(Identity, nat)>, events: seq<Event>,
                              s: State, t: TaskId)
    requires s == Moves(cfg, System(NewNode(proposer, allocations), map[]), events).node.state
    requires cfg.p.clawbackEpochs >= 1 && t in s.pending
    ensures t in s.receipts && (t in s.released <==> s.receipts[t].clawbackUntil <= s.epoch)
  {
    var sys, start := Moves(cfg, System(NewNode(proposer, allocations), map[]), events), Genesis(allocations, 0);
    var actions := Actions(cfg, System(NewNode(proposer, allocations), map[]), events);
    MovesOk(cfg, proposer, allocations, events);
    NodeIsRun(cfg, proposer, allocations, events, sys, actions);
    ReachableReleases(cfg.c, cfg.p, allocations, 0, actions);
    PendingReleasedIff(cfg.c, cfg.p, s, t);
  }

  /** A forged proof under challenge is always slashed, and an honest one never is: when a thread
      finishes with an open challenge, the task is slashed if and only if the re-execution of the
      content it gathered differs from the proof. */
  lemma FinishSlashesIff(cfg: Config, up: set<Bytes>, sys: System, thread: nat)
    requires SystemOk(cfg, up, sys) && thread in sys.tickets && sys.tickets[thread].task in sys.node.state.pending
    ensures var t := sys.tickets[thread];
            var s' := Move(cfg, sys, ResolutionFinished(thread)).node.state;
            && t.task !in sys.node.state.slashed
            && (t.task in s'.slashed <==> Mismatch(cfg, sys.node.state, t.task, t.program, t.input))
            && (t.task in s'.slashed <==> t.task in s'.tasks && s'.tasks[t.task].status == Failed)
            && t.task !in s'.pending
  {
    var t := sys.tickets[thread];
    assert TicketOk(cfg, up, sys.node.state, sys.node.blobs, t);
    TicketMismatch(cfg, up, sys.node.state, sys.node.blobs, t);
    VerdictEffect(cfg.c, cfg.p, sys.node.state, t.task, FindsFraud(cfg, t));
    About(cfg.c, cfg.p, sys.node.state, t.task);
  }

  /** However many threads race to resolve one challenge, it is resolved once: the next to finish
      leaves the ledger as it is. */
  lemma ResolvedOnce(cfg: Config, up: set<Bytes>, sys: System, first: nat, second: nat)
    requires SystemOk(cfg, up, sys) && first in sys.tickets && second in sys.tickets && first != second
    requires sys.tickets[first].task == sys.tickets[second].task
    ensures var between := Move(cfg, sys, ResolutionFinished(first));
            && second in between.tickets
            && Move(cfg, between, ResolutionFinished(second)).node.state == between.node.state
  {
    var t := sys.tickets[first];
    VerdictEffect(cfg.c, cfg.p, sys.node.state, t.task, FindsFraud(cfg, t));
  }

  /** One honest execution is enough. A task whose proof is what executing some program and input
      under the committed ids reports is not slashed on any interleaving, unless an uploaded byte
      string collides with the one that was executed. */
  lemma HonestTaskNeverSlashed(cfg: Config, proposer: Identity, allocations: seq<(Identity, nat)>, events: seq<Event>,
                               s: State, t: TaskId, program: Bytes, input: Bytes)
    requires s == Moves(cfg, System(NewNode(proposer, allocations), map[]), events).node.state
    requires t in s.bodies && t in s.proofs
    requires cfg.hash(program) == s.bodies[t].program && cfg.hash(input) == s.bodies[t].input
    requires Honest(cfg.hash, cfg.engine, s.proofs[t], program, input, s.bodies[t].limits, cfg.benchmark)
    ensures t in s.slashed ==>
              exists bytes :: BlobStored(bytes) in events
                && (Collides(cfg.hash, program, bytes) || Collides(cfg.hash, input, bytes))
  {
    MovesOk(cfg, proposer, allocations, events);
    if t in s.slashed {
      var program', input' :| program' in Uploads(events) && input' in Uploads(events)
        && Mismatch(cfg, s, t, program', input');
      UploadsAreEvents(events, program');
      UploadsAreEvents(events, input');
      assert Collides(cfg.hash, program, program') || Collides(cfg.hash, input, input');
    }
  }

  /** Of everything that was uploaded, nothing the identity's tasks commit to re-executes differently
      from its proof. */
  ghost predicate HonestProvider(cfg: Config, events: seq<Event>, s: State, id: Identity) {
    forall t, program, input ::
      BlobStored(program) in events && BlobStored(input) in events && Mismatch(cfg, s, t, program, input) ==>
        s.proofs[t].provider != id
  }

  /** Honest providers are never slashed: no task of theirs, and no strike. */
  lemma HonestNeverSlashed(cfg: Config, proposer: Identity, allocations: seq<(Identity, nat)>, events: seq<Event>,
                           id: Identity, s: State)
    requires s == Moves(cfg, System(NewNode(proposer, allocations), map[]), events).node.state
    requires HonestProvider(cfg, events, s, id)
    ensures forall t :: t in s.slashed ==> t in s.tasks && s.tasks[t].provider != Some(id)
    ensures StrikesOf(s.standing, id) == 0
  {
    MovesOk(cfg, proposer, allocations, events);
    forall t | t in s.slashed
      ensures t in s.tasks && s.tasks[t].provider != Some(id)
    {
      var program, input :| program in Uploads(events) && input in Uploads(events)
        && Mismatch(cfg, s, t, program, input);
      UploadsAreEvents(events, program);
      UploadsAreEvents(events, input);
      About(cfg.c, cfg.p, s, t);
    }
    assert SlashedOf(s.tasks, s.slashed, id) == {};
  }

  // ---- the node as a run of the ledger ----

  ghost function Actions(cfg: Config, sys: System, events: seq<Event>): seq<Action> {
    if events == [] then []
    else
      var n := |events| - 1;
      var a := LedgerAction(cfg, Moves(cfg, sys, events[..n]), events[n]);
      Actions(cfg, sys, events[..n]) + if a.Some? then [a.value] else []
  }

  lemma MoveTxs(cfg: Config, sys: System, e: Event)
    requires sys.node.mempool == []
    ensures var a := LedgerAction(cfg, sys, e);
            Flatten(Move(cfg, sys, e).node.blockTxs)
            == Flatten(sys.node.blockTxs)
               + if a.Some? && Accepts(cfg.c, cfg.p, sys.node.state, a.value) then [a.value.stx] else []
  {
    var before, after := sys.node.blockTxs, Move(cfg, sys, e).node.blockTxs;
    if e.Submitted? {
      SubmitIff(cfg, sys.node, e.stx);
    }
    if after != before {
      assert after[..|after| - 1] == before;
    }
  }

  lemma RunSnoc(c: Crypto, p: Params, s: State, actions: seq<Action>, a: Action)
    ensures Run(c, p, s, actions + [a]) == Step(c, p, Run(c, p, s, actions), a)
    ensures Accepted(c, p, s, actions + [a])
            == Accepted(c, p, s, actions) + if Accepts(c, p, Run(c, p, s, actions), a) then [a.stx] else []
  {
    assert (actions + [a])[..|actions|] == actions;
  }

  /** The node shows the same history as a run of the ledger. */
  ghost predicate Shows(cfg: Config, s: State, n: NodeState, actions: seq<Action>) {
    && n.state == Run(cfg.c, cfg.p, s, actions)
    && Flatten(n.blockTxs) == Accepted(cfg.c, cfg.p, s, actions)
    && forall i :: 0 <= i < |actions| ==> !actions[i].FraudVerdict?
  }

  lemma MoveShows(cfg: Config, s: State, sys: System, actions: seq<Action>, e: Event)
    requires sys.node.mempool == [] && Shows(cfg, s, sys.node, actions)
    ensures var a := LedgerAction(cfg, sys, e);
            Shows(cfg, s, Move(cfg, sys, e).node, if a.Some? then actions + [a.value] else actions)
  {
    var a := LedgerAction(cfg, sys, e);
    MoveIsStep(cfg, sys, e);
    MoveTxs(cfg, sys, e);
    if a.Some? {
      RunSnoc(cfg.c, cfg.p, s, actions, a.value);
    }
  }

  lemma StartShows(cfg: Config, proposer: Identity, allocations: seq<(Identity, nat)>)
    ensures Shows(cfg, Genesis(allocations, 0), NewNode(proposer, allocations), [])
  {
  }

  /** Every interleaving is a run of the ledger without direct fraud verdicts, so what is proved of
      such runs holds of the node; the transactions in its blocks are the accepted ones. */
  lemma {:induction false} NodeIsRun(cfg: Config, proposer: Identity, allocations: seq<(Identity, nat)>,
                                     events: seq<Event>, sys: System, actions: seq<Action>)
    requires sys == Moves(cfg, System(NewNode(proposer, allocations), map[]), events)
    requires actions == Actions(cfg, System(NewNode(proposer, allocations), map[]), events)
    ensures Shows(cfg, Genesis(allocations, 0), sys.node, actions)
  {
    var start := System(NewNode(proposer, allocations), map[]);
    if events == [] {
      StartShows(cfg, proposer, allocations);
    } else {
      var m := |events| - 1;
      var before, earlier := Moves(cfg, start, events[..m]), Actions(cfg, start, events[..m]);
      NodeIsRun(cfg, proposer, allocations, events[..m], before, earlier);
      ReachableChain(cfg, proposer, allocations, events[..m]);
      MoveShows(cfg, Genesis(allocations, 0), before, earlier, events[m]);
      assert earlier + [] == earlier;
    }
  }

  /** On every interleaving, no transaction sits in the node's blocks twice. */
  lemma NodeNeverRepeats(cfg: Config, proposer: Identity, allocations: seq<(Identity, nat)>, events: seq<Event>,
                         sys: System)
    requires sys == Moves(cfg, System(NewNode(proposer, allocations), map[]), events)
    ensures var txs := Flatten(sys.node.blockTxs);
            forall i, j :: 0 <= i < j < |txs| ==>
              txs[i] != txs[j] && (txs[i].author == txs[j].author ==> txs[i].nonce < txs[j].nonce)
  {
    var actions := Actions(cfg, System(NewNode(proposer, allocations), map[]), events);
    NodeIsRun(cfg, proposer, allocations, events, sys, actions);
    var txs := Flatten(sys.node.blockTxs);
    forall i, j | 0 <= i < j < |txs|
      ensures txs[i] != txs[j] && (txs[i].author == txs[j].author ==> txs[i].nonce < txs[j].nonce)
    {
      NeverAcceptedTwice(cfg.c, cfg.p, Genesis(allocations, 0), actions, i, j);
    }
  }
}
