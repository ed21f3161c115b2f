/** The node as a transition system: what each entry point does under the lock, and the steps of
    several threads that interleave between the two locks of a challenge resolution. */
module NodeSpec {
  import opened Types
  import opened Codec
  import opened Governance
  import opened LedgerSpec
  import opened Dvm
  import opened Verification
  import opened ConsensusSpec

  /** What a node is built with and never changes. Content is addressed by `hash`. */
  datatype Config = Config(c: Crypto, p: Params, hash: Bytes -> Hash, engine: Engine, benchmark: Benchmark)

  /** Everything behind the node's lock, and what its storage last saved. */
  datatype NodeState = NodeState(
    state: State,
    head: Head,
    mempool: seq<SignedTx>,
    blobs: map<ContentId, Bytes>,
    blocks: seq<Block>,
    blockTxs: seq<seq<SignedTx>>,
    saved: Option<State>)

  /** The inputs of a re-execution, copied under the first lock. */
  datatype Ticket = Ticket(task: TaskId, body: TaskBody, proof: ComputeProof, program: Bytes, input: Bytes)

  function NewNode(proposer: Identity, allocations: seq<(Identity, nat)>): NodeState {
    var s := Genesis(allocations, 0);
    NodeState(s, Head(proposer, 0, 0, 0), [], map[], [], [], Some(s))
  }

  /** Adopt a block and store the state it leads to. */
  function Append(cfg: Config, n: NodeState, block: Block, txs: seq<SignedTx>, after: State): NodeState {
    n.(
      state := after,
      head := Adopt(cfg.c, n.head, block),
      blocks := n.blocks + [block],
      blockTxs := n.blockTxs + [txs],
      saved := Some(after))
  }

  function Outcome(results: seq<TxResult>, id: TxId): Result<TxId, Reject> {
    if results == [] then Err(Invalid)
    else if results[0].txId != id then Outcome(results[1..], id)
    else if results[0].accepted then Ok(id)
    else Err(if results[0].reject.Some? then results[0].reject.value else Invalid)
  }

  function SubmitTx(cfg: Config, n: NodeState, stx: SignedTx): (NodeState, Result<TxId, Reject>) {
    var proposal := Produce(cfg.c, cfg.p, n.head, n.state, n.mempool + [stx]);
    var emptied := n.(mempool := []);
    (if proposal.block.txs == [] then emptied else Append(cfg, emptied, proposal.block, proposal.txs, proposal.state),
     Outcome(proposal.results, cfg.c.txId(stx)))
  }

  function Gather(n: NodeState, task: TaskId): Result<Ticket, Reject> {
    if task !in n.state.bodies || task !in n.state.proofs then Err(UnknownTask)
    else
      var body := n.state.bodies[task];
      if body.program !in n.blobs || body.input !in n.blobs then Err(UnknownTask)
      else Ok(Ticket(task, body, n.state.proofs[task], n.blobs[body.program], n.blobs[body.input]))
  }

  /** The re-execution, outside the lock: it depends on the ticket and the configuration alone. */
  function FindsFraud(cfg: Config, t: Ticket): bool {
    Check(cfg.hash, cfg.engine, t.proof, t.program, t.input, t.body.limits, cfg.benchmark).IsFraud()
  }

  function CommitVerdict(cfg: Config, n: NodeState, task: TaskId, fraud: bool): NodeState {
    var resolved := ResolveChallenge(cfg.p, n.state, task, fraud);
    Append(cfg, n, SealBlock(cfg.c, n.head, resolved), [], resolved)
  }

  ghost function NextEpoch(cfg: Config, n: NodeState): NodeState {
    var s := AdvanceEpoch(cfg.p, n.state);
    var head := n.head.(epoch := s.epoch);
    Append(cfg, n.(head := head), SealBlock(cfg.c, head, s), [], s)
  }

  function PutBlob(cfg: Config, n: NodeState, bytes: Bytes): NodeState {
    n.(blobs := n.blobs[cfg.hash(bytes) := bytes])
  }

  /** A resolution with nothing in between: gather, re-execute and commit in one go. */
  function ResolveAtOnce(cfg: Config, n: NodeState, task: TaskId): (NodeState, Result<bool, Reject>) {
    match Gather(n, task)
    case Err(e) => (n, Err(e))
    case Ok(t) => (CommitVerdict(cfg, n, task, FindsFraud(cfg, t)), Ok(FindsFraud(cfg, t)))
  }

  function BlockAt(n: NodeState, height: nat): Option<Block> {
    if 1 <= height <= |n.blocks| then Some(n.blocks[height - 1]) else None
  }

  function BlockTxsAt(n: NodeState, height: nat): Option<seq<SignedTx>> {
    if 1 <= height <= |n.blockTxs| then Some(n.blockTxs[height - 1]) else None
  }

  // ---- interleavings ----

  /** A node and the resolutions that are between their two locks, by thread. */
  datatype System = System(node: NodeState, tickets: map<nat, Ticket>)

  datatype Event =
    | Submitted(stx: SignedTx)
    | BlobStored(bytes: Bytes)
    | EpochAdvanced
    | ResolutionStarted(thread: nat, task: TaskId)
    | ResolutionFinished(thread: nat)

  /** One critical section of one thread. A thread whose gathering fails returns without a ticket; a
      thread that is not between its locks has nothing to finish. */
  ghost function Move(cfg: Config, sys: System, e: Event): System {
    match e
    case Submitted(stx) => sys.(node := SubmitTx(cfg, sys.node, stx).0)
    case BlobStored(bytes) => sys.(node := PutBlob(cfg, sys.node, bytes))
    case EpochAdvanced => sys.(node := NextEpoch(cfg, sys.node))
    case ResolutionStarted(thread, task) =>
      (match Gather(sys.node, task)
       case Ok(t) => if thread in sys.tickets then sys else sys.(tickets := sys.tickets[thread := t])
       case Err(_) => sys)
    case ResolutionFinished(thread) =>
      if thread !in sys.tickets then sys
      else
        var t := sys.tickets[thread];
        System(CommitVerdict(cfg, sys.node, t.task, FindsFraud(cfg, t)), sys.tickets - {thread})
  }

  ghost function Moves(cfg: Config, sys: System, events: seq<Event>): System {
    if events == [] then sys
    else
      var n := |events| - 1;
      Move(cfg, Moves(cfg, sys, events[..n]), events[n])
  }
}
