/** The node's code: an object behind one lock. Each method is one critical section, proved to do
    what the function of the same name in `NodeSpec` says. */
module NodeCode {
  import opened Types
  import opened Codec
  import opened Governance
  import opened LedgerSpec
  import opened Dvm
  import opened Verification
  import opened ConsensusSpec
  import opened Spec = NodeSpec
  import Consensus
  import Ledger

  class InMemoryStorage {
    var last: Option<State>

    constructor ()
      ensures last == None
    {
      last := None;
    }

    method Save(state: State)
      modifies this
      ensures last == Some(state)
    {
      last := Some(state);
    }
  }

  class Node {
    const cfg: Config
    const sequencer: Consensus.SingleSequencer
    const storage: InMemoryStorage
    var state: State
    var mempool: seq<SignedTx>
    var blobs: map<ContentId, Bytes>
    var blocks: seq<Block>
    var blockTxs: seq<seq<SignedTx>>

    function Snapshot(): NodeState
      reads this, sequencer, storage
    {
      NodeState(state, sequencer.Head(), mempool, blobs, blocks, blockTxs, storage.last)
    }

    constructor (cfg: Config, proposer: Identity, allocations: seq<(Identity, nat)>)
      ensures fresh(sequencer) && fresh(storage) && this.cfg == cfg
      ensures Snapshot() == NewNode(proposer, allocations)
    {
      var genesis := Ledger.Genesis(allocations, 0);
      var store := new InMemoryStorage();
      store.Save(genesis);
      var seqr := new Consensus.SingleSequencer(proposer);
      this.cfg := cfg;
      sequencer, storage, state := seqr, store, genesis;
      mempool, blobs, blocks, blockTxs := [], map[], [], [];
    }

    /** Adopt a block, move to its state and save it. */
    method Append(block: Block, txs: seq<SignedTx>, after: State)
      modifies this, sequencer, storage
      ensures Snapshot() == Spec.Append(cfg, old(Snapshot()), block, txs, after)
    {
      sequencer.Adopt(cfg.c, block);
      state := after;
      blocks := blocks + [block];
      blockTxs := blockTxs + [txs];
      storage.Save(state);
    }

    /** Admit a transaction and produce a block at once. */
    method Submit(stx: SignedTx) returns (r: Result<TxId, Reject>)
      modifies this, sequencer, storage
      ensures (Snapshot(), r) == SubmitTx(cfg, old(Snapshot()), stx)
    {
      var txid := cfg.c.txId(stx);
      mempool := mempool + [stx];
      var pool := mempool;
      mempool := [];
      var proposal := sequencer.Produce(cfg.c, cfg.p, pool, state);
      var outcome := FindOutcome(proposal.results, txid);
      if proposal.block.txs != [] {
        Append(proposal.block, proposal.txs, proposal.state);
      }
      match outcome {
        case Some(found) =>
          if found.accepted {
            return Ok(txid);
          }
          return Err(if found.reject.Some? then found.reject.value else Invalid);
        case None =>
          return Err(Invalid);
      }
    }

    /** The first lock of a resolution. */
    method GatherInputs(task: TaskId) returns (r: Result<Ticket, Reject>)
      ensures r == Gather(Snapshot(), task)
    {
      if task !in state.bodies {
        return Err(UnknownTask);
      }
      var body := state.bodies[task];
      if task !in state.proofs {
        return Err(UnknownTask);
      }
      var proof := state.proofs[task];
      if body.program !in blobs {
        return Err(UnknownTask);
      }
      if body.input !in blobs {
        return Err(UnknownTask);
      }
      return Ok(Ticket(task, body, proof, blobs[body.program], blobs[body.input]));
    }

    /** The second lock of a resolution. */
    method CommitVerdict(task: TaskId, fraud: bool)
      modifies this, sequencer, storage
      ensures Snapshot() == Spec.CommitVerdict(cfg, old(Snapshot()), task, fraud)
    {
      var resolved := Ledger.ResolveChallenge(state, task, fraud, cfg.p);
      var block := sequencer.SealBlock(cfg.c, resolved);
      Append(block, [], resolved);
    }

    /** A resolution nobody interferes with; the interleaved one is in `NodeSpec`. */
    method ResolvePendingChallenge(task: TaskId) returns (r: Result<bool, Reject>)
      modifies this, sequencer, storage
      ensures (Snapshot(), r) == ResolveAtOnce(cfg, old(Snapshot()), task)
    {
      var inputs := GatherInputs(task);
      match inputs {
        case Err(e) =>
          return Err(e);
        case Ok(t) =>
          var outcome := Check(cfg.hash, cfg.engine, t.proof, t.program, t.input, t.body.limits, cfg.benchmark);
          var fraud := outcome.IsFraud();
          CommitVerdict(task, fraud);
          return Ok(fraud);
      }
    }

    method AdvanceEpoch()
      modifies this, sequencer, storage
      ensures Snapshot() == NextEpoch(cfg, old(Snapshot()))
    {
      var next := sequencer.AdvanceEpoch(cfg.p, state);
      var block := sequencer.SealBlock(cfg.c, next);
      Append(block, [], next);
    }

    method PutBlob(bytes: Bytes) returns (id: ContentId)
      modifies this`blobs
      ensures id == cfg.hash(bytes) && Snapshot() == Spec.PutBlob(cfg, old(Snapshot()), bytes)
    {
      id := cfg.hash(bytes);
      blobs := blobs[id := bytes];
    }

    method BlockAt(height: nat) returns (b: Option<Block>)
      ensures b == Spec.BlockAt(Snapshot(), height)
    {
      if height == 0 || height - 1 >= |blocks| {
        return None;
      }
      return Some(blocks[height - 1]);
    }

    method BlockTxsAt(height: nat) returns (txs: Option<seq<SignedTx>>)
      ensures txs == Spec.BlockTxsAt(Snapshot(), height)
    {
      if height == 0 || height - 1 >= |blockTxs| {
        return None;
      }
      return Some(blockTxs[height - 1]);
    }
  }

  /** The first result under an id, as the outcome it stands for. */
  method FindOutcome(results: seq<TxResult>, id: TxId) returns (found: Option<TxResult>)
    ensures found.None? ==> Outcome(results, id) == Err(Invalid)
    ensures found.Some? ==> Outcome(results, id) == Outcome([found.value], id) && found.value.txId == id
  {
    for i := 0 to |results|
      invariant Outcome(results, id) == Outcome(results[i..], id)
    {
      if results[i].txId == id {
        return Some(results[i]);
      }
    }
    return None;
  }
}
