/** The single sequencer: the loops that build and replay blocks, and the head it keeps. Each method
    is proved to compute the function of the same name in `ConsensusSpec`. */
module Consensus {
  import opened Types
  import opened Governance
  import opened LedgerSpec
  import opened Spec = ConsensusSpec
  import Ledger

  class SingleSequencer {
    const proposer: Identity
    var height: nat
    var parent: Hash
    var epoch: nat

    function Head(): Head
      reads this
    {
      Spec.Head(proposer, height, parent, epoch)
    }

    constructor (proposer: Identity)
      ensures Head() == Spec.Head(proposer, 0, 0, 0)
    {
      this.proposer := proposer;
      height, parent, epoch := 0, 0, 0;
    }

    /** Order and apply a mempool, skipping what the ledger rejects. The head does not move. */
    method Produce(c: Crypto, p: Params, mempool: seq<SignedTx>, state: State) returns (proposal: Proposal)
      ensures proposal == Spec.Produce(c, p, Head(), state, mempool)
    {
      var s := state;
      var acceptedIds, acceptedTxs, results := [], [], [];
      for i := 0 to |mempool|
        invariant Ordering(s, acceptedTxs, results) == Order(c, p, state, mempool[..i])
        invariant acceptedIds == Ids(c, acceptedTxs)
      {
        var stx := mempool[i];
        var id := c.txId(stx);
        assert mempool[..i + 1][..i] == mempool[..i];
        var r := Ledger.Apply(c, p, s, stx);
        match r {
          case Ok(next) =>
            s := next;
            acceptedIds := acceptedIds + [id];
            acceptedTxs := acceptedTxs + [stx];
            results := results + [TxResult(id, true, None)];
          case Err(e) =>
            results := results + [TxResult(id, false, Some(e))];
        }
      }
      assert mempool[..|mempool|] == mempool;
      var block := Block(height + 1, parent, epoch, acceptedIds, c.root(s), proposer);
      return Proposal(block, acceptedTxs, s, results);
    }

    /** Replay a block's transactions; any deviation from the block is an error. */
    method Commit(c: Crypto, p: Params, block: Block, txs: seq<SignedTx>,
                  state: State) returns (r: Result<State, Reject>)
      ensures r == Spec.Commit(c, p, block, txs, state)
    {
      if |txs| != |block.txs| {
        return Err(Invalid);
      }
      var s := state;
      for i := 0 to |txs|
        invariant Replay(c, p, state, block.txs[..i], txs[..i]) == Ok(s)
      {
        var stx, expected := txs[i], block.txs[i];
        assert txs[..i + 1][..i] == txs[..i] && block.txs[..i + 1][..i] == block.txs[..i];
        if c.txId(stx) != expected {
          ReplayStops(c, p, state, block.txs, txs, i + 1, Invalid);
          return Err(Invalid);
        }
        var next := Ledger.Apply(c, p, s, stx);
        match next {
          case Ok(value) => s := value;
          case Err(e) =>
            ReplayStops(c, p, state, block.txs, txs, i + 1, e);
            return Err(e);
        }
      }
      assert txs[..|txs|] == txs && block.txs[..|txs|] == block.txs;
      if c.root(s) != block.stateRoot {
        return Err(Invalid);
      }
      return Ok(s);
    }

    method Adopt(c: Crypto, block: Block)
      modifies this
      ensures Head() == Spec.Adopt(c, old(Head()), block)
      ensures height == block.height && parent == c.blockHash(block) && epoch == block.epoch
    {
      height := block.height;
      parent := c.blockHash(block);
      epoch := block.epoch;
    }

    method SealBlock(c: Crypto, after: State) returns (block: Block)
      ensures block == Spec.SealBlock(c, Head(), after)
      ensures block.height == height + 1 && block.parent == parent && block.epoch == epoch && block.txs == []
      ensures block.stateRoot == c.root(after) && block.proposer == proposer
    {
      block := Block(height + 1, parent, epoch, [], c.root(after), proposer);
    }

    method AdvanceEpoch(p: Params, state: State) returns (s: State)
      modifies this`epoch
      ensures s == LedgerSpec.AdvanceEpoch(p, state)
      ensures Head() == old(Head()).(epoch := s.epoch)
    {
      s := Ledger.AdvanceEpoch(state, p);
      epoch := s.epoch;
    }
  }

  /** The first `i` transactions replay to `r`. */
  predicate ReplaysTo(c: Crypto, p: Params, s: State, ids: seq<TxId>, txs: seq<SignedTx>, i: nat,
                      r: Result<State, Reject>)
    requires i <= |ids| == |txs|
  {
    Replay(c, p, s, ids[..i], txs[..i]) == r
  }

  lemma StillFails(c: Crypto, p: Params, s: State, ids: seq<TxId>, txs: seq<SignedTx>, i: nat, e: Reject)
    requires i < |ids| == |txs| && ReplaysTo(c, p, s, ids, txs, i, Err(e))
    ensures ReplaysTo(c, p, s, ids, txs, i + 1, Err(e))
  {
    assert ids[..i + 1] == ids[..i] + [ids[i]] && txs[..i + 1] == txs[..i] + [txs[i]];
    ReplaySnoc(c, p, s, ids[..i], ids[i], txs[..i], txs[i]);
  }

  lemma {:induction false} FailsToTheEnd(c: Crypto, p: Params, s: State, ids: seq<TxId>, txs: seq<SignedTx>, i: nat,
                                         e: Reject)
    requires i <= |ids| == |txs| && ReplaysTo(c, p, s, ids, txs, i, Err(e))
    ensures ReplaysTo(c, p, s, ids, txs, |txs|, Err(e))
    decreases |txs| - i
  {
    if i < |txs| {
      StillFails(c, p, s, ids, txs, i, e);
      FailsToTheEnd(c, p, s, ids, txs, i + 1, e);
    }
  }

  /** The first problem of a replay is its result, whatever follows. */
  lemma ReplayStops(c: Crypto, p: Params, s: State, ids: seq<TxId>, txs: seq<SignedTx>, i: nat, e: Reject)
    requires i <= |ids| == |txs| && ReplaysTo(c, p, s, ids, txs, i, Err(e))
    ensures Replay(c, p, s, ids, txs) == Err(e)
  {
    FailsToTheEnd(c, p, s, ids, txs, i, e);
    assert ids[..|txs|] == ids && txs[..|txs|] == txs;
  }

  /** What a replica answers when something is wrong: the number of transactions first, then the first
      transaction that has another id or that the ledger rejects, then the root. */
  lemma CommitProblem(c: Crypto, p: Params, block: Block, txs: seq<SignedTx>, s: State, i: nat, before: State)
    requires |txs| == |block.txs| && i <= |txs| && Replay(c, p, s, block.txs[..i], txs[..i]) == Ok(before)
    ensures i < |txs| && c.txId(txs[i]) != block.txs[i] ==> Spec.Commit(c, p, block, txs, s) == Err(Invalid)
    ensures i < |txs| && c.txId(txs[i]) == block.txs[i] && LedgerSpec.Apply(c, p, before, txs[i]).Err? ==>
              Spec.Commit(c, p, block, txs, s) == Err(LedgerSpec.Apply(c, p, before, txs[i]).error)
    ensures i == |txs| && c.root(before) != block.stateRoot ==> Spec.Commit(c, p, block, txs, s) == Err(Invalid)
  {
    if i < |txs| {
      var ids := block.txs;
      ReplaySnoc(c, p, s, ids[..i], ids[i], txs[..i], txs[i]);
      assert ids[..i + 1] == ids[..i] + [ids[i]] && txs[..i + 1] == txs[..i] + [txs[i]];
      var r := Replay(c, p, s, ids[..i + 1], txs[..i + 1]);
      if r.Err? {
        ReplayStops(c, p, s, ids, txs, i + 1, r.error);
      }
    } else {
      assert block.txs[..i] == block.txs && txs[..i] == txs;
    }
  }

  lemma CommitCounts(c: Crypto, p: Params, block: Block, txs: seq<SignedTx>, s: State)
    requires |txs| != |block.txs|
    ensures Spec.Commit(c, p, block, txs, s) == Err(Invalid)
  {
  }
}
