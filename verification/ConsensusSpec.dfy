/** Block production and replay as functions, and replication: replaying what a proposer ordered
    reproduces its state, over whole chains. */
module ConsensusSpec {
  import opened Types
  import opened Governance
  import opened LedgerSpec
  import opened Runs

  datatype TxResult = TxResult(txId: TxId, accepted: bool, reject: Option<Reject>)

  datatype Proposal = Proposal(block: Block, txs: seq<SignedTx>, state: State, results: seq<TxResult>)

  /** Where the chain stands. */
  datatype Head = Head(proposer: Identity, height: nat, parent: Hash, epoch: nat)

  /** A mempool walked through in arrival order: the state reached, what was accepted and the outcome
      of each transaction. */
  datatype Ordering = Ordering(state: State, txs: seq<SignedTx>, results: seq<TxResult>)

  function Order(c: Crypto, p: Params, s: State, mempool: seq<SignedTx>): (o: Ordering)
    ensures |o.results| == |mempool|
  {
    if mempool == [] then Ordering(s, [], [])
    else
      var n := |mempool| - 1;
      var stx, before := mempool[n], Order(c, p, s, mempool[..n]);
      match Apply(c, p, before.state, stx)
      case Ok(s') => Ordering(s', before.txs + [stx], before.results + [TxResult(c.txId(stx), true, None)])
      case Err(e) => before.(results := before.results + [TxResult(c.txId(stx), false, Some(e))])
  }

  function Ids(c: Crypto, txs: seq<SignedTx>): (ids: seq<TxId>)
    ensures |ids| == |txs|
    ensures forall i :: 0 <= i < |txs| ==> ids[i] == c.txId(txs[i])
  {
    seq(|txs|, i requires 0 <= i < |txs| => c.txId(txs[i]))
  }

  function Produce(c: Crypto, p: Params, head: Head, s: State, mempool: seq<SignedTx>): Proposal {
    var o := Order(c, p, s, mempool);
    var block := Block(head.height + 1, head.parent, head.epoch, Ids(c, o.txs), c.root(o.state), head.proposer);
    Proposal(block, o.txs, o.state, o.results)
  }

  /** Apply the transactions one by one, each under the id the block lists for it; the first problem
      ends the replay. */
  function Replay(c: Crypto, p: Params, s: State, ids: seq<TxId>, txs: seq<SignedTx>): Result<State, Reject>
    requires |ids| == |txs|
  {
    if txs == [] then Ok(s)
    else
      var n := |txs| - 1;
      var before :- Replay(c, p, s, ids[..n], txs[..n]);
      if c.txId(txs[n]) != ids[n] then Err(Invalid) else Apply(c, p, before, txs[n])
  }

  function Commit(c: Crypto, p: Params, block: Block, txs: seq<SignedTx>, s: State): Result<State, Reject> {
    if |txs| != |block.txs| then Err(Invalid)
    else
      var after :- Replay(c, p, s, block.txs, txs);
      if c.root(after) != block.stateRoot then Err(Invalid) else Ok(after)
  }

  function Adopt(c: Crypto, head: Head, block: Block): Head {
    Head(head.proposer, block.height, c.blockHash(block), block.epoch)
  }

  function SealBlock(c: Crypto, head: Head, after: State): Block {
    Block(head.height + 1, head.parent, head.epoch, [], c.root(after), head.proposer)
  }

  /** A system block stands on the head, in the head's epoch, whatever epoch the state it commits to has
      reached; whoever adopts a block goes on proposing under its own name. */
  lemma HeadEffects(c: Crypto, head: Head, block: Block, after: State)
    ensures var next, seal := Adopt(c, head, block), SealBlock(c, head, after);
            && next.proposer == head.proposer && next.height == block.height
            && next.parent == c.blockHash(block) && next.epoch == block.epoch
            && seal.height == head.height + 1 && seal.parent == head.parent && seal.epoch == head.epoch
            && seal.txs == [] && seal.stateRoot == c.root(after) && seal.proposer == head.proposer
  {
  }

  // ---- one more transaction or block ----

  lemma OrderSnoc(c: Crypto, p: Params, s: State, mempool: seq<SignedTx>, stx: SignedTx)
    ensures var o, before := Order(c, p, s, mempool + [stx]), Order(c, p, s, mempool);
            match Apply(c, p, before.state, stx)
            case Ok(s') => o.state == s' && o.txs == before.txs + [stx]
            case Err(_) => o.state == before.state && o.txs == before.txs
  {
    assert (mempool + [stx])[..|mempool|] == mempool;
  }

  lemma ReplaySnoc(c: Crypto, p: Params, s: State, ids: seq<TxId>, id: TxId, txs: seq<SignedTx>, stx: SignedTx)
    requires |ids| == |txs|
    ensures Replay(c, p, s, ids + [id], txs + [stx])
            == match Replay(c, p, s, ids, txs)
               case Err(e) => Err(e)
               case Ok(before) => if c.txId(stx) != id then Err(Invalid) else Apply(c, p, before, stx)
  {
    assert (txs + [stx])[..|txs|] == txs && (ids + [id])[..|ids|] == ids;
  }

  lemma IdsSnoc(c: Crypto, txs: seq<SignedTx>, stx: SignedTx)
    ensures Ids(c, txs + [stx]) == Ids(c, txs) + [c.txId(stx)]
  {
  }

  // ---- what production accepts ----

  function Transactions(mempool: seq<SignedTx>): (actions: seq<Action>)
    ensures |actions| == |mempool|
    ensures forall i :: 0 <= i < |mempool| ==> actions[i] == Transact(mempool[i])
  {
    seq(|mempool|, i requires 0 <= i < |mempool| => Transact(mempool[i]))
  }

  /** Production is a run of the ledger, so everything proved of runs holds of it. */
  lemma {:induction false} OrderIsRun(c: Crypto, p: Params, s: State, mempool: seq<SignedTx>)
    ensures Order(c, p, s, mempool).state == Run(c, p, s, Transactions(mempool))
    ensures Order(c, p, s, mempool).txs == Accepted(c, p, s, Transactions(mempool))
  {
    if mempool != [] {
      var n := |mempool| - 1;
      OrderIsRun(c, p, s, mempool[..n]);
      assert Transactions(mempool)[..n] == Transactions(mempool[..n]);
    }
  }

  /** The members of a mempool that were flagged accepted, in order. */
  function Kept(mempool: seq<SignedTx>, results: seq<TxResult>): seq<SignedTx>
    requires |results| == |mempool|
  {
    if mempool == [] then []
    else
      var n := |mempool| - 1;
      Kept(mempool[..n], results[..n]) + if results[n].accepted then [mempool[n]] else []
  }

  /** The outcome of the `i`th transaction is the ledger's answer in the state its accepted
      predecessors left. */
  predicate Judged(c: Crypto, p: Params, s: State, mempool: seq<SignedTx>, i: nat, result: TxResult)
    requires i < |mempool|
  {
    match Apply(c, p, Order(c, p, s, mempool[..i]).state, mempool[i])
    case Ok(_) => result == TxResult(c.txId(mempool[i]), true, None)
    case Err(e) => result == TxResult(c.txId(mempool[i]), false, Some(e))
  }

  ghost predicate AllJudged(c: Crypto, p: Params, s: State, mempool: seq<SignedTx>, results: seq<TxResult>) {
    && |results| == |mempool|
    && forall i :: 0 <= i < |mempool| ==> Judged(c, p, s, mempool, i, results[i])
  }

  lemma JudgedPrefix(c: Crypto, p: Params, s: State, mempool: seq<SignedTx>, n: nat, i: nat, result: TxResult)
    requires i < n <= |mempool| && Judged(c, p, s, mempool[..n], i, result)
    ensures Judged(c, p, s, mempool, i, result)
  {
    assert mempool[..n][..i] == mempool[..i];
  }

  lemma JudgedSnoc(c: Crypto, p: Params, s: State, mempool: seq<SignedTx>, before: seq<TxResult>, last: TxResult)
    requires mempool != [] && AllJudged(c, p, s, mempool[..|mempool| - 1], before)
    requires Judged(c, p, s, mempool, |mempool| - 1, last)
    ensures AllJudged(c, p, s, mempool, before + [last])
  {
    var n := |mempool| - 1;
    forall i | 0 <= i <= n
      ensures Judged(c, p, s, mempool, i, (before + [last])[i])
    {
      if i < n {
        assert Judged(c, p, s, mempool[..n], i, before[i]);
        JudgedPrefix(c, p, s, mempool, n, i, before[i]);
      }
    }
  }

  /** Each transaction is judged against the state its accepted predecessors left, and the block
      carries those that passed, in arrival order. */
  lemma {:induction false} OrderSpec(c: Crypto, p: Params, s: State, mempool: seq<SignedTx>)
    ensures var o := Order(c, p, s, mempool);
            o.txs == Kept(mempool, o.results) && AllJudged(c, p, s, mempool, o.results)
  {
    if mempool != [] {
      var n := |mempool| - 1;
      var o, before := Order(c, p, s, mempool), Order(c, p, s, mempool[..n]);
      OrderSpec(c, p, s, mempool[..n]);
      assert o.results[..n] == before.results;
      assert o.results == before.results + [o.results[n]];
      JudgedSnoc(c, p, s, mempool, before.results, o.results[n]);
    }
  }

  /** Producing again from what was accepted accepts all of it and ends in the same state. */
  lemma {:induction false} OrderIdempotent(c: Crypto, p: Params, s: State, mempool: seq<SignedTx>)
    ensures var o := Order(c, p, s, mempool);
            var again := Order(c, p, s, o.txs);
            && again.txs == o.txs && again.state == o.state
            && forall i :: 0 <= i < |again.results| ==> again.results[i] == TxResult(c.txId(o.txs[i]), true, None)
  {
    if mempool != [] {
      var n := |mempool| - 1;
      OrderIdempotent(c, p, s, mempool[..n]);
      var o, before := Order(c, p, s, mempool), Order(c, p, s, mempool[..n]);
      if o.txs != before.txs {
        assert o.txs[..|o.txs| - 1] == before.txs;
      }
    }
  }

  // ---- replication ----

  lemma {:induction false} ReplayOrdered(c: Crypto, p: Params, s: State, mempool: seq<SignedTx>)
    ensures var o := Order(c, p, s, mempool); Replay(c, p, s, Ids(c, o.txs), o.txs) == Ok(o.state)
  {
    if mempool != [] {
      var n := |mempool| - 1;
      var before, stx := Order(c, p, s, mempool[..n]), mempool[n];
      ReplayOrdered(c, p, s, mempool[..n]);
      OrderSnoc(c, p, s, mempool[..n], stx);
      assert mempool == mempool[..n] + [stx];
      ReplaySnoc(c, p, s, Ids(c, before.txs), c.txId(stx), before.txs, stx);
      IdsSnoc(c, before.txs, stx);
    }
  }

  /** Replication of one block: a replica in the proposer's state accepts the block and reaches the
      proposer's whole state, not only its root. */
  lemma CommitReproduces(c: Crypto, p: Params, head: Head, s: State, mempool: seq<SignedTx>)
    ensures var proposal := Produce(c, p, head, s, mempool);
            Commit(c, p, proposal.block, proposal.txs, s) == Ok(proposal.state)
  {
    ReplayOrdered(c, p, s, mempool);
  }

  lemma {:induction false} OrderShort(c: Crypto, p: Params, s: State, mempool: seq<SignedTx>)
    ensures |Order(c, p, s, mempool).txs| <= |mempool|
  {
    if mempool != [] {
      OrderShort(c, p, s, mempool[..|mempool| - 1]);
    }
  }

  /** A longer mempool is accepted whole exactly when the shorter one is and the last transaction is
      acceptable after it. */
  lemma WholeSnoc(c: Crypto, p: Params, s: State, init: seq<SignedTx>, stx: SignedTx)
    ensures Order(c, p, s, init + [stx]).txs == init + [stx]
            <==> Order(c, p, s, init).txs == init && Apply(c, p, Order(c, p, s, init).state, stx).Ok?
  {
    OrderSnoc(c, p, s, init, stx);
    OrderShort(c, p, s, init);
    var o, before := Order(c, p, s, init + [stx]), Order(c, p, s, init);
    if o.txs == init + [stx] {
      assert o.txs[..|init|] == init;
      assert before.txs == o.txs[..|o.txs| - 1];
    }
  }

  /** A replay succeeds exactly when every id matches and no transaction is rejected, and then it is
      the strict run of the transactions. */
  lemma {:induction false} ReplayOkIff(c: Crypto, p: Params, s: State, ids: seq<TxId>, txs: seq<SignedTx>)
    requires |ids| == |txs|
    ensures Replay(c, p, s, ids, txs).Ok? <==> ids == Ids(c, txs) && Order(c, p, s, txs).txs == txs
    ensures Replay(c, p, s, ids, txs).Ok? ==> Replay(c, p, s, ids, txs).value == Order(c, p, s, txs).state
    decreases |txs|
  {
    if txs != [] {
      var n := |txs| - 1;
      var ids0, id, txs0, stx := ids[..n], ids[n], txs[..n], txs[n];
      assert ids == ids0 + [id] && txs == txs0 + [stx];
      ReplayOkIff(c, p, s, ids0, txs0);
      ReplaySnoc(c, p, s, ids0, id, txs0, stx);
      WholeSnoc(c, p, s, txs0, stx);
      OrderSnoc(c, p, s, txs0, stx);
      IdsSnoc(c, txs0, stx);
      assert ids == Ids(c, txs) <==> ids0 == Ids(c, txs0) && id == c.txId(stx);
    }
  }

  /** A block commits exactly when its transactions carry its ids, all of them are acceptable in
      order, and they lead to its root. */
  lemma CommitOkIff(c: Crypto, p: Params, block: Block, txs: seq<SignedTx>, s: State)
    ensures var o := Order(c, p, s, txs);
            && (Commit(c, p, block, txs, s).Ok?
                <==> block.txs == Ids(c, txs) && o.txs == txs && c.root(o.state) == block.stateRoot)
            && (Commit(c, p, block, txs, s).Ok? ==> Commit(c, p, block, txs, s).value == o.state)
  {
    if |txs| == |block.txs| {
      ReplayOkIff(c, p, s, block.txs, txs);
    }
  }

  /** At some place the lists carry two different transactions with one id. */
  ghost predicate SharedId(c: Crypto, a: seq<SignedTx>, b: seq<SignedTx>) {
    exists i :: 0 <= i < |a| && i < |b| && a[i] != b[i] && c.txId(a[i]) == c.txId(b[i])
  }

  /** Agreement: whoever accepts the proposer's block, from whatever state and with whatever
      transactions, reaches the proposer's state or a different one with the same root. From the
      proposer's own starting state that also takes two different transactions with one id. */
  lemma AcceptedReplayAgrees(c: Crypto, p: Params, head: Head, s: State, mempool: seq<SignedTx>, txs: seq<SignedTx>,
                             s': State)
    ensures var proposal := Produce(c, p, head, s, mempool);
            var r := Commit(c, p, proposal.block, txs, s');
            r.Ok? ==>
              && c.root(r.value) == c.root(proposal.state)
              && |txs| == |proposal.txs|
              && (s' == s && r.value != proposal.state ==> SharedId(c, txs, proposal.txs))
  {
    var proposal := Produce(c, p, head, s, mempool);
    var r := Commit(c, p, proposal.block, txs, s');
    if r.Ok? {
      CommitOkIff(c, p, proposal.block, txs, s');
      CommitReproduces(c, p, head, s, mempool);
      assert Ids(c, txs) == Ids(c, proposal.txs);
      if s' == s && r.value != proposal.state {
        assert txs != proposal.txs;
        var i :| 0 <= i < |txs| && txs[i] != proposal.txs[i];
        assert Ids(c, txs)[i] == Ids(c, proposal.txs)[i];
      }
    }
  }

  /** A block that seals a system transition lists no transactions, so a replica that has not made the
      transition itself accepts it if and only if the transition left the root as it was. Replay
      covers transaction blocks only. */
  lemma SealedCommitIff(c: Crypto, p: Params, head: Head, s: State, after: State)
    ensures Commit(c, p, SealBlock(c, head, after), [], s).Ok? <==> c.root(s) == c.root(after)
    ensures forall txs :: Commit(c, p, SealBlock(c, head, after), txs, s).Ok? ==> txs == []
  {
    CommitOkIff(c, p, SealBlock(c, head, after), [], s);
  }

  // ---- chains ----

  /** A chain as its proposer leaves it: the blocks, their transactions and the state and head after
      the last one. */
  datatype Chain = Chain(blocks: seq<Block>, txs: seq<seq<SignedTx>>, state: State, head: Head)

  /** Produce a block from each mempool in turn and adopt it. */
  function Grow(c: Crypto, p: Params, head: Head, s: State, mempools: seq<seq<SignedTx>>): (chain: Chain)
    ensures |chain.blocks| == |chain.txs| == |mempools|
  {
    if mempools == [] then Chain([], [], s, head)
    else
      var n := |mempools| - 1;
      var before := Grow(c, p, head, s, mempools[..n]);
      var proposal := Produce(c, p, before.head, before.state, mempools[n]);
      Chain(before.blocks + [proposal.block], before.txs + [proposal.txs], proposal.state,
            Adopt(c, before.head, proposal.block))
  }

  /** A replica commits a list of blocks. */
  function CommitAll(c: Crypto, p: Params, s: State, blocks: seq<Block>, txs: seq<seq<SignedTx>>): Result<State, Reject>
    requires |blocks| == |txs|
  {
    if blocks == [] then Ok(s)
    else
      var n := |blocks| - 1;
      var before :- CommitAll(c, p, s, blocks[..n], txs[..n]);
      Commit(c, p, blocks[n], txs[n], before)
  }

  lemma TakeSnoc<T>(xs: seq<T>, k: nat)
    requires 0 < k <= |xs|
    ensures xs[..k] == xs[..k - 1] + [xs[k - 1]]
  {
  }

  /** Replication over chains: whatever the mempools, a replica that starts where the proposer
      started accepts every block and is in the proposer's state after each of them. */
  lemma {:induction false} ChainReplicates(c: Crypto, p: Params, head: Head, s: State, mempools: seq<seq<SignedTx>>,
                                           chain: Chain, k: nat)
    requires chain == Grow(c, p, head, s, mempools) && k <= |mempools|
    ensures CommitAll(c, p, s, chain.blocks[..k], chain.txs[..k]) == Ok(Grow(c, p, head, s, mempools[..k]).state)
    decreases k
  {
    if k > 0 {
      var before := Grow(c, p, head, s, mempools[..k - 1]);
      ChainReplicates(c, p, head, s, mempools, chain, k - 1);
      GrowAt(c, p, head, s, mempools, k - 1);
      CommitReproduces(c, p, before.head, before.state, mempools[k - 1]);
      CommitSnoc(c, p, s, chain.blocks[..k - 1], chain.blocks[k - 1], chain.txs[..k - 1], chain.txs[k - 1]);
      TakeSnoc(chain.blocks, k);
      TakeSnoc(chain.txs, k);
    }
  }

  /** Agreement over chains: whoever accepts the proposer's blocks from the proposer's start, with
      whatever transactions, ends in the proposer's state, or some block was filled with a different
      transaction under the same id. */
  lemma {:induction false} ChainAgrees(c: Crypto, p: Params, head: Head, s: State, mempools: seq<seq<SignedTx>>,
                                       chain: Chain, txs: seq<seq<SignedTx>>, k: nat)
    requires chain == Grow(c, p, head, s, mempools) && |txs| == |mempools| && k <= |mempools|
    ensures var r := CommitAll(c, p, s, chain.blocks[..k], txs[..k]);
            r.Ok? ==>
              || r.value == Grow(c, p, head, s, mempools[..k]).state
              || exists i :: 0 <= i < k && SharedId(c, txs[i], chain.txs[i])
    decreases k
  {
    if k > 0 {
      var before := Grow(c, p, head, s, mempools[..k - 1]);
      ChainAgrees(c, p, head, s, mempools, chain, txs, k - 1);
      GrowAt(c, p, head, s, mempools, k - 1);
      TakeSnoc(chain.blocks, k);
      TakeSnoc(txs, k);
      CommitSnoc(c, p, s, chain.blocks[..k - 1], chain.blocks[k - 1], txs[..k - 1], txs[k - 1]);
      AcceptedReplayAgrees(c, p, before.head, before.state, mempools[k - 1], txs[k - 1], before.state);
    }
  }

  lemma CommitSnoc(c: Crypto, p: Params, s: State, blocks: seq<Block>, block: Block,
                   txs: seq<seq<SignedTx>>, last: seq<SignedTx>)
    requires |blocks| == |txs|
    ensures CommitAll(c, p, s, blocks + [block], txs + [last])
            == match CommitAll(c, p, s, blocks, txs)
               case Err(e) => Err(e)
               case Ok(before) => Commit(c, p, block, last, before)
  {
    assert (blocks + [block])[..|blocks|] == blocks && (txs + [last])[..|txs|] == txs;
  }

  /** The `i`th block of a chain is the one produced on top of the first `i`. */
  lemma {:induction false} GrowAt(c: Crypto, p: Params, head: Head, s: State, mempools: seq<seq<SignedTx>>, i: nat)
    requires i < |mempools|
    ensures var chain, before := Grow(c, p, head, s, mempools), Grow(c, p, head, s, mempools[..i]);
            var proposal := Produce(c, p, before.head, before.state, mempools[i]);
            && chain.blocks[i] == proposal.block && chain.txs[i] == proposal.txs
            && Grow(c, p, head, s, mempools[..i + 1]).state == proposal.state
            && Grow(c, p, head, s, mempools[..i + 1]).head == Adopt(c, before.head, proposal.block)
    decreases |mempools|
  {
    var n := |mempools| - 1;
    assert mempools[..i + 1][..i] == mempools[..i];
    if i < n {
      GrowAt(c, p, head, s, mempools[..n], i);
      assert mempools[..n][..i] == mempools[..i] && mempools[..n][..i + 1] == mempools[..i + 1];
    } else {
      assert mempools[..i + 1] == mempools;
    }
  }

  lemma {:induction false} HeadAfter(c: Crypto, p: Params, head: Head, s: State, mempools: seq<seq<SignedTx>>)
    ensures var h := Grow(c, p, head, s, mempools).head;
            h.height == head.height + |mempools| && h.epoch == head.epoch && h.proposer == head.proposer
  {
    if mempools != [] {
      HeadAfter(c, p, head, s, mempools[..|mempools| - 1]);
    }
  }

  /** The chain links up: heights are consecutive, every parent is the hash of the block before, and
      every block lists its transactions and closes with the root of the state it left. */
  lemma ChainLinks(c: Crypto, p: Params, head: Head, s: State, mempools: seq<seq<SignedTx>>, i: nat)
    requires i < |mempools|
    ensures var chain := Grow(c, p, head, s, mempools);
            chain.blocks[i] == Block(
              head.height + i + 1,
              if i == 0 then head.parent else c.blockHash(chain.blocks[i - 1]),
              head.epoch,
              Ids(c, chain.txs[i]),
              c.root(Grow(c, p, head, s, mempools[..i + 1]).state),
              head.proposer)
  {
    GrowAt(c, p, head, s, mempools, i);
    HeadAfter(c, p, head, s, mempools[..i]);
    if i > 0 {
      GrowAt(c, p, head, s, mempools, i - 1);
    }
  }

  // ---- no transaction twice on a chain ----

  function Flatten(lists: seq<seq<SignedTx>>): seq<SignedTx> {
    if lists == [] then [] else Flatten(lists[..|lists| - 1]) + lists[|lists| - 1]
  }

  /** What ordering the concatenation of two mempools means. */
  predicate Appends(c: Crypto, p: Params, s: State, first: seq<SignedTx>, second: seq<SignedTx>) {
    var a, all := Order(c, p, s, first), Order(c, p, s, first + second);
    var b := Order(c, p, a.state, second);
    all.state == b.state && all.txs == a.txs + b.txs
  }

  /** One more transaction after two orderings that agree up to what came first. */
  lemma JoinSnoc(c: Crypto, p: Params, s: State, s1: State, whole: seq<SignedTx>, init: seq<SignedTx>, last: SignedTx,
                 prefix: seq<SignedTx>)
    requires Order(c, p, s, whole).state == Order(c, p, s1, init).state
    requires Order(c, p, s, whole).txs == prefix + Order(c, p, s1, init).txs
    ensures Order(c, p, s, whole + [last]).state == Order(c, p, s1, init + [last]).state
    ensures Order(c, p, s, whole + [last]).txs == prefix + Order(c, p, s1, init + [last]).txs
  {
    OrderSnoc(c, p, s, whole, last);
    OrderSnoc(c, p, s1, init, last);
    assert prefix + (Order(c, p, s1, init).txs + [last]) == (prefix + Order(c, p, s1, init).txs) + [last];
  }

  lemma Regroup<T>(a: seq<T>, b: seq<T>, x: T)
    ensures (a + b) + [x] == a + (b + [x])
  {
  }

  lemma AppendsSnoc(c: Crypto, p: Params, s: State, first: seq<SignedTx>, init: seq<SignedTx>, last: SignedTx)
    requires Appends(c, p, s, first, init)
    ensures Appends(c, p, s, first, init + [last])
  {
    var a := Order(c, p, s, first);
    JoinSnoc(c, p, s, a.state, first + init, init, last, a.txs);
    Regroup(first, init, last);
  }

  lemma {:induction false} OrderAppend(c: Crypto, p: Params, s: State, first: seq<SignedTx>, second: seq<SignedTx>)
    ensures Appends(c, p, s, first, second)
    decreases |second|
  {
    if second == [] {
      assert first + second == first;
    } else {
      var n := |second| - 1;
      OrderAppend(c, p, s, first, second[..n]);
      AppendsSnoc(c, p, s, first, second[..n], second[n]);
      assert second[..n] + [second[n]] == second;
    }
  }

  /** A chain is one long run of the ledger over all its mempools. */
  lemma {:induction false} ChainIsOrder(c: Crypto, p: Params, head: Head, s: State, mempools: seq<seq<SignedTx>>)
    ensures var chain, all := Grow(c, p, head, s, mempools), Order(c, p, s, Flatten(mempools));
            chain.state == all.state && Flatten(chain.txs) == all.txs
  {
    if mempools != [] {
      var n := |mempools| - 1;
      var chain := Grow(c, p, head, s, mempools);
      ChainIsOrder(c, p, head, s, mempools[..n]);
      OrderAppend(c, p, s, Flatten(mempools[..n]), mempools[n]);
      assert chain.txs[..n] == Grow(c, p, head, s, mempools[..n]).txs;
    }
  }

  /** No transaction is carried twice, within a block or across the chain. */
  lemma ChainNeverRepeats(c: Crypto, p: Params, head: Head, s: State, mempools: seq<seq<SignedTx>>, i: nat, j: nat)
    requires i < j < |Flatten(Grow(c, p, head, s, mempools).txs)|
    ensures var txs := Flatten(Grow(c, p, head, s, mempools).txs);
            && txs[i] != txs[j]
            && (txs[i].author == txs[j].author ==> txs[i].nonce < txs[j].nonce)
  {
    ChainIsOrder(c, p, head, s, mempools);
    OrderIsRun(c, p, s, Flatten(mempools));
    NeverAcceptedTwice(c, p, s, Transactions(Flatten(mempools)), i, j);
  }
}
