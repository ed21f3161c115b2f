/** Theorems about whole runs: every interleaving of transactions, epoch boundaries, fraud verdicts
    and challenge verdicts from any genesis. */
module Runs {
  import opened Types
  import opened Governance
  import opened Sums
  import opened LedgerSpec
  import opened Lifecycle
  import opened Release
  import opened Escrow
  import opened Conservation
  import opened Bonds
  import opened Books

  ghost predicate Invariant(c: Crypto, p: Params, s: State) {
    && Consistent(c, p, s)
    && Conserved(s)
    && Sound(s)
    && Covered(s)
    && Affordable(s)
    && StrikesCount(s)
    && StandingNonNegative(s)
    && NeverEarly(s)
  }

  lemma GenesisInvariant(c: Crypto, p: Params, allocations: seq<(Identity, nat)>, epoch: nat)
    ensures Invariant(c, p, Genesis(allocations, epoch))
    ensures Exact(Genesis(allocations, epoch)) && Timely(Genesis(allocations, epoch))
  {
    GenesisLifecycle(c, p, allocations, epoch);
    GenesisConserved(allocations, epoch);
    GenesisSound(allocations, epoch);
    GenesisExact(allocations, epoch);
    GenesisStrikes(allocations, epoch);
  }

  lemma GenesisStrikes(allocations: seq<(Identity, nat)>, epoch: nat)
    ensures StrikesCount(Genesis(allocations, epoch))
  {
    var s := Genesis(allocations, epoch);
    forall id
      ensures |SlashedOf(s.tasks, s.slashed, id)| == 0
    {
      assert SlashedOf(s.tasks, s.slashed, id) == {};
    }
  }

  lemma StepInvariant(c: Crypto, p: Params, s: State, a: Action)
    requires Invariant(c, p, s)
    ensures Invariant(c, p, Step(c, p, s, a))
  {
    StepLifecycle(c, p, s, a);
    StepConserved(c, p, s, a);
    StepSound(c, p, s, a);
    StepCovered(c, p, s, a);
    StepAffordable(c, p, s, a);
    StepStrikes(c, p, s, a);
    StepStanding(c, p, s, a);
    StepNeverEarly(c, p, s, a);
  }

  lemma {:induction false} RunInvariant(c: Crypto, p: Params, s: State, actions: seq<Action>)
    requires Invariant(c, p, s)
    ensures Invariant(c, p, Run(c, p, s, actions))
  {
    if actions != [] {
      var n := |actions| - 1;
      RunInvariant(c, p, s, actions[..n]);
      StepInvariant(c, p, Run(c, p, s, actions[..n]), actions[n]);
    }
  }

  /** The money theorem. On every run from every genesis: currency is conserved and more was minted
      than burned, no pot is negative, escrow is exactly what the open tasks locked, and no bond
      exceeds what it secures. */
  lemma ReachableMoney(c: Crypto, p: Params, allocations: seq<(Identity, nat)>, epoch: nat, actions: seq<Action>,
                       id: Identity)
    ensures var s := Run(c, p, Genesis(allocations, epoch), actions);
            var a := AccountOf(s.accounts, id);
            && Held(s.accounts) + s.feePool == s.supply.minted - s.supply.burned
            && 0 <= s.supply.burned <= s.supply.minted
            && NonNegative(a) && s.feePool >= 0
            && a.escrowed == EscrowDue(s.tasks, s.bodies, id)
            && a.bonded <= Locked(s.tasks, s.released, s.pending, id)
  {
    var s := Run(c, p, Genesis(allocations, epoch), actions);
    GenesisInvariant(c, p, allocations, epoch);
    RunInvariant(c, p, Genesis(allocations, epoch), actions);
    PotsBounded(s, id);
    assert NonNegative(AccountOf(s.accounts, id));
    assert Shortfall(s, id) >= 0;
  }

  /** Settlement on any run takes out of escrow exactly what the submission locked, which is there,
      and splits it: the payment goes to the provider, the refund to the requester and the fee to the
      pool, whoever the parties are. */
  lemma ReachableSettlement(c: Crypto, p: Params, allocations: seq<(Identity, nat)>, epoch: nat, actions: seq<Action>,
                            author: Identity, proof: ComputeProof, s: State, s': State)
    requires s == Run(c, p, Genesis(allocations, epoch), actions) && Prove(p, s, author, proof) == Ok(s')
    ensures var sub, max, u: int := s.tasks[proof.task], s.bodies[proof.task].limits.maxUcu, proof.ucuCount;
            var (r, r'), (a, a') := (AccountOf(s.accounts, sub.requester), AccountOf(s'.accounts, sub.requester)),
                                    (AccountOf(s.accounts, author), AccountOf(s'.accounts, author));
            var payment, refund := u, max - u;
            && 0 <= payment && 0 <= refund
            && r'.escrowed == r.escrowed - (payment + refund + sub.fee) >= 0
            && s'.feePool == s.feePool + sub.fee
            && (if author == sub.requester then
                  a'.balance == a.balance + payment + refund + Issuance(p, u)
                else
                  r'.balance == r.balance + refund && a'.balance == a.balance + payment + Issuance(p, u)
                  && a'.escrowed == a.escrowed)
            && forall id :: id != author && id != sub.requester ==>
                 AccountOf(s'.accounts, id) == AccountOf(s.accounts, id)
  {
    GenesisInvariant(c, p, allocations, epoch);
    RunInvariant(c, p, Genesis(allocations, epoch), actions);
    ProveSound(c, p, s, author, proof);
    SettlementSplit(p, s, author, proof, s.tasks[proof.task].requester);
    SettlementSplit(p, s, author, proof, author);
    SettlementTouches(p, s, author, proof);
  }

  lemma SettlementTouches(p: Params, s: State, author: Identity, proof: ComputeProof)
    requires Prove(p, s, author, proof).Ok?
    ensures var s' := Prove(p, s, author, proof).value;
            forall id :: id != author && id != s.tasks[proof.task].requester ==>
              AccountOf(s'.accounts, id) == AccountOf(s.accounts, id)
  {
  }

  predicate NoFraudVerdicts(actions: seq<Action>) {
    forall i :: 0 <= i < |actions| ==> !IsFraudVerdict(actions[i])
  }

  lemma {:induction false} RunExact(c: Crypto, p: Params, s: State, actions: seq<Action>)
    requires Invariant(c, p, s) && Exact(s) && NoFraudVerdicts(actions)
    ensures Exact(Run(c, p, s, actions))
  {
    if actions != [] {
      var n := |actions| - 1;
      RunExact(c, p, s, actions[..n]);
      RunInvariant(c, p, s, actions[..n]);
      StepExact(c, p, Run(c, p, s, actions[..n]), actions[n]);
    }
  }

  lemma ReachableExact(c: Crypto, p: Params, allocations: seq<(Identity, nat)>, epoch: nat, actions: seq<Action>)
    requires NoFraudVerdicts(actions)
    ensures Sound(Run(c, p, Genesis(allocations, epoch), actions))
            && Exact(Run(c, p, Genesis(allocations, epoch), actions))
  {
    GenesisInvariant(c, p, allocations, epoch);
    RunInvariant(c, p, Genesis(allocations, epoch), actions);
    RunExact(c, p, Genesis(allocations, epoch), actions);
  }

  /** On runs without a fraud verdict bonds are exact, so neither the release of what is due next
      nor the forfeit of any open challenge would be cut short. */
  lemma ReachableExactBonds(c: Crypto, p: Params, allocations: seq<(Identity, nat)>, epoch: nat,
                            actions: seq<Action>, s: State, id: Identity, t: TaskId)
    requires NoFraudVerdicts(actions) && s == Run(c, p, Genesis(allocations, epoch), actions)
    ensures AccountOf(s.accounts, id).bonded == Locked(s.tasks, s.released, s.pending, id)
    ensures Owed(s.tasks, DueTasks(s, s.epoch + 1), id) <= AccountOf(s.accounts, id).bonded
    ensures t in s.pending ==> s.pending[t].bond <= AccountOf(s.accounts, s.pending[t].challenger).bonded
  {
    ReachableExact(c, p, allocations, epoch, actions);
    ClampsIdle(p, s, id, t);
  }

  lemma ClampsIdle(p: Params, s: State, id: Identity, t: TaskId)
    requires Sound(s) && Exact(s)
    ensures Owed(s.tasks, DueTasks(s, s.epoch + 1), id) <= AccountOf(s.accounts, id).bonded
    ensures AccountOf(s.accounts, id).bonded == Locked(s.tasks, s.released, s.pending, id)
    ensures t in s.pending ==> s.pending[t].bond <= AccountOf(s.accounts, s.pending[t].challenger).bonded
  {
    assert Shortfall(s, id) == 0;
    BoundaryShortfall(p, s, id);
    if t in s.pending {
      assert Shortfall(s, s.pending[t].challenger) == 0;
      CloseShortfall(p, s, t, s.pending[t].challenger);
    }
  }

  /** Finality: from any reachable state on, nothing that is on record is rewritten or withdrawn. */
  lemma {:induction false} RunExtends(c: Crypto, p: Params, s: State, actions: seq<Action>)
    requires Consistent(c, p, s)
    ensures Extends(s, Run(c, p, s, actions)) && Consistent(c, p, Run(c, p, s, actions))
  {
    if actions != [] {
      var n := |actions| - 1;
      var before := Run(c, p, s, actions[..n]);
      RunExtends(c, p, s, actions[..n]);
      StepLifecycle(c, p, before, actions[n]);
      ExtendsTransitive(s, before, Run(c, p, s, actions));
    }
  }

  /** A task nobody claimed by its deadline stays submitted for ever, and its ceiling and fee stay in
      its requester's escrow: the failure policy a body states is never acted on. */
  lemma {:induction false} ExpiredForever(c: Crypto, p: Params, s: State, actions: seq<Action>, t: TaskId)
    requires Invariant(c, p, s) && Expired(s, t)
    ensures var s', locked := Run(c, p, s, actions), s.bodies[t].limits.maxUcu + s.tasks[t].fee;
            && Unmoved(s, s', t) && Expired(s', t)
            && AccountOf(s'.accounts, s.tasks[t].requester).escrowed >= locked
  {
    var s' := Run(c, p, s, actions);
    RunInvariant(c, p, s, actions);
    if actions != [] {
      var n := |actions| - 1;
      ExpiredForever(c, p, s, actions[..n], t);
      RunInvariant(c, p, s, actions[..n]);
      StepExpired(c, p, Run(c, p, s, actions[..n]), actions[n], t);
    }
    ExpiredEscrow(s', t);
  }

  lemma ExpiredEscrow(s: State, t: TaskId)
    requires Sound(s) && Expired(s, t)
    ensures AccountOf(s.accounts, s.tasks[t].requester).escrowed >= s.bodies[t].limits.maxUcu + s.tasks[t].fee
  {
    ShareCovered(s.tasks, s.bodies, t, s.tasks[t].requester);
  }

  predicate RewardsClaimed(actions: seq<Action>) {
    forall i :: 0 <= i < |actions| && actions[i].FraudVerdict? ==> actions[i].rewardTo.Some?
  }

  /** The single mint: all currency comes from genesis or is the issuance on some receipt. The fee
      pool holds the receipted fees, and nothing else if every reward had a claimant. */
  lemma {:induction false} ReachableSupply(c: Crypto, p: Params, allocations: seq<(Identity, nat)>, epoch: nat,
                                           actions: seq<Action>)
    ensures var s := Run(c, p, Genesis(allocations, epoch), actions);
            && s.supply.minted == AllocatedTotal(allocations) + Sum(IssuanceMap(s.receipts))
            && (RewardsClaimed(actions) ==> s.feePool == Sum(FeeMap(s.receipts)))
  {
    var g := Genesis(allocations, epoch);
    GenesisInvariant(c, p, allocations, epoch);
    if actions == [] {
      assert IssuanceMap(g.receipts) == map[] && FeeMap(g.receipts) == map[];
    } else {
      var n := |actions| - 1;
      ReachableSupply(c, p, allocations, epoch, actions[..n]);
      RunInvariant(c, p, g, actions[..n]);
      StepMintAndFees(c, p, Run(c, p, g, actions[..n]), actions[n]);
      if RewardsClaimed(actions) {
        assert RewardsClaimed(actions[..n]);
      }
    }
  }

  /** With a window of at least one epoch every settled task whose window has closed is released or
      slashed, and none was released before. */
  lemma {:induction false} ReachableReleases(c: Crypto, p: Params, allocations: seq<(Identity, nat)>, epoch: nat,
                                             actions: seq<Action>)
    requires p.clawbackEpochs >= 1
    ensures var s := Run(c, p, Genesis(allocations, epoch), actions); Timely(s) && NeverEarly(s)
  {
    var g := Genesis(allocations, epoch);
    GenesisInvariant(c, p, allocations, epoch);
    RunInvariant(c, p, g, actions);
    if actions != [] {
      var n := |actions| - 1;
      ReachableReleases(c, p, allocations, epoch, actions[..n]);
      RunInvariant(c, p, g, actions[..n]);
      StepTimely(c, p, Run(c, p, g, actions[..n]), actions[n]);
    }
  }

  /** Every identity has as many strikes as it has slashed tasks; Standing never goes below zero, so
      the truncating division of the decay is the floor it is documented to be. */
  lemma ReachableReputation(c: Crypto, p: Params, allocations: seq<(Identity, nat)>, epoch: nat,
                            actions: seq<Action>, id: Identity)
    ensures var s := Run(c, p, Genesis(allocations, epoch), actions);
            && StrikesOf(s.standing, id) == |SlashedOf(s.tasks, s.slashed, id)|
            && StandingOf(s, id) >= 0
            && Decay(p, StandingOf(s, id)) == StandingOf(s, id) * (PPM - p.decayRatePpm) / PPM
  {
    GenesisInvariant(c, p, allocations, epoch);
    RunInvariant(c, p, Genesis(allocations, epoch), actions);
    DecayIsFloorIff(p, StandingOf(Run(c, p, Genesis(allocations, epoch), actions), id));
  }

  // ---- replay protection ----

  /** The accepted transactions of a run, in order. */
  ghost function Accepted(c: Crypto, p: Params, s: State, actions: seq<Action>): seq<SignedTx> {
    if actions == [] then []
    else
      var n := |actions| - 1;
      Accepted(c, p, s, actions[..n])
      + if Accepts(c, p, Run(c, p, s, actions[..n]), actions[n]) then [actions[n].stx] else []
  }

  function CountBy(txs: seq<SignedTx>, author: Identity): nat {
    if txs == [] then 0
    else
      var n := |txs| - 1;
      CountBy(txs[..n], author) + if txs[n].author == author then 1 else 0
  }

  lemma ApplyNonces(c: Crypto, p: Params, s: State, stx: SignedTx)
    requires Apply(c, p, s, stx).Ok?
    ensures Apply(c, p, s, stx).value.nonces == BumpNonce(s, stx.author).nonces
    ensures stx.nonce == NonceOf(s.nonces, stx.author)
  {
    DispatchNonces(c, p, BumpNonce(s, stx.author), stx.author, stx.tx);
  }

  lemma DispatchNonces(c: Crypto, p: Params, s: State, author: Identity, tx: Tx)
    requires Dispatch(c, p, s, author, tx).Ok?
    ensures Dispatch(c, p, s, author, tx).value.nonces == s.nonces
  {
  }

  lemma VerdictNonces(p: Params, s: State, t: TaskId, rewardTo: Option<Identity>, fraud: bool)
    ensures ResolveFraud(p, s, t, rewardTo).nonces == s.nonces
    ensures ResolveChallenge(p, s, t, fraud).nonces == s.nonces
  {
  }

  predicate Accepts(c: Crypto, p: Params, s: State, a: Action) {
    a.Transact? && Apply(c, p, s, a.stx).Ok?
  }

  lemma TransactNonces(c: Crypto, p: Params, s: State, stx: SignedTx)
    ensures Step(c, p, s, Transact(stx)).nonces
            == if Apply(c, p, s, stx).Ok? then BumpNonce(s, stx.author).nonces else s.nonces
    ensures Apply(c, p, s, stx).Ok? ==> stx.nonce == NonceOf(s.nonces, stx.author)
  {
    if Apply(c, p, s, stx).Ok? {
      ApplyNonces(c, p, s, stx);
    }
  }

  lemma SystemNonces(c: Crypto, p: Params, s: State, a: Action)
    requires !a.Transact?
    ensures Step(c, p, s, a).nonces == s.nonces
  {
    match a
    case Boundary =>
    case FraudVerdict(t, rewardTo) => VerdictNonces(p, s, t, rewardTo, true);
    case ChallengeVerdict(t, fraud) => VerdictNonces(p, s, t, None, fraud);
  }

  lemma BumpedNonces(s: State, author: Identity, other: Identity)
    ensures NonceOf(BumpNonce(s, author).nonces, other) == NonceOf(s.nonces, other) + if other == author then 1 else 0
  {
  }

  lemma StepNonces(c: Crypto, p: Params, s: State, s': State, a: Action, author: Identity)
    requires s' == Step(c, p, s, a)
    ensures NonceOf(s'.nonces, author)
            == NonceOf(s.nonces, author) + if Accepts(c, p, s, a) && a.stx.author == author then 1 else 0
    ensures Accepts(c, p, s, a) ==> a.stx.nonce == NonceOf(s.nonces, a.stx.author)
  {
    if Accepts(c, p, s, a) {
      TransactNonces(c, p, s, a.stx);
      BumpedNonces(s, a.stx.author, author);
    } else if a.Transact? {
      TransactNonces(c, p, s, a.stx);
    } else {
      SystemNonces(c, p, s, a);
    }
  }

  /** Each author's stored nonce counts its accepted transactions, which carry consecutive nonces in
      the order of acceptance. */
  lemma {:induction false} NoncesCount(c: Crypto, p: Params, s: State, actions: seq<Action>, author: Identity)
    ensures var txs := Accepted(c, p, s, actions);
            && NonceOf(Run(c, p, s, actions).nonces, author) == NonceOf(s.nonces, author) + CountBy(txs, author)
            && forall i :: 0 <= i < |txs| && txs[i].author == author ==>
                 txs[i].nonce == NonceOf(s.nonces, author) + CountBy(txs[..i], author)
  {
    if actions != [] {
      var n := |actions| - 1;
      var s', before := Run(c, p, s, actions[..n]), Accepted(c, p, s, actions[..n]);
      NoncesCount(c, p, s, actions[..n], author);
      StepNonces(c, p, s', Run(c, p, s, actions), actions[n], author);
      if Accepts(c, p, s', actions[n]) {
        CountSnoc(NonceOf(s.nonces, author), before, actions[n].stx, author);
      } else {
        assert Accepted(c, p, s, actions) == before;
      }
    }
  }

  /** The counting property is kept by one more transaction with the next nonce. */
  lemma CountSnoc(base: nat, before: seq<SignedTx>, stx: SignedTx, author: Identity)
    requires forall i :: 0 <= i < |before| && before[i].author == author ==>
               before[i].nonce == base + CountBy(before[..i], author)
    requires stx.author == author ==> stx.nonce == base + CountBy(before, author)
    ensures var txs := before + [stx];
            && CountBy(txs, author) == CountBy(before, author) + (if stx.author == author then 1 else 0)
            && forall i :: 0 <= i < |txs| && txs[i].author == author ==>
                 txs[i].nonce == base + CountBy(txs[..i], author)
  {
    var txs := before + [stx];
    assert txs[..|before|] == before;
    forall i | 0 <= i < |before|
      ensures txs[..i] == before[..i]
    {
    }
  }

  lemma {:induction false} CountByPrefix(txs: seq<SignedTx>, i: nat, j: nat, author: Identity)
    requires i < j <= |txs|
    ensures CountBy(txs[..i], author) + (if txs[i].author == author then 1 else 0) <= CountBy(txs[..j], author)
    decreases j
  {
    assert txs[..j][..j - 1] == txs[..j - 1];
    if i < j - 1 {
      CountByPrefix(txs, i, j - 1, author);
    }
  }

  /** No transaction is accepted twice on any run; `Hashing` adds that ids differ too, unless two
      encodings collide. */
  lemma NeverAcceptedTwice(c: Crypto, p: Params, s: State, actions: seq<Action>, i: nat, j: nat)
    requires i < j < |Accepted(c, p, s, actions)|
    ensures var a, b := Accepted(c, p, s, actions)[i], Accepted(c, p, s, actions)[j];
            && a != b
            && (a.author == b.author ==> a.nonce < b.nonce)
  {
    var txs := Accepted(c, p, s, actions);
    NoncesCount(c, p, s, actions, txs[i].author);
    CountByPrefix(txs, i, j, txs[i].author);
  }
}
