/** Who pays and who is paid: the exact change of everybody's holdings by each transition, and that
    nobody loses anything without having signed a transaction. */
module Wealth {
  import opened Types
  import opened Governance
  import opened Sums
  import opened LedgerSpec
  import opened Release
  import opened Conservation
  import opened Escrow
  import opened Runs

  /** All that an identity holds, spendable or locked. */
  function WealthOf(s: State, id: Identity): int {
    Pots(AccountOf(s.accounts, id))
  }

  lemma AdjustWealth(accounts: map<Identity, Account>, id: Identity, dBalance: int, dEscrowed: int, dBonded: int,
                     x: Identity)
    ensures Pots(AccountOf(Adjust(accounts, id, dBalance, dEscrowed, dBonded), x))
            == Pots(AccountOf(accounts, x)) + if x == id then dBalance + dEscrowed + dBonded else 0
  {
  }

  function Gain(b: bool, amount: int): int {
    if b then amount else 0
  }

  lemma SubmitWealth(c: Crypto, p: Params, s: State, requester: Identity, body: TaskBody, id: Identity)
    requires Submit(c, p, s, requester, body).Ok?
    ensures WealthOf(Submit(c, p, s, requester, body).value, id) == WealthOf(s, id)
  {
    var need := body.limits.maxUcu + Fee(p, body.limits.maxUcu);
    AdjustWealth(s.accounts, requester, -need, need, 0, id);
  }

  lemma ClaimWealth(p: Params, s: State, provider: Identity, task: TaskId, id: Identity)
    requires Claim(p, s, provider, task).Ok?
    ensures WealthOf(Claim(p, s, provider, task).value, id) == WealthOf(s, id)
  {
    var stake: int := Claim(p, s, provider, task).value.tasks[task].claimStake;
    AdjustWealth(s.accounts, provider, -stake, 0, stake, id);
  }

  lemma OpenWealth(p: Params, s: State, challenger: Identity, task: TaskId, bond: nat, id: Identity)
    requires OpenChallenge(p, s, challenger, task, bond).Ok?
    ensures WealthOf(OpenChallenge(p, s, challenger, task, bond).value, id) == WealthOf(s, id)
  {
    AdjustWealth(s.accounts, challenger, -(bond as int), 0, bond, id);
  }

  lemma TransferWealth(s: State, from: Identity, to: Identity, amount: nat, id: Identity)
    requires TransferTo(s, from, to, amount).Ok?
    ensures WealthOf(TransferTo(s, from, to, amount).value, id) - WealthOf(s, id)
            == Gain(id == to, amount) - Gain(id == from, amount)
  {
    AdjustWealth(s.accounts, from, -(amount as int), 0, 0, id);
    AdjustWealth(Adjust(s.accounts, from, -(amount as int), 0, 0), to, amount, 0, 0, id);
  }

  /** A transfer moves exactly its amount, a settlement takes work and fee from the requester and pays
      work and issuance to the provider, and every other transaction only moves money between the
      pots of its author. All identities may coincide. */
  lemma DispatchWealth(c: Crypto, p: Params, s: State, author: Identity, tx: Tx, id: Identity)
    requires Dispatch(c, p, s, author, tx).Ok?
    ensures WealthOf(Dispatch(c, p, s, author, tx).value, id) - WealthOf(s, id)
            == match tx
               case Transfer(to, amount) => Gain(id == to, amount) - Gain(id == author, amount)
               case SubmitProof(proof) =>
                 var sub, u := s.tasks[proof.task], proof.ucuCount;
                 Gain(id == proof.provider, u + Issuance(p, u)) - Gain(id == sub.requester, u + sub.fee)
               case _ => 0
  {
    match tx
    case SubmitTask(body) => SubmitWealth(c, p, s, author, body, id);
    case ClaimTask(task) => ClaimWealth(p, s, author, task, id);
    case SubmitProof(proof) => ProveWealth(p, s, author, proof, id);
    case Challenge(task, bond) => OpenWealth(p, s, author, task, bond, id);
    case Transfer(to, amount) => TransferWealth(s, author, to, amount, id);
  }

  lemma ProveWealth(p: Params, s: State, author: Identity, proof: ComputeProof, id: Identity)
    requires Prove(p, s, author, proof).Ok?
    ensures var sub, u := s.tasks[proof.task], proof.ucuCount;
            WealthOf(Prove(p, s, author, proof).value, id) - WealthOf(s, id)
            == Gain(id == proof.provider, u + Issuance(p, u)) - Gain(id == sub.requester, u + sub.fee)
  {
    var sub, max, u: int := s.tasks[proof.task], s.bodies[proof.task].limits.maxUcu, proof.ucuCount;
    AdjustWealth(s.accounts, sub.requester, max - u, -(max + sub.fee), 0, id);
    AdjustWealth(Adjust(s.accounts, sub.requester, max - u, -(max + sub.fee), 0),
                 proof.provider, u + Issuance(p, u), 0, 0, id);
  }

  /** An epoch boundary makes nobody richer or poorer. */
  lemma BoundaryWealth(p: Params, s: State, id: Identity)
    requires Sound(s)
    ensures WealthOf(AdvanceEpoch(p, s), id) == WealthOf(s, id)
  {
    assert NonNegative(AccountOf(s.accounts, id));
    ReleaseClosedForm(s.accounts, s.tasks, DueTasks(s, s.epoch + 1), id);
  }

  /** A fraud verdict takes clawback, burn and fine from the provider, repays the requester as far as
      the bond reached, and rewards whoever claims it. */
  lemma FraudWealth(p: Params, s: State, t: TaskId, rewardTo: Option<Identity>, id: Identity)
    requires Slashable(s, t)
    ensures var sub := s.tasks[t];
            var x := PenaltyFor(p, s.accounts, s.receipts[t], sub.provider.value, sub.requester);
            WealthOf(ResolveFraud(p, s, t, rewardTo), id) - WealthOf(s, id)
            == Gain(id == sub.requester, x.recovered) + Gain(rewardTo == Some(id), x.reward)
               - Gain(id == sub.provider.value, x.recovered + x.burnedIssuance + x.fine)
  {
    var sub := s.tasks[t];
    var provider := sub.provider.value;
    var x := PenaltyFor(p, s.accounts, s.receipts[t], provider, sub.requester);
    var taken := Adjust(s.accounts, provider, -x.burnedIssuance, 0, -(x.recovered + x.fine));
    var repaid := Adjust(taken, sub.requester, x.recovered, 0, 0);
    AdjustWealth(s.accounts, provider, -x.burnedIssuance, 0, -(x.recovered + x.fine), id);
    AdjustWealth(taken, sub.requester, x.recovered, 0, 0, id);
    if rewardTo.Some? {
      AdjustWealth(repaid, rewardTo.value, x.reward, 0, 0, id);
    }
    FraudEffect(p, s, t, rewardTo);
  }

  /** A verdict on an open challenge costs the challenger its bond, as far as the bonded pot reaches,
      when no fraud was found; a proven one gives the bond back and has the effect of the fraud
      verdict that rewards the challenger. */
  lemma VerdictWealth(p: Params, s: State, t: TaskId, fraud: bool, id: Identity)
    requires t in s.pending
    ensures var pc := s.pending[t];
            WealthOf(ResolveChallenge(p, s, t, fraud), id) - WealthOf(s, id)
            == if !fraud then
                 -Gain(id == pc.challenger, Min(pc.bond, AccountOf(s.accounts, pc.challenger).bonded))
               else if Slashable(s, t) then
                 var sub := s.tasks[t];
                 var x := PenaltyFor(p, s.accounts, s.receipts[t], sub.provider.value, sub.requester);
                 Gain(id == sub.requester, x.recovered) + Gain(id == pc.challenger, x.reward)
                 - Gain(id == sub.provider.value, x.recovered + x.burnedIssuance + x.fine)
               else 0
  {
    var pc, s1 := s.pending[t], s.(pending := s.pending - {t});
    if fraud {
      if Slashable(s, t) {
        FraudWealth(p, s1, t, Some(pc.challenger), id);
      }
      CloseWealth(ResolveFraud(p, s1, t, Some(pc.challenger)), pc, true, id);
    } else {
      CloseWealth(s1, pc, false, id);
    }
  }

  lemma CloseWealth(s: State, pc: ChallengeRecord, fraud: bool, id: Identity)
    ensures WealthOf(CloseChallenge(s, pc, fraud), id) - WealthOf(s, id)
            == if fraud then 0
               else -Gain(id == pc.challenger, Min(pc.bond, AccountOf(s.accounts, pc.challenger).bonded))
  {
    var b := Min(pc.bond, AccountOf(s.accounts, pc.challenger).bonded);
    AdjustWealth(s.accounts, pc.challenger, if fraud then b else 0, 0, -b, id);
  }

  // ---- nobody pays without having signed ----

  /** The identity has never engaged: it holds at least what it was given, nothing of it is locked,
      and it is a party to nothing on record. */
  ghost predicate Unengaged(s: State, id: Identity, given: int) {
    var a := AccountOf(s.accounts, id);
    && a.balance >= given && a.escrowed == 0 && a.bonded == 0
    && (forall t :: t in s.tasks ==> s.tasks[t].requester != id && s.tasks[t].provider != Some(id))
    && (forall t :: t in s.pending ==> s.pending[t].challenger != id)
  }

  lemma DispatchUnengaged(c: Crypto, p: Params, s: State, author: Identity, tx: Tx, id: Identity, given: int)
    requires Unengaged(s, id, given) && author != id && Dispatch(c, p, s, author, tx).Ok?
    ensures Unengaged(Dispatch(c, p, s, author, tx).value, id, given)
  {
    match tx
    case SubmitTask(body) =>
    case ClaimTask(task) =>
    case SubmitProof(proof) =>
    case Challenge(task, bond) =>
    case Transfer(to, amount) =>
  }

  lemma FraudUnengaged(p: Params, s: State, t: TaskId, rewardTo: Option<Identity>, id: Identity, given: int)
    requires Unengaged(s, id, given) && Sound(s)
    ensures Unengaged(ResolveFraud(p, s, t, rewardTo), id, given)
  {
    if Slashable(s, t) {
      var sub := s.tasks[t];
      assert NonNegative(AccountOf(s.accounts, sub.provider.value));
      PenaltyRange(p, s.accounts, s.receipts[t], sub.provider.value, sub.requester);
      FraudEffect(p, s, t, rewardTo);
    }
  }

  lemma VerdictUnengaged(p: Params, s: State, t: TaskId, fraud: bool, id: Identity, given: int)
    requires Unengaged(s, id, given) && Sound(s)
    ensures Unengaged(ResolveChallenge(p, s, t, fraud), id, given)
  {
    if t in s.pending {
      var s1 := s.(pending := s.pending - {t});
      FraudUnengaged(p, s1, t, Some(s.pending[t].challenger), id, given);
    }
  }

  lemma BoundaryUnengaged(p: Params, s: State, id: Identity, given: int)
    requires Unengaged(s, id, given)
    ensures Unengaged(AdvanceEpoch(p, s), id, given)
  {
    ReleaseClosedForm(s.accounts, s.tasks, DueTasks(s, s.epoch + 1), id);
    var m := StakeMap(s.tasks, DueTasks(s, s.epoch + 1), id);
    assert forall t :: t in m ==> m[t] == 0;
    SumZero(m);
  }

  lemma StepUnengaged(c: Crypto, p: Params, s: State, a: Action, id: Identity, given: int)
    requires Unengaged(s, id, given) && Sound(s)
    requires Accepts(c, p, s, a) ==> a.stx.author != id
    ensures Unengaged(Step(c, p, s, a), id, given)
  {
    match a
    case Transact(stx) =>
      if Apply(c, p, s, stx).Ok? {
        DispatchUnengaged(c, p, BumpNonce(s, stx.author), stx.author, stx.tx, id, given);
      }
    case Boundary => BoundaryUnengaged(p, s, id, given);
    case FraudVerdict(t, rewardTo) => FraudUnengaged(p, s, t, rewardTo, id, given);
    case ChallengeVerdict(t, fraud) => VerdictUnengaged(p, s, t, fraud, id, given);
  }

  /** Authority: whatever others do, and whatever verdicts fall, an identity none of whose
      transactions was accepted still has its whole genesis allocation to spend, nothing locked. */
  lemma {:induction false} NothingUnsigned(c: Crypto, p: Params, allocations: seq<(Identity, nat)>, epoch: nat,
                                           actions: seq<Action>, id: Identity, s: State)
    requires s == Run(c, p, Genesis(allocations, epoch), actions)
    requires CountBy(Accepted(c, p, Genesis(allocations, epoch), actions), id) == 0
    ensures Unengaged(s, id, AllocatedTo(allocations, id))
  {
    var g := Genesis(allocations, epoch);
    GenesisInvariant(c, p, allocations, epoch);
    if actions == [] {
      GenesisConserved(allocations, epoch);
      assert AccountOf(g.accounts, id) == Account(id, AllocatedTo(allocations, id), 0, 0);
    } else {
      var n := |actions| - 1;
      var before, txs := Run(c, p, g, actions[..n]), Accepted(c, p, g, actions[..n]);
      RunInvariant(c, p, g, actions[..n]);
      if Accepts(c, p, before, actions[n]) {
        assert (txs + [actions[n].stx])[..|txs|] == txs;
      } else {
        assert txs + [] == txs;
      }
      NothingUnsigned(c, p, allocations, epoch, actions[..n], id, before);
      StepUnengaged(c, p, before, actions[n], id, AllocatedTo(allocations, id));
    }
  }
}
