/** Every unit of currency is in exactly one pot: the pots of all accounts and the fee pool add up
    to what was minted and not burned. */
module Conservation {
  import opened Types
  import opened Governance
  import opened Sums
  import opened LedgerSpec

  function Pots(a: Account): int {
    a.balance + a.escrowed + a.bonded
  }

  ghost function PotMap(accounts: map<Identity, Account>): map<Identity, int> {
    map id | id in accounts :: Pots(accounts[id])
  }

  ghost function Held(accounts: map<Identity, Account>): int {
    Sum(PotMap(accounts))
  }

  ghost predicate Conserved(s: State) {
    Held(s.accounts) + s.feePool == s.supply.minted - s.supply.burned
  }

  lemma HeldAdjust(accounts: map<Identity, Account>, id: Identity, dBalance: int, dEscrowed: int, dBonded: int)
    ensures Held(Adjust(accounts, id, dBalance, dEscrowed, dBonded)) == Held(accounts) + dBalance + dEscrowed + dBonded
  {
    var after := Adjust(accounts, id, dBalance, dEscrowed, dBonded);
    SumUpdate(PotMap(accounts), id, Pots(after[id]));
    assert PotMap(after) == PotMap(accounts)[id := Pots(after[id])];
  }

  /** Releasing stakes moves money inside accounts only. */
  lemma {:induction false} HeldRelease(accounts: map<Identity, Account>, tasks: map<TaskId, Submission>,
                                       done: set<TaskId>)
    ensures Held(ReleaseAll(accounts, tasks, done)) == Held(accounts)
    decreases |done|
  {
    if done != {} {
      var t := Pick(done);
      HeldRelease(accounts, tasks, done - {t});
      var before := ReleaseAll(accounts, tasks, done - {t});
      if t in tasks && tasks[t].provider.Some? {
        var id := tasks[t].provider.value;
        var amount := Min(tasks[t].claimStake, AccountOf(before, id).bonded);
        HeldAdjust(before, id, amount, 0, -amount);
      }
    }
  }

  /** Genesis mints what it allocates; an identity named twice gets both amounts. */
  lemma {:induction false} GenesisConserved(allocations: seq<(Identity, nat)>, epoch: nat)
    ensures Conserved(Genesis(allocations, epoch))
    ensures forall id ::
              AccountOf(Genesis(allocations, epoch).accounts, id) == Account(id, AllocatedTo(allocations, id), 0, 0)
  {
    if allocations == [] {
      assert PotMap(GenesisAccounts(allocations)) == map[];
    } else {
      var n := |allocations| - 1;
      GenesisConserved(allocations[..n], epoch);
      HeldAdjust(GenesisAccounts(allocations[..n]), allocations[n].0, allocations[n].1, 0, 0);
      forall id
        ensures AccountOf(GenesisAccounts(allocations), id) == Account(id, AllocatedTo(allocations, id), 0, 0)
      {
        assert AccountOf(Genesis(allocations[..n], epoch).accounts, id)
          == Account(id, AllocatedTo(allocations[..n], id), 0, 0);
      }
    }
  }

  lemma DispatchConserved(c: Crypto, p: Params, s: State, author: Identity, tx: Tx)
    requires Conserved(s) && Dispatch(c, p, s, author, tx).Ok?
    ensures Conserved(Dispatch(c, p, s, author, tx).value)
  {
    match tx
    case SubmitTask(body) => SubmitConserved(c, p, s, author, body);
    case ClaimTask(t) => ClaimConserved(p, s, author, t);
    case SubmitProof(proof) => ProveConserved(p, s, author, proof);
    case Challenge(t, bond) => HeldAdjust(s.accounts, author, -(bond as int), 0, bond);
    case Transfer(to, amount) => TransferConserved(s, author, to, amount);
  }

  lemma TransferConserved(s: State, from: Identity, to: Identity, amount: nat)
    requires Conserved(s) && TransferTo(s, from, to, amount).Ok?
    ensures Conserved(TransferTo(s, from, to, amount).value)
  {
    HeldAdjust(s.accounts, from, -(amount as int), 0, 0);
    HeldAdjust(Adjust(s.accounts, from, -(amount as int), 0, 0), to, amount, 0, 0);
  }

  lemma SubmitConserved(c: Crypto, p: Params, s: State, requester: Identity, body: TaskBody)
    requires Conserved(s) && Submit(c, p, s, requester, body).Ok?
    ensures Conserved(Submit(c, p, s, requester, body).value)
  {
    var need := body.limits.maxUcu + Fee(p, body.limits.maxUcu);
    HeldAdjust(s.accounts, requester, -need, need, 0);
  }

  lemma ClaimConserved(p: Params, s: State, provider: Identity, t: TaskId)
    requires Conserved(s) && Claim(p, s, provider, t).Ok?
    ensures Conserved(Claim(p, s, provider, t).value)
  {
    var stake: int := Claim(p, s, provider, t).value.tasks[t].claimStake;
    HeldAdjust(s.accounts, provider, -stake, 0, stake);
  }

  lemma SettleConserved(p: Params, s: State, body: TaskBody, sub: Submission, proof: ComputeProof)
    requires Conserved(s)
    ensures Conserved(Settle(p, s, body, sub, proof))
  {
    var s' := Settle(p, s, body, sub, proof);
    var max, u: int := body.limits.maxUcu, proof.ucuCount;
    var w := s'.supply.minted - s.supply.minted;
    var drained := Adjust(s.accounts, sub.requester, max - u, -(max + sub.fee), 0);
    HeldAdjust(s.accounts, sub.requester, max - u, -(max + sub.fee), 0);
    HeldAdjust(drained, proof.provider, u + w, 0, 0);
  }

  lemma ProveConserved(p: Params, s: State, author: Identity, proof: ComputeProof)
    requires Conserved(s) && Prove(p, s, author, proof).Ok?
    ensures Conserved(Prove(p, s, author, proof).value)
  {
    SettleConserved(p, s.(proofs := s.proofs[proof.task := proof]), s.bodies[proof.task], s.tasks[proof.task], proof);
  }

  lemma FraudConserved(p: Params, s: State, t: TaskId, rewardTo: Option<Identity>)
    requires Conserved(s)
    ensures Conserved(ResolveFraud(p, s, t, rewardTo))
  {
    if Slashable(s, t) {
      var sub := s.tasks[t];
      var provider := sub.provider.value;
      var x := PenaltyFor(p, s.accounts, s.receipts[t], provider, sub.requester);
      var taken := Adjust(s.accounts, provider, -x.burnedIssuance, 0, -(x.recovered + x.fine));
      var punished := Adjust(taken, sub.requester, x.recovered, 0, 0);
      HeldAdjust(s.accounts, provider, -x.burnedIssuance, 0, -(x.recovered + x.fine));
      HeldAdjust(taken, sub.requester, x.recovered, 0, 0);
      if rewardTo.Some? {
        HeldAdjust(punished, rewardTo.value, x.reward, 0, 0);
      }
    }
  }

  lemma CloseConserved(s: State, pc: ChallengeRecord, fraud: bool)
    requires Conserved(s)
    ensures Conserved(CloseChallenge(s, pc, fraud))
  {
    var b := Min(pc.bond, AccountOf(s.accounts, pc.challenger).bonded);
    HeldAdjust(s.accounts, pc.challenger, if fraud then b else 0, 0, -b);
  }

  lemma VerdictConserved(p: Params, s: State, t: TaskId, fraud: bool)
    requires Conserved(s)
    ensures Conserved(ResolveChallenge(p, s, t, fraud))
  {
    if t in s.pending {
      var s1 := s.(pending := s.pending - {t});
      FraudConserved(p, s1, t, Some(s.pending[t].challenger));
      CloseConserved(if fraud then ResolveFraud(p, s1, t, Some(s.pending[t].challenger)) else s1, s.pending[t], fraud);
    }
  }

  /** Every action conserves currency, from any conserving state, whatever else is wrong with it. */
  lemma StepConserved(c: Crypto, p: Params, s: State, a: Action)
    requires Conserved(s)
    ensures Conserved(Step(c, p, s, a))
  {
    match a
    case Transact(stx) =>
      if Apply(c, p, s, stx).Ok? {
        DispatchConserved(c, p, BumpNonce(s, stx.author), stx.author, stx.tx);
      }
    case Boundary => HeldRelease(s.accounts, s.tasks, DueTasks(s, s.epoch + 1));
    case FraudVerdict(task, rewardTo) => FraudConserved(p, s, task, rewardTo);
    case ChallengeVerdict(task, fraud) => VerdictConserved(p, s, task, fraud);
  }
}
