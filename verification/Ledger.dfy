/** The ledger's code: a working copy of the state, updated in place step by step, and the public
    transitions that clone a state, run the steps and return the copy. Each is proved to compute
    the function of the same name in `LedgerSpec`. */
module Ledger {
  import opened Types
  import opened Governance
  import opened Sums
  import opened Spec = LedgerSpec
  import opened Lifecycle
  import opened Releases = Release
  import opened Escrow
  import opened Conservation

  class WorkingCopy {
    var accounts: map<Identity, Account>
    var standing: map<Identity, StandingRecord>
    var bodies: map<TaskId, TaskBody>
    var tasks: map<TaskId, Submission>
    var proofs: map<TaskId, ComputeProof>
    var receipts: map<TaskId, Receipt>
    var qLedger: map<TaskId, QLedgerEntry>
    var pending: map<TaskId, ChallengeRecord>
    var slashed: set<TaskId>
    var released: set<TaskId>
    var nonces: map<Identity, nat>
    var supply: Supply
    var feePool: int
    var epoch: nat

    function Snapshot(): State
      reads this
    {
      State(accounts, standing, bodies, tasks, proofs, receipts, qLedger, pending, slashed, released, nonces, supply,
        feePool, epoch)
    }

    constructor (s: State)
      ensures Snapshot() == s
    {
      accounts, standing, bodies, tasks := s.accounts, s.standing, s.bodies, s.tasks;
      proofs, receipts, qLedger, pending := s.proofs, s.receipts, s.qLedger, s.pending;
      slashed, released, nonces := s.slashed, s.released, s.nonces;
      supply, feePool, epoch := s.supply, s.feePool, s.epoch;
    }

    /** Open the account if it is missing. */
    method AcctMut(id: Identity)
      modifies this`accounts
      ensures accounts == old(accounts)[id := AccountOf(old(accounts), id)]
    {
      if id !in accounts {
        accounts := accounts[id := Account(id, 0, 0, 0)];
      }
    }

    /** Move an amount from the balance of an open account into its escrow. */
    method Escrow(id: Identity, amount: int)
      requires id in accounts
      modifies this`accounts
      ensures accounts == Adjust(old(accounts), id, -amount, amount, 0)
    {
      accounts := accounts[id := accounts[id].(balance := accounts[id].balance - amount)];
      accounts := accounts[id := accounts[id].(escrowed := accounts[id].escrowed + amount)];
    }

    /** Move an amount from the balance of an open account into its bond. */
    method Bond(id: Identity, amount: int)
      requires id in accounts
      modifies this`accounts
      ensures accounts == Adjust(old(accounts), id, -amount, 0, amount)
    {
      accounts := accounts[id := accounts[id].(balance := accounts[id].balance - amount)];
      accounts := accounts[id := accounts[id].(bonded := accounts[id].bonded + amount)];
    }

    method StandingMut(id: Identity)
      modifies this`standing
      ensures standing == old(standing)[id := StandingRecordOf(old(standing), id, epoch)]
    {
      if id !in standing {
        standing := standing[id := StandingRecord(id, 0, epoch, 0)];
      }
    }

    method CheckAndBumpNonce(author: Identity, nonce: nat) returns (r: Result<(), Reject>)
      modifies this`nonces
      ensures r.Ok? <==> nonce == NonceOf(old(nonces), author)
      ensures r.Err? ==> r.error == BadNonce
      ensures r.Ok? ==> Snapshot() == BumpNonce(old(Snapshot()), author)
    {
      var expected := if author in nonces then nonces[author] else 0;
      if nonce != expected {
        return Err(BadNonce);
      }
      nonces := nonces[author := expected + 1];
      return Ok(());
    }

    method SubmitTask(c: Crypto, p: Params, requester: Identity, body: TaskBody) returns (r: Result<(), Reject>)
      modifies this
      ensures Matches(r, Submit(c, p, old(Snapshot()), requester, body), Snapshot())
    {
      if body.ir != Wasm || body.tier != SampledReexec {
        return Err(Invalid);
      }
      var task := c.taskId(body);
      if task in tasks {
        return Err(Invalid);
      }
      var maxUcu := body.limits.maxUcu;
      var fee := Fee(p, maxUcu);
      var need := maxUcu + fee;
      if need >= TWO_128 {
        return Err(Invalid);
      }
      AcctMut(requester);
      if accounts[requester].balance < need {
        return Err(InsufficientBalance);
      }
      Escrow(requester, need);
      bodies := bodies[task := body];
      tasks := tasks[task := Submission(task, requester, 0, fee, Submitted, None, 0)];
      return Ok(());
    }

    method ClaimTask(p: Params, provider: Identity, task: TaskId) returns (r: Result<(), Reject>)
      modifies this
      ensures Matches(r, Claim(p, old(Snapshot()), provider, task), Snapshot())
    {
      if task !in bodies {
        return Err(UnknownTask);
      }
      var body := bodies[task];
      if task !in tasks {
        return Err(UnknownTask);
      }
      if tasks[task].status != Submitted {
        return Err(BadStatus);
      }
      if epoch > body.deadline {
        return Err(DeadlinePassed);
      }
      var sp := if provider in standing then standing[provider].sp else 0;
      var stake: int := ClaimStake(p, body.limits.maxUcu, sp);
      AcctMut(provider);
      if accounts[provider].balance < stake {
        return Err(InsufficientBalance);
      }
      Bond(provider, stake);
      var sub := tasks[task];
      sub := sub.(provider := Some(provider));
      sub := sub.(status := Executing);
      sub := sub.(claimStake := stake);
      tasks := tasks[task := sub];
      return Ok(());
    }

    method SubmitProof(p: Params, author: Identity, proof: ComputeProof) returns (r: Result<(), Reject>)
      modifies this
      ensures Matches(r, Prove(p, old(Snapshot()), author, proof), Snapshot())
    {
      var t := proof.task;
      if t !in bodies {
        return Err(UnknownTask);
      }
      var body := bodies[t];
      if t !in tasks {
        return Err(UnknownTask);
      }
      var sub := tasks[t];
      if sub.status != Executing {
        return Err(BadStatus);
      }
      if sub.provider != Some(author) || proof.provider != author {
        return Err(WrongProvider);
      }
      if proof.ucuCount > body.limits.maxUcu {
        return Err(UcuExceedsLimit);
      }
      if proof.benchmark != body.benchmark {
        return Err(BenchmarkMismatch);
      }
      proofs := proofs[t := proof];
      var verified := tasks[t];
      verified := verified.(status := Verified);
      verified := verified.(ucuCount := proof.ucuCount);
      tasks := tasks[t := verified];
      ghost var settled := Spec.Settle(p, Snapshot(), body, sub, proof);
      Settle(p, body, sub, proof);
      assert settled.tasks == old(tasks)[t := sub.(status := Settled, ucuCount := proof.ucuCount)];
      return Ok(());
    }

    /** Drain the requester's escrow, pay the provider and mint the work issuance. */
    method PaySettlement(p: Params, requester: Identity, provider: Identity, fee: nat, maxUcu: int, u: nat)
      modifies this`accounts, this`feePool, this`supply
      ensures accounts == Adjust(Adjust(old(accounts), requester, maxUcu - u, -(maxUcu + fee), 0),
                                 provider, u + Issuance(p, u), 0, 0)
      ensures feePool == old(feePool) + fee
      ensures supply == old(supply).(minted := old(supply).minted + Issuance(p, u))
    {
      AcctMut(requester);
      var drainedEscrow := accounts[requester].escrowed - (maxUcu + fee);
      accounts := accounts[requester := accounts[requester].(escrowed := drainedEscrow)];
      accounts := accounts[requester := accounts[requester].(balance := accounts[requester].balance + (maxUcu - u))];
      ghost var drained := Adjust(old(accounts), requester, maxUcu - u, -(maxUcu + fee), 0);
      assert accounts == drained;
      feePool := feePool + fee;

      AcctMut(provider);
      accounts := accounts[provider := accounts[provider].(balance := accounts[provider].balance + u)];
      var w := Issuance(p, u);
      AcctMut(provider);
      accounts := accounts[provider := accounts[provider].(balance := accounts[provider].balance + w)];
      assert accounts == Adjust(drained, provider, u + w, 0, 0);
      supply := supply.(minted := supply.minted + w);
    }

    method Accrue(provider: Identity, delta: nat)
      modifies this`standing
      ensures var st := StandingRecordOf(old(standing), provider, epoch);
              standing == old(standing)[provider := st.(sp := st.sp + delta)]
    {
      StandingMut(provider);
      var st := standing[provider];
      standing := standing[provider := st.(sp := st.sp + delta)];
    }

    /** Write the receipt and the Q entry, and finalize the status. */
    method Record(receipt: Receipt, q: QLedgerEntry)
      requires receipt.task in tasks && q.task == receipt.task
      modifies this`receipts, this`tasks, this`qLedger
      ensures receipts == old(receipts)[receipt.task := receipt]
      ensures tasks == old(tasks)[receipt.task := old(tasks)[receipt.task].(status := Settled)]
      ensures qLedger == old(qLedger)[receipt.task := q]
    {
      receipts := receipts[receipt.task := receipt];
      tasks := tasks[receipt.task := tasks[receipt.task].(status := Settled)];
      qLedger := qLedger[q.task := q];
    }

    /** All effects of a settlement, in the order the code applies them. */
    method Settle(p: Params, body: TaskBody, sub: Submission, proof: ComputeProof)
      requires proof.task in tasks && tasks[proof.task] == sub.(status := Verified, ucuCount := proof.ucuCount)
      modifies this
      ensures Snapshot() == Spec.Settle(p, old(Snapshot()), body, sub, proof)
    {
      var requester, provider := sub.requester, proof.provider;
      var fee: int, maxUcu: int, u: int := sub.fee, body.limits.maxUcu, proof.ucuCount;

      PaySettlement(p, requester, provider, fee, maxUcu, u);
      var w := Issuance(p, u);

      var delta := StandingAccrual(p, u, p.efficiencyMultPpm);
      Accrue(provider, delta);

      var clawbackUntil := epoch + p.clawbackEpochs;
      Record(Receipt(proof.task, u, w, fee, delta, epoch, clawbackUntil),
        QLedgerEntry(proof.task, u, None, None, None, body.benchmark));
    }

    method LockBond(p: Params, challenger: Identity, task: TaskId, bond: nat) returns (r: Result<(), Reject>)
      modifies this
      ensures Matches(r, OpenChallenge(p, old(Snapshot()), challenger, task, bond), Snapshot())
    {
      if task !in receipts {
        return Err(UnknownTask);
      }
      var receipt := receipts[task];
      if task !in tasks {
        return Err(UnknownTask);
      }
      if tasks[task].status != Settled {
        return Err(BadStatus);
      }
      if epoch > receipt.clawbackUntil {
        return Err(NotInClawbackWindow);
      }
      if task in slashed || task in pending {
        return Err(Invalid);
      }
      if bond < BondMin(p, receipt.paidToProvider) {
        return Err(BondTooSmall);
      }
      AcctMut(challenger);
      if accounts[challenger].balance < bond {
        return Err(InsufficientBalance);
      }
      Bond(challenger, bond);
      pending := pending[task := ChallengeRecord(challenger, bond)];
      return Ok(());
    }

    method Transfer(from: Identity, to: Identity, amount: nat) returns (r: Result<(), Reject>)
      modifies this
      ensures Matches(r, TransferTo(old(Snapshot()), from, to, amount), Snapshot())
    {
      AcctMut(from);
      if accounts[from].balance < amount {
        return Err(InsufficientBalance);
      }
      accounts := accounts[from := accounts[from].(balance := accounts[from].balance - amount)];
      AcctMut(to);
      accounts := accounts[to := accounts[to].(balance := accounts[to].balance + amount)];
      return Ok(());
    }
  }

  /** The outcome of a step on a working copy: the rejection its specification gives, or success
      with the copy holding the specified state. A rejected copy is thrown away. */
  ghost predicate Matches(r: Result<(), Reject>, spec: Result<State, Reject>, after: State) {
    match spec
    case Ok(s) => r.Ok? && after == s
    case Err(e) => r == Err(e)
  }

  method Apply(c: Crypto, p: Params, state: State, stx: SignedTx) returns (r: Result<State, Reject>)
    ensures r == Spec.Apply(c, p, state, stx)
  {
    if !c.verifies(stx) {
      return Err(BadSignature);
    }
    var s := new WorkingCopy(state);
    var ok := s.CheckAndBumpNonce(stx.author, stx.nonce);
    if ok.Err? {
      return Err(ok.error);
    }
    match stx.tx {
      case SubmitTask(body) => ok := s.SubmitTask(c, p, stx.author, body);
      case ClaimTask(task) => ok := s.ClaimTask(p, stx.author, task);
      case SubmitProof(proof) => ok := s.SubmitProof(p, stx.author, proof);
      case Transfer(to, amount) => ok := s.Transfer(stx.author, to, amount);
      case Challenge(task, bond) => ok := s.LockBond(p, stx.author, task, bond);
    }
    if ok.Err? {
      return Err(ok.error);
    }
    return Ok(s.Snapshot());
  }

  // ---- genesis and the audit of conservation ----

  method Genesis(allocations: seq<(Identity, nat)>, epoch: nat) returns (state: State)
    ensures state == Spec.Genesis(allocations, epoch)
  {
    var s := new WorkingCopy(State(map[], map[], map[], map[], map[], map[], map[], map[], {}, {}, map[], Supply(0, 0),
      0, epoch));
    var minted := 0;
    for i := 0 to |allocations|
      invariant s.Snapshot() == Spec.Genesis([], epoch).(accounts := GenesisAccounts(allocations[..i]))
      invariant minted == AllocatedTotal(allocations[..i])
    {
      var (id, amount) := allocations[i];
      s.AcctMut(id);
      s.accounts := s.accounts[id := s.accounts[id].(balance := s.accounts[id].balance + amount)];
      minted := minted + amount;
      assert allocations[..i + 1][..i] == allocations[..i];
    }
    assert allocations[..|allocations|] == allocations;
    s.supply := s.supply.(minted := minted);
    return s.Snapshot();
  }

  function SaturatingSub(a: int, b: int): int {
    if a <= b then 0 else a - b
  }

  method CheckConservation(state: State) returns (ok: bool)
    ensures ok <==> Held(state.accounts) + state.feePool == SaturatingSub(state.supply.minted, state.supply.burned)
  {
    var held := state.feePool;
    var rest := state.accounts;
    while rest.Keys != {}
      invariant held + Held(rest) == state.feePool + Held(state.accounts)
      decreases |rest|
    {
      var id := Take(rest.Keys);
      var a := rest[id];
      held := held + (a.balance + a.escrowed + a.bonded);
      SumRemove(PotMap(rest), id);
      assert PotMap(rest) - {id} == PotMap(rest - {id});
      rest := rest - {id};
    }
    assert PotMap(rest) == map[];
    ok := held == SaturatingSub(state.supply.minted, state.supply.burned);
  }

  /** The audit says conserved exactly when the state is, as long as no more was burned than minted;
      beyond that the subtraction saturates and the audit passes exactly when nothing is held. */
  lemma AuditIsExact(state: State)
    ensures var held, minted, burned := Held(state.accounts) + state.feePool, state.supply.minted, state.supply.burned;
            && (burned <= minted ==> (held == SaturatingSub(minted, burned) <==> Conserved(state)))
            && (burned > minted ==> (held == SaturatingSub(minted, burned) <==> held == 0))
            && (burned > minted && held == SaturatingSub(minted, burned) ==> !Conserved(state))
  {
  }

  // ---- epoch boundary ----

  /** Decay every Standing, then collect the matured stakes and release them one after the other. */
  method AdvanceEpoch(state: State, p: Params) returns (state': State)
    ensures state' == Spec.AdvanceEpoch(p, state)
  {
    var s := new WorkingCopy(state);
    s.epoch := s.epoch + 1;
    DecayStandings(s, p);
    var toRelease := CollectDue(s.Snapshot());
    assert DueTasks(s.Snapshot(), s.epoch) == DueTasks(state, state.epoch + 1);
    ReleaseStakes(s, toRelease);
    return s.Snapshot();
  }

  method ReleaseStakes(s: WorkingCopy, list: seq<(TaskId, Identity, nat)>)
    requires Distinct(list) && Lists(s.tasks, list)
    modifies s`accounts, s`released
    ensures s.accounts == ReleaseAll(old(s.accounts), s.tasks, Tasks(list))
    ensures s.released == old(s.released) + Tasks(list)
  {
    ghost var accounts, released := s.accounts, s.released;
    for i := 0 to |list|
      invariant s.accounts == ReleaseAll(accounts, s.tasks, Tasks(list[..i]))
      invariant s.released == released + Tasks(list[..i])
    {
      var (task, provider, stake) := list[i];
      assert list[..i + 1][..i] == list[..i];
      assert Tasks(list[..i + 1]) - {task} == Tasks(list[..i]);
      ReleaseLast(accounts, s.tasks, Tasks(list[..i + 1]), task);
      ReleaseOne(s, task, provider, stake);
    }
    assert list[..|list|] == list;
  }

  method ReleaseOne(s: WorkingCopy, task: TaskId, provider: Identity, stake: nat)
    requires task in s.tasks && s.tasks[task].provider == Some(provider) && s.tasks[task].claimStake == stake
    modifies s`accounts, s`released
    ensures s.accounts == Release(old(s.accounts), s.tasks, task)
    ensures s.released == old(s.released) + {task}
  {
    s.AcctMut(provider);
    var pa := s.accounts[provider];
    var amount := Min(stake, pa.bonded);
    pa := pa.(bonded := pa.bonded - amount);
    pa := pa.(balance := pa.balance + amount);
    s.accounts := s.accounts[provider := pa];
    s.released := s.released + {task};
  }

  method DecayStandings(s: WorkingCopy, p: Params)
    modifies s`standing
    ensures s.standing == DecayAll(p, old(s.standing), s.epoch)
  {
    var rest := s.standing.Keys;
    ghost var before := s.standing;
    while rest != {}
      invariant rest <= before.Keys == s.standing.Keys
      invariant forall id :: id in before ==>
                  s.standing[id] == if id in rest then before[id]
                    else before[id].(sp := Decay(p, before[id].sp), lastDecayEpoch := s.epoch)
      decreases |rest|
    {
      var id := Take(rest);
      var st := s.standing[id];
      s.standing := s.standing[id := st.(sp := Decay(p, st.sp), lastDecayEpoch := s.epoch)];
      rest := rest - {id};
    }
    forall id | id in before
      ensures s.standing[id] == DecayAll(p, before, s.epoch)[id]
    {
      assert id !in rest;
    }
  }

  ghost function Tasks(list: seq<(TaskId, Identity, nat)>): set<TaskId> {
    if list == [] then {}
    else
      var n := |list| - 1;
      Tasks(list[..n]) + {list[n].0}
  }

  ghost predicate Distinct(list: seq<(TaskId, Identity, nat)>) {
    forall i :: 0 <= i < |list| ==> list[i].0 !in Tasks(list[..i])
  }

  ghost predicate Lists(tasks: map<TaskId, Submission>, list: seq<(TaskId, Identity, nat)>) {
    forall i :: 0 <= i < |list| ==>
      && list[i].0 in tasks
      && tasks[list[i].0].provider == Some(list[i].1)
      && tasks[list[i].0].claimStake == list[i].2
  }

  lemma TasksSnoc(tasks: map<TaskId, Submission>, list: seq<(TaskId, Identity, nat)>, entry: (TaskId, Identity, nat))
    requires Distinct(list) && Lists(tasks, list)
    requires entry.0 !in Tasks(list)
    requires entry.0 in tasks && tasks[entry.0].provider == Some(entry.1) && tasks[entry.0].claimStake == entry.2
    ensures Distinct(list + [entry]) && Lists(tasks, list + [entry])
    ensures Tasks(list + [entry]) == Tasks(list) + {entry.0}
  {
    var list' := list + [entry];
    forall i | 0 <= i <= |list|
      ensures list'[..i] == list[..i]
    {
    }
    assert list[..|list|] == list;
  }

  lemma WalkPast(due: set<TaskId>, rest: set<TaskId>, task: TaskId)
    requires task in rest
    ensures due - (rest - {task}) == if task in due then due - rest + {task} else due - rest
  {
  }

  /** The entry for one receipt, if its stake has matured. */
  method MaturedStake(s: State, task: TaskId) returns (entry: Option<(TaskId, Identity, nat)>)
    requires task in s.receipts
    ensures entry.Some? <==> task in DueTasks(s, s.epoch)
    ensures entry.Some? ==>
              && entry.value.0 == task && task in s.tasks
              && s.tasks[task].provider == Some(entry.value.1)
              && s.tasks[task].claimStake == entry.value.2
  {
    entry := None;
    if s.receipts[task].clawbackUntil <= s.epoch && task !in s.released && task !in s.slashed {
      if task in s.tasks {
        var sub := s.tasks[task];
        if sub.provider.Some? {
          entry := Some((task, sub.provider.value, sub.claimStake));
        }
      }
    }
  }

  /** The matured stakes, each once: what is due and was already walked past. */
  method CollectDue(s: State) returns (list: seq<(TaskId, Identity, nat)>)
    ensures Distinct(list) && Lists(s.tasks, list)
    ensures Tasks(list) == DueTasks(s, s.epoch)
  {
    list := [];
    var rest := s.receipts.Keys;
    ghost var due: set<TaskId> := DueTasks(s, s.epoch);
    while rest != {}
      invariant rest <= s.receipts.Keys
      invariant Distinct(list) && Lists(s.tasks, list)
      invariant Tasks(list) == due - rest
      decreases |rest|
    {
      var task := Take(rest);
      WalkPast(due, rest, task);
      rest := rest - {task};
      var entry := MaturedStake(s, task);
      if entry.Some? {
        TasksSnoc(s.tasks, list, entry.value);
        list := list + [entry.value];
      }
    }
  }

  ghost function AdvanceN(p: Params, s: State, n: nat): State {
    if n == 0 then s else Spec.AdvanceEpoch(p, AdvanceN(p, s, n - 1))
  }

  method AdvanceToEpoch(state: State, target: nat, p: Params) returns (s: State)
    ensures s == AdvanceN(p, state, if state.epoch < target then target - state.epoch else 0)
    ensures s.epoch == if state.epoch < target then target else state.epoch
  {
    s := state;
    ghost var n := 0;
    while s.epoch < target
      invariant s == AdvanceN(p, state, n) && s.epoch == state.epoch + n
      invariant state.epoch < target ==> s.epoch <= target
      invariant state.epoch >= target ==> n == 0
    {
      s := AdvanceEpoch(s, p);
      n := n + 1;
    }
  }

  /** Many boundaries decay each Standing as `DecayN` says, whatever else they do. */
  lemma {:induction false} StandingAfter(p: Params, s: State, n: nat, id: Identity)
    requires id in s.standing && s.standing[id].sp >= 0
    ensures var s' := AdvanceN(p, s, n);
            && s'.epoch == s.epoch + n
            && id in s'.standing
            && s'.standing[id].sp == DecayN(p, s.standing[id].sp, n)
            && s'.standing[id].strikes == s.standing[id].strikes
  {
    if n > 0 {
      StandingAfter(p, s, n - 1, id);
    }
  }

  // ---- verdicts ----

  method ResolveFraud(state: State, task: TaskId, rewardTo: Option<Identity>, p: Params) returns (state': State)
    ensures state' == Spec.ResolveFraud(p, state, task, rewardTo)
  {
    var s := new WorkingCopy(state);
    if task in s.slashed {
      return s.Snapshot();
    }
    if task !in s.receipts {
      return s.Snapshot();
    }
    if task !in s.tasks || s.tasks[task].provider.None? {
      return s.Snapshot();
    }
    Penalize(s, task, rewardTo, p);
    return s.Snapshot();
  }

  /** The penalties for a task that can be slashed. */
  method Penalize(s: WorkingCopy, task: TaskId, rewardTo: Option<Identity>, p: Params)
    requires Slashable(s.Snapshot(), task)
    modifies s
    ensures s.Snapshot() == Spec.ResolveFraud(p, old(s.Snapshot()), task, rewardTo)
  {
    ghost var before := s.Snapshot();
    var receipt := s.receipts[task];
    var provider, requester := s.tasks[task].provider.value, s.tasks[task].requester;
    TakePenalties(s, p, receipt, provider, requester, rewardTo);
    FloorAndMark(s, task, provider);
    FraudEffect(p, before, task, rewardTo);
  }

  method FloorAndMark(s: WorkingCopy, task: TaskId, provider: Identity)
    modifies s`standing, s`slashed, s`tasks
    ensures var st := StandingRecordOf(old(s.standing), provider, s.epoch);
            s.standing == old(s.standing)[provider := st.(sp := 0, strikes := st.strikes + 1)]
    ensures s.slashed == old(s.slashed) + {task}
    ensures s.tasks == if task in old(s.tasks)
            then old(s.tasks)[task := old(s.tasks)[task].(status := Failed)] else old(s.tasks)
  {
    s.StandingMut(provider);
    var st := s.standing[provider];
    st := st.(sp := 0);
    st := st.(strikes := st.strikes + 1);
    s.standing := s.standing[provider := st];
    s.slashed := s.slashed + {task};
    if task in s.tasks {
      s.tasks := s.tasks[task := s.tasks[task].(status := Failed)];
    }
  }

  /** Clawback, offsetting burn, fine and reward, each clamped to what is there at that point. */
  method TakePenalties(s: WorkingCopy, p: Params, receipt: Receipt, provider: Identity, requester: Identity,
                       rewardTo: Option<Identity>)
    modifies s`accounts, s`supply, s`feePool
    ensures var x := PenaltyFor(p, old(s.accounts), receipt, provider, requester);
            && s.accounts == Punish(old(s.accounts), provider, requester, x, rewardTo)
            && s.supply == Supply(old(s.supply).minted, old(s.supply).burned + x.burnedIssuance + x.fine - x.reward)
            && s.feePool == old(s.feePool) + if rewardTo.None? then x.reward else 0
  {
    ghost var before := s.accounts;
    var recovered := ClawBack(s, receipt.paidToProvider, provider, requester);
    var f := Fine(p, receipt.paidToProvider);
    var burnW, fineAvail := BurnAndFine(s, receipt.workIssuance, f, provider);
    s.supply := s.supply.(burned := s.supply.burned + burnW);
    SeizeInSteps(before, provider, requester, recovered, burnW, fineAvail);

    var reward := Min(ChallengerReward(p, f), fineAvail);
    PayReward(s, reward, rewardTo);
    s.supply := s.supply.(burned := s.supply.burned + (fineAvail - reward));
  }

  method PayReward(s: WorkingCopy, reward: int, rewardTo: Option<Identity>)
    modifies s`accounts, s`feePool
    ensures s.accounts == match rewardTo
                          case Some(id) => Adjust(old(s.accounts), id, reward, 0, 0)
                          case None => old(s.accounts)
    ensures s.feePool == old(s.feePool) + if rewardTo.None? then reward else 0
  {
    match rewardTo {
      case Some(id) =>
        s.AcctMut(id);
        s.accounts := s.accounts[id := s.accounts[id].(balance := s.accounts[id].balance + reward)];
      case None =>
        s.feePool := s.feePool + reward;
    }
  }

  method ClawBack(s: WorkingCopy, paid: nat, provider: Identity, requester: Identity) returns (recovered: int)
    modifies s`accounts
    ensures recovered == Min(paid, AccountOf(old(s.accounts), provider).bonded)
    ensures s.accounts == Adjust(Adjust(old(s.accounts), provider, 0, 0, -recovered), requester, recovered, 0, 0)
  {
    s.AcctMut(provider);
    recovered := Min(paid, s.accounts[provider].bonded);
    s.accounts := s.accounts[provider := s.accounts[provider].(bonded := s.accounts[provider].bonded - recovered)];
    s.AcctMut(requester);
    s.accounts := s.accounts[requester := s.accounts[requester].(balance := s.accounts[requester].balance + recovered)];
  }

  method BurnAndFine(s: WorkingCopy, w: nat, f: nat, provider: Identity) returns (burnW: int, fineAvail: int)
    modifies s`accounts
    ensures burnW == Min(w, AccountOf(old(s.accounts), provider).balance)
    ensures fineAvail == Min(f, AccountOf(old(s.accounts), provider).bonded)
    ensures s.accounts == Adjust(old(s.accounts), provider, -burnW, 0, -fineAvail)
  {
    s.AcctMut(provider);
    burnW := Min(w, s.accounts[provider].balance);
    s.accounts := s.accounts[provider := s.accounts[provider].(balance := s.accounts[provider].balance - burnW)];
    s.AcctMut(provider);
    fineAvail := Min(f, s.accounts[provider].bonded);
    s.accounts := s.accounts[provider := s.accounts[provider].(bonded := s.accounts[provider].bonded - fineAvail)];
  }

  method ResolveChallenge(state: State, task: TaskId, fraud: bool, p: Params) returns (state': State)
    ensures state' == Spec.ResolveChallenge(p, state, task, fraud)
  {
    var s := new WorkingCopy(state);
    if task !in s.pending {
      return s.Snapshot();
    }
    var pc := s.pending[task];
    s.pending := s.pending - {task};
    ghost var s1 := s.Snapshot();
    assert s1 == state.(pending := state.pending - {task});
    if fraud {
      var punished := ResolveFraud(s.Snapshot(), task, Some(pc.challenger), p);
      s := new WorkingCopy(punished);
    }
    CloseInPlace(s, pc, fraud);
    return s.Snapshot();
  }

  method CloseInPlace(s: WorkingCopy, pc: ChallengeRecord, fraud: bool)
    modifies s
    ensures s.Snapshot() == CloseChallenge(old(s.Snapshot()), pc, fraud)
  {
    var b := UnlockBond(s, pc, fraud);
    if !fraud {
      s.supply := s.supply.(burned := s.supply.burned + b);
    }
  }

  /** Take the challenger's bond out of the bonded pot, back to the balance or nowhere. */
  method UnlockBond(s: WorkingCopy, pc: ChallengeRecord, back: bool) returns (b: int)
    modifies s`accounts
    ensures b == Min(pc.bond, AccountOf(old(s.accounts), pc.challenger).bonded)
    ensures s.accounts == Adjust(old(s.accounts), pc.challenger, if back then b else 0, 0, -b)
  {
    s.AcctMut(pc.challenger);
    var ca := s.accounts[pc.challenger];
    b := Min(pc.bond, ca.bonded);
    ca := ca.(bonded := ca.bonded - b);
    if back {
      ca := ca.(balance := ca.balance + b);
    }
    s.accounts := s.accounts[pc.challenger := ca];
  }
}
