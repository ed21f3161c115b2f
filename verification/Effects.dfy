/** What each operation does and when it is refused, read off the maps of the state themselves: who
    pays and receives what in which pot, which records are written with which fields, and that
    nothing else changes. Amounts are given by their rates and roundings. */
module Effects {
  import opened Types
  import opened Governance
  import opened Sums
  import opened LedgerSpec
  import opened Lifecycle
  import opened Release
  import opened Escrow

  // ---- reading the maps ----

  function BalanceIn(s: State, id: Identity): int {
    if id in s.accounts then s.accounts[id].balance else 0
  }

  function EscrowIn(s: State, id: Identity): int {
    if id in s.accounts then s.accounts[id].escrowed else 0
  }

  function BondIn(s: State, id: Identity): int {
    if id in s.accounts then s.accounts[id].bonded else 0
  }

  function When(b: bool, n: int): int {
    if b then n else 0
  }

  /** From `s` to `s'` the three pots of `id` change by these amounts. */
  predicate Moves(s: State, s': State, id: Identity, dBalance: int, dEscrow: int, dBond: int) {
    && BalanceIn(s', id) == BalanceIn(s, id) + dBalance
    && EscrowIn(s', id) == EscrowIn(s, id) + dEscrow
    && BondIn(s', id) == BondIn(s, id) + dBond
  }

  lemma AdjustMoves(s: State, s': State, who: Identity, dBalance: int, dEscrow: int, dBond: int, id: Identity)
    requires s'.accounts == Adjust(s.accounts, who, dBalance, dEscrow, dBond)
    ensures Moves(s, s', id, When(id == who, dBalance), When(id == who, dEscrow), When(id == who, dBond))
  {
  }

  lemma MovesTwice(s: State, s1: State, s': State, id: Identity, b: int, e: int, d: int, b': int, e': int, d': int)
    requires Moves(s, s1, id, b, e, d) && Moves(s1, s', id, b', e', d')
    ensures Moves(s, s', id, b + b', e + e', d + d')
  {
  }

  // ---- submit ----

  /** Taken exactly when the tier is the re-execution tier, the task is new and the balance covers
      ceiling and fee, which together fit 128 bits. */
  lemma SubmitAnswer(c: Crypto, p: Params, s: State, requester: Identity, body: TaskBody, fee: nat)
    requires IsFloor(fee, body.limits.maxUcu * p.feePpm, 1_000_000)
    ensures var r, need := Submit(c, p, s, requester, body), body.limits.maxUcu + fee;
            var wellFormed := body.tier == SampledReexec && c.taskId(body) !in s.tasks && need < TWO_128;
            && (r.Ok? <==> wellFormed && BalanceIn(s, requester) >= need)
            && (r == Err(Invalid) <==> !wellFormed)
            && (r == Err(InsufficientBalance) <==> wellFormed && BalanceIn(s, requester) < need)
  {
    RatesAreFloors(p, body.limits.maxUcu);
    FloorUnique(fee, Fee(p, body.limits.maxUcu), body.limits.maxUcu * p.feePpm, 1_000_000);
  }

  lemma SubmitEffect(c: Crypto, p: Params, s: State, requester: Identity, body: TaskBody, s': State, fee: nat,
                     id: Identity)
    requires Submit(c, p, s, requester, body) == Ok(s') && IsFloor(fee, body.limits.maxUcu * p.feePpm, 1_000_000)
    ensures var t, need := c.taskId(body), body.limits.maxUcu + fee;
            && Moves(s, s', id, -When(id == requester, need), When(id == requester, need), 0)
            && s'.bodies == s.bodies[t := body]
            && s'.tasks == s.tasks[t := Submission(t, requester, 0, fee, Submitted, None, 0)]
            && s'.(accounts := s.accounts, bodies := s.bodies, tasks := s.tasks) == s
  {
    RatesAreFloors(p, body.limits.maxUcu);
    FloorUnique(fee, Fee(p, body.limits.maxUcu), body.limits.maxUcu * p.feePpm, 1_000_000);
    var need := body.limits.maxUcu + fee;
    AdjustMoves(s, s', requester, -need, need, 0, id);
  }

  // ---- claim ----

  /** The stake a ceiling and a Standing record call for. */
  ghost predicate StakeFor(p: Params, maxUcu: nat, standing: map<Identity, StandingRecord>, id: Identity, stake: nat) {
    exists base: nat ::
      && IsFloor(base, maxUcu * p.stakeBasePpm, 1_000_000)
      && Discounted(p, base, if id in standing then standing[id].sp else 0, stake)
  }

  /** `base` less the discount that a Standing of `sp` earns. */
  ghost predicate Discounted(p: Params, base: nat, sp: int, stake: nat) {
    if p.spRef <= 0 || sp <= 0 then stake == base
    else if sp * 1_000_000 >= p.discountMaxPpm * p.spRef then
      IsFloor(stake, base * (1_000_000 - p.discountMaxPpm), 1_000_000)
    else
      exists cut: nat :: IsFloor(cut, sp * 1_000_000, p.spRef) && IsFloor(stake, base * (1_000_000 - cut), 1_000_000)
  }

  lemma StakeIs(p: Params, maxUcu: nat, standing: map<Identity, StandingRecord>, id: Identity, sp: int)
    requires sp == if id in standing then standing[id].sp else 0
    ensures StakeFor(p, maxUcu, standing, id, ClaimStake(p, maxUcu, sp))
  {
    RatesAreFloors(p, maxUcu);
    DiscountCases(p, sp);
    ClaimStakeIsFloor(p, maxUcu, sp);
    var base, cut := StakeBase(p, maxUcu), DiscountReductionPpm(p, sp);
    assert IsFloor(ClaimStake(p, maxUcu, sp), base * (1_000_000 - cut), 1_000_000);
    assert Discounted(p, base, sp, ClaimStake(p, maxUcu, sp));
  }

  lemma DiscountedUnique(p: Params, base: nat, sp: int, a: nat, b: nat)
    requires Discounted(p, base, sp, a) && Discounted(p, base, sp, b)
    ensures a == b
  {
    if p.spRef > 0 && sp > 0 {
      if sp * 1_000_000 >= p.discountMaxPpm * p.spRef {
        FloorUnique(a, b, base * (1_000_000 - p.discountMaxPpm), 1_000_000);
      } else {
        var cut: nat :| IsFloor(cut, sp * 1_000_000, p.spRef) && IsFloor(a, base * (1_000_000 - cut), 1_000_000);
        var cut': nat :| IsFloor(cut', sp * 1_000_000, p.spRef) && IsFloor(b, base * (1_000_000 - cut'), 1_000_000);
        FloorUnique(cut, cut', sp * 1_000_000, p.spRef);
        FloorUnique(a, b, base * (1_000_000 - cut), 1_000_000);
      }
    }
  }

  /** The rule determines the stake. */
  lemma StakeUnique(p: Params, maxUcu: nat, standing: map<Identity, StandingRecord>, id: Identity, a: nat, b: nat)
    requires StakeFor(p, maxUcu, standing, id, a) && StakeFor(p, maxUcu, standing, id, b)
    ensures a == b
  {
    var sp := if id in standing then standing[id].sp else 0;
    var base: nat :| IsFloor(base, maxUcu * p.stakeBasePpm, 1_000_000) && Discounted(p, base, sp, a);
    var base': nat :| IsFloor(base', maxUcu * p.stakeBasePpm, 1_000_000) && Discounted(p, base', sp, b);
    FloorUnique(base, base', maxUcu * p.stakeBasePpm, 1_000_000);
    DiscountedUnique(p, base, sp, a, b);
  }

  /** Taken exactly when the task is submitted, the deadline has not passed, the last epoch included,
      and the balance covers the stake; the first thing that is wrong is reported. */
  lemma ClaimAnswer(p: Params, s: State, provider: Identity, t: TaskId)
    ensures var r := Claim(p, s, provider, t);
            if t !in s.bodies || t !in s.tasks then r == Err(UnknownTask)
            else if s.tasks[t].status != Submitted then r == Err(BadStatus)
            else if s.bodies[t].deadline < s.epoch then r == Err(DeadlinePassed)
            else exists stake: nat ::
                   && StakeFor(p, s.bodies[t].limits.maxUcu, s.standing, provider, stake)
                   && (BalanceIn(s, provider) >= stake ==> r.Ok?)
                   && (BalanceIn(s, provider) < stake ==> r == Err(InsufficientBalance))
  {
    if t in s.bodies && t in s.tasks {
      StakeIs(p, s.bodies[t].limits.maxUcu, s.standing, provider, StandingOf(s, provider));
    }
  }

  /** An accepted claim moves the stake that the provider's own Standing calls for from its balance into
      its bond and records it; nothing else changes. */
  lemma ClaimEffect(p: Params, s: State, provider: Identity, t: TaskId, s': State, stake: nat, id: Identity)
    requires Claim(p, s, provider, t) == Ok(s')
    requires StakeFor(p, s.bodies[t].limits.maxUcu, s.standing, provider, stake)
    ensures Moves(s, s', id, -When(id == provider, stake), 0, When(id == provider, stake))
    ensures var sub := s.tasks[t];
            s'.tasks == s.tasks[t := Submission(sub.task, sub.requester, sub.ucuCount, sub.fee, Executing,
              Some(provider), stake)]
    ensures s'.(accounts := s.accounts, tasks := s.tasks) == s
  {
    var max := s.bodies[t].limits.maxUcu;
    StakeIs(p, max, s.standing, provider, StandingOf(s, provider));
    StakeUnique(p, max, s.standing, provider, stake, ClaimStake(p, max, StandingOf(s, provider)));
    AdjustMoves(s, s', provider, -(stake as int), 0, stake, id);
  }

  // ---- proof and settlement ----

  /** Taken exactly from the assigned provider of an executing task, within the ceiling and under the
      task's benchmark version; the first thing that is wrong is reported. */
  lemma ProveAnswer(p: Params, s: State, author: Identity, proof: ComputeProof)
    ensures var r, t := Prove(p, s, author, proof), proof.task;
            if t !in s.bodies || t !in s.tasks then r == Err(UnknownTask)
            else if s.tasks[t].status != Executing then r == Err(BadStatus)
            else if s.tasks[t].provider != Some(author) || proof.provider != author then r == Err(WrongProvider)
            else if s.bodies[t].limits.maxUcu < proof.ucuCount then r == Err(UcuExceedsLimit)
            else if proof.benchmark != s.bodies[t].benchmark then r == Err(BenchmarkMismatch)
            else r.Ok?
  {
  }

  /** The Standing record `id` has after `sp` points more, opening it in this epoch if need be. */
  predicate Accrued(s: State, s': State, id: Identity, delta: int) {
    && id in s'.standing
    && s'.standing == s.standing[id := s'.standing[id]]
    && s'.standing[id] == if id in s.standing
                          then StandingRecord(s.standing[id].id, s.standing[id].sp
                            + delta, s.standing[id].lastDecayEpoch, s.standing[id].strikes)
                          else StandingRecord(id, delta, s.epoch, 0)
  }

  /** All that a settlement writes. */
  lemma ProveEffect(p: Params, s: State, author: Identity, proof: ComputeProof, s': State, w: nat, base: nat,
                    delta: nat, id: Identity)
    requires Prove(p, s, author, proof) == Ok(s')
    requires IsFloor(w, proof.ucuCount * p.issuanceRatePpm, 1_000_000)
    requires IsFloor(base, proof.ucuCount * p.spRatePpm, 1_000_000)
    requires IsFloor(delta, base * p.efficiencyMultPpm, 1_000_000)
    ensures var t := proof.task;
            var sub, body, u: int := s.tasks[t], s.bodies[t], proof.ucuCount;
            var max: int := body.limits.maxUcu;
            && Moves(s, s', id, When(id == sub.requester, max - u) + When(id == author, u + w),
                     -When(id == sub.requester, max + sub.fee), 0)
            && Accrued(s, s', author, delta)
            && s'.tasks == s.tasks[t := Submission(sub.task, sub.requester, u, sub.fee, Settled, sub.provider,
               sub.claimStake)]
            && s'.proofs == s.proofs[t := proof]
            && s'.receipts == s.receipts[t := Receipt(t, u, w, sub.fee, delta, s.epoch, s.epoch + p.clawbackEpochs)]
            && s'.qLedger == s.qLedger[t := QLedgerEntry(t, u, None, None, None, body.benchmark)]
            && s'.supply == Supply(s.supply.minted + w, s.supply.burned)
            && s'.feePool == s.feePool + sub.fee
            && s'.(accounts := s.accounts, standing := s.standing, tasks := s.tasks, proofs := s.proofs,
                   receipts := s.receipts, qLedger := s.qLedger, supply := s.supply, feePool := s.feePool) == s
  {
    var u := proof.ucuCount;
    RatesAreFloors(p, u);
    FloorUnique(w, Issuance(p, u), u * p.issuanceRatePpm, 1_000_000);
    AccrualIs(p, u, base, delta);
    ProveMoves(p, s, author, proof, s', id);
    ProveRecords(p, s, author, proof, s');
  }

  lemma AccrualIs(p: Params, u: nat, base: nat, delta: nat)
    requires IsFloor(base, u * p.spRatePpm, 1_000_000) && IsFloor(delta, base * p.efficiencyMultPpm, 1_000_000)
    ensures Accrual(p, u) == delta
  {
    RatesAreFloors(p, u);
    var base': nat :| IsFloor(base', u * p.spRatePpm, 1_000_000)
      && IsFloor(Accrual(p, u), base' * p.efficiencyMultPpm, 1_000_000);
    FloorUnique(base, base', u * p.spRatePpm, 1_000_000);
    FloorUnique(delta, Accrual(p, u), base * p.efficiencyMultPpm, 1_000_000);
  }

  lemma ProveMoves(p: Params, s: State, author: Identity, proof: ComputeProof, s': State, id: Identity)
    requires Prove(p, s, author, proof) == Ok(s')
    ensures var sub, max, u: int := s.tasks[proof.task], s.bodies[proof.task].limits.maxUcu, proof.ucuCount;
            Moves(s, s', id, When(id == sub.requester, max - u) + When(id == author, u + Issuance(p, u)),
                  -When(id == sub.requester, max + sub.fee), 0)
  {
    SettlementSplit(p, s, author, proof, id);
  }

  lemma ProveRecords(p: Params, s: State, author: Identity, proof: ComputeProof, s': State)
    requires Prove(p, s, author, proof) == Ok(s')
    ensures var t := proof.task;
            var sub, body, u := s.tasks[t], s.bodies[t], proof.ucuCount;
            && Accrued(s, s', author, Accrual(p, u))
            && s'.tasks == s.tasks[t := Submission(sub.task, sub.requester, u, sub.fee, Settled, sub.provider,
               sub.claimStake)]
            && s'.proofs == s.proofs[t := proof]
            && s'.receipts == s.receipts[t := Receipt(t, u, Issuance(p, u), sub.fee, Accrual(p, u), s.epoch, s.epoch
               + p.clawbackEpochs)]
            && s'.qLedger == s.qLedger[t := QLedgerEntry(t, u, None, None, None, body.benchmark)]
            && s'.supply == Supply(s.supply.minted + Issuance(p, u), s.supply.burned)
            && s'.feePool == s.feePool + sub.fee
            && s'.(accounts := s.accounts, standing := s.standing, tasks := s.tasks, proofs := s.proofs,
                   receipts := s.receipts, qLedger := s.qLedger, supply := s.supply, feePool := s.feePool) == s
  {
  }

  // ---- challenge and transfer ----

  /** Taken exactly for a settled, unslashed task without an open challenge, up to and including the
      epoch in which its window closes, with a bond that reaches the minimum and is covered by the
      balance; the first thing that is wrong is reported. */
  lemma OpenAnswer(p: Params, s: State, challenger: Identity, t: TaskId, bond: nat, least: nat)
    requires t in s.receipts ==> IsFloor(least, s.receipts[t].paidToProvider * p.bondMinPpm, 1_000_000)
    ensures var r := OpenChallenge(p, s, challenger, t, bond);
            if t !in s.receipts || t !in s.tasks then r == Err(UnknownTask)
            else if s.tasks[t].status != Settled then r == Err(BadStatus)
            else if s.receipts[t].clawbackUntil < s.epoch then r == Err(NotInClawbackWindow)
            else if t in s.slashed || t in s.pending then r == Err(Invalid)
            else if bond < least then r == Err(BondTooSmall)
            else if BalanceIn(s, challenger) < bond then r == Err(InsufficientBalance)
            else r.Ok?
  {
    if t in s.receipts {
      var paid := s.receipts[t].paidToProvider;
      RatesAreFloors(p, paid);
      FloorUnique(least, BondMin(p, paid), paid * p.bondMinPpm, 1_000_000);
    }
  }

  lemma OpenEffect(p: Params, s: State, challenger: Identity, t: TaskId, bond: nat, s': State, id: Identity)
    requires OpenChallenge(p, s, challenger, t, bond) == Ok(s')
    ensures Moves(s, s', id, -When(id == challenger, bond), 0, When(id == challenger, bond))
    ensures s'.pending == s.pending[t := ChallengeRecord(challenger, bond)]
    ensures s'.(accounts := s.accounts, pending := s.pending) == s
  {
    AdjustMoves(s, s', challenger, -(bond as int), 0, bond, id);
  }

  /** Taken exactly when the balance covers the amount; a transfer to oneself moves nothing. */
  lemma TransferAnswer(s: State, from: Identity, to: Identity, amount: nat)
    ensures var r := TransferTo(s, from, to, amount);
            && (r.Ok? <==> BalanceIn(s, from) >= amount)
            && (r.Err? ==> r.error == InsufficientBalance)
  {
  }

  lemma TransferEffect(s: State, from: Identity, to: Identity, amount: nat, s': State, id: Identity)
    requires TransferTo(s, from, to, amount) == Ok(s')
    ensures Moves(s, s', id, When(id == to, amount) - When(id == from, amount), 0, 0)
    ensures s'.(accounts := s.accounts) == s
  {
    var s1 := s.(accounts := Adjust(s.accounts, from, -(amount as int), 0, 0));
    AdjustMoves(s, s1, from, -(amount as int), 0, 0, id);
    AdjustMoves(s1, s', to, amount, 0, 0, id);
    MovesTwice(s, s1, s', id, When(id == from, -(amount as int)), 0, 0, When(id == to, amount), 0, 0);
  }

  /** The signature is looked at first, then the nonce, then the transaction itself; an accepted one
      counts its nonce, and its own effect does not touch nonces. */
  lemma ApplyAnswer(c: Crypto, p: Params, s: State, stx: SignedTx)
    ensures var r := Apply(c, p, s, stx);
            var expected := if stx.author in s.nonces then s.nonces[stx.author] else 0;
            var counted := s.(nonces := s.nonces[stx.author := expected + 1]);
            if !c.verifies(stx) then r == Err(BadSignature)
            else if stx.nonce != expected then r == Err(BadNonce)
            else
              r == Dispatch(c, p, counted, stx.author, stx.tx) && (r.Ok? ==> r.value.nonces == counted.nonces)
  {
    var expected := if stx.author in s.nonces then s.nonces[stx.author] else 0;
    var counted := s.(nonces := s.nonces[stx.author := expected + 1]);
    assert BumpNonce(s, stx.author) == counted;
    if Dispatch(c, p, counted, stx.author, stx.tx).Ok? {
      NoncesKept(c, p, counted, stx.author, stx.tx);
    }
  }

  lemma NoncesKept(c: Crypto, p: Params, s: State, author: Identity, tx: Tx)
    requires Dispatch(c, p, s, author, tx).Ok?
    ensures Dispatch(c, p, s, author, tx).value.nonces == s.nonces
  {
  }

  /** Which rule a kind of transaction is judged by. */
  lemma DispatchIs(c: Crypto, p: Params, s: State, author: Identity, tx: Tx)
    ensures tx.SubmitTask? ==> Dispatch(c, p, s, author, tx) == Submit(c, p, s, author, tx.body)
    ensures tx.ClaimTask? ==> Dispatch(c, p, s, author, tx) == Claim(p, s, author, tx.task)
    ensures tx.SubmitProof? ==> Dispatch(c, p, s, author, tx) == Prove(p, s, author, tx.proof)
    ensures tx.Challenge? ==> Dispatch(c, p, s, author, tx) == OpenChallenge(p, s, author, tx.challenged, tx.bond)
    ensures tx.Transfer? ==> Dispatch(c, p, s, author, tx) == TransferTo(s, author, tx.to, tx.amount)
  {
  }

  // ---- epoch boundary ----

  /** The tasks a boundary releases. */
  predicate Matures(s: State, t: TaskId) {
    && t in s.receipts && s.receipts[t].clawbackUntil <= s.epoch + 1
    && t !in s.released && t !in s.slashed
    && t in s.tasks && s.tasks[t].provider.Some?
  }

  /** A record after one epoch: the points decay, rounded towards zero, and the boundary is noted. */
  predicate Decayed(p: Params, epoch: nat, before: StandingRecord, after: StandingRecord) {
    && after == StandingRecord(before.id, after.sp, epoch, before.strikes)
    && if before.sp >= 0 then IsFloor(after.sp, before.sp * (1_000_000 - p.decayRatePpm), 1_000_000)
       else IsFloor(-after.sp, -before.sp * (1_000_000 - p.decayRatePpm), 1_000_000)
  }

  lemma DecayRounds(p: Params, sp: int)
    ensures if sp >= 0 then IsFloor(Decay(p, sp), sp * (1_000_000 - p.decayRatePpm), 1_000_000)
            else IsFloor(-Decay(p, sp), -sp * (1_000_000 - p.decayRatePpm), 1_000_000)
  {
    var k := PPM - p.decayRatePpm;
    if sp >= 0 {
      MulMonotone(sp, 0, k);
      DivBounds(sp * k, PPM);
    } else {
      MulMonotone(k, 0, -sp);
      assert -sp * k == -(sp * k);
      DivBounds(-(sp * k), PPM);
    }
  }

  /** What a boundary writes besides money. */
  lemma BoundaryEffect(p: Params, s: State, s': State)
    requires s' == AdvanceEpoch(p, s)
    ensures s'.epoch == s.epoch + 1
    ensures s'.standing.Keys == s.standing.Keys
    ensures forall id :: id in s.standing ==> Decayed(p, s.epoch + 1, s.standing[id], s'.standing[id])
    ensures forall t :: t in s'.released <==> t in s.released || Matures(s, t)
    ensures s'.(epoch := s.epoch, standing := s.standing, released := s.released, accounts := s.accounts) == s
  {
    forall id | id in s.standing
      ensures Decayed(p, s.epoch + 1, s.standing[id], s'.standing[id])
    {
      DecayRounds(p, s.standing[id].sp);
    }
  }

  /** What a boundary pays: each provider gets the stakes of the tasks released now, as far as its bond
      reaches. */
  lemma BoundaryMoves(p: Params, s: State, s': State, id: Identity)
    requires s' == AdvanceEpoch(p, s) && BondIn(s, id) >= 0
    ensures var owed := Owed(s.tasks, s'.released - s.released, id);
            var amount := if owed <= BondIn(s, id) then owed else BondIn(s, id);
            Moves(s, s', id, amount, 0, -amount)
  {
    var due := DueTasks(s, s.epoch + 1);
    assert s'.released - s.released == due;
    ReleaseClosedForm(s.accounts, s.tasks, due, id);
    ReadBack(s, id);
    ReadBack(s', id);
  }

  lemma ReadBack(s: State, id: Identity)
    ensures var a := AccountOf(s.accounts, id);
            a.balance == BalanceIn(s, id) && a.escrowed == EscrowIn(s, id) && a.bonded == BondIn(s, id)
  {
  }

  // ---- verdicts ----

  function Least(a: int, b: int): int {
    if a <= b then a else b
  }

  /** A fraud verdict floors the offender's Standing, adds one strike, opening a record if there is none,
      and marks the task; nobody else's record and no other task changes. */
  lemma FraudRecordsEffect(p: Params, s: State, t: TaskId, rewardTo: Option<Identity>, s': State)
    requires Slashable(s, t) && s' == ResolveFraud(p, s, t, rewardTo)
    ensures var sub := s.tasks[t];
            var id := sub.provider.value;
            && id in s'.standing
            && s'.standing[id].sp == 0
            && s'.standing[id].strikes == (if id in s.standing then s.standing[id].strikes else 0) + 1
            && s'.standing[id].id == (if id in s.standing then s.standing[id].id else id)
            && s'.standing[id].lastDecayEpoch == (if id in s.standing then s.standing[id].lastDecayEpoch else s.epoch)
            && s'.standing == s.standing[id := s'.standing[id]]
            && s'.slashed == s.slashed + {t}
            && s'.tasks == s.tasks[t := Submission(sub.task, sub.requester, sub.ucuCount, sub.fee, Failed,
               sub.provider, sub.claimStake)]
            && s'.supply.minted == s.supply.minted
            && s'.(accounts := s.accounts, standing := s.standing, slashed := s.slashed, tasks := s.tasks,
                   supply := s.supply, feePool := s.feePool) == s
  {
  }

  /** A verdict that cannot bite changes nothing. */
  lemma FraudIdle(p: Params, s: State, t: TaskId, rewardTo: Option<Identity>)
    requires t in s.slashed || t !in s.receipts || t !in s.tasks || s.tasks[t].provider.None?
    ensures ResolveFraud(p, s, t, rewardTo) == s
  {
  }

  /** The money of a fraud verdict. The payment is taken back from the provider's bond to the requester,
      the issuance burned from its balance, which the repayment may have raised, the fine taken from
      what is left of the bond, and a share of the fine, as far as it was collected, goes to the
      claimant or else to the fee pool; what nobody gets is burned. */
  lemma FraudMoves(p: Params, s: State, t: TaskId, rewardTo: Option<Identity>, s': State, f: nat, share: nat,
                   id: Identity)
    requires Slashable(s, t) && s' == ResolveFraud(p, s, t, rewardTo)
    requires IsFloor(f, s.receipts[t].paidToProvider * p.fineMultPpm, 1_000_000)
    requires IsFloor(share, f * p.challengerRewardPpm, 1_000_000)
    ensures var provider, requester, r := s.tasks[t].provider.value, s.tasks[t].requester, s.receipts[t];
            var recovered := Least(r.paidToProvider, BondIn(s, provider));
            var burned := Least(r.workIssuance, BalanceIn(s, provider) + When(provider == requester, recovered));
            var fine := Least(f, BondIn(s, provider) - recovered);
            var reward := Least(share, fine);
            && Moves(s, s', id,
                     When(id == requester, recovered) + When(rewardTo == Some(id), reward)
                       - When(id == provider, burned),
                     0, -When(id == provider, recovered + fine))
            && s'.supply == Supply(s.supply.minted, s.supply.burned + burned + (fine - reward))
            && s'.feePool == s.feePool + When(rewardTo.None?, reward)
  {
    PenaltyIs(p, s, t, f, share);
    var sub := s.tasks[t];
    var x := PenaltyFor(p, s.accounts, s.receipts[t], sub.provider.value, sub.requester);
    FraudEffect(p, s, t, rewardTo);
    PunishMoves(s, s', sub.provider.value, sub.requester, x, rewardTo, id);
  }

  lemma PenaltyIs(p: Params, s: State, t: TaskId, f: nat, share: nat)
    requires Slashable(s, t)
    requires IsFloor(f, s.receipts[t].paidToProvider * p.fineMultPpm, 1_000_000)
    requires IsFloor(share, f * p.challengerRewardPpm, 1_000_000)
    ensures var provider, requester, r := s.tasks[t].provider.value, s.tasks[t].requester, s.receipts[t];
            var recovered := Least(r.paidToProvider, BondIn(s, provider));
            var fine := Least(f, BondIn(s, provider) - recovered);
            PenaltyFor(p, s.accounts, r, provider, requester)
            == Penalty(recovered, Least(r.workIssuance, BalanceIn(s, provider)
               + When(provider == requester, recovered)),
                       fine, Least(share, fine))
  {
    var paid := s.receipts[t].paidToProvider;
    RatesAreFloors(p, paid);
    RatesAreFloors(p, f);
    FloorUnique(f, Fine(p, paid), paid * p.fineMultPpm, 1_000_000);
    FloorUnique(share, ChallengerReward(p, f), f * p.challengerRewardPpm, 1_000_000);
    ReadBack(s, s.tasks[t].provider.value);
  }

  lemma PunishMoves(s: State, s': State, provider: Identity, requester: Identity, x: Penalty,
                    rewardTo: Option<Identity>, id: Identity)
    requires s'.accounts == Punish(s.accounts, provider, requester, x, rewardTo)
    ensures Moves(s, s', id,
                  When(id == requester, x.recovered) + When(rewardTo == Some(id), x.reward)
                    - When(id == provider, x.burnedIssuance),
                  0, -When(id == provider, x.recovered + x.fine))
  {
    var s1 := s.(accounts := Adjust(s.accounts, provider, -x.burnedIssuance, 0, -(x.recovered + x.fine)));
    var s2 := s1.(accounts := Adjust(s1.accounts, requester, x.recovered, 0, 0));
    AdjustMoves(s, s1, provider, -x.burnedIssuance, 0, -(x.recovered + x.fine), id);
    AdjustMoves(s1, s2, requester, x.recovered, 0, 0, id);
    if rewardTo.Some? {
      AdjustMoves(s2, s', rewardTo.value, x.reward, 0, 0, id);
    }
  }

  /** A verdict without an open challenge changes nothing; a failed challenge burns the challenger's bond,
      as far as the bonded pot reaches, and closes. */
  lemma FailedChallengeEffect(p: Params, s: State, t: TaskId, s': State, id: Identity)
    requires s' == ResolveChallenge(p, s, t, false)
    ensures t !in s.pending ==> s' == s
    ensures t in s.pending ==>
              var pc := s.pending[t];
              var b := Least(pc.bond, BondIn(s, pc.challenger));
              && Moves(s, s', id, 0, 0, -When(id == pc.challenger, b))
              && s'.pending == s.pending - {t}
              && s'.supply == Supply(s.supply.minted, s.supply.burned + b)
              && s'.(accounts := s.accounts, pending := s.pending, supply := s.supply) == s
  {
    if t in s.pending {
      var pc := s.pending[t];
      ReadBack(s, pc.challenger);
      AdjustMoves(s, s', pc.challenger, 0, 0, -Min(pc.bond, AccountOf(s.accounts, pc.challenger).bonded), id);
    }
  }

  /** A proven challenge closes, has the effect of the fraud verdict that rewards its challenger, and then
      gives the bond back out of what the verdict left. */
  lemma ProvenChallengeEffect(p: Params, s: State, t: TaskId, s': State, id: Identity)
    requires s' == ResolveChallenge(p, s, t, true)
    ensures t !in s.pending ==> s' == s
    ensures t in s.pending ==>
              var pc := s.pending[t];
              var ruled := ResolveFraud(p, s.(pending := s.pending - {t}), t, Some(pc.challenger));
              var b := Least(pc.bond, BondIn(ruled, pc.challenger));
              && Moves(ruled, s', id, When(id == pc.challenger, b), 0, -When(id == pc.challenger, b))
              && s'.(accounts := ruled.accounts) == ruled
  {
    if t in s.pending {
      var pc := s.pending[t];
      var ruled := ResolveFraud(p, s.(pending := s.pending - {t}), t, Some(pc.challenger));
      ReadBack(ruled, pc.challenger);
      var b := Min(pc.bond, AccountOf(ruled.accounts, pc.challenger).bonded);
      AdjustMoves(ruled, s', pc.challenger, b, 0, -b, id);
    }
  }

  /** In particular a proven challenge floors the offender's Standing and costs it one strike, and
      leaves every other Standing alone. */
  lemma ProvenChallengeStanding(p: Params, s: State, t: TaskId, s': State, id: Identity)
    requires s' == ResolveChallenge(p, s, t, true) && t in s.pending && Slashable(s, t)
    ensures if s.tasks[t].provider == Some(id) then
              && id in s'.standing && s'.standing[id].sp == 0
              && s'.standing[id].strikes == (if id in s.standing then s.standing[id].strikes else 0) + 1
            else (id in s'.standing <==> id in s.standing) && (id in s.standing ==> s'.standing[id] == s.standing[id])
  {
    var s1 := s.(pending := s.pending - {t});
    FraudRecordsEffect(p, s1, t, Some(s.pending[t].challenger), ResolveFraud(p, s1, t, Some(s.pending[t].challenger)));
    ProvenChallengeEffect(p, s, t, s', id);
  }

  // ---- genesis ----

  /** Genesis opens one account for every identity that is allocated anything, and nothing else. */
  lemma {:induction false} GenesisEffect(allocations: seq<(Identity, nat)>, epoch: nat, id: Identity)
    ensures var s := Genesis(allocations, epoch);
            && (id in s.accounts <==> exists i :: 0 <= i < |allocations| && allocations[i].0 == id)
            && BalanceIn(s, id) == AllocatedTo(allocations, id) && EscrowIn(s, id) == 0 && BondIn(s, id) == 0
            && s == State(s.accounts, map[], map[], map[], map[], map[], map[], map[], {}, {}, map[],
                          Supply(AllocatedTotal(allocations), 0), 0, epoch)
  {
    if allocations != [] {
      var n := |allocations| - 1;
      GenesisEffect(allocations[..n], epoch, id);
      assert id in GenesisAccounts(allocations) <==> id in GenesisAccounts(allocations[..n]) || id == allocations[n].0;
      if exists i :: 0 <= i < n && allocations[i].0 == id {
        var i :| 0 <= i < n && allocations[i].0 == id;
        assert allocations[..n][i].0 == id;
      }
    }
  }

  // ---- records are filed under their own names ----

  ghost predicate AccountsKeyed(accounts: map<Identity, Account>) {
    forall id :: id in accounts ==> accounts[id].id == id
  }

  ghost predicate Keyed(s: State) {
    && AccountsKeyed(s.accounts)
    && (forall id :: id in s.standing ==> s.standing[id].id == id)
  }

  lemma AdjustKeyed(accounts: map<Identity, Account>, id: Identity, dBalance: int, dEscrowed: int, dBonded: int)
    requires AccountsKeyed(accounts)
    ensures AccountsKeyed(Adjust(accounts, id, dBalance, dEscrowed, dBonded))
  {
  }

  lemma DispatchKeyed(c: Crypto, p: Params, s: State, author: Identity, tx: Tx)
    requires Keyed(s) && Dispatch(c, p, s, author, tx).Ok?
    ensures Keyed(Dispatch(c, p, s, author, tx).value)
  {
    match tx
    case SubmitTask(body) =>
    case ClaimTask(task) =>
    case SubmitProof(proof) =>
    case Challenge(task, bond) =>
    case Transfer(to, amount) =>
  }

  lemma {:induction false} ReleaseKeyed(accounts: map<Identity, Account>, tasks: map<TaskId, Submission>,
                                        done: set<TaskId>)
    requires AccountsKeyed(accounts)
    ensures AccountsKeyed(ReleaseAll(accounts, tasks, done))
    decreases |done|
  {
    if done != {} {
      var t := Pick(done);
      ReleaseKeyed(accounts, tasks, done - {t});
      var before := ReleaseAll(accounts, tasks, done - {t});
      if t in tasks && tasks[t].provider.Some? {
        var id := tasks[t].provider.value;
        var amount := Min(tasks[t].claimStake, AccountOf(before, id).bonded);
        AdjustKeyed(before, id, amount, 0, -amount);
      }
    }
  }

  lemma StepKeyed(c: Crypto, p: Params, s: State, a: Action)
    requires Keyed(s)
    ensures Keyed(Step(c, p, s, a))
  {
    match a
    case Transact(stx) =>
      if Apply(c, p, s, stx).Ok? {
        DispatchKeyed(c, p, BumpNonce(s, stx.author), stx.author, stx.tx);
      }
    case Boundary => ReleaseKeyed(s.accounts, s.tasks, DueTasks(s, s.epoch + 1));
    case FraudVerdict(t, rewardTo) => FraudKeyed(p, s, t, rewardTo);
    case ChallengeVerdict(t, fraud) =>
      if t in s.pending {
        var s1 := s.(pending := s.pending - {t});
        FraudKeyed(p, s1, t, Some(s.pending[t].challenger));
        CloseKeyed(if fraud then ResolveFraud(p, s1, t, Some(s.pending[t].challenger)) else s1, s.pending[t], fraud);
      }
  }

  lemma FraudKeyed(p: Params, s: State, t: TaskId, rewardTo: Option<Identity>)
    requires Keyed(s)
    ensures Keyed(ResolveFraud(p, s, t, rewardTo))
  {
  }

  lemma CloseKeyed(s: State, pc: ChallengeRecord, fraud: bool)
    requires Keyed(s)
    ensures Keyed(CloseChallenge(s, pc, fraud))
  {
  }

  /** On every run, accounts and Standing records carry the identity they are filed under. */
  lemma {:induction false} ReachableKeyed(c: Crypto, p: Params, allocations: seq<(Identity, nat)>, epoch: nat,
                                          actions: seq<Action>)
    ensures Keyed(Run(c, p, Genesis(allocations, epoch), actions))
  {
    if actions == [] {
      GenesisKeyed(allocations);
    } else {
      var n := |actions| - 1;
      ReachableKeyed(c, p, allocations, epoch, actions[..n]);
      StepKeyed(c, p, Run(c, p, Genesis(allocations, epoch), actions[..n]), actions[n]);
    }
  }

  lemma {:induction false} GenesisKeyed(allocations: seq<(Identity, nat)>)
    ensures AccountsKeyed(GenesisAccounts(allocations))
  {
    if allocations != [] {
      var n := |allocations| - 1;
      GenesisKeyed(allocations[..n]);
      AdjustKeyed(GenesisAccounts(allocations[..n]), allocations[n].0, allocations[n].1, 0, 0);
    }
  }
}
