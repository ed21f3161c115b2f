/** Reward neutrality: the energy attestation a proof may carry is recorded and otherwise inert.
    Erasing every power seal commutes with the ledger. */
module RewardNeutral {
  import opened Types
  import opened Governance
  import opened LedgerSpec

  function EraseProof(proof: ComputeProof): ComputeProof {
    proof.(powerSeal := None)
  }

  function EraseTx(tx: Tx): Tx {
    match tx
    case SubmitProof(proof) => SubmitProof(EraseProof(proof))
    case _ => tx
  }

  function EraseProofs(proofs: map<TaskId, ComputeProof>): map<TaskId, ComputeProof> {
    map t | t in proofs :: EraseProof(proofs[t])
  }

  function Erase(s: State): State {
    s.(proofs := EraseProofs(s.proofs))
  }

  function EraseResult(r: Result<State, Reject>): Result<State, Reject> {
    match r
    case Ok(s) => Ok(Erase(s))
    case Err(e) => Err(e)
  }

  lemma ErasePut(proofs: map<TaskId, ComputeProof>, t: TaskId, proof: ComputeProof)
    ensures EraseProofs(proofs[t := proof]) == EraseProofs(proofs)[t := EraseProof(proof)]
  {
  }

  lemma EraseProve(p: Params, s: State, author: Identity, proof: ComputeProof)
    ensures EraseResult(Prove(p, s, author, proof)) == Prove(p, Erase(s), author, EraseProof(proof))
  {
    ErasePut(s.proofs, proof.task, proof);
  }

  lemma EraseDispatch(c: Crypto, p: Params, s: State, author: Identity, tx: Tx)
    ensures EraseResult(Dispatch(c, p, s, author, tx)) == Dispatch(c, p, Erase(s), author, EraseTx(tx))
  {
    match tx
    case SubmitTask(body) =>
    case ClaimTask(t) =>
    case SubmitProof(proof) => EraseProve(p, s, author, proof);
    case Challenge(t, bond) =>
    case Transfer(to, amount) =>
  }

  lemma EraseBoundary(p: Params, s: State)
    ensures Erase(AdvanceEpoch(p, s)) == AdvanceEpoch(p, Erase(s))
  {
    assert DueTasks(Erase(s), s.epoch + 1) == DueTasks(s, s.epoch + 1);
  }

  lemma EraseFraud(p: Params, s: State, t: TaskId, rewardTo: Option<Identity>)
    ensures Erase(ResolveFraud(p, s, t, rewardTo)) == ResolveFraud(p, Erase(s), t, rewardTo)
  {
  }

  lemma EraseVerdict(p: Params, s: State, t: TaskId, fraud: bool)
    ensures Erase(ResolveChallenge(p, s, t, fraud)) == ResolveChallenge(p, Erase(s), t, fraud)
  {
    if t in s.pending {
      EraseFraud(p, s.(pending := s.pending - {t}), t, Some(s.pending[t].challenger));
    }
  }

  /** Two signed transactions that differ in nothing but the power seal of their proof, and in their
      signatures, which are both valid or both not. */
  predicate Twins(c: Crypto, a: SignedTx, b: SignedTx) {
    a.author == b.author && a.nonce == b.nonce && EraseTx(a.tx) == EraseTx(b.tx) && c.verifies(a) == c.verifies(b)
  }

  /** Twin transactions meet the same fate, with the same reason for a rejection. */
  lemma TwinsAgree(c: Crypto, p: Params, s: State, s': State, a: SignedTx, b: SignedTx)
    requires Erase(s) == Erase(s') && Twins(c, a, b)
    ensures EraseResult(Apply(c, p, s, a)) == EraseResult(Apply(c, p, s', b))
  {
    var s1, s1' := BumpNonce(s, a.author), BumpNonce(s', b.author);
    assert Erase(s1) == BumpNonce(Erase(s), a.author) == Erase(s1');
    EraseDispatch(c, p, s1, a.author, a.tx);
    EraseDispatch(c, p, s1', b.author, b.tx);
  }

  predicate TwinActions(c: Crypto, a: Action, b: Action) {
    if a.Transact? && b.Transact? then Twins(c, a.stx, b.stx) else a == b
  }

  lemma StepNeutral(c: Crypto, p: Params, s: State, s': State, a: Action, b: Action)
    requires Erase(s) == Erase(s') && TwinActions(c, a, b)
    ensures Erase(Step(c, p, s, a)) == Erase(Step(c, p, s', b))
  {
    match a
    case Transact(stx) => TwinsAgree(c, p, s, s', stx, b.stx);
    case Boundary =>
      EraseBoundary(p, s);
      EraseBoundary(p, s');
    case FraudVerdict(t, rewardTo) =>
      EraseFraud(p, s, t, rewardTo);
      EraseFraud(p, s', t, rewardTo);
    case ChallengeVerdict(t, fraud) =>
      EraseVerdict(p, s, t, fraud);
      EraseVerdict(p, s', t, fraud);
  }

  /** Non-interference: runs that differ only in power seals end in states that differ only in the
      seals of the stored proofs. Balances, supply, Standing, receipts, the Q-ledger and all the
      rest are equal. */
  lemma {:induction false} RunNeutral(c: Crypto, p: Params, s: State, s': State, actions: seq<Action>,
                                      actions': seq<Action>)
    requires Erase(s) == Erase(s') && |actions| == |actions'|
    requires forall i :: 0 <= i < |actions| ==> TwinActions(c, actions[i], actions'[i])
    ensures Erase(Run(c, p, s, actions)) == Erase(Run(c, p, s', actions'))
  {
    if actions != [] {
      var n := |actions| - 1;
      RunNeutral(c, p, s, s', actions[..n], actions'[..n]);
      StepNeutral(c, p, Run(c, p, s, actions[..n]), Run(c, p, s', actions'[..n]), actions[n], actions'[n]);
    }
  }
}
