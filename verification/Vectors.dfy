/** The numbers the protocol publishes for three short histories under the devnet parameters: a
    settlement, the return of the stake once the window has closed, and a forged proof that is
    challenged and slashed. Identities and ids are the small ones of `Counterexamples`; no amount
    depends on them. */
module Vectors {
  import opened Types
  import opened Governance
  import opened Sums
  import opened LedgerSpec
  import opened Counterexamples
  import opened Dvm
  import Ledger

  const CHALLENGER: Identity := 3
  const TEN_BODY: TaskBody := TaskBody(Wasm, 0, 0, Limits(10_000_000_000, 1_048_576), SampledReexec, 0, 100,
                                       ReturnOnFailure, 1)
  const FUNDED: seq<(Identity, nat)> := [] + [(REQUESTER, 100_000_000_000)] + [(PROVIDER, 100_000_000_000)]
  const FUNDED_THREE: seq<(Identity, nat)> := FUNDED + [(CHALLENGER, 100_000_000_000)]

  function ProofOf(u: u128): ComputeProof {
    ComputeProof(TASK, PROVIDER, 0, 0, u, 0, ReexecData, None)
  }

  function Signed(author: Identity, tx: Tx, nonce: u64, sig: Signature): Action {
    Transact(SignedTx(author, tx, nonce, sig))
  }

  /** A task with a ceiling of ten units is submitted, claimed and proved to have cost `u`. */
  function Settlement(u: u128, sig: Signature): seq<Action> {
    [] + [Signed(REQUESTER, SubmitTask(TEN_BODY), 0, sig)] + [Signed(PROVIDER, ClaimTask(TASK), 0, sig)]
    + [Signed(PROVIDER, SubmitProof(ProofOf(u)), 1, sig)]
  }

  // ---- the states on the way, with any other accounts beside the two ----

  function Two(rest: map<Identity, Account>, requester: Account, provider: Account): map<Identity, Account> {
    rest[REQUESTER := requester][PROVIDER := provider]
  }

  function Opened(rest: map<Identity, Account>, minted: int): State {
    State(Two(rest, Account(REQUESTER, 100_000_000_000, 0, 0), Account(PROVIDER, 100_000_000_000, 0, 0)),
          map[], map[], map[], map[], map[], map[], map[], {}, {}, map[], Supply(minted, 0), 0, 0)
  }

  function AfterTen(rest: map<Identity, Account>, minted: int): State {
    State(Two(rest, Account(REQUESTER, 89_990_000_000, 10_010_000_000, 0), Account(PROVIDER, 100_000_000_000, 0, 0)),
          map[], map[TASK := TEN_BODY],
          map[TASK := Submission(TASK, REQUESTER, 0, 10_000_000, Submitted, None, 0)],
          map[], map[], map[], map[], {}, {}, map[REQUESTER := 1], Supply(minted, 0), 0, 0)
  }

  function AfterStake(rest: map<Identity, Account>, minted: int): State {
    State(Two(rest, Account(REQUESTER, 89_990_000_000, 10_010_000_000, 0),
              Account(PROVIDER, 95_000_000_000, 0, 5_000_000_000)),
          map[], map[TASK := TEN_BODY],
          map[TASK := Submission(TASK, REQUESTER, 0, 10_000_000, Executing, Some(PROVIDER), 5_000_000_000)],
          map[], map[], map[], map[], {}, {}, map[REQUESTER := 1, PROVIDER := 1], Supply(minted, 0), 0, 0)
  }

  function AfterWork(rest: map<Identity, Account>, minted: int, u: u128, w: nat): State {
    State(Two(rest, Account(REQUESTER, 99_990_000_000 - u, 0, 0),
              Account(PROVIDER, 95_000_000_000 + u + w, 0, 5_000_000_000)),
          map[PROVIDER := StandingRecord(PROVIDER, u, 0, 0)], map[TASK := TEN_BODY],
          map[TASK := Submission(TASK, REQUESTER, u, 10_000_000, Settled, Some(PROVIDER), 5_000_000_000)],
          map[TASK := ProofOf(u)], map[TASK := Receipt(TASK, u, w, 10_000_000, u, 0, 32)],
          map[TASK := QLedgerEntry(TASK, u, None, None, None, 0)], map[], {}, {},
          map[REQUESTER := 1, PROVIDER := 2], Supply(minted + w, 0), 10_000_000, 0)
  }

  lemma TwoFunded()
    ensures Genesis(FUNDED, 0) == Opened(map[], 200_000_000_000)
  {
    var one := [] + [(REQUESTER, 100_000_000_000)];
    assert one[..0] == [] && FUNDED[..1] == one;
    assert GenesisAccounts(one) == map[REQUESTER := Account(REQUESTER, 100_000_000_000, 0, 0)];
    assert AllocatedTotal(one) == 100_000_000_000;
    assert GenesisAccounts(FUNDED) == Opened(map[], 0).accounts;
  }

  lemma ThreeFunded()
    ensures Genesis(FUNDED_THREE, 0)
            == Opened(map[CHALLENGER := Account(CHALLENGER, 100_000_000_000, 0, 0)], 300_000_000_000)
  {
    TwoFunded();
    assert FUNDED_THREE[..2] == FUNDED;
    assert GenesisAccounts(FUNDED_THREE)
           == Opened(map[CHALLENGER := Account(CHALLENGER, 100_000_000_000, 0, 0)], 0).accounts;
  }

  lemma TenSubmitted(rest: map<Identity, Account>, minted: int, sig: Signature)
    ensures Step(TOY, Devnet(), Opened(rest, minted), Signed(REQUESTER, SubmitTask(TEN_BODY), 0, sig))
            == AfterTen(rest, minted)
  {
    assert Adjust(Opened(rest, minted).accounts, REQUESTER, -10_010_000_000, 10_010_000_000, 0)
           == AfterTen(rest, minted).accounts;
  }

  lemma TenClaimed(rest: map<Identity, Account>, minted: int, sig: Signature)
    ensures Step(TOY, Devnet(), AfterTen(rest, minted), Signed(PROVIDER, ClaimTask(TASK), 0, sig))
            == AfterStake(rest, minted)
  {
    assert Adjust(AfterTen(rest, minted).accounts, PROVIDER, -5_000_000_000, 0, 5_000_000_000)
           == AfterStake(rest, minted).accounts;
  }

  lemma TenProved(rest: map<Identity, Account>, minted: int, u: u128, w: nat, sig: Signature)
    requires u <= 10_000_000_000 && IsFloor(w, u * 10_000, 1_000_000)
    ensures Step(TOY, Devnet(), AfterStake(rest, minted), Signed(PROVIDER, SubmitProof(ProofOf(u)), 1, sig))
            == AfterWork(rest, minted, u, w)
  {
    DevnetAmounts(u, w);
    TenSettled(rest, minted, u, w, BumpNonce(AfterStake(rest, minted), PROVIDER));
  }

  lemma DevnetAmounts(u: u128, w: nat)
    requires IsFloor(w, u * 10_000, 1_000_000)
    ensures Issuance(Devnet(), u) == w && Accrual(Devnet(), u) == u
  {
    RatesAreFloors(Devnet(), u);
    FloorUnique(w, Issuance(Devnet(), u), u * 10_000, 1_000_000);
  }

  lemma TenSettled(rest: map<Identity, Account>, minted: int, u: u128, w: nat, s: State)
    requires u <= 10_000_000_000 && Issuance(Devnet(), u) == w && Accrual(Devnet(), u) == u
    requires s == AfterStake(rest, minted).(nonces := map[REQUESTER := 1, PROVIDER := 2])
    ensures Prove(Devnet(), s, PROVIDER, ProofOf(u)) == Ok(AfterWork(rest, minted, u, w))
  {
    var refunded := Adjust(s.accounts, REQUESTER, 10_000_000_000 - u, -10_010_000_000, 0);
    assert refunded == Two(rest, Account(REQUESTER, 99_990_000_000 - u, 0, 0), s.accounts[PROVIDER]);
    assert Adjust(refunded, PROVIDER, u + w, 0, 0) == AfterWork(rest, minted, u, w).accounts;
    var r, e := Receipt(TASK, u, w, 10_000_000, u, 0, 32), QLedgerEntry(TASK, u, None, None, None, 0);
    assert ReceiptFor(Devnet(), 0, ProofOf(u), 10_000_000) == r;
    assert s.receipts[TASK := r] == map[TASK := r] && s.qLedger[TASK := e] == map[TASK := e];
    assert s.proofs[TASK := ProofOf(u)] == map[TASK := ProofOf(u)];
    var st := StandingRecord(PROVIDER, u, 0, 0);
    assert s.standing[PROVIDER := st] == map[PROVIDER := st];
    var sub := Submission(TASK, REQUESTER, u, 10_000_000, Settled, Some(PROVIDER), 5_000_000_000);
    assert s.tasks[TASK := sub] == map[TASK := sub];
  }

  lemma Next(s0: State, actions: seq<Action>, a: Action, s: State, s': State)
    requires Run(TOY, Devnet(), s0, actions) == s && Step(TOY, Devnet(), s, a) == s'
    ensures Run(TOY, Devnet(), s0, actions + [a]) == s'
  {
    assert (actions + [a])[..|actions|] == actions;
  }

  lemma SettlementRun(rest: map<Identity, Account>, minted: int, u: u128, w: nat, sig: Signature)
    requires u <= 10_000_000_000 && IsFloor(w, u * 10_000, 1_000_000)
    ensures Run(TOY, Devnet(), Opened(rest, minted), Settlement(u, sig)) == AfterWork(rest, minted, u, w)
  {
    var s0 := Opened(rest, minted);
    var a, b := Signed(REQUESTER, SubmitTask(TEN_BODY), 0, sig), Signed(PROVIDER, ClaimTask(TASK), 0, sig);
    TenSubmitted(rest, minted, sig);
    Next(s0, [], a, s0, AfterTen(rest, minted));
    TenClaimed(rest, minted, sig);
    Next(s0, [] + [a], b, AfterTen(rest, minted), AfterStake(rest, minted));
    TenProved(rest, minted, u, w, sig);
    Next(s0, [] + [a] + [b], Signed(PROVIDER, SubmitProof(ProofOf(u)), 1, sig), AfterStake(rest, minted),
         AfterWork(rest, minted, u, w));
  }

  // ---- the published numbers ----

  /** A task with a ceiling of ten units that took four. */
  lemma HappyPath(sig: Signature)
    ensures Run(TOY, Devnet(), Genesis(FUNDED, 0), Settlement(4_000_000_000, sig))
            == State(map[REQUESTER := Account(REQUESTER, 95_990_000_000, 0, 0),
                         PROVIDER := Account(PROVIDER, 99_040_000_000, 0, 5_000_000_000)],
                     map[PROVIDER := StandingRecord(PROVIDER, 4_000_000_000, 0, 0)],
                     map[TASK := TEN_BODY],
                     map[TASK := Submission(TASK, REQUESTER, 4_000_000_000, 10_000_000, Settled, Some(PROVIDER),
                       5_000_000_000)],
                     map[TASK := ProofOf(4_000_000_000)],
                     map[TASK := Receipt(TASK, 4_000_000_000, 40_000_000, 10_000_000, 4_000_000_000, 0, 32)],
                     map[TASK := QLedgerEntry(TASK, 4_000_000_000, None, None, None, 0)],
                     map[], {}, {}, map[REQUESTER := 1, PROVIDER := 2], Supply(200_040_000_000, 0), 10_000_000, 0)
  {
    TwoFunded();
    SettlementRun(map[], 200_000_000_000, 4_000_000_000, 40_000_000, sig);
    assert AfterWork(map[], 0, 4_000_000_000, 40_000_000).accounts
           == map[REQUESTER := Account(REQUESTER, 95_990_000_000, 0, 0),
                  PROVIDER := Account(PROVIDER, 99_040_000_000, 0, 5_000_000_000)];
  }

  /** Until a window closes, boundaries move the epoch and decay Standing, and nothing else. */
  lemma {:induction false} QuietBoundaries(p: Params, s: State, n: nat)
    requires forall t :: t in s.receipts ==> s.receipts[t].clawbackUntil > s.epoch + n
    ensures Ledger.AdvanceN(p, s, n) == s.(epoch := s.epoch + n, standing := Ledger.AdvanceN(p, s, n).standing)
  {
    if n > 0 {
      QuietBoundaries(p, s, n - 1);
      var before := Ledger.AdvanceN(p, s, n - 1);
      assert DueTasks(before, before.epoch + 1) == {};
      assert before.released + {} == before.released;
    }
  }

  /** The boundary that closes the window of the one settled task. */
  lemma StakeReturned(s: State, standing: map<Identity, StandingRecord>)
    requires s == AfterWork(map[], 200_000_000_000, 4_000_000_000, 40_000_000).(epoch := 31, standing := standing)
    ensures var s' := AdvanceEpoch(Devnet(), s);
            && AccountOf(s'.accounts, PROVIDER) == Account(PROVIDER, 104_040_000_000, 0, 0)
            && s'.released == {TASK} && s'.receipts == s.receipts && s'.epoch == 32
  {
    assert DueTasks(s, 32) == {TASK};
    ReleaseSingle(s.accounts, s.tasks, TASK);
  }

  /** 32 epochs later the stake is back and the receipt is what it was. */
  lemma Finality(sig: Signature)
    ensures var settled := Run(TOY, Devnet(), Genesis(FUNDED, 0), Settlement(4_000_000_000, sig));
            var s := Ledger.AdvanceN(Devnet(), settled, 32);
            && AccountOf(s.accounts, PROVIDER) == Account(PROVIDER, 104_040_000_000, 0, 0)
            && s.released == {TASK} && s.receipts == settled.receipts && s.epoch == 32
  {
    var settled := AfterWork(map[], 200_000_000_000, 4_000_000_000, 40_000_000);
    TwoFunded();
    SettlementRun(map[], 200_000_000_000, 4_000_000_000, 40_000_000, sig);
    QuietBoundaries(Devnet(), settled, 31);
    StakeReturned(Ledger.AdvanceN(Devnet(), settled, 31), Ledger.AdvanceN(Devnet(), settled, 31).standing);
  }

  function AfterDispute(): State {
    AfterWork(map[CHALLENGER := Account(CHALLENGER, 99_999_998_215, 0, 1785)], 300_000_000_000, 7142, 71).(
      pending := map[TASK := ChallengeRecord(CHALLENGER, 1785)],
      nonces := map[REQUESTER := 1, PROVIDER := 2, CHALLENGER := 1])
  }

  lemma Disputed(sig: Signature)
    ensures Step(TOY, Devnet(),
                 AfterWork(map[CHALLENGER := Account(CHALLENGER, 100_000_000_000, 0, 0)], 300_000_000_000, 7142, 71),
                 Signed(CHALLENGER, Challenge(TASK, 1785), 0, sig)) == AfterDispute()
  {
    var s := AfterWork(map[CHALLENGER := Account(CHALLENGER, 100_000_000_000, 0, 0)], 300_000_000_000, 7142, 71);
    assert Adjust(s.accounts, CHALLENGER, -1785, 0, 1785) == AfterDispute().accounts;
  }

  /** A forged proof of 7142 base units, challenged with a bond of 1785: the payment is clawed back, the
      issuance burned, twice the payment fined and half of that given to the challenger, who has its
      bond back; the provider's Standing is gone. */
  lemma ForgedProof(sig: Signature)
    ensures var s := Run(TOY, Devnet(), Genesis(FUNDED_THREE, 0),
                         Settlement(7142, sig) + [Signed(CHALLENGER, Challenge(TASK, 1785), 0, sig)]
                         + [ChallengeVerdict(TASK, true)]);
            && AccountOf(s.accounts, REQUESTER) == Account(REQUESTER, 99_990_000_000, 0, 0)
            && AccountOf(s.accounts, PROVIDER) == Account(PROVIDER, 95_000_007_142, 0, 4_999_978_574)
            && AccountOf(s.accounts, CHALLENGER) == Account(CHALLENGER, 100_000_007_142, 0, 0)
            && s.standing == map[PROVIDER := StandingRecord(PROVIDER, 0, 0, 1)]
            && s.supply == Supply(300_000_000_071, 7213) && s.feePool == 10_000_000
  {
    var rest := map[CHALLENGER := Account(CHALLENGER, 100_000_000_000, 0, 0)];
    var s0, a := Opened(rest, 300_000_000_000), Signed(CHALLENGER, Challenge(TASK, 1785), 0, sig);
    ThreeFunded();
    SettlementRun(rest, 300_000_000_000, 7142, 71, sig);
    Disputed(sig);
    Next(s0, Settlement(7142, sig), a, AfterWork(rest, 300_000_000_000, 7142, 71), AfterDispute());
    Next(s0, Settlement(7142, sig) + [a], ChallengeVerdict(TASK, true), AfterDispute(),
         ResolveChallenge(Devnet(), AfterDispute(), TASK, true));
    Punished();
  }

  lemma Punished()
    ensures var s := ResolveChallenge(Devnet(), AfterDispute(), TASK, true);
            && AccountOf(s.accounts, REQUESTER) == Account(REQUESTER, 99_990_000_000, 0, 0)
            && AccountOf(s.accounts, PROVIDER) == Account(PROVIDER, 95_000_007_142, 0, 4_999_978_574)
            && AccountOf(s.accounts, CHALLENGER) == Account(CHALLENGER, 100_000_007_142, 0, 0)
            && s.standing == map[PROVIDER := StandingRecord(PROVIDER, 0, 0, 1)]
            && s.supply == Supply(300_000_000_071, 7213) && s.feePool == 10_000_000
  {
    var s := AfterDispute();
    assert PenaltyFor(Devnet(), s.accounts, s.receipts[TASK], PROVIDER, REQUESTER) == Penalty(7142, 71, 14_284, 7142);
  }

  /** What the reference workload and an empty echo cost under the published calibration. */
  lemma MeteredWork(b: Benchmark)
    requires b.fuelPerUcu == 1_400_014
    ensures FuelToUcu(b, 1_400_014) == 1_000_000_000 && FuelToUcu(b, 10) == 7142
  {
  }
}
