/** Where the bytes are. The lemmas of `Codec` hold of any unambiguous layout; these say which one it
    is: the tag bytes, and the offset and width of every field, little endian throughout. */
module Layout {
  import opened Types
  import opened Codec
  import opened Governance

  /** From offset `o` on, the bytes are `t`. */
  predicate From(bs: Bytes, o: nat, t: Bytes) {
    o <= |bs| && bs[o..] == t
  }

  /** The `w` bytes from offset `o` spell `n`, least significant byte first. */
  predicate Spells(bs: Bytes, o: nat, n: int, w: nat) {
    o + w <= |bs| && forall i :: 0 <= i < w ==> bs[o + i] == n / Pow256(i) % 256
  }

  lemma DivDiv(n: int, a: nat, b: nat)
    requires a > 0 && b > 0
    ensures n / a / b == n / (a * b)
  {
    var q, r := n / a, n % a;
    var q', r' := q / b, q % b;
    assert n == a * q + r && q == b * q' + r';
    Expand(a, b, q', r');
    MulMonotone(a, r', b - 1);
    assert a * (b - 1) == a * b - a;
    MulMonotone(a, 0, r');
    MulMonotone(a, 1, b);
    QuotientUnique(n, a * b, q', a * r' + r);
  }

  lemma Expand(a: int, b: int, q: int, r: int)
    ensures a * (b * q + r) == (a * b) * q + a * r
  {
    Distribute(a, b * q, -r);
    Rotate(a, b, q);
  }

  /** An integer is written in `w` bytes, the least significant first, in front of the rest. */
  lemma {:induction false} IntLayout(n: int, w: nat, k: Bytes)
    ensures Spells(PutInt(n, w, k), 0, n, w) && From(PutInt(n, w, k), w, k)
    decreases w
  {
    var bs := PutInt(n, w, k);
    if w > 0 {
      var tail := PutInt(n / 256, w - 1, k);
      IntLayout(n / 256, w - 1, k);
      assert bs == [n % 256] + tail;
      forall i | 0 <= i < w
        ensures bs[0 + i] == n / Pow256(i) % 256
      {
        if i > 0 {
          DivDiv(n, 256, Pow256(i - 1));
          assert bs[i] == tail[0 + (i - 1)];
        }
      }
      assert bs[w..] == tail[w - 1..];
    }
  }

  // ---- walking over a message ----

  lemma IntAt(bs: Bytes, o: nat, n: int, w: nat, t: Bytes)
    requires From(bs, o, PutInt(n, w, t))
    ensures Spells(bs, o, n, w) && From(bs, o + w, t)
  {
    IntLayout(n, w, t);
    var m := PutInt(n, w, t);
    assert |m| == |bs| - o;
    forall i | 0 <= i < w
      ensures bs[o + i] == n / Pow256(i) % 256
    {
      assert bs[o + i] == m[0 + i];
    }
    assert bs[o + w..] == m[w..];
  }

  lemma TagAt(bs: Bytes, o: nat, tag: u8, t: Bytes)
    requires From(bs, o, Put1(tag, t))
    ensures o < |bs| && bs[o] == tag && From(bs, o + 1, t)
  {
    assert bs[o] == bs[o..][0];
    assert bs[o + 1..] == bs[o..][1..];
  }

  lemma BytesAt(bs: Bytes, o: nat, a: Bytes, t: Bytes)
    requires From(bs, o, a + t)
    ensures o + |a| <= |bs| && bs[o..o + |a|] == a && From(bs, o + |a|, t)
  {
    assert bs[o..o + |a|] == bs[o..][..|a|];
    assert bs[o + |a|..] == bs[o..][|a|..];
  }

  /** An identifier takes 32 bytes. */
  lemma HashAt(bs: Bytes, o: nat, h: Hash, t: Bytes)
    requires From(bs, o, PutHash(h, t))
    ensures Spells(bs, o, h, 32) && From(bs, o + 32, t)
  {
    IntAt(bs, o, h, 32, t);
  }

  lemma U32At(bs: Bytes, o: nat, n: u32, t: Bytes)
    requires From(bs, o, PutU32(n, t))
    ensures Spells(bs, o, n, 4) && From(bs, o + 4, t)
  {
    IntAt(bs, o, n, 4, t);
  }

  lemma U64At(bs: Bytes, o: nat, n: u64, t: Bytes)
    requires From(bs, o, PutU64(n, t))
    ensures Spells(bs, o, n, 8) && From(bs, o + 8, t)
  {
    IntAt(bs, o, n, 8, t);
  }

  lemma U128At(bs: Bytes, o: nat, n: u128, t: Bytes)
    requires From(bs, o, PutU128(n, t))
    ensures Spells(bs, o, n, 16) && From(bs, o + 16, t)
  {
    IntAt(bs, o, n, 16, t);
  }

  /** A byte vector is its length in four bytes and then its bytes. */
  predicate HoldsBlob(bs: Bytes, o: nat, b: Blob) {
    Spells(bs, o, |b|, 4) && o + 4 + |b| <= |bs| && bs[o + 4..o + 4 + |b|] == b
  }

  lemma BlobAt(bs: Bytes, o: nat, b: Blob, t: Bytes)
    requires From(bs, o, PutBlob(b, t))
    ensures HoldsBlob(bs, o, b) && From(bs, o + 4 + |b|, t)
  {
    U32At(bs, o, |b|, b + t);
    BytesAt(bs, o + 4, b, t);
  }

  // ---- tags ----

  /** Tags number the variants in the order of their declaration, from zero. */
  lemma Tags(retries: u8, b: Blob, seal: PowerSeal, k: Bytes)
    ensures TierTag(SampledReexec) == 0 && TierTag(Tee) == 1 && TierTag(Zk) == 2
    ensures GradeTag(S0Identity) == 0 && GradeTag(S1Witnessed) == 1 && GradeTag(S2Locked) == 2
    ensures BoundaryTag(Chip) == 0 && BoundaryTag(Node) == 1 && BoundaryTag(Facility) == 2
    ensures PutPolicy(AutoRequeue, k) == [0] + k && PutPolicy(ReturnOnFailure, k) == [1] + k
    ensures PutPolicy(RetryThenReturn(retries), k) == [2, retries] + k
    ensures PutTierData(ReexecData, k) == [0] + k
    ensures PutTierData(TeeData(b), k)[0] == 1 && PutTierData(ZkData(b), k)[0] == 2
    ensures PutSealOption(None, k) == [0] + k && PutSealOption(Some(seal), k)[0] == 1
  {
  }

  /** The first byte of a transaction says its kind. */
  lemma TxTags(t: Tx, k: Bytes)
    ensures var bs := PutTx(t, k);
            && bs != []
            && (t.SubmitTask? ==> bs[0] == 0)
            && (t.ClaimTask? ==> bs[0] == 1)
            && (t.SubmitProof? ==> bs[0] == 2)
            && (t.Challenge? ==> bs[0] == 3)
            && (t.Transfer? ==> bs[0] == 4)
  {
  }

  // ---- records ----

  /** A failure policy takes one byte, or two with its number of retries. */
  function PolicySize(f: FailurePolicy): nat {
    if f.RetryThenReturn? then 2 else 1
  }

  predicate HoldsPolicy(bs: Bytes, o: nat, f: FailurePolicy)
    requires o + PolicySize(f) <= |bs|
  {
    match f
    case AutoRequeue => bs[o] == 0
    case ReturnOnFailure => bs[o] == 1
    case RetryThenReturn(retries) => bs[o] == 2 && bs[o + 1] == retries
  }

  lemma PolicyAt(bs: Bytes, o: nat, f: FailurePolicy, t: Bytes)
    requires From(bs, o, PutPolicy(f, t))
    ensures o + PolicySize(f) <= |bs| && HoldsPolicy(bs, o, f) && From(bs, o + PolicySize(f), t)
  {
    match f
    case AutoRequeue => TagAt(bs, o, 0, t);
    case ReturnOnFailure => TagAt(bs, o, 1, t);
    case RetryThenReturn(retries) =>
      TagAt(bs, o, 2, Put1(retries, t));
      TagAt(bs, o + 1, retries, t);
  }

  /** The tag a tier is written as. */
  predicate HoldsTier(bs: Bytes, o: nat, tier: VerificationTier) {
    o < |bs| && bs[o] == if tier.SampledReexec? then 0 else if tier.Tee? then 1 else 2
  }

  lemma TaskBodyLayout(b: TaskBody, k: Bytes)
    ensures var bs := PutTaskBody(b, k);
            && |bs| > 0 && bs[0] == 0
            && Spells(bs, 1, b.program, 32) && Spells(bs, 33, b.input, 32)
            && Spells(bs, 65, b.limits.maxUcu, 16) && Spells(bs, 81, b.limits.maxMemoryBytes, 8)
            && HoldsTier(bs, 89, b.tier)
            && Spells(bs, 90, b.benchmark, 4) && Spells(bs, 94, b.deadline, 8)
            && 102 + PolicySize(b.failurePolicy) <= |bs| && HoldsPolicy(bs, 102, b.failurePolicy)
            && Spells(bs, 102 + PolicySize(b.failurePolicy), b.nonce, 8)
            && From(bs, 110 + PolicySize(b.failurePolicy), k)
  {
    var bs := PutTaskBody(b, k);
    var t9 := PutU64(b.nonce, k);
    var t8 := PutPolicy(b.failurePolicy, t9);
    var t7 := PutU64(b.deadline, t8);
    var t6 := PutU32(b.benchmark, t7);
    var t5 := Put1(TierTag(b.tier), t6);
    var t4 := PutU64(b.limits.maxMemoryBytes, t5);
    var t3 := PutU128(b.limits.maxUcu, t4);
    var t2 := PutHash(b.input, t3);
    var t1 := PutHash(b.program, t2);
    assert From(bs, 0, Put1(0, t1));
    TagAt(bs, 0, 0, t1);
    HashAt(bs, 1, b.program, t2);
    HashAt(bs, 33, b.input, t3);
    U128At(bs, 65, b.limits.maxUcu, t4);
    U64At(bs, 81, b.limits.maxMemoryBytes, t5);
    TagAt(bs, 89, TierTag(b.tier), t6);
    U32At(bs, 90, b.benchmark, t7);
    U64At(bs, 94, b.deadline, t8);
    PolicyAt(bs, 102, b.failurePolicy, t9);
    U64At(bs, 102 + PolicySize(b.failurePolicy), b.nonce, k);
  }

  /** A power seal takes 62 bytes. */
  predicate HoldsSeal(bs: Bytes, o: nat, s: PowerSeal) {
    && o + 62 <= |bs|
    && bs[o] == (if s.sealGrade.S0Identity? then 0 else if s.sealGrade.S1Witnessed? then 1 else 2)
    && bs[o + 1] == (if s.boundary.Chip? then 0 else if s.boundary.Node? then 1 else 2)
    && Spells(bs, o + 2, s.powerCapMilliwatts, 8) && Spells(bs, o + 10, s.windowMillis, 8)
    && Spells(bs, o + 18, s.tMaxMillikelvin, 8) && Spells(bs, o + 26, s.attestationEvidence, 32)
    && Spells(bs, o + 58, s.benchmark, 4)
  }

  lemma SealAt(bs: Bytes, o: nat, s: PowerSeal, t: Bytes)
    requires From(bs, o, PutSeal(s, t))
    ensures HoldsSeal(bs, o, s) && From(bs, o + 62, t)
  {
    var t6 := PutU32(s.benchmark, t);
    var t5 := PutHash(s.attestationEvidence, t6);
    var t4 := PutU64(s.tMaxMillikelvin, t5);
    var t3 := PutU64(s.windowMillis, t4);
    var t2 := PutU64(s.powerCapMilliwatts, t3);
    var t1 := Put1(BoundaryTag(s.boundary), t2);
    TagAt(bs, o, GradeTag(s.sealGrade), t1);
    TagAt(bs, o + 1, BoundaryTag(s.boundary), t2);
    U64At(bs, o + 2, s.powerCapMilliwatts, t3);
    U64At(bs, o + 10, s.windowMillis, t4);
    U64At(bs, o + 18, s.tMaxMillikelvin, t5);
    HashAt(bs, o + 26, s.attestationEvidence, t6);
    U32At(bs, o + 58, s.benchmark, t);
  }

  predicate HoldsSealOption(bs: Bytes, o: nat, s: Option<PowerSeal>) {
    && o < |bs|
    && bs[o] == (if s.None? then 0 else 1)
    && (s.Some? ==> HoldsSeal(bs, o + 1, s.value))
  }

  function TierDataSize(d: TierData): nat {
    match d
    case ReexecData => 1
    case TeeData(b) => 5 + |b|
    case ZkData(b) => 5 + |b|
  }

  predicate HoldsTierData(bs: Bytes, o: nat, d: TierData) {
    && o < |bs|
    && match d
       case ReexecData => bs[o] == 0
       case TeeData(b) => bs[o] == 1 && HoldsBlob(bs, o + 1, b)
       case ZkData(b) => bs[o] == 2 && HoldsBlob(bs, o + 1, b)
  }

  lemma TierDataAt(bs: Bytes, o: nat, d: TierData, t: Bytes)
    requires From(bs, o, PutTierData(d, t))
    ensures HoldsTierData(bs, o, d) && From(bs, o + TierDataSize(d), t)
  {
    match d
    case ReexecData => TagAt(bs, o, 0, t);
    case TeeData(b) =>
      TagAt(bs, o, 1, PutBlob(b, t));
      BlobAt(bs, o + 1, b, t);
    case ZkData(b) =>
      TagAt(bs, o, 2, PutBlob(b, t));
      BlobAt(bs, o + 1, b, t);
  }

  lemma SealOptionAt(bs: Bytes, o: nat, s: Option<PowerSeal>, t: Bytes)
    requires From(bs, o, PutSealOption(s, t))
    ensures HoldsSealOption(bs, o, s) && From(bs, o + 1 + (if s.Some? then 62 else 0), t)
  {
    match s
    case None => TagAt(bs, o, 0, t);
    case Some(seal) =>
      TagAt(bs, o, 1, PutSeal(seal, t));
      SealAt(bs, o + 1, seal, t);
  }

  lemma ProofLayout(p: ComputeProof, k: Bytes)
    ensures var bs, o := PutProof(p, k), 148 + TierDataSize(p.tierData);
            && Spells(bs, 0, p.task, 32) && Spells(bs, 32, p.provider, 32)
            && Spells(bs, 64, p.output, 32) && Spells(bs, 96, p.resultHash, 32)
            && Spells(bs, 128, p.ucuCount, 16) && Spells(bs, 144, p.benchmark, 4)
            && HoldsTierData(bs, 148, p.tierData)
            && HoldsSealOption(bs, o, p.powerSeal)
            && From(bs, o + 1 + (if p.powerSeal.Some? then 62 else 0), k)
  {
    var bs, o := PutProof(p, k), 148 + TierDataSize(p.tierData);
    var t7 := PutSealOption(p.powerSeal, k);
    var t6 := PutTierData(p.tierData, t7);
    var t5 := PutU32(p.benchmark, t6);
    var t4 := PutU128(p.ucuCount, t5);
    var t3 := PutHash(p.resultHash, t4);
    var t2 := PutHash(p.output, t3);
    var t1 := PutHash(p.provider, t2);
    assert From(bs, 0, PutHash(p.task, t1));
    HashAt(bs, 0, p.task, t1);
    HashAt(bs, 32, p.provider, t2);
    HashAt(bs, 64, p.output, t3);
    HashAt(bs, 96, p.resultHash, t4);
    U128At(bs, 128, p.ucuCount, t5);
    U32At(bs, 144, p.benchmark, t6);
    TierDataAt(bs, 148, p.tierData, t7);
    SealOptionAt(bs, o, p.powerSeal, k);
  }

  /** After its tag a transaction is its task body or proof, or an identifier and, but for a claim, an
      amount. */
  lemma TxLayout(t: Tx, k: Bytes)
    ensures var bs := PutTx(t, k);
            match t
            case SubmitTask(body) => From(bs, 1, PutTaskBody(body, k))
            case SubmitProof(proof) => From(bs, 1, PutProof(proof, k))
            case ClaimTask(task) => Spells(bs, 1, task, 32) && From(bs, 33, k)
            case Challenge(task, bond) => Spells(bs, 1, task, 32) && Spells(bs, 33, bond, 16) && From(bs, 49, k)
            case Transfer(to, amount) => Spells(bs, 1, to, 32) && Spells(bs, 33, amount, 16) && From(bs, 49, k)
  {
    var bs := PutTx(t, k);
    assert From(bs, 0, Put1(TxTag(t), PutPayload(t, k)));
    TagAt(bs, 0, TxTag(t), PutPayload(t, k));
    match t
    case SubmitTask(body) =>
    case SubmitProof(proof) =>
    case ClaimTask(task) => HashAt(bs, 1, task, k);
    case Challenge(task, bond) =>
      HashAt(bs, 1, task, PutU128(bond, k));
      U128At(bs, 33, bond, k);
    case Transfer(to, amount) =>
      HashAt(bs, 1, to, PutU128(amount, k));
      U128At(bs, 33, amount, k);
  }

  lemma AuthorAndMessage(bs: Bytes, author: Hash, m: Bytes, e: Bytes)
    requires bs == PutHash(author, m + e)
    ensures Spells(bs, 0, author, 32)
    ensures 32 + |m| <= |bs| && bs[32..32 + |m|] == m && From(bs, 32 + |m|, e)
  {
    HashAt(bs, 0, author, m + e);
    BytesAt(bs, 32, m, e);
  }

  /** A signed transaction is the author, the transaction, the nonce and the 64 bytes of the signature. */
  lemma SignedTxLayout(s: SignedTx, k: Bytes)
    ensures var bs, n := PutSignedTx(s, k), |PutTx(s.tx, [])|;
            && Spells(bs, 0, s.author, 32)
            && 104 + n <= |bs| && bs[32..32 + n] == PutTx(s.tx, [])
            && Spells(bs, 32 + n, s.nonce, 8)
            && bs[40 + n..104 + n] == s.sig
            && From(bs, 104 + n, k)
  {
    TxAppend(s.tx, PutU64(s.nonce, PutSignature(s.sig, k)));
    SignedPieces(PutSignedTx(s, k), s.author, PutTx(s.tx, []), s.nonce, s.sig, k);
  }

  lemma SignedPieces(bs: Bytes, author: Hash, m: Bytes, nonce: u64, sig: Signature, k: Bytes)
    requires bs == PutHash(author, m + PutU64(nonce, PutSignature(sig, k)))
    ensures Spells(bs, 0, author, 32)
    ensures 104 + |m| <= |bs| && bs[32..32 + |m|] == m
    ensures Spells(bs, 32 + |m|, nonce, 8) && bs[40 + |m|..104 + |m|] == sig && From(bs, 104 + |m|, k)
  {
    AuthorAndMessage(bs, author, m, PutU64(nonce, PutSignature(sig, k)));
    NonceAndSignature(bs, 32 + |m|, nonce, sig, k);
  }

  lemma NonceAndSignature(bs: Bytes, o: nat, nonce: u64, sig: Signature, k: Bytes)
    requires From(bs, o, PutU64(nonce, PutSignature(sig, k)))
    ensures Spells(bs, o, nonce, 8) && o + 72 <= |bs| && bs[o + 8..o + 72] == sig && From(bs, o + 72, k)
  {
    U64At(bs, o, nonce, PutSignature(sig, k));
    BytesAt(bs, o + 8, sig, k);
  }

  /** The signed message is the author, the transaction and the nonce, and nothing else. */
  lemma PayloadLayout(author: Identity, tx: Tx, nonce: u64)
    ensures var bs, n := SigningPayload(author, tx, nonce), |PutTx(tx, [])|;
            && |bs| == 40 + n
            && Spells(bs, 0, author, 32)
            && bs[32..32 + n] == PutTx(tx, [])
            && Spells(bs, 32 + n, nonce, 8)
  {
    var a, m, e := PutHash(author, []), PutTx(tx, []), PutU64(nonce, []);
    var bs := SigningPayload(author, tx, nonce);
    BytesAppend(a, m, e);
    HashInFront(author, m + e);
    AuthorAndMessage(bs, author, m, e);
    U64At(bs, 32 + |m|, nonce, []);
  }

  lemma {:induction false} HashesAt(bs: Bytes, o: nat, hs: seq<Hash>, t: Bytes)
    requires From(bs, o, PutHashes(hs, t))
    ensures From(bs, o + 32 * |hs|, t)
    ensures forall i :: 0 <= i < |hs| ==> Spells(bs, o + 32 * i, hs[i], 32)
    decreases |hs|
  {
    if hs != [] {
      HashAt(bs, o, hs[0], PutHashes(hs[1..], t));
      HashesAt(bs, o + 32, hs[1..], t);
      forall i | 0 <= i < |hs|
        ensures Spells(bs, o + 32 * i, hs[i], 32)
      {
        if i > 0 {
          assert Spells(bs, o + 32 + 32 * (i - 1), hs[1..][i - 1], 32);
        }
      }
    }
  }

  lemma BlockLayout(b: Block, k: Bytes)
    ensures var bs, o := PutBlock(b, k), 52 + 32 * |b.txs|;
            && Spells(bs, 0, b.height, 8) && Spells(bs, 8, b.parent, 32) && Spells(bs, 40, b.epoch, 8)
            && Spells(bs, 48, |b.txs|, 4)
            && (forall i :: 0 <= i < |b.txs| ==> Spells(bs, 52 + 32 * i, b.txs[i], 32))
            && Spells(bs, o, b.stateRoot, 32) && Spells(bs, o + 32, b.proposer, 32)
            && From(bs, o + 64, k)
  {
    var bs, o := PutBlock(b, k), 52 + 32 * |b.txs|;
    var t6 := PutHash(b.proposer, k);
    var t5 := PutHash(b.stateRoot, t6);
    var t4 := PutHashes(b.txs, t5);
    var t3 := PutInt(|b.txs|, 4, t4);
    var t2 := PutInt(b.epoch, 8, t3);
    var t1 := PutHash(b.parent, t2);
    assert From(bs, 0, PutInt(b.height, 8, t1));
    IntAt(bs, 0, b.height, 8, t1);
    HashAt(bs, 8, b.parent, t2);
    IntAt(bs, 40, b.epoch, 8, t3);
    IntAt(bs, 48, |b.txs|, 4, t4);
    HashesAt(bs, 52, b.txs, t5);
    HashAt(bs, o, b.stateRoot, t6);
    HashAt(bs, o + 32, b.proposer, k);
  }
}
