/** The canonical byte layout: fields in declaration order, integers little endian, one tag byte
    per enum or option, a `u32` length before every vector.

    A writer `PutX(x, k)` puts the encoding of `x` in front of the bytes `k`; the encoding itself
    is `PutX(x, [])`. A reader `GetX` takes one value off the front of its input. The lemma
    `XRoundTrip` says that reading undoes writing with nothing left over, `XAppend` that the bytes
    written do not depend on what follows them. `CanonicalX` is the other direction: whatever a
    reader accepts is exactly what the writer produces, so every value has one encoding. */
module Codec {
  import opened Types

  type Bytes = seq<u8>

  // ---- integers ----

  function Pow256(w: nat): (r: nat)
    ensures r > 0
  {
    if w == 0 then 1 else 256 * Pow256(w - 1)
  }

  function PutInt(n: int, w: nat, k: Bytes): Bytes
    decreases w, n
  {
    if w == 0 then k else [n % 256] + PutInt(n / 256, w - 1, k)
  }

  function GetInt(w: nat, bs: Bytes): (r: Option<(nat, Bytes)>)
    ensures r.Some? ==> r.value.0 < Pow256(w)
    decreases w, bs
  {
    if w == 0 then Some((0, bs))
    else if bs == [] then None
    else
      var (hi, rest) :- GetInt(w - 1, bs[1..]);
      Some((bs[0] + 256 * hi, rest))
  }

  lemma {:induction false} IntRoundTrip(n: int, w: nat, k: Bytes)
    requires 0 <= n < Pow256(w)
    ensures GetInt(w, PutInt(n, w, k)) == Some((n, k))
    decreases w
  {
    if w > 0 {
      IntRoundTrip(n / 256, w - 1, k);
      assert PutInt(n, w, k)[1..] == PutInt(n / 256, w - 1, k);
    }
  }

  lemma {:induction false} IntAppend(n: int, w: nat, t: Bytes, k: Bytes)
    ensures PutInt(n, w, t + k) == PutInt(n, w, t) + k
    decreases w
  {
    if w > 0 {
      IntAppend(n / 256, w - 1, t, k);
    }
  }

  lemma {:induction false} CanonicalInt(w: nat, bs: Bytes)
    requires GetInt(w, bs).Some?
    ensures var (n, rest) := GetInt(w, bs).value; PutInt(n, w, rest) == bs
    decreases w
  {
    if w > 0 {
      CanonicalInt(w - 1, bs[1..]);
    }
  }

  lemma Widths()
    ensures Pow256(4) == TWO_32
    ensures Pow256(8) == TWO_64
    ensures Pow256(16) == TWO_128
    ensures Pow256(32) == TWO_256
  {
    assert Pow256(2) == 256 * Pow256(1);
    assert Pow256(4) == 256 * 256 * Pow256(2);
    assert Pow256(6) == 256 * 256 * Pow256(4);
    assert Pow256(8) == 256 * 256 * Pow256(6);
    assert Pow256(10) == 256 * 256 * Pow256(8);
    assert Pow256(12) == 256 * 256 * Pow256(10);
    assert Pow256(14) == 256 * 256 * Pow256(12);
    assert Pow256(16) == 256 * 256 * Pow256(14);
    assert Pow256(18) == 256 * 256 * Pow256(16);
    assert Pow256(20) == 256 * 256 * Pow256(18);
    assert Pow256(22) == 256 * 256 * Pow256(20);
    assert Pow256(24) == 256 * 256 * Pow256(22);
    assert Pow256(26) == 256 * 256 * Pow256(24);
    assert Pow256(28) == 256 * 256 * Pow256(26);
    assert Pow256(30) == 256 * 256 * Pow256(28);
    assert Pow256(32) == 256 * 256 * Pow256(30);
  }

  function PutU32(n: u32, k: Bytes): Bytes {
    PutInt(n, 4, k)
  }

  function GetU32(bs: Bytes): Option<(u32, Bytes)> {
    var (n, rest) :- GetInt(4, bs);
    Widths();
    Some((n, rest))
  }

  function PutU64(n: u64, k: Bytes): Bytes {
    PutInt(n, 8, k)
  }

  function GetU64(bs: Bytes): Option<(u64, Bytes)> {
    var (n, rest) :- GetInt(8, bs);
    Widths();
    Some((n, rest))
  }

  function PutU128(n: u128, k: Bytes): Bytes {
    PutInt(n, 16, k)
  }

  function GetU128(bs: Bytes): Option<(u128, Bytes)> {
    var (n, rest) :- GetInt(16, bs);
    Widths();
    Some((n, rest))
  }

  lemma U32RoundTrip(n: u32, k: Bytes)
    ensures GetU32(PutU32(n, k)) == Some((n, k))
  {
    Widths();
    IntRoundTrip(n, 4, k);
  }

  lemma U32Append(n: u32, t: Bytes, k: Bytes)
    ensures PutU32(n, t + k) == PutU32(n, t) + k
  {
    IntAppend(n, 4, t, k);
  }

  lemma U64RoundTrip(n: u64, k: Bytes)
    ensures GetU64(PutU64(n, k)) == Some((n, k))
  {
    Widths();
    IntRoundTrip(n, 8, k);
  }

  lemma U64Append(n: u64, t: Bytes, k: Bytes)
    ensures PutU64(n, t + k) == PutU64(n, t) + k
  {
    IntAppend(n, 8, t, k);
  }

  lemma U128RoundTrip(n: u128, k: Bytes)
    ensures GetU128(PutU128(n, k)) == Some((n, k))
  {
    Widths();
    IntRoundTrip(n, 16, k);
  }

  lemma U128Append(n: u128, t: Bytes, k: Bytes)
    ensures PutU128(n, t + k) == PutU128(n, t) + k
  {
    IntAppend(n, 16, t, k);
  }

  // ---- byte strings ----

  /** An identifier that is the reading of 32 bytes. */
  predicate HashFits(h: Hash) {
    0 <= h < TWO_256
  }

  function PutHash(h: Hash, k: Bytes): Bytes {
    PutInt(h, 32, k)
  }

  function GetHash(bs: Bytes): Option<(Hash, Bytes)> {
    GetInt(32, bs)
  }

  function PutSignature(g: Signature, k: Bytes): Bytes {
    g + k
  }

  function GetSignature(bs: Bytes): Option<(Signature, Bytes)> {
    if |bs| < 64 then None else Some((bs[..64], bs[64..]))
  }

  function PutBlob(b: Blob, k: Bytes): Bytes {
    PutU32(|b|, b + k)
  }

  function GetBlob(bs: Bytes): Option<(Blob, Bytes)> {
    var (n, rest) :- GetU32(bs);
    if |rest| < n then None else Some((rest[..n], rest[n..]))
  }

  lemma HashRoundTrip(h: Hash, k: Bytes)
    requires HashFits(h)
    ensures GetHash(PutHash(h, k)) == Some((h, k))
  {
    Widths();
    IntRoundTrip(h, 32, k);
  }

  lemma HashAppend(h: Hash, t: Bytes, k: Bytes)
    ensures PutHash(h, t + k) == PutHash(h, t) + k
  {
    IntAppend(h, 32, t, k);
  }

  lemma SignatureRoundTrip(g: Signature, k: Bytes)
    ensures GetSignature(PutSignature(g, k)) == Some((g, k))
  {
    assert (g + k)[..64] == g && (g + k)[64..] == k;
  }

  lemma BlobRoundTrip(b: Blob, k: Bytes)
    ensures GetBlob(PutBlob(b, k)) == Some((b, k))
  {
    assert (b + k)[..|b|] == b && (b + k)[|b|..] == k;
    U32RoundTrip(|b|, b + k);
  }

  lemma BytesAppend(a: Bytes, t: Bytes, k: Bytes)
    ensures a + (t + k) == (a + t) + k
  {
  }

  lemma BlobAppend(b: Blob, t: Bytes, k: Bytes)
    ensures PutBlob(b, t + k) == PutBlob(b, t) + k
  {
    BytesAppend(b, t, k);
    U32Append(|b|, b + t, k);
  }

  lemma CanonicalU32(bs: Bytes)
    requires GetU32(bs).Some?
    ensures var (n, rest) := GetU32(bs).value; PutU32(n, rest) == bs
  {
    CanonicalInt(4, bs);
  }

  lemma CanonicalU64(bs: Bytes)
    requires GetU64(bs).Some?
    ensures var (n, rest) := GetU64(bs).value; PutU64(n, rest) == bs
  {
    CanonicalInt(8, bs);
  }

  lemma CanonicalU128(bs: Bytes)
    requires GetU128(bs).Some?
    ensures var (n, rest) := GetU128(bs).value; PutU128(n, rest) == bs
  {
    CanonicalInt(16, bs);
  }

  lemma CanonicalHash(bs: Bytes)
    requires GetHash(bs).Some?
    ensures var (h, rest) := GetHash(bs).value; HashFits(h) && PutHash(h, rest) == bs
  {
    Widths();
    CanonicalInt(32, bs);
  }

  lemma CanonicalBlob(bs: Bytes)
    requires GetBlob(bs).Some?
    ensures var (b, rest) := GetBlob(bs).value; PutBlob(b, rest) == bs
  {
    CanonicalU32(bs);
    var (n, rest) := GetU32(bs).value;
    assert rest[..n] + rest[n..] == rest;
  }

  // ---- tag bytes ----

  function Put1(tag: u8, k: Bytes): Bytes {
    [tag] + k
  }

  function Get1(bs: Bytes): Option<(u8, Bytes)> {
    if bs == [] then None else Some((bs[0], bs[1..]))
  }

  lemma ByteRoundTrip(tag: u8, k: Bytes)
    ensures Get1(Put1(tag, k)) == Some((tag, k))
  {
    assert ([tag] + k)[1..] == k;
  }

  lemma Canonical1(bs: Bytes)
    requires Get1(bs).Some?
    ensures var (tag, rest) := Get1(bs).value; Put1(tag, rest) == bs
  {
  }

  function TierTag(t: VerificationTier): u8 {
    match t case SampledReexec => 0 case Tee => 1 case Zk => 2
  }

  function TierOf(tag: u8): Option<VerificationTier> {
    if tag == 0 then Some(SampledReexec) else if tag == 1 then Some(Tee) else if tag == 2 then Some(Zk) else None
  }

  function GradeTag(g: SealGrade): u8 {
    match g case S0Identity => 0 case S1Witnessed => 1 case S2Locked => 2
  }

  function GradeOf(tag: u8): Option<SealGrade> {
    if tag == 0 then Some(S0Identity)
    else if tag == 1 then Some(S1Witnessed)
    else if tag == 2 then Some(S2Locked)
    else None
  }

  function BoundaryTag(b: Boundary): u8 {
    match b case Chip => 0 case Node => 1 case Facility => 2
  }

  function BoundaryOf(tag: u8): Option<Boundary> {
    if tag == 0 then Some(Chip) else if tag == 1 then Some(Node) else if tag == 2 then Some(Facility) else None
  }

  function PutPolicy(f: FailurePolicy, k: Bytes): Bytes {
    match f
    case AutoRequeue => Put1(0, k)
    case ReturnOnFailure => Put1(1, k)
    case RetryThenReturn(retries) => Put1(2, Put1(retries, k))
  }

  function GetPolicy(bs: Bytes): Option<(FailurePolicy, Bytes)> {
    var (tag, rest) :- Get1(bs);
    if tag == 0 then Some((AutoRequeue, rest))
    else if tag == 1 then Some((ReturnOnFailure, rest))
    else if tag == 2 then
      var (retries, rest) :- Get1(rest);
      Some((RetryThenReturn(retries), rest))
    else None
  }

  lemma PolicyRoundTrip(f: FailurePolicy, k: Bytes)
    ensures GetPolicy(PutPolicy(f, k)) == Some((f, k))
  {
    match f
    case AutoRequeue => ByteRoundTrip(0, k);
    case ReturnOnFailure => ByteRoundTrip(1, k);
    case RetryThenReturn(retries) =>
      ByteRoundTrip(retries, k);
      ByteRoundTrip(2, Put1(retries, k));
  }

  lemma PolicyAppend(f: FailurePolicy, t: Bytes, k: Bytes)
    ensures PutPolicy(f, t + k) == PutPolicy(f, t) + k
  {
    match f
    case AutoRequeue => BytesAppend([0], t, k);
    case ReturnOnFailure => BytesAppend([1], t, k);
    case RetryThenReturn(retries) =>
      BytesAppend([retries], t, k);
      BytesAppend([2], Put1(retries, t), k);
  }

  lemma CanonicalPolicy(bs: Bytes)
    requires GetPolicy(bs).Some?
    ensures var (f, rest) := GetPolicy(bs).value; PutPolicy(f, rest) == bs
  {
    Canonical1(bs);
    var (tag, rest) := Get1(bs).value;
    if tag == 2 {
      Canonical1(rest);
    }
  }

  // ---- task bodies ----

  predicate TaskBodyFits(b: TaskBody) {
    HashFits(b.program) && HashFits(b.input)
  }

  function PutTaskBody(b: TaskBody, k: Bytes): Bytes {
    Put1(0,
      PutHash(b.program,
        PutHash(b.input,
          PutU128(b.limits.maxUcu,
            PutU64(b.limits.maxMemoryBytes,
              Put1(TierTag(b.tier),
                PutU32(b.benchmark,
                  PutU64(b.deadline,
                    PutPolicy(b.failurePolicy,
                      PutU64(b.nonce, k))))))))))
  }

  function GetTaskBody(bs: Bytes): Option<(TaskBody, Bytes)> {
    var (ir, bs) :- Get1(bs);
    var (program, bs) :- GetHash(bs);
    var (input, bs) :- GetHash(bs);
    var (maxUcu, bs) :- GetU128(bs);
    var (maxMemoryBytes, bs) :- GetU64(bs);
    var (tierTag, bs) :- Get1(bs);
    var tier :- TierOf(tierTag);
    var (benchmark, bs) :- GetU32(bs);
    var (deadline, bs) :- GetU64(bs);
    var (policy, bs) :- GetPolicy(bs);
    var (nonce, bs) :- GetU64(bs);
    if ir != 0 then None
    else Some((TaskBody(Wasm, program, input, Limits(maxUcu, maxMemoryBytes), tier, benchmark, deadline, policy,
      nonce), bs))
  }

  lemma TaskBodyRoundTrip(b: TaskBody, k: Bytes)
    requires TaskBodyFits(b)
    ensures GetTaskBody(PutTaskBody(b, k)) == Some((b, k))
  {
    U64RoundTrip(b.nonce, k);
    var t := PutU64(b.nonce, k);
    PolicyRoundTrip(b.failurePolicy, t);
    t := PutPolicy(b.failurePolicy, t);
    U64RoundTrip(b.deadline, t);
    t := PutU64(b.deadline, t);
    U32RoundTrip(b.benchmark, t);
    t := PutU32(b.benchmark, t);
    ByteRoundTrip(TierTag(b.tier), t);
    t := Put1(TierTag(b.tier), t);
    U64RoundTrip(b.limits.maxMemoryBytes, t);
    t := PutU64(b.limits.maxMemoryBytes, t);
    U128RoundTrip(b.limits.maxUcu, t);
    t := PutU128(b.limits.maxUcu, t);
    HashRoundTrip(b.input, t);
    t := PutHash(b.input, t);
    HashRoundTrip(b.program, t);
    ByteRoundTrip(0, PutHash(b.program, t));
    assert b.ir == Wasm by {
      match b.ir case Wasm =>
    }
  }

  lemma TaskBodyAppend(b: TaskBody, k: Bytes)
    ensures PutTaskBody(b, k) == PutTaskBody(b, []) + k
  {
    U64Append(b.nonce, [], k);
    var t := PutU64(b.nonce, []);
    PolicyAppend(b.failurePolicy, t, k);
    t := PutPolicy(b.failurePolicy, t);
    U64Append(b.deadline, t, k);
    t := PutU64(b.deadline, t);
    U32Append(b.benchmark, t, k);
    t := PutU32(b.benchmark, t);
    BytesAppend([TierTag(b.tier)], t, k);
    t := Put1(TierTag(b.tier), t);
    U64Append(b.limits.maxMemoryBytes, t, k);
    t := PutU64(b.limits.maxMemoryBytes, t);
    U128Append(b.limits.maxUcu, t, k);
    t := PutU128(b.limits.maxUcu, t);
    HashAppend(b.input, t, k);
    t := PutHash(b.input, t);
    HashAppend(b.program, t, k);
    BytesAppend([0], PutHash(b.program, t), k);
    assert [] + k == k;
  }

  lemma CanonicalTaskBody(b0: Bytes)
    requires GetTaskBody(b0).Some?
    ensures var (body, rest) := GetTaskBody(b0).value; TaskBodyFits(body) && PutTaskBody(body, rest) == b0
  {
    Canonical1(b0);
    var b1 := Get1(b0).value.1;
    CanonicalHash(b1);
    var b2 := GetHash(b1).value.1;
    CanonicalHash(b2);
    var b3 := GetHash(b2).value.1;
    CanonicalU128(b3);
    var b4 := GetU128(b3).value.1;
    CanonicalU64(b4);
    var b5 := GetU64(b4).value.1;
    Canonical1(b5);
    var b6 := Get1(b5).value.1;
    CanonicalU32(b6);
    var b7 := GetU32(b6).value.1;
    CanonicalU64(b7);
    var b8 := GetU64(b7).value.1;
    CanonicalPolicy(b8);
    CanonicalU64(GetPolicy(b8).value.1);
  }

  // ---- proofs ----

  function PutSeal(s: PowerSeal, k: Bytes): Bytes {
    Put1(GradeTag(s.sealGrade),
      Put1(BoundaryTag(s.boundary),
        PutU64(s.powerCapMilliwatts,
          PutU64(s.windowMillis,
            PutU64(s.tMaxMillikelvin,
              PutHash(s.attestationEvidence,
                PutU32(s.benchmark, k)))))))
  }

  function GetSeal(bs: Bytes): Option<(PowerSeal, Bytes)> {
    var (gradeTag, bs) :- Get1(bs);
    var grade :- GradeOf(gradeTag);
    var (boundaryTag, bs) :- Get1(bs);
    var boundary :- BoundaryOf(boundaryTag);
    var (cap, bs) :- GetU64(bs);
    var (window, bs) :- GetU64(bs);
    var (tMax, bs) :- GetU64(bs);
    var (evidence, bs) :- GetHash(bs);
    var (benchmark, bs) :- GetU32(bs);
    Some((PowerSeal(grade, boundary, cap, window, tMax, evidence, benchmark), bs))
  }

  lemma SealRoundTrip(s: PowerSeal, k: Bytes)
    requires HashFits(s.attestationEvidence)
    ensures GetSeal(PutSeal(s, k)) == Some((s, k))
  {
    U32RoundTrip(s.benchmark, k);
    var t := PutU32(s.benchmark, k);
    HashRoundTrip(s.attestationEvidence, t);
    t := PutHash(s.attestationEvidence, t);
    U64RoundTrip(s.tMaxMillikelvin, t);
    t := PutU64(s.tMaxMillikelvin, t);
    U64RoundTrip(s.windowMillis, t);
    t := PutU64(s.windowMillis, t);
    U64RoundTrip(s.powerCapMilliwatts, t);
    t := PutU64(s.powerCapMilliwatts, t);
    ByteRoundTrip(BoundaryTag(s.boundary), t);
    ByteRoundTrip(GradeTag(s.sealGrade), Put1(BoundaryTag(s.boundary), t));
  }

  lemma SealAppend(s: PowerSeal, t0: Bytes, k: Bytes)
    ensures PutSeal(s, t0 + k) == PutSeal(s, t0) + k
  {
    U32Append(s.benchmark, t0, k);
    var t := PutU32(s.benchmark, t0);
    HashAppend(s.attestationEvidence, t, k);
    t := PutHash(s.attestationEvidence, t);
    U64Append(s.tMaxMillikelvin, t, k);
    t := PutU64(s.tMaxMillikelvin, t);
    U64Append(s.windowMillis, t, k);
    t := PutU64(s.windowMillis, t);
    U64Append(s.powerCapMilliwatts, t, k);
    t := PutU64(s.powerCapMilliwatts, t);
    BytesAppend([BoundaryTag(s.boundary)], t, k);
    BytesAppend([GradeTag(s.sealGrade)], Put1(BoundaryTag(s.boundary), t), k);
  }

  lemma CanonicalSeal(b0: Bytes)
    requires GetSeal(b0).Some?
    ensures var (s, rest) := GetSeal(b0).value; HashFits(s.attestationEvidence) && PutSeal(s, rest) == b0
  {
    Canonical1(b0);
    var b1 := Get1(b0).value.1;
    Canonical1(b1);
    var b2 := Get1(b1).value.1;
    CanonicalU64(b2);
    var b3 := GetU64(b2).value.1;
    CanonicalU64(b3);
    var b4 := GetU64(b3).value.1;
    CanonicalU64(b4);
    var b5 := GetU64(b4).value.1;
    CanonicalHash(b5);
    CanonicalU32(GetHash(b5).value.1);
  }

  function PutSealOption(o: Option<PowerSeal>, k: Bytes): Bytes {
    match o
    case None => Put1(0, k)
    case Some(s) => Put1(1, PutSeal(s, k))
  }

  function GetSealOption(bs: Bytes): Option<(Option<PowerSeal>, Bytes)> {
    var (tag, rest) :- Get1(bs);
    if tag == 0 then Some((None, rest))
    else if tag == 1 then
      var (s, rest) :- GetSeal(rest);
      Some((Some(s), rest))
    else None
  }

  predicate SealFits(o: Option<PowerSeal>) {
    o.Some? ==> HashFits(o.value.attestationEvidence)
  }

  lemma SealOptionRoundTrip(o: Option<PowerSeal>, k: Bytes)
    requires SealFits(o)
    ensures GetSealOption(PutSealOption(o, k)) == Some((o, k))
  {
    match o
    case None => ByteRoundTrip(0, k);
    case Some(s) =>
      SealRoundTrip(s, k);
      ByteRoundTrip(1, PutSeal(s, k));
  }

  lemma SealOptionAppend(o: Option<PowerSeal>, t: Bytes, k: Bytes)
    ensures PutSealOption(o, t + k) == PutSealOption(o, t) + k
  {
    match o
    case None => BytesAppend([0], t, k);
    case Some(s) =>
      SealAppend(s, t, k);
      BytesAppend([1], PutSeal(s, t), k);
  }

  lemma CanonicalSealOption(bs: Bytes)
    requires GetSealOption(bs).Some?
    ensures var (o, rest) := GetSealOption(bs).value; SealFits(o) && PutSealOption(o, rest) == bs
  {
    Canonical1(bs);
    var (tag, rest) := Get1(bs).value;
    if tag == 1 {
      CanonicalSeal(rest);
    }
  }

  function PutTierData(d: TierData, k: Bytes): Bytes {
    match d
    case ReexecData => Put1(0, k)
    case TeeData(attestation) => Put1(1, PutBlob(attestation, k))
    case ZkData(proof) => Put1(2, PutBlob(proof, k))
  }

  function GetTierData(bs: Bytes): Option<(TierData, Bytes)> {
    var (tag, rest) :- Get1(bs);
    if tag == 0 then Some((ReexecData, rest))
    else if tag == 1 then
      var (b, rest) :- GetBlob(rest);
      Some((TeeData(b), rest))
    else if tag == 2 then
      var (b, rest) :- GetBlob(rest);
      Some((ZkData(b), rest))
    else None
  }

  lemma TierDataRoundTrip(d: TierData, k: Bytes)
    ensures GetTierData(PutTierData(d, k)) == Some((d, k))
  {
    match d
    case ReexecData => ByteRoundTrip(0, k);
    case TeeData(b) =>
      BlobRoundTrip(b, k);
      ByteRoundTrip(1, PutBlob(b, k));
    case ZkData(b) =>
      BlobRoundTrip(b, k);
      ByteRoundTrip(2, PutBlob(b, k));
  }

  lemma TierDataAppend(d: TierData, t: Bytes, k: Bytes)
    ensures PutTierData(d, t + k) == PutTierData(d, t) + k
  {
    match d
    case ReexecData => BytesAppend([0], t, k);
    case TeeData(b) =>
      BlobAppend(b, t, k);
      BytesAppend([1], PutBlob(b, t), k);
    case ZkData(b) =>
      BlobAppend(b, t, k);
      BytesAppend([2], PutBlob(b, t), k);
  }

  lemma CanonicalTierData(bs: Bytes)
    requires GetTierData(bs).Some?
    ensures var (d, rest) := GetTierData(bs).value; PutTierData(d, rest) == bs
  {
    Canonical1(bs);
    var (tag, rest) := Get1(bs).value;
    if tag != 0 {
      CanonicalBlob(rest);
    }
  }

  predicate ProofFits(p: ComputeProof) {
    HashFits(p.task) && HashFits(p.provider) && HashFits(p.output) && HashFits(p.resultHash) && SealFits(p.powerSeal)
  }

  function PutProof(p: ComputeProof, k: Bytes): Bytes {
    PutHash(p.task,
      PutHash(p.provider,
        PutHash(p.output,
          PutHash(p.resultHash,
            PutU128(p.ucuCount,
              PutU32(p.benchmark,
                PutTierData(p.tierData,
                  PutSealOption(p.powerSeal, k))))))))
  }

  function GetProof(bs: Bytes): Option<(ComputeProof, Bytes)> {
    var (task, bs) :- GetHash(bs);
    var (provider, bs) :- GetHash(bs);
    var (output, bs) :- GetHash(bs);
    var (resultHash, bs) :- GetHash(bs);
    var (ucuCount, bs) :- GetU128(bs);
    var (benchmark, bs) :- GetU32(bs);
    var (tierData, bs) :- GetTierData(bs);
    var (powerSeal, bs) :- GetSealOption(bs);
    Some((ComputeProof(task, provider, output, resultHash, ucuCount, benchmark, tierData, powerSeal), bs))
  }

  lemma ProofRoundTrip(p: ComputeProof, k: Bytes)
    requires ProofFits(p)
    ensures GetProof(PutProof(p, k)) == Some((p, k))
  {
    SealOptionRoundTrip(p.powerSeal, k);
    var t := PutSealOption(p.powerSeal, k);
    TierDataRoundTrip(p.tierData, t);
    t := PutTierData(p.tierData, t);
    U32RoundTrip(p.benchmark, t);
    t := PutU32(p.benchmark, t);
    U128RoundTrip(p.ucuCount, t);
    t := PutU128(p.ucuCount, t);
    HashRoundTrip(p.resultHash, t);
    t := PutHash(p.resultHash, t);
    HashRoundTrip(p.output, t);
    t := PutHash(p.output, t);
    HashRoundTrip(p.provider, t);
    HashRoundTrip(p.task, PutHash(p.provider, t));
  }

  lemma ProofAppend(p: ComputeProof, k: Bytes)
    ensures PutProof(p, k) == PutProof(p, []) + k
  {
    SealOptionAppend(p.powerSeal, [], k);
    var t := PutSealOption(p.powerSeal, []);
    TierDataAppend(p.tierData, t, k);
    t := PutTierData(p.tierData, t);
    U32Append(p.benchmark, t, k);
    t := PutU32(p.benchmark, t);
    U128Append(p.ucuCount, t, k);
    t := PutU128(p.ucuCount, t);
    HashAppend(p.resultHash, t, k);
    t := PutHash(p.resultHash, t);
    HashAppend(p.output, t, k);
    t := PutHash(p.output, t);
    HashAppend(p.provider, t, k);
    HashAppend(p.task, PutHash(p.provider, t), k);
    assert [] + k == k;
  }

  lemma CanonicalProof(b0: Bytes)
    requires GetProof(b0).Some?
    ensures var (p, rest) := GetProof(b0).value; ProofFits(p) && PutProof(p, rest) == b0
  {
    CanonicalHash(b0);
    var b1 := GetHash(b0).value.1;
    CanonicalHash(b1);
    var b2 := GetHash(b1).value.1;
    CanonicalHash(b2);
    var b3 := GetHash(b2).value.1;
    CanonicalHash(b3);
    var b4 := GetHash(b3).value.1;
    CanonicalU128(b4);
    var b5 := GetU128(b4).value.1;
    CanonicalU32(b5);
    var b6 := GetU32(b5).value.1;
    CanonicalTierData(b6);
    CanonicalSealOption(GetTierData(b6).value.1);
  }

  // ---- transactions ----

  function TxTag(t: Tx): u8 {
    match t
    case SubmitTask(_) => 0
    case ClaimTask(_) => 1
    case SubmitProof(_) => 2
    case Challenge(_, _) => 3
    case Transfer(_, _) => 4
  }

  predicate TxFits(t: Tx) {
    match t
    case SubmitTask(body) => TaskBodyFits(body)
    case ClaimTask(task) => HashFits(task)
    case SubmitProof(proof) => ProofFits(proof)
    case Challenge(task, _) => HashFits(task)
    case Transfer(to, _) => HashFits(to)
  }

  function PutPayload(t: Tx, k: Bytes): Bytes {
    match t
    case SubmitTask(body) => PutTaskBody(body, k)
    case ClaimTask(task) => PutHash(task, k)
    case SubmitProof(proof) => PutProof(proof, k)
    case Challenge(task, bond) => PutHash(task, PutU128(bond, k))
    case Transfer(to, amount) => PutHash(to, PutU128(amount, k))
  }

  function GetTaskTx(bs: Bytes): Option<(Tx, Bytes)> {
    var (body, rest) :- GetTaskBody(bs);
    Some((SubmitTask(body), rest))
  }

  function GetProofTx(bs: Bytes): Option<(Tx, Bytes)> {
    var (proof, rest) :- GetProof(bs);
    Some((SubmitProof(proof), rest))
  }

  function GetSmallTx(tag: u8, bs: Bytes): Option<(Tx, Bytes)> {
    var (h, rest) :- GetHash(bs);
    if tag == 1 then Some((ClaimTask(h), rest))
    else
      var (amount, rest) :- GetU128(rest);
      if tag == 3 then Some((Challenge(h, amount), rest))
      else if tag == 4 then Some((Transfer(h, amount), rest))
      else None
  }

  function GetPayload(tag: u8, bs: Bytes): Option<(Tx, Bytes)> {
    if tag == 0 then GetTaskTx(bs)
    else if tag == 2 then GetProofTx(bs)
    else GetSmallTx(tag, bs)
  }

  function PutTx(t: Tx, k: Bytes): Bytes {
    Put1(TxTag(t), PutPayload(t, k))
  }

  function GetTx(bs: Bytes): Option<(Tx, Bytes)> {
    var (tag, rest) :- Get1(bs);
    GetPayload(tag, rest)
  }

  lemma SmallTxRoundTrip(t: Tx, k: Bytes)
    requires TxFits(t) && !t.SubmitTask? && !t.SubmitProof?
    ensures GetSmallTx(TxTag(t), PutPayload(t, k)) == Some((t, k))
  {
    match t
    case ClaimTask(task) => HashRoundTrip(task, k);
    case Challenge(task, bond) =>
      U128RoundTrip(bond, k);
      HashRoundTrip(task, PutU128(bond, k));
    case Transfer(to, amount) =>
      U128RoundTrip(amount, k);
      HashRoundTrip(to, PutU128(amount, k));
  }

  lemma TxRoundTrip(t: Tx, k: Bytes)
    requires TxFits(t)
    ensures GetTx(PutTx(t, k)) == Some((t, k))
  {
    ByteRoundTrip(TxTag(t), PutPayload(t, k));
    if t.SubmitTask? {
      TaskBodyRoundTrip(t.body, k);
    } else if t.SubmitProof? {
      ProofRoundTrip(t.proof, k);
    } else {
      SmallTxRoundTrip(t, k);
    }
  }

  lemma TxAppend(t: Tx, k: Bytes)
    ensures PutTx(t, k) == PutTx(t, []) + k
  {
    assert PutPayload(t, k) == PutPayload(t, []) + k by {
      assert [] + k == k;
      match t
      case SubmitTask(body) => TaskBodyAppend(body, k);
      case ClaimTask(task) => HashAppend(task, [], k);
      case SubmitProof(proof) => ProofAppend(proof, k);
      case Challenge(task, bond) =>
        U128Append(bond, [], k);
        HashAppend(task, PutU128(bond, []), k);
      case Transfer(to, amount) =>
        U128Append(amount, [], k);
        HashAppend(to, PutU128(amount, []), k);
    }
    BytesAppend([TxTag(t)], PutPayload(t, []), k);
  }

  lemma CanonicalTx(bs: Bytes)
    requires GetTx(bs).Some?
    ensures var (t, rest) := GetTx(bs).value; TxFits(t) && PutTx(t, rest) == bs
  {
    Canonical1(bs);
    var (tag, rest) := Get1(bs).value;
    if tag == 0 {
      CanonicalTaskBody(rest);
    } else if tag == 2 {
      CanonicalProof(rest);
    } else {
      CanonicalHash(rest);
      if tag != 1 {
        CanonicalU128(GetHash(rest).value.1);
      }
    }
  }

  predicate SignedTxFits(s: SignedTx) {
    HashFits(s.author) && TxFits(s.tx)
  }

  function PutSignedTx(s: SignedTx, k: Bytes): Bytes {
    PutHash(s.author, PutTx(s.tx, PutU64(s.nonce, PutSignature(s.sig, k))))
  }

  function GetSignedTx(bs: Bytes): Option<(SignedTx, Bytes)> {
    var (author, bs) :- GetHash(bs);
    var (tx, bs) :- GetTx(bs);
    var (nonce, bs) :- GetU64(bs);
    var (sig, bs) :- GetSignature(bs);
    Some((SignedTx(author, tx, nonce, sig), bs))
  }

  lemma SignedTxRoundTrip(s: SignedTx, k: Bytes)
    requires SignedTxFits(s)
    ensures GetSignedTx(PutSignedTx(s, k)) == Some((s, k))
  {
    SignatureRoundTrip(s.sig, k);
    var t := PutSignature(s.sig, k);
    U64RoundTrip(s.nonce, t);
    t := PutU64(s.nonce, t);
    TxRoundTrip(s.tx, t);
    HashRoundTrip(s.author, PutTx(s.tx, t));
  }

  lemma CanonicalSignedTx(b0: Bytes)
    requires GetSignedTx(b0).Some?
    ensures var (s, rest) := GetSignedTx(b0).value; SignedTxFits(s) && PutSignedTx(s, rest) == b0
  {
    CanonicalHash(b0);
    var b1 := GetHash(b0).value.1;
    CanonicalTx(b1);
    var b2 := GetTx(b1).value.1;
    CanonicalU64(b2);
    var b3 := GetU64(b2).value.1;
    assert b3[..64] + b3[64..] == b3;
  }

  // ---- blocks ----

  function PutHashes(hs: seq<Hash>, k: Bytes): Bytes {
    if hs == [] then k else PutHash(hs[0], PutHashes(hs[1..], k))
  }

  function GetHashes(n: nat, bs: Bytes): (r: Option<(seq<Hash>, Bytes)>)
    ensures r.Some? ==> |r.value.0| == n
  {
    if n == 0 then Some(([], bs))
    else
      var (h, bs) :- GetHash(bs);
      var (hs, bs) :- GetHashes(n - 1, bs);
      Some(([h] + hs, bs))
  }

  predicate HashesFit(hs: seq<Hash>) {
    forall i :: 0 <= i < |hs| ==> HashFits(hs[i])
  }

  lemma {:induction false} HashesRoundTrip(hs: seq<Hash>, k: Bytes)
    requires HashesFit(hs)
    ensures GetHashes(|hs|, PutHashes(hs, k)) == Some((hs, k))
  {
    if hs != [] {
      HashRoundTrip(hs[0], PutHashes(hs[1..], k));
      HashesRoundTrip(hs[1..], k);
      assert hs == [hs[0]] + hs[1..];
    }
  }

  lemma {:induction false} CanonicalHashes(n: nat, bs: Bytes)
    requires GetHashes(n, bs).Some?
    ensures var (hs, rest) := GetHashes(n, bs).value; HashesFit(hs) && PutHashes(hs, rest) == bs
  {
    if n > 0 {
      CanonicalHash(bs);
      CanonicalHashes(n - 1, GetHash(bs).value.1);
    }
  }

  /** The block's counters, its hashes and its transaction count fit their machine widths. */
  predicate BlockFits(b: Block) {
    && b.height < TWO_64 && b.epoch < TWO_64 && |b.txs| < TWO_32
    && HashFits(b.parent) && HashFits(b.stateRoot) && HashFits(b.proposer) && HashesFit(b.txs)
  }

  function PutBlock(b: Block, k: Bytes): Bytes {
    PutInt(b.height, 8,
      PutHash(b.parent,
        PutInt(b.epoch, 8,
          PutInt(|b.txs|, 4,
            PutHashes(b.txs,
              PutHash(b.stateRoot,
                PutHash(b.proposer, k)))))))
  }

  function GetBlock(bs: Bytes): Option<(Block, Bytes)> {
    var (height, bs) :- GetInt(8, bs);
    var (parent, bs) :- GetHash(bs);
    var (epoch, bs) :- GetInt(8, bs);
    var (n, bs) :- GetInt(4, bs);
    var (txs, bs) :- GetHashes(n, bs);
    var (stateRoot, bs) :- GetHash(bs);
    var (proposer, bs) :- GetHash(bs);
    Some((Block(height, parent, epoch, txs, stateRoot, proposer), bs))
  }

  lemma BlockRoundTrip(b: Block, k: Bytes)
    requires BlockFits(b)
    ensures GetBlock(PutBlock(b, k)) == Some((b, k))
  {
    Widths();
    HashRoundTrip(b.proposer, k);
    var t := PutHash(b.proposer, k);
    HashRoundTrip(b.stateRoot, t);
    t := PutHash(b.stateRoot, t);
    HashesRoundTrip(b.txs, t);
    t := PutHashes(b.txs, t);
    IntRoundTrip(|b.txs|, 4, t);
    t := PutInt(|b.txs|, 4, t);
    IntRoundTrip(b.epoch, 8, t);
    t := PutInt(b.epoch, 8, t);
    HashRoundTrip(b.parent, t);
    IntRoundTrip(b.height, 8, PutHash(b.parent, t));
  }

  lemma CanonicalBlock(b0: Bytes)
    requires GetBlock(b0).Some?
    ensures var (b, rest) := GetBlock(b0).value; BlockFits(b) && PutBlock(b, rest) == b0
  {
    Widths();
    CanonicalInt(8, b0);
    var b1 := GetInt(8, b0).value.1;
    CanonicalHash(b1);
    var b2 := GetHash(b1).value.1;
    CanonicalInt(8, b2);
    var b3 := GetInt(8, b2).value.1;
    CanonicalInt(4, b3);
    var (n, b4) := GetInt(4, b3).value;
    CanonicalHashes(n, b4);
    var b5 := GetHashes(n, b4).value.1;
    CanonicalHash(b5);
    CanonicalHash(GetHash(b5).value.1);
  }

  // ---- unambiguity ----

  /** No encoding is a prefix of another one: whatever follows them, equal bytes come from equal
      values and leave equal rests. */
  lemma PrefixFreeSignedTx(a: SignedTx, b: SignedTx, k: Bytes, l: Bytes)
    requires SignedTxFits(a) && SignedTxFits(b)
    ensures PutSignedTx(a, k) == PutSignedTx(b, l) <==> a == b && k == l
  {
    SignedTxRoundTrip(a, k);
    SignedTxRoundTrip(b, l);
  }

  lemma PrefixFreeTaskBody(a: TaskBody, b: TaskBody, k: Bytes, l: Bytes)
    requires TaskBodyFits(a) && TaskBodyFits(b)
    ensures PutTaskBody(a, k) == PutTaskBody(b, l) <==> a == b && k == l
  {
    TaskBodyRoundTrip(a, k);
    TaskBodyRoundTrip(b, l);
  }

  lemma PrefixFreeBlock(a: Block, b: Block, k: Bytes, l: Bytes)
    requires BlockFits(a) && BlockFits(b)
    ensures PutBlock(a, k) == PutBlock(b, l) <==> a == b && k == l
  {
    BlockRoundTrip(a, k);
    BlockRoundTrip(b, l);
  }

  /** What a signature covers: the author, the canonical transaction, the nonce. */
  function SigningPayload(author: Identity, tx: Tx, nonce: u64): Bytes {
    PutHash(author, []) + PutTx(tx, []) + PutU64(nonce, [])
  }

  /** The payload is written into one growing buffer, piece by piece. */
  method BuildSigningPayload(author: Identity, tx: Tx, nonce: u64) returns (buf: seq<u8>)
    ensures buf == SigningPayload(author, tx, nonce)
  {
    buf := [];
    buf := buf + PutHash(author, []);
    buf := buf + PutTx(tx, []);
    buf := buf + PutU64(nonce, []);
  }

  /** One payload cannot be read as two different signed statements. */
  lemma SigningPayloadInjective(author: Identity, tx: Tx, nonce: u64, author': Identity, tx': Tx, nonce': u64)
    requires HashFits(author) && TxFits(tx) && HashFits(author') && TxFits(tx')
    requires SigningPayload(author, tx, nonce) == SigningPayload(author', tx', nonce')
    ensures author == author' && tx == tx' && nonce == nonce'
  {
    SigningPayloadReads(author, tx, nonce);
    SigningPayloadReads(author', tx', nonce');
    TxRoundTrip(tx, PutU64(nonce, []));
    TxRoundTrip(tx', PutU64(nonce', []));
    U64RoundTrip(nonce, []);
    U64RoundTrip(nonce', []);
  }

  lemma EmptyFirst(k: Bytes)
    ensures [] + k == k
  {
  }

  lemma HashInFront(h: Hash, k: Bytes)
    ensures PutHash(h, []) + k == PutHash(h, k)
  {
    HashAppend(h, [], k);
    EmptyFirst(k);
  }

  lemma SigningPayloadReads(author: Identity, tx: Tx, nonce: u64)
    requires HashFits(author)
    ensures GetHash(SigningPayload(author, tx, nonce)) == Some((author, PutTx(tx, PutU64(nonce, []))))
  {
    var a, t, n := PutHash(author, []), PutTx(tx, []), PutU64(nonce, []);
    BytesAppend(a, t, n);
    TxAppend(tx, n);
    HashInFront(author, t + n);
    HashRoundTrip(author, t + n);
  }
}
