/** Metering: how fuel and 𝕌 convert into each other, and what an execution reports. The WebAssembly
    engine is an uninterpreted deterministic function; everything the repository wraps around it is
    modelled. */
module Dvm {
  import opened Types
  import opened Codec

  /** `fuelPerUcu` is calibrated to at least one. The fields that never enter the arithmetic are
      carried along. */
  datatype BenchmarkData = BenchmarkData(
    version: u32,
    fuelCostTableHash: Hash,
    fuelPerUcu: u64,
    eBaseline: u64,
    tStdMillikelvin: u64)

  type Benchmark = b: BenchmarkData | b.fuelPerUcu >= 1
    witness BenchmarkData(0, 0, 1, 137, 300_000)

  const U64_MAX: nat := 0xFFFF_FFFF_FFFF_FFFF

  /** A 128-bit product as release builds compute it. */
  function WrappingMul(a: nat, b: nat): nat {
    a * b % TWO_128
  }

  function FuelToUcu(b: Benchmark, fuel: u64): nat {
    WrappingMul(fuel, UCU_SCALE) / b.fuelPerUcu
  }

  function UcuToFuelCeiling(b: Benchmark, maxUcu: u128): u64 {
    Min(WrappingMul(maxUcu, b.fuelPerUcu) / UCU_SCALE, U64_MAX)
  }

  // ---- arithmetic ----

  lemma MulLe(a: int, b: int, c: nat)
    requires a <= b
    ensures a * c <= b * c
  {
  }

  lemma DivLeIff(a: int, d: int, q: int)
    requires d > 0
    ensures q <= a / d <==> q * d <= a
  {
    var t := a / d;
    assert t * d <= a < t * d + d;
    if q <= t {
      MulLe(q, t, d);
    } else {
      MulLe(t + 1, q, d);
    }
  }

  /** The product of the fuel conversion never wraps: fuel is a `u64`. */
  lemma FuelToUcuExact(b: Benchmark, fuel: u64)
    ensures FuelToUcu(b, fuel) == fuel * UCU_SCALE / b.fuelPerUcu
    ensures FuelToUcu(b, b.fuelPerUcu) == UCU_SCALE
  {
    MulLe(fuel, U64_MAX, UCU_SCALE);
    MulLe(b.fuelPerUcu, U64_MAX, UCU_SCALE);
    DivLeIff(UCU_SCALE * b.fuelPerUcu, b.fuelPerUcu, UCU_SCALE);
    DivLeIff(UCU_SCALE * b.fuelPerUcu, b.fuelPerUcu, UCU_SCALE + 1);
    assert (UCU_SCALE + 1) * b.fuelPerUcu == UCU_SCALE * b.fuelPerUcu + b.fuelPerUcu;
  }

  /** The ceiling of `m` is the largest fuel whose cost is at most `m`. */
  ghost predicate LargestAffordable(b: Benchmark, m: u128) {
    forall f: u64 :: Affordable(b, m, f) <==> f <= UcuToFuelCeiling(b, m)
  }

  predicate Affordable(b: Benchmark, m: u128, f: u64) {
    f * UCU_SCALE <= m * b.fuelPerUcu
  }

  /** The two conversions are adjoint exactly as long as the product does not wrap, or what is left of
      it still saturates. */
  lemma CeilingIsLargestIff(b: Benchmark, m: u128)
    ensures LargestAffordable(b, m)
            <==> (m * b.fuelPerUcu < TWO_128 || WrappingMul(m, b.fuelPerUcu) / UCU_SCALE >= U64_MAX)
  {
    var top: u64 := U64_MAX;
    if m * b.fuelPerUcu < TWO_128 {
      forall f: u64
        ensures Affordable(b, m, f) <==> f <= UcuToFuelCeiling(b, m)
      {
        DivLeIff(m * b.fuelPerUcu, UCU_SCALE, f);
      }
    } else {
      forall f: u64
        ensures Affordable(b, m, f)
      {
        MulLe(f, U64_MAX, UCU_SCALE);
      }
      assert Affordable(b, m, top);
    }
  }

  lemma WrappedAtMost(a: nat, b: nat)
    ensures WrappingMul(a, b) <= a * b
  {
  }

  /** Fuel that costs at most `m` converts to at most `m`. */
  lemma CostConverts(fuel: nat, perUcu: nat, m: nat)
    requires perUcu >= 1 && fuel * UCU_SCALE <= m * perUcu
    ensures fuel * UCU_SCALE / perUcu <= m
  {
    DivLeIff(fuel * UCU_SCALE, perUcu, m + 1);
    assert (m + 1) * perUcu == m * perUcu + perUcu;
  }

  /** Fuel within the ceiling converts back to at most the 𝕌 it was derived from, also when the
      product wrapped. */
  lemma WithinCeiling(b: Benchmark, m: u128, f: u64)
    requires f <= UcuToFuelCeiling(b, m)
    ensures FuelToUcu(b, f) <= m
  {
    var wrapped := WrappingMul(m, b.fuelPerUcu);
    WrappedAtMost(m, b.fuelPerUcu);
    assert f <= wrapped / UCU_SCALE;
    DivLeIff(wrapped, UCU_SCALE, f);
    CostConverts(f, b.fuelPerUcu, m);
    FuelToUcuExact(b, f);
  }

  /** Fuel that costs at least `m` converts to at least `m`. */
  lemma CostExceeds(fuel: nat, perUcu: nat, m: nat)
    requires perUcu >= 1 && fuel * UCU_SCALE >= m * perUcu
    ensures fuel * UCU_SCALE / perUcu >= m
  {
    DivLeIff(fuel * UCU_SCALE, perUcu, m);
  }

  lemma NoWrap(a: nat, b: nat)
    requires a * b < TWO_128
    ensures WrappingMul(a, b) == a * b
  {
  }

  /** Fuel past a ceiling of `product` costs at least that, whether or not the ceiling saturates. */
  lemma CeilingExceeded(product: nat, f: u64)
    requires f > Min(product / UCU_SCALE, U64_MAX)
    ensures f * UCU_SCALE >= product
  {
    DivLeIff(product, UCU_SCALE, f);
  }

  /** Fuel beyond the ceiling of a product that did not wrap is worth at least the 𝕌 it was derived
      from. */
  lemma BeyondCeiling(b: Benchmark, m: u128, f: u64)
    requires f > UcuToFuelCeiling(b, m) && m * b.fuelPerUcu < TWO_128
    ensures FuelToUcu(b, f) >= m
  {
    NoWrap(m, b.fuelPerUcu);
    CeilingExceeded(WrappingMul(m, b.fuelPerUcu), f);
    CostExceeds(f, b.fuelPerUcu, m);
    FuelToUcuExact(b, f);
  }

  // ---- execution ----

  type i32 = n: int | -0x8000_0000 <= n < 0x8000_0000

  datatype FailureKind = OutOfFuel | UserAbort(code: i32) | Trap | InvalidModule | Instantiation | NoEntryPoint

  datatype ExecStatus = Success | Failure(kind: FailureKind)

  datatype ExecOutcome = ExecOutcome(resultHash: Hash, output: Bytes, ucuCount: nat, status: ExecStatus)

  /** What the engine did with a module under a fuel budget. `left` is the fuel it says remains, if
      it says so; it need not be plausible. */
  datatype Trace =
    | CompileError
    | LinkError
    | InstantiateError(left: Option<u64>)
    | NoEntry(left: Option<u64>)
    | Returned(output: Bytes, left: Option<u64>)
    | Raised(failCode: Option<i32>, outOfFuel: bool, left: Option<u64>)

  /** Program, input, fuel ceiling and memory limit determine a trace. */
  type Engine = (Bytes, Bytes, u64, u64) -> Trace

  datatype RunResult = RunResult(status: ExecStatus, output: Bytes, fuel: u64)

  function Consumed(ceiling: u64, left: Option<u64>): u64 {
    var rest := if left.Some? then left.value else 0;
    if rest <= ceiling then ceiling - rest else 0
  }

  function RunModule(engine: Engine, program: Bytes, input: Bytes, ceiling: u64, maxMemoryBytes: u64): RunResult {
    match engine(program, input, ceiling, maxMemoryBytes)
    case CompileError => RunResult(Failure(InvalidModule), [], 0)
    case LinkError => RunResult(Failure(Instantiation), [], 0)
    case InstantiateError(left) => RunResult(Failure(Instantiation), [], Consumed(ceiling, left))
    case NoEntry(left) => RunResult(Failure(NoEntryPoint), [], Consumed(ceiling, left))
    case Returned(output, left) => RunResult(Success, output, Consumed(ceiling, left))
    case Raised(failCode, outOfFuel, left) =>
      var kind := if failCode.Some? then UserAbort(failCode.value) else if outOfFuel then OutOfFuel else Trap;
      RunResult(Failure(kind), [], Consumed(ceiling, left))
  }

  /** `ducp.fail.v0` in ASCII. */
  const FAIL_DOMAIN: Bytes := [0x64, 0x75, 0x63, 0x70, 0x2E, 0x66, 0x61, 0x69, 0x6C, 0x2E, 0x76, 0x30]

  function PutKind(kind: FailureKind): Bytes {
    match kind
    case OutOfFuel => [0]
    case UserAbort(code) => [1] + PutU32(if code < 0 then code + TWO_32 else code, [])
    case Trap => [2]
    case InvalidModule => [3]
    case Instantiation => [4]
    case NoEntryPoint => [5]
  }

  /** The bytes whose hash stands for an outcome. */
  function Digest(status: ExecStatus, output: Bytes): Bytes {
    match status
    case Success => output
    case Failure(kind) => FAIL_DOMAIN + PutKind(kind)
  }

  function Execute(hash: Bytes -> Hash, engine: Engine, program: Bytes, input: Bytes, limits: Limits,
                   b: Benchmark): ExecOutcome {
    var ceiling := UcuToFuelCeiling(b, limits.maxUcu);
    var r := RunModule(engine, program, input, ceiling, limits.maxMemoryBytes);
    match r.status
    case Success => ExecOutcome(hash(r.output), r.output, FuelToUcu(b, r.fuel), r.status)
    case Failure(OutOfFuel) => ExecOutcome(hash(FAIL_DOMAIN + PutKind(OutOfFuel)), r.output, limits.maxUcu, r.status)
    case Failure(kind) => ExecOutcome(hash(FAIL_DOMAIN + PutKind(kind)), r.output, FuelToUcu(b, r.fuel), r.status)
  }

  /** Whatever the engine reports, no branch charges more than the task's limit. */
  lemma ExecuteWithinLimit(hash: Bytes -> Hash, engine: Engine, program: Bytes, input: Bytes, limits: Limits,
                           b: Benchmark)
    ensures Execute(hash, engine, program, input, limits, b).ucuCount <= limits.maxUcu
  {
    var ceiling := UcuToFuelCeiling(b, limits.maxUcu);
    WithinCeiling(b, limits.maxUcu, RunModule(engine, program, input, ceiling, limits.maxMemoryBytes).fuel);
  }

  lemma PutKindInjective(k: FailureKind, k': FailureKind)
    requires PutKind(k) == PutKind(k')
    ensures k == k'
  {
    assert PutKind(k)[0] == PutKind(k')[0];
    if k.UserAbort? {
      var n, n' := if k.code < 0 then k.code + TWO_32 else k.code, if k'.code < 0 then k'.code + TWO_32 else k'.code;
      U32RoundTrip(n, []);
      U32RoundTrip(n', []);
      assert PutKind(k)[1..] == PutU32(n, []) && PutKind(k')[1..] == PutU32(n', []);
    }
  }

  /** What an equal result hash says about two executions: the outcomes are the same, or a successful
      output spells out the failure message of the other, or the hash collides. The domain prefix
      keeps failures apart from each other, not from every output. */
  lemma ResultHashesEqual(hash: Bytes -> Hash, engine: Engine, program: Bytes, input: Bytes, limits: Limits,
                          b: Benchmark,
                          engine': Engine, program': Bytes, input': Bytes)
    ensures var r := Execute(hash, engine, program, input, limits, b);
            var r' := Execute(hash, engine', program', input', limits, b);
            r.resultHash == r'.resultHash
            <==> || (r.status == r'.status && r.output == r'.output)
                 || (r.status.Success? && r'.status.Failure? && r.output == FAIL_DOMAIN + PutKind(r'.status.kind))
                 || (r.status.Failure? && r'.status.Success? && r'.output == FAIL_DOMAIN + PutKind(r.status.kind))
                 || (Digest(r.status, r.output) != Digest(r'.status, r'.output)
                     && hash(Digest(r.status, r.output)) == hash(Digest(r'.status, r'.output)))
  {
    var r, r' := Execute(hash, engine, program, input, limits, b), Execute(hash, engine', program', input', limits, b);
    assert r.resultHash == hash(Digest(r.status, r.output)) && r'.resultHash == hash(Digest(r'.status, r'.output));
    if r.status.Failure? && r'.status.Failure? && Digest(r.status, r.output) == Digest(r'.status, r'.output) {
      var k, k' := PutKind(r.status.kind), PutKind(r'.status.kind);
      assert k == (FAIL_DOMAIN + k)[|FAIL_DOMAIN|..] && k' == (FAIL_DOMAIN + k')[|FAIL_DOMAIN|..];
      PutKindInjective(r.status.kind, r'.status.kind);
    }
  }
}
