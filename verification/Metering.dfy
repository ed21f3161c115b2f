/** How an execution ends and what it costs, read off what the engine did; and what a verdict
    reports. */
module Metering {
  import opened Types
  import opened Codec
  import opened Governance
  import opened Layout
  import opened Dvm
  import opened Verification

  /** How each thing the engine can do ends: an abort the guest asked for comes before an empty tank. */
  predicate EndsAs(trace: Trace, status: ExecStatus) {
    match trace
    case CompileError => status == Failure(InvalidModule)
    case LinkError => status == Failure(Instantiation)
    case InstantiateError(_) => status == Failure(Instantiation)
    case NoEntry(_) => status == Failure(NoEntryPoint)
    case Returned(_, _) => status == Success
    case Raised(code, outOfFuel, _) =>
      status == if code.Some? then Failure(UserAbort(code.value))
                else if outOfFuel then Failure(OutOfFuel) else Failure(Trap)
  }

  /** The fuel an engine says is left; a module that never ran has all of it, an engine that does not say
      none. */
  function LeftOver(trace: Trace, ceiling: u64): u64 {
    match trace
    case CompileError => ceiling
    case LinkError => ceiling
    case InstantiateError(left) => if left.Some? then left.value else 0
    case NoEntry(left) => if left.Some? then left.value else 0
    case Returned(_, left) => if left.Some? then left.value else 0
    case Raised(_, _, left) => if left.Some? then left.value else 0
  }

  /** The fuel that was used: nothing if more is left than there was. */
  function FuelUsed(trace: Trace, ceiling: u64): nat {
    if LeftOver(trace, ceiling) <= ceiling then ceiling - LeftOver(trace, ceiling) else 0
  }

  /** What an execution reports, for everything the engine can do under the task's ceiling and memory
      limit: how it ended, its output, and its price. Running out of fuel costs the whole declared
      limit, everything else the fuel that was used, converted and rounded down. */
  lemma ExecuteReports(hash: Bytes -> Hash, engine: Engine, program: Bytes, input: Bytes, limits: Limits, b: Benchmark)
    ensures var ceiling := UcuToFuelCeiling(b, limits.maxUcu);
            var trace := engine(program, input, ceiling, limits.maxMemoryBytes);
            var o := Execute(hash, engine, program, input, limits, b);
            && EndsAs(trace, o.status)
            && o.output == (if trace.Returned? then trace.output else [])
            && (o.status == Failure(OutOfFuel) ==> o.ucuCount == limits.maxUcu)
            && (o.status != Failure(OutOfFuel) ==>
                  IsFloor(o.ucuCount, FuelUsed(trace, ceiling) * 1_000_000_000, b.fuelPerUcu))
  {
    var ceiling := UcuToFuelCeiling(b, limits.maxUcu);
    var trace := engine(program, input, ceiling, limits.maxMemoryBytes);
    var fuel := RunModule(engine, program, input, ceiling, limits.maxMemoryBytes).fuel;
    assert fuel == FuelUsed(trace, ceiling);
    FuelToUcuExact(b, fuel);
    DivBounds(fuel * UCU_SCALE, b.fuelPerUcu);
    assert IsFloor(FuelToUcu(b, fuel), fuel * 1_000_000_000, b.fuelPerUcu);
  }

  /** The bytes a result hash stands for: the output of a success; for a failure `ducp.fail.v0` and the
      number of its kind, with the code of an abort as a two's complement little endian word. */
  lemma ResultBytes(hash: Bytes -> Hash, engine: Engine, program: Bytes, input: Bytes, limits: Limits, b: Benchmark)
    ensures var o := Execute(hash, engine, program, input, limits, b);
            var prefix: Bytes := [100, 117, 99, 112, 46, 102, 97, 105, 108, 46, 118, 48];
            match o.status
            case Success => o.resultHash == hash(o.output)
            case Failure(OutOfFuel) => o.resultHash == hash(prefix + [0])
            case Failure(Trap) => o.resultHash == hash(prefix + [2])
            case Failure(InvalidModule) => o.resultHash == hash(prefix + [3])
            case Failure(Instantiation) => o.resultHash == hash(prefix + [4])
            case Failure(NoEntryPoint) => o.resultHash == hash(prefix + [5])
            case Failure(UserAbort(code)) =>
              exists word: Bytes ::
                && |word| == 4 && Spells(word, 0, if code < 0 then code + 0x1_0000_0000 else code, 4)
                && o.resultHash == hash(prefix + [1] + word)
  {
    var o := Execute(hash, engine, program, input, limits, b);
    if o.status.Failure? && o.status.kind.UserAbort? {
      var code := o.status.kind.code;
      var word := PutU32(if code < 0 then code + TWO_32 else code, []);
      IntLayout(if code < 0 then code + TWO_32 else code, 4, []);
      assert FAIL_DOMAIN + ([1] + word) == FAIL_DOMAIN + [1] + word;
      assert |word| == 4 && Spells(word, 0, if code < 0 then code + 0x1_0000_0000 else code, 4);
    }
  }

  /** A verdict accepts exactly what a re-execution confirms, in hash and count, and otherwise reports the
      hash it found and the one it was given. */
  lemma VerdictReports(hash: Bytes -> Hash, engine: Engine, proof: ComputeProof, program: Bytes, input: Bytes,
                       limits: Limits, b: Benchmark)
    ensures var o, v := Execute(hash, engine, program, input, limits, b),
            Check(hash, engine, proof, program, input, limits, b);
            && (v == Accept <==> o.resultHash == proof.resultHash && o.ucuCount == proof.ucuCount)
            && (v.Fraud? <==> v != Accept) && (v.IsFraud() <==> v.Fraud?)
            && (v.Fraud? ==> v.expected == o.resultHash && v.got == proof.resultHash)
  {
  }
}
