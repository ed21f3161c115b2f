/** The verdict of a re-execution. */
module Verification {
  import opened Types
  import opened Codec
  import opened Governance
  import opened LedgerSpec
  import opened Dvm

  datatype VerifyOutcome = Accept | Fraud(expected: Hash, got: Hash) {
    predicate IsFraud() {
      Fraud?
    }
  }

  /** The check compares result hash and 𝕌 count; the declared output id, the tier data and the power
      seal do not enter it. */
  function Check(hash: Bytes -> Hash, engine: Engine, proof: ComputeProof, program: Bytes, input: Bytes,
                 limits: Limits, b: Benchmark): VerifyOutcome {
    var again := Execute(hash, engine, program, input, limits, b);
    if again.resultHash == proof.resultHash && again.ucuCount == proof.ucuCount then Accept
    else Fraud(again.resultHash, proof.resultHash)
  }

  /** The proof claims what an execution of its task reports. */
  predicate Honest(hash: Bytes -> Hash, engine: Engine, proof: ComputeProof, program: Bytes, input: Bytes,
                   limits: Limits, b: Benchmark) {
    var r := Execute(hash, engine, program, input, limits, b);
    proof.resultHash == r.resultHash && proof.ucuCount == r.ucuCount
  }

  /** The metering and the ledger fit together: an honest proof of the assigned provider under the
      task's benchmark version is never turned away, so it settles. */
  lemma HonestProofSettles(hash: Bytes -> Hash, engine: Engine, b: Benchmark, program: Bytes, input: Bytes,
                           p: Params, s: State, author: Identity, proof: ComputeProof)
    requires proof.task in s.tasks && proof.task in s.bodies
    requires Honest(hash, engine, proof, program, input, s.bodies[proof.task].limits, b)
    ensures Prove(p, s, author, proof).Ok?
            <==> && s.tasks[proof.task].status == Executing
                 && s.tasks[proof.task].provider == Some(author) && proof.provider == author
                 && proof.benchmark == s.bodies[proof.task].benchmark
  {
    ExecuteWithinLimit(hash, engine, program, input, s.bodies[proof.task].limits, b);
  }

  /** The verdict on a proof is the verdict on any other one with the same result hash and count. */
  lemma VerdictLooksAtTwoFields(hash: Bytes -> Hash, engine: Engine, proof: ComputeProof, other: ComputeProof,
                                program: Bytes, input: Bytes, limits: Limits, b: Benchmark)
    requires proof.resultHash == other.resultHash && proof.ucuCount == other.ucuCount
    ensures Check(hash, engine, proof, program, input, limits, b)
            == Check(hash, engine, other, program, input, limits, b)
  {
  }

  /** What an accepted proof of a successful execution says about the output it names: it names the
      real one if and only if it repeats its result hash there. The verdict does not enforce it. */
  lemma DeclaredOutputIff(hash: Bytes -> Hash, engine: Engine, proof: ComputeProof, program: Bytes, input: Bytes,
                          limits: Limits, b: Benchmark)
    requires Check(hash, engine, proof, program, input, limits, b).Accept?
    requires Execute(hash, engine, program, input, limits, b).status.Success?
    ensures proof.output == hash(Execute(hash, engine, program, input, limits, b).output)
            <==> proof.output == proof.resultHash
  {
  }

  /** Of a benchmark only the rate enters an execution. */
  lemma RateDecides(hash: Bytes -> Hash, engine: Engine, program: Bytes, input: Bytes, limits: Limits, b: Benchmark,
                    b': Benchmark)
    requires b.fuelPerUcu == b'.fuelPerUcu
    ensures Execute(hash, engine, program, input, limits, b) == Execute(hash, engine, program, input, limits, b')
  {
  }

  /** The node re-executes under its own benchmark `b`, whatever version a task names. Work that was
      done honestly under another one, `b'`, passes if and only if both executions report the same
      hash and count; and when the program completes with the same output and fuel under both
      ceilings, if and only if that fuel converts to the same 𝕌 under both rates. */
  lemma OtherBenchmarkIff(hash: Bytes -> Hash, engine: Engine, proof: ComputeProof, program: Bytes, input: Bytes,
                          limits: Limits, b: Benchmark, b': Benchmark)
    requires Honest(hash, engine, proof, program, input, limits, b')
    ensures var r := Execute(hash, engine, program, input, limits, b);
            var r' := Execute(hash, engine, program, input, limits, b');
            Check(hash, engine, proof, program, input, limits, b).Accept?
            <==> r.resultHash == r'.resultHash && r.ucuCount == r'.ucuCount
    ensures var run := RunModule(engine, program, input, UcuToFuelCeiling(b, limits.maxUcu), limits.maxMemoryBytes);
            var run' := RunModule(engine, program, input, UcuToFuelCeiling(b', limits.maxUcu), limits.maxMemoryBytes);
            run.status.Success? && run == run' ==>
              (Check(hash, engine, proof, program, input, limits, b).Accept?
               <==> run.fuel * UCU_SCALE / b.fuelPerUcu == run.fuel * UCU_SCALE / b'.fuelPerUcu)
  {
    var run := RunModule(engine, program, input, UcuToFuelCeiling(b, limits.maxUcu), limits.maxMemoryBytes);
    FuelToUcuExact(b, run.fuel);
    FuelToUcuExact(b', run.fuel);
  }
}
