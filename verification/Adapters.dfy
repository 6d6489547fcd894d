/**
 * packages/adapters/base/src: what the orchestrator sees of an adapter.  Adapters are
 * oracles: `n` is the number of adapter executions that came before in the same run, so the
 * same adapter may answer differently each time.
 */
module Adapters {
  import opened Basics
  import opened JsonValues

  datatype ErrorClass = Transient | RateLimit | Unavailable | Auth | DeterministicError | UnknownError

  predicate IsRetryable(c: ErrorClass) {
    c == Transient || c == RateLimit || c == Unavailable
  }

  datatype Attempt<+T> = Done(value: T) | Threw(errorClass: ErrorClass)

  datatype CapabilityUsage = CapabilityUsage(costUsd: real, latencyMs: real)

  datatype CapabilityOutput = CapabilityOutput(output: Json, usage: Option<CapabilityUsage>)

  datatype CapabilityAdapter = CapabilityAdapter(
    id: Text,
    capabilities: seq<Text>,
    estimate: nat -> real,
    execute: nat -> Attempt<CapabilityOutput>
  )

  datatype ModelUsage = ModelUsage(
    inputTokens: int,
    cachedInputTokens: Option<int>,
    outputTokens: int,
    costUsd: real,
    latencyMs: real
  )

  datatype ModelResult = ModelResult(text: Text, usage: ModelUsage)

  datatype ModelAdapter = ModelAdapter(estimate: nat -> real, execute: nat -> Attempt<ModelResult>)
}
