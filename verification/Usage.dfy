/** The usage record of internal/gateway.go, as far as accounting reads it. */
module Usage {

  datatype UsageRecord = UsageRecord(
    id: string, keyID: string, orgID: string, model: string,
    promptTokens: int, completionTokens: int, totalTokens: int,
    costUSD: real, cached: bool, createdAt: int)

  /** The records of a list of batches, in order. */
  ghost function Flatten<T>(batches: seq<seq<T>>): (all: seq<T>)
  {
    if batches == [] then [] else Flatten(batches[..|batches| - 1]) + batches[|batches| - 1]
  }

  lemma FlattenAppend<T>(batches: seq<seq<T>>, b: seq<T>)
    ensures Flatten(batches + [b]) == Flatten(batches) + b
  {
    assert (batches + [b])[..|batches|] == batches;
  }
}
