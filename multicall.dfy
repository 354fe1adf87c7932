/** The shapes exchanged with the multicall library: the call contexts the
    client builds and the keyed results it gets back. Executing a batch is
    not modelled; an executor is any function from contexts to results. */
module Multicall {

  /** A method parameter: the owner's address, or a list index. */
  datatype Param = Text(text: string) | Index(index: nat)

  /** One call inside a context: its reference, the contract method and its parameters. */
  datatype Call = Call(reference: string, methodName: string, parameters: seq<Param>)

  /** The ABI a context decodes with: the factory's or an NFT contract's. */
  datatype Abi = FactoryAbi | NftAbi

  /** A `ContractCallContext`: calls against one contract, under one reference. */
  datatype Context = Context(reference: string, contractAddress: string, abi: Abi, calls: seq<Call>)

  /** One entry of `callsReturnContext`; only its `returnValues` are read by the client. */
  datatype CallReturn = CallReturn(returnValues: seq<string>)

  /** `results.results`: context reference to the returns of that context's calls, in call order. */
  type BatchResult = map<string, seq<CallReturn>>

  /** A batch executor with a deterministic answer for every batch. */
  type Executor = seq<Context> -> BatchResult

  /** Number of calls across all contexts of a batch. */
  function TotalCalls(batch: seq<Context>): nat
    decreases |batch|
  {
    if batch == [] then 0 else TotalCalls(batch[..|batch| - 1]) + |batch[|batch| - 1].calls|
  }

  /** No two contexts of a batch share a reference, so each result key names one context. */
  predicate DistinctReferences(batch: seq<Context>) {
    forall i, j :: 0 <= i < j < |batch| ==> batch[i].reference != batch[j].reference
  }
}
