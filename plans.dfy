/** The two batch plans of the NFT list refresh (client/src/App.tsx):
    discovery asks the factory for each of the owner's NFT addresses,
    metadata asks every discovered NFT contract for its name and symbol. */
module Plans {
  import opened Decimal
  import opened Multicall
  import opened NftList

  const FactoryAddress: string := "0x350538Ae3ca47319f83A67F4C70B9f57A5E18F2A"
  const FactoryReference: string := "NFTFactory"

  /** Call i of the discovery context: `getNFT(owner, i)` under reference `i.toString()`. */
  function DiscoveryCall(owner: string, i: nat): Call {
    Call(DecimalString(i), "getNFT", [Text(owner), Index(i)])
  }

  /** The factory context, one `getNFT` call per entry of a working list of `length` entries. */
  function DiscoveryContext(owner: string, length: nat): Context {
    Context(FactoryReference, FactoryAddress, FactoryAbi,
            seq(length, i requires 0 <= i < length => DiscoveryCall(owner, i)))
  }

  /** The two parameterless calls asked of every NFT contract, `name` before `symbol`. */
  const MetadataCalls: seq<Call> := [Call("name", "name", []), Call("symbol", "symbol", [])]

  /** One context per list entry: reference `i.toString()`, aimed at entry i's address. */
  function MetadataPlan(items: seq<Item>): seq<Context> {
    seq(|items|, i requires 0 <= i < |items| => Context(DecimalString(i), items[i].address, NftAbi, MetadataCalls))
  }

  /** The discovery context targets the factory and holds exactly `length` calls; the
      call answering index i is the one referenced `i.toString()` and no other, and it
      asks `getNFT(owner, i)`. */
  lemma DiscoveryContextShape(owner: string, length: nat)
    ensures var ctx := DiscoveryContext(owner, length);
      ctx.reference == FactoryReference && ctx.contractAddress == FactoryAddress &&
      |ctx.calls| == length &&
      (forall i, j :: 0 <= i < length && 0 <= j < length ==>
         (ctx.calls[j].reference == DecimalString(i) <==> j == i)) &&
      (forall i :: 0 <= i < length ==>
         ctx.calls[i].methodName == "getNFT" && ctx.calls[i].parameters == [Text(owner), Index(i)])
  {
    var ctx := DiscoveryContext(owner, length);
    forall i, j | 0 <= i < length && 0 <= j < length
      ensures ctx.calls[j].reference == DecimalString(i) <==> j == i
    {
      DecimalStringInjective(i, j);
    }
  }

  /** Every context of a batch with exactly two calls makes a batch of twice as many calls. */
  lemma {:induction false} TotalCallsOfPairs(batch: seq<Context>)
    requires forall i :: 0 <= i < |batch| ==> |batch[i].calls| == 2
    ensures TotalCalls(batch) == 2 * |batch|
    decreases |batch|
  {
    if batch != [] {
      TotalCallsOfPairs(batch[..|batch| - 1]);
    }
  }

  /** The metadata plan has one context per entry, each referenced by its own index,
      aimed at that entry's address, asking `name` then `symbol`; 2·N calls in all. */
  lemma MetadataPlanShape(items: seq<Item>)
    ensures var plan := MetadataPlan(items);
      |plan| == |items| && TotalCalls(plan) == 2 * |items| && DistinctReferences(plan) &&
      (forall i :: 0 <= i < |plan| ==>
         plan[i].reference == DecimalString(i) && plan[i].contractAddress == items[i].address &&
         plan[i].calls == [Call("name", "name", []), Call("symbol", "symbol", [])])
  {
    var plan := MetadataPlan(items);
    TotalCallsOfPairs(plan);
    forall i, j | 0 <= i < j < |plan| ensures plan[i].reference != plan[j].reference {
      DecimalStringInjective(i, j);
    }
  }
}
