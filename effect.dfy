/** One run of the NFT list refresh effect (client/src/App.tsx:52-129): guard,
    discovery batch, address merge, metadata batch, metadata merge, reversal,
    publication. `Aggregate` says what a run does; `LoadNftList` does it over an
    array, as the source does. The executor stands for the multicall library. */
module Effect {
  import opened Multicall
  import opened NftList
  import opened Plans

  datatype Option<T> = None | Some(value: T)

  /** Why a run stops without publishing. A missing context or call is an unguarded
      access that throws in the source; a missing first return value yields `undefined`
      there, which the source stores and publishes, and the model reports instead. */
  datatype Error =
    | FactoryResultMissing   // no `results['NFTFactory']`: throws
    | ExtraDiscoveryResult   // more returned calls than entries: `NFTList[index]` is undefined, throws
    | DiscoveryValueMissing  // a returned discovery call has no `returnValues[0]`: `undefined` in the source
    | MetadataMissing        // no `results[i.toString()]` or no call 0 or 1 there (throws), or no first value (`undefined`)

  datatype Status = Skipped | Failed(error: Error) | Ready

  /** What a run did: the batches handed to the executor in order, how it ended,
      and the list published afterwards (the previous one unless it ended Ready). */
  datatype Run = Run(issued: seq<seq<Context>>, status: Status, published: seq<Item>)

  /** The effect's guard: a non-empty owner address, an SDK, and a count above zero. */
  predicate ShouldLoad(owner: Option<string>, sdk: bool, count: Option<nat>) {
    owner.Some? && owner.value != "" && sdk && count.Some? && count.value > 0
  }

  /** The discovery results can be merged into a list of n entries: the factory's
      result is present, with no more returned calls than entries, each with a value. */
  predicate DiscoveryMergeable(first: BatchResult, n: nat) {
    FactoryReference in first && |first[FactoryReference]| <= n && HasFirstValues(first[FactoryReference])
  }

  /** The entries after the discovery merge, when the discovery results can be merged. */
  function Discovered(n: nat, first: BatchResult): seq<Item>
    requires DiscoveryMergeable(first, n)
  {
    WithAddresses(Blank(n), first[FactoryReference])
  }

  function Aggregate(published: seq<Item>, owner: Option<string>, sdk: bool, count: Option<nat>, exec: Executor): (r: Run)
    ensures r.issued == [] <==> !ShouldLoad(owner, sdk, count)
    ensures !ShouldLoad(owner, sdk, count) ==> r.status == Skipped
    ensures ShouldLoad(owner, sdk, count) ==> r.issued[0] == [DiscoveryContext(owner.value, count.value)]
    ensures r.status != Ready ==> r.published == published
    ensures r.status == Ready ==> |r.issued| == 2 && |r.published| == count.value
  {
    if !ShouldLoad(owner, sdk, count) then Run([], Skipped, published)
    else
      var n := count.value;
      var discovery := [DiscoveryContext(owner.value, n)];
      var first := exec(discovery);
      if FactoryReference !in first then Run([discovery], Failed(FactoryResultMissing), published)
      else if |first[FactoryReference]| > n then Run([discovery], Failed(ExtraDiscoveryResult), published)
      else if !HasFirstValues(first[FactoryReference]) then Run([discovery], Failed(DiscoveryValueMissing), published)
      else
        var found := Discovered(n, first);
        var metadata := MetadataPlan(found);
        var second := exec(metadata);
        if !MetadataComplete(second, n) then Run([discovery, metadata], Failed(MetadataMissing), published)
        else
          ReversedLength(WithMetadata(found, second, n));
          Run([discovery, metadata], Ready, Reversed(WithMetadata(found, second, n)))
  }

  /** A run that publishes has issued exactly the discovery batch and then the
      metadata batch for the discovered entries; output position k holds the entry
      discovered at index N-1-k: its address from returned discovery call N-1-k (blank
      when fewer calls came back), its name and symbol from the metadata result
      keyed `(N-1-k).toString()`. */
  lemma AggregateReady(published: seq<Item>, owner: Option<string>, sdk: bool, count: Option<nat>, exec: Executor)
    requires Aggregate(published, owner, sdk, count, exec).status == Ready
    ensures ShouldLoad(owner, sdk, count)
    ensures var r := Aggregate(published, owner, sdk, count, exec);
      var n := count.value;
      var first := exec([DiscoveryContext(owner.value, n)]);
      DiscoveryMergeable(first, n) &&
      r.issued == [[DiscoveryContext(owner.value, n)], MetadataPlan(Discovered(n, first))] &&
      var returned := first[FactoryReference];
      var second := exec(r.issued[1]);
      MetadataComplete(second, n) && |r.published| == n &&
      forall k :: 0 <= k < n ==>
        r.published[k] == Item(if n - 1 - k < |returned| then returned[n - 1 - k].returnValues[0] else "",
                               NameOf(second, n - 1 - k), SymbolOf(second, n - 1 - k))
  {
    var r := Aggregate(published, owner, sdk, count, exec);
    var n := count.value;
    var first := exec([DiscoveryContext(owner.value, n)]);
    var found := Discovered(n, first);
    var second := exec(MetadataPlan(found));
    var merged := WithMetadata(found, second, n);
    forall k | 0 <= k < n
      ensures r.published[k] == merged[n - 1 - k]
    {
      ReversedAt(merged, k);
    }
  }

  /** A run that passes the guard publishes exactly when every result it reads is
      there: the discovery results can be merged and the metadata results hold every
      entry's key with both calls' values. Otherwise it fails with the error of the
      first missing piece. */
  lemma AggregatePublishesExactly(published: seq<Item>, owner: Option<string>, sdk: bool, count: Option<nat>, exec: Executor)
    requires ShouldLoad(owner, sdk, count)
    ensures var r := Aggregate(published, owner, sdk, count, exec);
      var n := count.value;
      var first := exec([DiscoveryContext(owner.value, n)]);
      (r.status == Ready <==>
         DiscoveryMergeable(first, n) && MetadataComplete(exec(MetadataPlan(Discovered(n, first))), n)) &&
      (FactoryReference !in first ==> r.status == Failed(FactoryResultMissing)) &&
      (DiscoveryMergeable(first, n) && !MetadataComplete(exec(MetadataPlan(Discovered(n, first))), n) ==>
         r.status == Failed(MetadataMissing))
  {
  }

  /** The effect body over a mutable working list. */
  method LoadNftList(published: seq<Item>, owner: Option<string>, sdk: bool, count: Option<nat>, exec: Executor)
    returns (r: Run)
    ensures r == Aggregate(published, owner, sdk, count, exec)
  {
    if !ShouldLoad(owner, sdk, count) {
      return Run([], Skipped, published);
    }
    var length := count.value;
    var list := new Item[length](_ => BlankItem);
    var discovery := [DiscoveryContext(owner.value, list.Length)];
    var first := exec(discovery);
    if FactoryReference !in first {
      return Run([discovery], Failed(FactoryResultMissing), published);
    }
    var returned := first[FactoryReference];
    if |returned| > list.Length {
      return Run([discovery], Failed(ExtraDiscoveryResult), published);
    }
    if exists k :: 0 <= k < |returned| && |returned[k].returnValues| == 0 {
      return Run([discovery], Failed(DiscoveryValueMissing), published);
    }
    assert list[..] == Blank(length);
    MergeAddresses(list, returned);
    var metadata := MetadataPlan(list[..]);
    var second := exec(metadata);
    if !MetadataComplete(second, list.Length) {
      return Run([discovery, metadata], Failed(MetadataMissing), published);
    }
    MergeMetadata(list, second);
    ReverseInPlace(list);
    r := Run([discovery, metadata], Ready, list[..]);
  }
}
