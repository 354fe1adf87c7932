/** A deterministic stand-in for the chain and the multicall library: NFT i of
    the owner lives at `nftAt(i)`, and the NFT at address a answers `name` with
    `nameOf(a)` and `symbol` with `symbolOf(a)`. Against it a refresh recovers
    every NFT's address, name and symbol together, in reverse discovery order. */
module Stub {
  import opened Multicall
  import opened NftList
  import opened Plans
  import opened Effect

  datatype Chain = Chain(nftAt: nat -> string, nameOf: string -> string, symbolOf: string -> string)

  /** What one call returns from the contract at `target`. */
  function AnswerCall(chain: Chain, target: string, call: Call): CallReturn {
    if call.methodName == "getNFT" && |call.parameters| == 2 && call.parameters[1].Index? then
      CallReturn([chain.nftAt(call.parameters[1].index)])
    else if call.methodName == "name" then CallReturn([chain.nameOf(target)])
    else if call.methodName == "symbol" then CallReturn([chain.symbolOf(target)])
    else CallReturn([])
  }

  /** The returns of a context's calls, in call order. */
  function AnswerContext(chain: Chain, ctx: Context): seq<CallReturn> {
    seq(|ctx.calls|, j requires 0 <= j < |ctx.calls| => AnswerCall(chain, ctx.contractAddress, ctx.calls[j]))
  }

  /** The result map of a batch, entered context by context. */
  function ExecuteAll(chain: Chain, batch: seq<Context>): BatchResult
    decreases |batch|
  {
    if batch == [] then map[]
    else
      var last := batch[|batch| - 1];
      ExecuteAll(chain, batch[..|batch| - 1])[last.reference := AnswerContext(chain, last)]
  }

  function StubExecutor(chain: Chain): Executor {
    batch => ExecuteAll(chain, batch)
  }

  /** With distinct references, every context's answers sit under its own reference. */
  lemma {:induction false} ExecuteAllAt(chain: Chain, batch: seq<Context>, i: nat)
    requires DistinctReferences(batch) && i < |batch|
    ensures batch[i].reference in ExecuteAll(chain, batch)
    ensures ExecuteAll(chain, batch)[batch[i].reference] == AnswerContext(chain, batch[i])
    decreases |batch|
  {
    if i < |batch| - 1 {
      var prefix := batch[..|batch| - 1];
      assert DistinctReferences(prefix) by {
        forall a, b | 0 <= a < b < |prefix| ensures prefix[a].reference != prefix[b].reference {
          assert prefix[a] == batch[a] && prefix[b] == batch[b];
        }
      }
      assert prefix[i] == batch[i];
      ExecuteAllAt(chain, prefix, i);
    }
  }

  /** The stub answers the discovery batch with exactly N returned calls, call i
      giving the address of NFT i. */
  lemma StubDiscovery(owner: string, n: nat, chain: Chain)
    ensures var first := StubExecutor(chain)([DiscoveryContext(owner, n)]);
      FactoryReference in first && |first[FactoryReference]| == n &&
      HasFirstValues(first[FactoryReference]) &&
      forall k :: 0 <= k < n ==> first[FactoryReference][k].returnValues[0] == chain.nftAt(k)
  {
  }

  /** The stub answers the metadata batch of any list with a complete result, whose
      entry i holds the name and symbol of the NFT at entry i's address. */
  lemma StubMetadata(items: seq<Item>, chain: Chain)
    ensures var second := StubExecutor(chain)(MetadataPlan(items));
      MetadataComplete(second, |items|) &&
      forall i: nat :: i < |items| ==>
        NameOf(second, i) == chain.nameOf(items[i].address) &&
        SymbolOf(second, i) == chain.symbolOf(items[i].address)
  {
    var plan := MetadataPlan(items);
    MetadataPlanShape(items);
    var second := StubExecutor(chain)(plan);
    forall i: nat | i < |items|
      ensures HasMetadata(second, i)
      ensures NameOf(second, i) == chain.nameOf(items[i].address)
      ensures SymbolOf(second, i) == chain.symbolOf(items[i].address)
    {
      ExecuteAllAt(chain, plan, i);
    }
  }

  /** End to end: for every owner and count N > 0, the refresh publishes N entries,
      and the NFT discovered at index i reappears at position N-1-i with its own
      address, name and symbol. */
  lemma RoundTrip(published: seq<Item>, owner: string, n: nat, chain: Chain)
    requires owner != "" && n > 0
    ensures var r := Aggregate(published, Some(owner), true, Some(n), StubExecutor(chain));
      r.status == Ready && |r.published| == n &&
      forall i :: 0 <= i < n ==>
        var a := chain.nftAt(i);
        r.published[n - 1 - i] == Item(a, chain.nameOf(a), chain.symbolOf(a))
  {
    var exec := StubExecutor(chain);
    StubDiscovery(owner, n, chain);
    var first := exec([DiscoveryContext(owner, n)]);
    var found := Discovered(n, first);
    StubMetadata(found, chain);
    AggregateReady(published, Some(owner), true, Some(n), exec);
  }

  /** When the owner's NFTs sit at distinct addresses, the published addresses are distinct. */
  lemma DistinctAddresses(published: seq<Item>, owner: string, n: nat, chain: Chain)
    requires owner != "" && n > 0
    requires forall i: nat, j: nat :: i < j < n ==> chain.nftAt(i) != chain.nftAt(j)
    ensures var r := Aggregate(published, Some(owner), true, Some(n), StubExecutor(chain));
      forall p, q :: 0 <= p < q < |r.published| ==> r.published[p].address != r.published[q].address
  {
    RoundTrip(published, owner, n, chain);
    var r := Aggregate(published, Some(owner), true, Some(n), StubExecutor(chain));
    forall p, q | 0 <= p < q < |r.published| ensures r.published[p].address != r.published[q].address {
      assert r.published[n - 1 - (n - 1 - p)].address == chain.nftAt(n - 1 - p);
      assert r.published[n - 1 - (n - 1 - q)].address == chain.nftAt(n - 1 - q);
    }
  }

  /** Two NFTs: `0x01` ("Foo", "FOO") then `0x02` ("Bar", "BAR") are published newest first. */
  lemma TwoNftExample(published: seq<Item>)
    ensures var chain := Chain(i => if i == 0 then "0x01" else "0x02",
                               a => if a == "0x01" then "Foo" else "Bar",
                               a => if a == "0x01" then "FOO" else "BAR");
      Aggregate(published, Some("A"), true, Some(2), StubExecutor(chain)).published
        == [Item("0x02", "Bar", "BAR"), Item("0x01", "Foo", "FOO")]
  {
    var chain := Chain(i => if i == 0 then "0x01" else "0x02",
                       a => if a == "0x01" then "Foo" else "Bar",
                       a => if a == "0x01" then "FOO" else "BAR");
    RoundTrip(published, "A", 2, chain);
    assert "0x02" != "0x01";
  }
}
