# NFT list refresh of the nft-factory client, modelled in Dafny

The web client of nft-factory shows the NFT contracts an owner has created through the factory contract. When
the connected address or the owner's NFT count changes, an effect in `client/src/App.tsx` rebuilds the list.
First it checks that an owner address, an SDK and a positive count are present. Then it asks the factory for
each NFT's address in one multicall batch, writes the addresses into a fresh working list, and asks every NFT
contract for its `name` and `symbol` in a second batch. It merges the answers into the list by index,
reverses the list in place and publishes it, newest NFT first. The mint handler in the same file refuses to
send the `createNFT` write unless name, symbol and URI are all filled in.

The model keeps that shape:

- `Decimal`: the decimal rendering of an index (`i.toString()`) that keys every call. It comes with a parse
  function and the round trip that makes references from distinct indices distinct.
- `Multicall`: call contexts, call returns and result maps, as the multicall library exchanges them. An
  executor is any total function from a batch to its result map, so a run is deterministic in its executor.
- `Plans`: the discovery context (factory address, `getNFT(owner, i)` per entry) and the metadata plan (one
  context per entry, `name` then `symbol`).
- `NftList`: the list item, the two merges and `Array.prototype.reverse`. Each is a method over an
  `array<Item>` with loop invariants, proved equal to a function on the list's contents; the lemmas are about
  those functions.
- `Effect`: one run of the effect. `Aggregate` is the run as a function: the batches issued, how the run
  ended, and what is published. `LoadNftList` runs it over a mutable array and is proved equal to it.
- `Mint`: the empty-field guard of the mint handler.
- `Stub`: a deterministic chain (NFT i at `nftAt(i)`, its name and symbol functions of its address) and
  the end-to-end round trip against it.

Where the source performs an unguarded lookup that throws (`results.results['NFTFactory']`, `NFTList[index]`,
`results.results[index.toString()]` and its `callsReturnContext[0|1]`), a run of the model ends in
`Failed(e)` and publishes nothing, which is what the thrown exception does in the source. A missing
`returnValues[0]` does not throw in the source; the model reports it as a failure too (see "## Left out").
No recovery is invented.

Behaviour of the code that a reader might not expect, which the model keeps:

- A count of zero, or an absent owner or SDK, skips the run. The previously published list stays as it was,
  and no empty list is published.
- The discovery merge iterates over the calls that came back, not over the list. Fewer returned calls than
  entries leave the remaining addresses blank, with no error.
- The metadata merge reads call 0 as the name and call 1 as the symbol by position, not by the call
  references `name` and `symbol`.

## Model

| member | source | states |
|---|---|---|
| `Decimal.DecimalString` | client/src/App.tsx:74 | an index renders as a non-empty string of decimal digits with no leading zero |
| `Decimal.ParseDecimalString` | client/src/App.tsx:74 | parsing the rendering of n gives n back (round trip) |
| `Decimal.DecimalStringInjective` | client/src/App.tsx:117 | two indices share a reference exactly when they are equal, so keying results by `i.toString()` cannot confuse two entries |
| `Plans.DiscoveryContextShape` | client/src/App.tsx:68-79 | the discovery context is referenced `NFTFactory` and targets the factory address; it has exactly `length` calls; call i is `getNFT(owner, i)` and is the only call whose reference is `i.toString()` |
| `Plans.TotalCallsOfPairs` | client/src/App.tsx:96-107 | a batch whose every context holds two calls holds twice as many calls as contexts |
| `Plans.MetadataPlanShape` | client/src/App.tsx:90-109 | one context per entry; context i is referenced `i.toString()` and targets entry i's address; it holds the parameterless `name` and `symbol` calls in that order; references are pairwise distinct; 2·N calls in total |
| `NftList.Blank` | client/src/App.tsx:63-67 | the working list has exactly `length` entries, each with empty address, name and symbol |
| `NftList.WithAddresses` | client/src/App.tsx:84-88 | after the discovery merge, entry k's address is the first return value of returned call k; entries past the returned calls are unchanged; names and symbols never change; the length is kept |
| `NftList.MergeAddresses` | client/src/App.tsx:84-88 | the in-place `forEach` leaves the array equal to `WithAddresses` of its old contents; it needs no more returned calls than entries, each with a first value |
| `NftList.WithMetadata` | client/src/App.tsx:114-123 | after the metadata merge, entry i's name is call 0 and its symbol call 1 of the result keyed `i.toString()`; addresses never change; the length is kept |
| `NftList.MergeMetadata` | client/src/App.tsx:114-123 | the in-place `map` callback leaves the array equal to `WithMetadata` of its old contents over every entry; it needs every expected key and position present |
| `NftList.WithMetadataReadsOwnKeys` | client/src/App.tsx:114-123 | the merge depends only on the name and symbol under each entry's own key, so results that agree there give the same list, however the result map was assembled |
| `NftList.ReversedLength` | client/src/App.tsx:124 | reversal keeps the length |
| `NftList.ReversedAt` | client/src/App.tsx:124 | position k of the reversed list holds position N-1-k of the original |
| `NftList.ReversedTwice` | client/src/App.tsx:124 | reversing twice gives the original list (reversal is its own inverse) |
| `NftList.ReverseInPlace` | client/src/App.tsx:124 | swapping mirrored pairs in place leaves the array equal to the reversal of its old contents |
| `Effect.Aggregate` | client/src/App.tsx:52-129 | no batch is issued exactly when the guard (non-empty owner, SDK, count > 0) fails, and then the run is skipped; otherwise the first batch is the discovery context for the owner and count; a run that does not end Ready leaves the published list unchanged; a Ready run issued two batches and publishes exactly `count` entries |
| `Effect.AggregateReady` | client/src/App.tsx:84-125 | a Ready run issued the discovery batch and then the metadata plan of the discovered entries. Output position k holds the entry discovered at index N-1-k: its address from returned call N-1-k (blank if fewer came back), and its name and symbol from the result keyed `(N-1-k).toString()` |
| `Effect.AggregatePublishesExactly` | client/src/App.tsx:84-125 | once past the guard, a run publishes exactly when the factory's result is present, holds no more returned calls than entries, each with a value, and the metadata results hold every entry's key with both calls' values; a missing factory result or missing metadata ends the run in the matching failure |
| `Effect.LoadNftList` | client/src/App.tsx:52-129 | building the list in an array, merging and reversing it in place gives exactly the run `Aggregate` describes |
| `Mint.HandleMintNft` | client/src/App.tsx:131-137 | the `createNFT` write is made exactly when name, symbol and URI are all non-empty, with those three as arguments; otherwise the handler only alerts "Please fill all the fields" |
| `Stub.ExecuteAllAt` | client/src/App.tsx:111-113 | when a batch's context references are distinct, each context's returns sit under its own reference in the result map |
| `Stub.StubDiscovery` | client/src/App.tsx:81-86 | a deterministic chain answers the discovery batch with exactly N returned calls, call i giving NFT i's address |
| `Stub.StubMetadata` | client/src/App.tsx:111-122 | a deterministic chain answers the metadata plan of any list completely, entry i's key holding the name and symbol of the NFT at entry i's address |
| `Stub.RoundTrip` | client/src/App.tsx:52-125 | for every owner and count N > 0 against a deterministic chain, the run ends Ready with N entries, and NFT i's address, name and symbol reappear together at position N-1-i |
| `Stub.DistinctAddresses` | client/src/App.tsx:124-125 | when the owner's NFTs sit at distinct addresses, the published addresses are distinct |
| `Stub.TwoNftExample` | client/src/App.tsx:124-125 | an owner with NFTs `0x01` ("Foo", "FOO") and `0x02` ("Bar", "BAR") sees `[0x02 Bar BAR, 0x01 Foo FOO]` |

## Left out

- React state, hooks and rendering (the `useState`/`useContract*` hooks and the JSX). Publishing with
  `setNFTList` is the `published` field of a run; the effect's dependency list is not modelled.
- The multicall library, the thirdweb SDK and the provider: network I/O through foreign code. They are
  replaced by an executor parameter, a deterministic function from a batch to its result map. A whole-batch
  transport failure (a rejected promise) is not modelled; like any thrown error it would publish nothing.
- Overlapping runs: a run started earlier can publish after a later one. This is a concurrency race; one
  run is modelled at a time. Re-running with the same inputs and executor gives the same result because
  `Aggregate` is a function, so no lemma states it.
- The `BigNumber` count and its `toNumber()` conversion: the count is a natural number, present or absent.
- The ABI objects: a context records only which ABI it uses (`FactoryAbi` or `NftAbi`).
- Effect.Aggregate: where a returned discovery call has no first return value, the source stores
  `undefined` as the address and carries on; the model ends the run with `DiscoveryValueMissing` instead,
  because `undefined` has no counterpart among the model's strings.
- Effect.Aggregate / NftList.MergeMetadata: where a metadata call of entry i comes back without a first
  return value, the source stores `undefined` as that entry's name or symbol, then reverses and publishes the
  list; the model ends the run with `MetadataMissing` and publishes nothing, because `undefined` has no
  counterpart among the model's strings.
- The working list holds items as values in an array. The source's item objects are each created fresh by
  `Array.from` and never shared, so updating a field of an item and replacing the array element agree.
- The mint write itself, the receipt and event lookup, and the explorer-link handlers: transaction I/O,
  untyped receipt parsing and browser window calls. Only the guard in front of the write is modelled.
