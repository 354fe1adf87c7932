/** The working list of the NFT list refresh (client/src/App.tsx): the entries,
    the two merges that fill them in place from batch results, and the in-place
    reversal. Each method is proved against a function on the list's contents. */
module NftList {
  import opened Decimal
  import opened Multicall

  /** An `NFTListItem`. */
  datatype Item = Item(address: string, name: string, symbol: string)

  const BlankItem: Item := Item("", "", "")

  /** The freshly built working list: `length` entries with every field empty. */
  function Blank(length: nat): (r: seq<Item>)
    ensures |r| == length
    ensures forall i :: 0 <= i < length ==> r[i] == BlankItem
  {
    seq(length, _ => BlankItem)
  }

  /** Every returned discovery call carries a first return value. */
  predicate HasFirstValues(returned: seq<CallReturn>) {
    forall k :: 0 <= k < |returned| ==> |returned[k].returnValues| > 0
  }

  /** The list after the discovery merge: returned call k, in return order, sets
      entry k's address to its first return value. Built one returned call at a
      time, as the source's `forEach` does. */
  function WithAddresses(items: seq<Item>, returned: seq<CallReturn>): (r: seq<Item>)
    requires |returned| <= |items| && HasFirstValues(returned)
    ensures |r| == |items|
    ensures forall i :: 0 <= i < |r| ==> r[i].name == items[i].name && r[i].symbol == items[i].symbol
    ensures forall i :: 0 <= i < |returned| ==> r[i].address == returned[i].returnValues[0]
    ensures forall i :: |returned| <= i < |r| ==> r[i] == items[i]
    decreases |returned|
  {
    if returned == [] then items
    else
      var k := |returned| - 1;
      var before := WithAddresses(items, returned[..k]);
      before[k := before[k].(address := returned[k].returnValues[0])]
  }

  /** The metadata result for entry i is present: a context keyed `i.toString()`
      whose first two call returns each carry a first return value. */
  predicate HasMetadata(results: BatchResult, i: nat) {
    DecimalString(i) in results && |results[DecimalString(i)]| >= 2 &&
    |results[DecimalString(i)][0].returnValues| > 0 &&
    |results[DecimalString(i)][1].returnValues| > 0
  }

  predicate MetadataComplete(results: BatchResult, n: nat) {
    forall i: nat :: i < n ==> HasMetadata(results, i)
  }

  /** Entry i's name: call 0 of the context referenced `i.toString()`. */
  function NameOf(results: BatchResult, i: nat): string
    requires HasMetadata(results, i)
  {
    results[DecimalString(i)][0].returnValues[0]
  }

  /** Entry i's symbol: call 1 of the context referenced `i.toString()`. */
  function SymbolOf(results: BatchResult, i: nat): string
    requires HasMetadata(results, i)
  {
    results[DecimalString(i)][1].returnValues[0]
  }

  /** The list after the metadata merge of its first n entries: entry i takes its
      name and symbol from the results keyed by i; addresses never change.
      Built one index at a time, as the source's `map` callback does. */
  function WithMetadata(items: seq<Item>, results: BatchResult, n: nat): (r: seq<Item>)
    requires n <= |items| && MetadataComplete(results, n)
    ensures |r| == |items|
    ensures forall i :: 0 <= i < |r| ==> r[i].address == items[i].address
    ensures forall i :: 0 <= i < n ==> r[i].name == NameOf(results, i) && r[i].symbol == SymbolOf(results, i)
    ensures forall i :: n <= i < |r| ==> r[i] == items[i]
    decreases n
  {
    if n == 0 then items
    else
      var before := WithMetadata(items, results, n - 1);
      before[n - 1 := before[n - 1].(name := NameOf(results, n - 1), symbol := SymbolOf(results, n - 1))]
  }

  /** The metadata merge reads the results only through the name and symbol keyed
      by each merged entry's index, so results that agree there give the same list,
      whatever else they hold and in whatever order they were assembled. */
  lemma WithMetadataReadsOwnKeys(items: seq<Item>, r1: BatchResult, r2: BatchResult, n: nat)
    requires n <= |items| && MetadataComplete(r1, n) && MetadataComplete(r2, n)
    requires forall i: nat :: i < n ==> NameOf(r1, i) == NameOf(r2, i) && SymbolOf(r1, i) == SymbolOf(r2, i)
    ensures WithMetadata(items, r1, n) == WithMetadata(items, r2, n)
  {
  }

  /** The sequence in the opposite order. */
  function Reversed(s: seq<Item>): seq<Item>
    decreases |s|
  {
    if s == [] then [] else [s[|s| - 1]] + Reversed(s[..|s| - 1])
  }

  /** Position k of the reversed sequence holds position |s|-1-k of the original. */
  lemma {:induction false} ReversedAt(s: seq<Item>, k: nat)
    requires k < |s|
    ensures |Reversed(s)| == |s| && Reversed(s)[k] == s[|s| - 1 - k]
    decreases |s|
  {
    if k == 0 {
      ReversedLength(s[..|s| - 1]);
    } else {
      ReversedAt(s[..|s| - 1], k - 1);
    }
  }

  lemma {:induction false} ReversedLength(s: seq<Item>)
    ensures |Reversed(s)| == |s|
    decreases |s|
  {
    if s != [] {
      ReversedLength(s[..|s| - 1]);
    }
  }

  /** Reversing twice gives the original back. */
  lemma ReversedTwice(s: seq<Item>)
    ensures Reversed(Reversed(s)) == s
  {
    ReversedLength(s);
    ReversedLength(Reversed(s));
    forall k | 0 <= k < |s| ensures Reversed(Reversed(s))[k] == s[k] {
      ReversedAt(Reversed(s), k);
      ReversedAt(s, |s| - 1 - k);
    }
  }

  /** The discovery merge in place: the source's `forEach` over the returned calls. */
  method MergeAddresses(list: array<Item>, returned: seq<CallReturn>)
    requires |returned| <= list.Length && HasFirstValues(returned)
    modifies list
    ensures list[..] == WithAddresses(old(list[..]), returned)
  {
    var i := 0;
    while i < |returned|
      invariant 0 <= i <= |returned|
      invariant list[..] == WithAddresses(old(list[..]), returned[..i])
    {
      assert returned[..i + 1][..i] == returned[..i];
      list[i] := list[i].(address := returned[i].returnValues[0]);
      i := i + 1;
    }
    assert returned[..i] == returned;
  }

  /** The metadata merge in place: the source's `map` callback over every entry. */
  method MergeMetadata(list: array<Item>, results: BatchResult)
    requires MetadataComplete(results, list.Length)
    modifies list
    ensures list[..] == WithMetadata(old(list[..]), results, list.Length)
  {
    var i := 0;
    while i < list.Length
      invariant 0 <= i <= list.Length
      invariant list[..] == WithMetadata(old(list[..]), results, i)
    {
      list[i] := list[i].(name := NameOf(results, i), symbol := SymbolOf(results, i));
      i := i + 1;
    }
  }

  /** `Array.prototype.reverse`: swaps mirrored pairs from the ends inwards. */
  method ReverseInPlace(list: array<Item>)
    modifies list
    ensures list[..] == Reversed(old(list[..]))
  {
    var n := list.Length;
    var lo := 0;
    while lo < n / 2
      invariant 0 <= lo <= n / 2
      invariant forall k :: 0 <= k < lo ==> list[k] == old(list[n - 1 - k]) && list[n - 1 - k] == old(list[k])
      invariant forall k :: lo <= k < n - lo ==> list[k] == old(list[k])
    {
      list[lo], list[n - 1 - lo] := list[n - 1 - lo], list[lo];
      lo := lo + 1;
    }
    ghost var original := old(list[..]);
    ReversedLength(original);
    forall k | 0 <= k < n ensures list[..][k] == Reversed(original)[k] {
      ReversedAt(original, k);
    }
  }
}
