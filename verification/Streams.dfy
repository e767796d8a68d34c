/** Result streams: where the result loop cuts them off, and how the results of several streams
    share one channel. */
module Streams {
  import opened Apollows

  /** The results up to and including the first that carries errors. */
  function UpToErrors(results: seq<Outcome>): seq<Outcome> {
    if results == [] then []
    else if results[0].errors then [results[0]]
    else [results[0]] + UpToErrors(results[1..])
  }

  /** The streams one after the other, each up to its first errors. */
  function Flat(streams: seq<seq<Outcome>>): seq<Outcome> {
    if streams == [] then []
    else Flat(streams[..|streams| - 1]) + UpToErrors(streams[|streams| - 1])
  }

  lemma FlatOfOne(stream: seq<Outcome>)
    ensures Flat([stream]) == UpToErrors(stream)
  {
    assert [stream][..0] == [];
  }

  /** The results that `order` attributes to source k, in order. */
  function Picked(results: seq<Outcome>, order: seq<nat>, k: nat): seq<Outcome>
    requires |results| == |order|
  {
    if results == [] then []
    else
      var last := |results| - 1;
      Picked(results[..last], order[..last], k) + (if order[last] == k then [results[last]] else [])
  }

  lemma PickedAppend(results: seq<Outcome>, order: seq<nat>, x: Outcome, source: nat, k: nat)
    requires |results| == |order|
    ensures Picked(results + [x], order + [source], k) == Picked(results, order, k) + (if source == k then [x] else [])
  {
    assert (results + [x])[..|results|] == results && (order + [source])[..|order|] == order;
  }

  lemma {:induction false} PickedNone(results: seq<Outcome>, order: seq<nat>, k: nat)
    requires |results| == |order| && k !in order
    ensures Picked(results, order, k) == []
  {
    if results != [] { PickedNone(results[..|results| - 1], order[..|results| - 1], k); }
  }

  /** `results` interleaves `parts`, as `order` tells. */
  predicate Interleaves(results: seq<Outcome>, order: seq<nat>, parts: seq<seq<Outcome>>) {
    && |results| == |order|
    && (forall j :: 0 <= j < |order| ==> order[j] < |parts|)
    && (forall k :: 0 <= k < |parts| ==> Picked(results, order, k) == parts[k])
  }

  lemma InterleavesMore(results: seq<Outcome>, order: seq<nat>, parts: seq<seq<Outcome>>, x: Outcome, source: nat)
    requires Interleaves(results, order, parts) && source < |parts|
    ensures Interleaves(results + [x], order + [source], parts[source := parts[source] + [x]])
  {
    forall k | 0 <= k < |parts|
      ensures Picked(results + [x], order + [source], k) == parts[source := parts[source] + [x]][k]
    {
      PickedAppend(results, order, x, source, k);
    }
  }

  lemma InterleavesNew(results: seq<Outcome>, order: seq<nat>, parts: seq<seq<Outcome>>)
    requires Interleaves(results, order, parts)
    ensures Interleaves(results, order, parts + [[]])
  {
    PickedNone(results, order, |parts|);
  }

  function Concat(parts: seq<seq<Outcome>>): seq<Outcome> {
    if parts == [] then [] else Concat(parts[..|parts| - 1]) + parts[|parts| - 1]
  }

  lemma ConcatNew(parts: seq<seq<Outcome>>, part: seq<Outcome>)
    ensures Concat(parts + [part]) == Concat(parts) + part
  {
    assert (parts + [part])[..|parts|] == parts;
  }

  lemma ConcatMore(parts: seq<seq<Outcome>>, x: Outcome)
    requires parts != []
    ensures var last := |parts| - 1; Concat(parts[last := parts[last] + [x]]) == Concat(parts) + [x]
  {
    var last := |parts| - 1;
    assert parts[last := parts[last] + [x]][..last] == parts[..last];
  }

  lemma {:induction false} ConcatIsFlat(parts: seq<seq<Outcome>>, streams: seq<seq<Outcome>>)
    requires |parts| == |streams| && forall k :: 0 <= k < |parts| ==> parts[k] == UpToErrors(streams[k])
    ensures Concat(parts) == Flat(streams)
  {
    if parts != [] { ConcatIsFlat(parts[..|parts| - 1], streams[..|parts| - 1]); }
  }
}
