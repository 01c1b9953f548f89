/** The two pluggable listener collaborators: RecordFilterStrategy (an
    abstract `filter` plus the default in-place `filterBatch`) and
    StreamEventListenerErrorHandler (an abstract list form plus the default
    single-record form). */
module Listener {
  import opened Lang
  import opened Records

  /** RecordFilterStrategy.filter; by its own documentation `true` means
      "discard this record". */
  type RecordFilter = Record -> bool

  /** The records `removeIf(filter)` leaves behind, in their original order. */
  function Retained(s: seq<Record>, discard: RecordFilter): (r: seq<Record>)
    ensures |r| <= |s|
    ensures forall x :: x in r <==> x in s && !discard(x)
  {
    if s == [] then []
    else
      var init := Retained(s[..|s| - 1], discard);
      var last := s[|s| - 1];
      assert s == s[..|s| - 1] + [last];
      if discard(last) then init else init + [last]
  }

  /** Filtering a list that starts with `x` decides `x` first, then the rest. */
  lemma {:induction false} RetainedCons(x: Record, s: seq<Record>, discard: RecordFilter)
    ensures Retained([x] + s, discard) == (if discard(x) then [] else [x]) + Retained(s, discard)
  {
    if s != [] {
      var init := s[..|s| - 1];
      RetainedCons(x, init, discard);
      assert ([x] + s)[..|[x] + s| - 1] == [x] + init;
    }
  }

  /** Exactly the discarded records go: each record that is not discarded
      keeps all its occurrences, each discarded record loses all of them. */
  lemma {:induction false} RetainedOccurrences(s: seq<Record>, discard: RecordFilter, x: Record)
    ensures multiset(Retained(s, discard))[x] == if discard(x) then 0 else multiset(s)[x]
  {
    if s != [] {
      var init := s[..|s| - 1];
      RetainedOccurrences(init, discard, x);
      assert s == init + [s[|s| - 1]];
    }
  }

  /** `r` is `s` with some elements left out and the rest in their original
      relative order, as witnessed by the strictly increasing positions `idx`. */
  ghost predicate OrderedPick(r: seq<Record>, s: seq<Record>, idx: seq<nat>) {
    && |idx| == |r|
    && (forall j :: 0 <= j < |idx| ==> idx[j] < |s| && r[j] == s[idx[j]])
    && (forall j, k :: 0 <= j < k < |idx| ==> idx[j] < idx[k])
  }

  /** The retained records keep their original relative order. */
  lemma {:induction false} RetainedInOrder(s: seq<Record>, discard: RecordFilter) returns (idx: seq<nat>)
    ensures OrderedPick(Retained(s, discard), s, idx)
  {
    if s == [] {
      idx := [];
    } else {
      var init := s[..|s| - 1];
      idx := RetainedInOrder(init, discard);
      if !discard(s[|s| - 1]) {
        idx := idx + [|s| - 1];
      }
    }
  }

  /** A filter that discards nothing leaves the list as it was. */
  lemma {:induction false} RetainedNothingDiscarded(s: seq<Record>, discard: RecordFilter)
    requires forall i :: 0 <= i < |s| ==> !discard(s[i])
    ensures Retained(s, discard) == s
  {
    if s != [] {
      RetainedNothingDiscarded(s[..|s| - 1], discard);
      assert s == s[..|s| - 1] + [s[|s| - 1]];
    }
  }

  /** A filter that discards everything leaves an empty list (never null). */
  lemma {:induction false} AllDiscarded(s: seq<Record>, discard: RecordFilter)
    requires forall i :: 0 <= i < |s| ==> discard(s[i])
    ensures Retained(s, discard) == []
  {
    if s != [] {
      AllDiscarded(s[..|s| - 1], discard);
    }
  }

  /** A mutable java.util.List of records. */
  class RecordList {
    var items: seq<Record>

    constructor (items0: seq<Record>)
      ensures items == items0
    {
      items := items0;
    }
  }

  /** The default filterBatch: `records.removeIf(filter)`, then the very same
      list object is returned. */
  method FilterBatch(discard: RecordFilter, records: RecordList) returns (r: RecordList)
    modifies records
    ensures r == records
    ensures records.items == Retained(old(records.items), discard)
  {
    var s := records.items;
    var kept := [];
    var i := 0;
    while i < |s|
      invariant 0 <= i <= |s|
      invariant kept == Retained(s[..i], discard)
    {
      assert s[..i + 1][..i] == s[..i];
      if !discard(s[i]) {
        kept := kept + [s[i]];
      }
      i := i + 1;
    }
    assert s[..|s|] == s;
    records.items := kept;
    r := records;
  }

  /** What an error handler hands back: the Object it returns (standing for
      any value; the engine ignores it) or the runtime exception it throws. */
  datatype ErrorReply = Answered(value: int) | Rethrew(ex: Exception)

  /** StreamEventListenerErrorHandler, over the endpoint type `E`: the
      implementer supplies only the list form. */
  datatype ErrorHandler<!E> = ErrorHandler(handleList: (seq<Record>, Exception, E) -> ErrorReply)
  {
    /** The default single-record form: the list form on a one-element list
        holding exactly that record, with the same exception and endpoint;
        its answer is returned as is. */
    function HandleRecord(record: Record, ex: Exception, endpoint: E): ErrorReply {
      handleList([record], ex, endpoint)
    }
  }
}
