/** Lists as the panels hold them: filtering, searching, and the status that hides an entry. */
module Listing {
  import opened Text

  function Filter<T>(xs: seq<T>, keep: T -> bool): (r: seq<T>)
    ensures forall x :: x in r ==> x in xs && keep(x)
    ensures forall x :: x in xs && keep(x) ==> x in r
    ensures (forall x :: x in xs ==> keep(x)) ==> r == xs
  {
    if xs == [] then []
    else
      var n := |xs| - 1;
      assert xs == xs[..n] + [xs[n]];
      Filter(xs[..n], keep) + (if keep(xs[n]) then [xs[n]] else [])
  }

  /** `xs.find(wanted) ?? null`. */
  function Find<T>(xs: seq<T>, wanted: T -> bool): (r: Option<T>)
    ensures r.Some? ==> r.value in xs && wanted(r.value)
    ensures r.None? ==> forall x :: x in xs ==> !wanted(x)
  {
    if xs == [] then None else if wanted(xs[0]) then Some(xs[0]) else Find(xs[1..], wanted)
  }

  /** The element found, else the first, else nothing. */
  function FindOrFirst<T>(xs: seq<T>, wanted: T -> bool): Option<T> {
    if Find(xs, wanted).Some? then Find(xs, wanted) else if xs == [] then None else Some(xs[0])
  }

  predicate Deleted(status: string) {
    LowerText(status) == "deleted"
  }

  // ---------------------------------------------------------------- order

  /** Filtering goes through a list from its start: it keeps the order. */
  lemma {:induction false} FilterConcat<T>(xs: seq<T>, ys: seq<T>, keep: T -> bool)
    ensures Filter(xs + ys, keep) == Filter(xs, keep) + Filter(ys, keep)
    decreases |ys|
  {
    if ys == [] {
      assert xs + ys == xs;
    } else {
      var n := |ys| - 1;
      FilterConcat(xs, ys[..n], keep);
      assert (xs + ys)[..|xs + ys| - 1] == xs + ys[..n];
    }
  }

  predicate FirstAt<T>(xs: seq<T>, wanted: T -> bool, i: nat) {
    i < |xs| && wanted(xs[i]) && forall j :: 0 <= j < i ==> !wanted(xs[j])
  }

  /** What is found is the first one. */
  lemma {:induction false} FindIsFirst<T>(xs: seq<T>, wanted: T -> bool) returns (i: nat)
    ensures Find(xs, wanted).Some? ==> FirstAt(xs, wanted, i) && Find(xs, wanted) == Some(xs[i])
  {
    i := 0;
    if xs != [] && !wanted(xs[0]) {
      var k := FindIsFirst(xs[1..], wanted);
      i := k + 1;
    }
  }

  lemma {:induction false} FindConcat<T>(xs: seq<T>, ys: seq<T>, wanted: T -> bool)
    ensures Find(xs + ys, wanted) == if Find(xs, wanted).Some? then Find(xs, wanted) else Find(ys, wanted)
  {
    if xs == [] {
      assert xs + ys == ys;
    } else {
      FindConcat(xs[1..], ys, wanted);
      assert (xs + ys)[1..] == xs[1..] + ys;
    }
  }

  /** Searching a filtered list finds the first entry that is kept and wanted. */
  lemma {:induction false} FindInFilter<T>(xs: seq<T>, keep: T -> bool, wanted: T -> bool, both: T -> bool)
    requires forall x :: x in xs ==> (both(x) <==> keep(x) && wanted(x))
    ensures Find(Filter(xs, keep), wanted) == Find(xs, both)
  {
    if xs != [] {
      var n := |xs| - 1;
      assert xs == xs[..n] + [xs[n]];
      FindInFilter(xs[..n], keep, wanted, both);
      FindConcat(xs[..n], [xs[n]], both);
      FindConcat(Filter(xs[..n], keep), if keep(xs[n]) then [xs[n]] else [], wanted);
      assert Find([xs[n]], both) == if both(xs[n]) then Some(xs[n]) else None;
    }
  }

  /** Entry `i` is the one a selection falls on: the first offered one that is wanted, or the first offered one
      when none is wanted. */
  predicate PickedAt<T>(xs: seq<T>, offered: T -> bool, wanted: T -> bool, i: nat) {
    && i < |xs| && offered(xs[i])
    && if exists j :: 0 <= j < |xs| && offered(xs[j]) && wanted(xs[j])
       then wanted(xs[i]) && forall j :: 0 <= j < i ==> !(offered(xs[j]) && wanted(xs[j]))
       else forall j :: 0 <= j < i ==> !offered(xs[j])
  }

  /** Where the selection among the offered entries falls. */
  lemma SelectionIsPicked<T>(xs: seq<T>, offered: T -> bool, wanted: T -> bool) returns (i: nat)
    ensures var r := FindOrFirst(Filter(xs, offered), wanted);
      if r.Some? then PickedAt(xs, offered, wanted, i) && r.value == xs[i] else forall x :: x in xs ==> !offered(x)
  {
    var both := (x: T) => offered(x) && wanted(x);
    FindInFilter(xs, offered, wanted, both);
    i := FindIsFirst(xs, both);
    if Find(xs, both).None? {
      forall j | 0 <= j < |xs| ensures !(offered(xs[j]) && wanted(xs[j])) {
        assert xs[j] in xs;
      }
      i := FirstKept(xs, offered);
    }
  }

  lemma FirstKept<T>(xs: seq<T>, keep: T -> bool) returns (i: nat)
    ensures Filter(xs, keep) != [] ==> FirstAt(xs, keep, i) && Filter(xs, keep)[0] == xs[i]
  {
    var any := (x: T) => true;
    FindInFilter(xs, keep, any, keep);
    i := FindIsFirst(xs, keep);
  }
}
