/** The three list queries the engine uses: `List<T>.Find`, the index that
    `List<T>.IndexOf` yields for a first match, and LINQ `Where`. */
module Lists {
  import opened Wrappers

  /** Index of the first element satisfying `p`, or None when none does. */
  function FirstIndex<T>(s: seq<T>, p: T -> bool): (r: Option<nat>)
    ensures r.Some? ==> r.value < |s| && p(s[r.value])
    ensures r.Some? ==> forall j :: 0 <= j < r.value ==> !p(s[j])
    ensures r.None? ==> forall j :: 0 <= j < |s| ==> !p(s[j])
  {
    if |s| == 0 then None
    else if p(s[0]) then Some(0)
    else match FirstIndex(s[1..], p)
      case None => None
      case Some(i) => Some(i + 1)
  }

  /** `List<T>.Find`: the first element satisfying `p`; None plays `default(T)`. */
  function Find<T(==)>(s: seq<T>, p: T -> bool): (r: Option<T>)
    ensures r.None? <==> forall j :: 0 <= j < |s| ==> !p(s[j])
    ensures r.Some? ==> p(r.value)
    ensures r.Some? ==> FirstIndex(s, p).Some? && r.value == s[FirstIndex(s, p).value]
  {
    if |s| == 0 then None
    else if p(s[0]) then Some(s[0])
    else Find(s[1..], p)
  }

  /** LINQ `Where(p).ToList()`: the elements satisfying `p`, in their order. */
  function Filter<T>(s: seq<T>, p: T -> bool): (r: seq<T>)
    ensures |r| <= |s|
  {
    if |s| == 0 then []
    else if p(s[0]) then [s[0]] + Filter(s[1..], p)
    else Filter(s[1..], p)
  }

  /** A `for` loop over a list as a fold: `f` applied to each element and
      its position, positions counted from `from`, results in order. */
  function MapWithIndex<A, B>(s: seq<A>, f: (A, nat) -> B, from: nat): (r: seq<B>)
    ensures |r| == |s|
    ensures forall i :: 0 <= i < |s| ==> r[i] == f(s[i], from + i)
  {
    if |s| == 0 then []
    else [f(s[0], from)] + MapWithIndex(s[1..], f, from + 1)
  }

  /** Exactly the elements satisfying `p` survive the filter. */
  lemma {:induction false} FilterMembers<T>(s: seq<T>, p: T -> bool)
    ensures forall x :: x in Filter(s, p) <==> x in s && p(x)
  {
    if |s| > 0 {
      FilterMembers(s[1..], p);
      assert s == [s[0]] + s[1..];
    }
  }

  /** The filter keeps every surviving element as often as the input holds
      it, and drops the others entirely. */
  lemma {:induction false} FilterCounts<T>(s: seq<T>, p: T -> bool)
    ensures forall x :: multiset(Filter(s, p))[x] == if p(x) then multiset(s)[x] else 0
  {
    if |s| > 0 {
      FilterCounts(s[1..], p);
      assert s == [s[0]] + s[1..];
    }
  }

  /** Filtering distributes over concatenation: what survives from an
      earlier part of the list comes before what survives from a later one. */
  lemma {:induction false} FilterAppend<T>(a: seq<T>, b: seq<T>, p: T -> bool)
    ensures Filter(a + b, p) == Filter(a, p) + Filter(b, p)
  {
    if |a| > 0 {
      assert (a + b)[0] == a[0];
      assert (a + b)[1..] == a[1..] + b;
      FilterAppend(a[1..], b, p);
    } else {
      assert a + b == b;
    }
  }

  /** A one-element list survives whole or not at all. */
  lemma FilterSingle<T>(x: T, p: T -> bool)
    ensures Filter([x], p) == if p(x) then [x] else []
  {
    assert [x][1..] == [];
  }

  /** Searching a filtered list for something the filter always keeps finds
      the same element as searching the whole list. */
  lemma {:induction false} FindThroughFilter<T>(s: seq<T>, keep: T -> bool, p: T -> bool)
    requires forall x :: p(x) ==> keep(x)
    ensures Find(Filter(s, keep), p) == Find(s, p)
  {
    if |s| == 0 {
    } else if p(s[0]) {
      assert Filter(s, keep) == [s[0]] + Filter(s[1..], keep);
    } else {
      FindThroughFilter(s[1..], keep, p);
      if keep(s[0]) {
        var f := [s[0]] + Filter(s[1..], keep);
        assert f[1..] == Filter(s[1..], keep);
      }
    }
  }
}
