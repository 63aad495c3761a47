/**
 * The array operations the components chain together: `filter`, `find` and `sort` with a
 * comparator. `sort` is modelled as an insertion sort under a "may come before" relation;
 * it is specified by sortedness and by being a permutation of its input.
 */
module Lists {
  import opened Wrappers

  /** `before` orders every pair and is transitive. */
  ghost predicate TotalPreorder<T(!new)>(before: (T, T) -> bool) {
    && (forall a, b :: before(a, b) || before(b, a))
    && (forall a, b, c :: before(a, b) && before(b, c) ==> before(a, c))
  }

  /** Every element may come before every later one. */
  ghost predicate SortedBy<T>(s: seq<T>, before: (T, T) -> bool) {
    forall i, j :: 0 <= i < j < |s| ==> before(s[i], s[j])
  }

  /** `s.filter(keep)`: the kept elements, in their original order. */
  function Filter<T(!new)>(s: seq<T>, keep: T -> bool): (r: seq<T>)
    ensures |r| <= |s|
    ensures forall i :: 0 <= i < |r| ==> keep(r[i])
  {
    if s == [] then []
    else
      var rest := Filter(s[1..], keep);
      if keep(s[0]) then [s[0]] + rest else rest
  }

  /** `filter` keeps each element that passes as often as it occurs, and drops every other one. */
  lemma {:induction false} FilterCounts<T(!new)>(s: seq<T>, keep: T -> bool)
    ensures forall x :: multiset(Filter(s, keep))[x] == if keep(x) then multiset(s)[x] else 0
  {
    if s != [] {
      FilterCounts(s[1..], keep);
      assert s == [s[0]] + s[1..];
    }
  }

  /**
   * `idx` lists, in strictly increasing order, positions of `s` whose elements make up `r`:
   * `r` is a subsequence of `s`.
   */
  ghost predicate PicksInOrder<T>(r: seq<T>, s: seq<T>, idx: seq<nat>) {
    && |idx| == |r|
    && (forall i :: 0 <= i < |idx| ==> idx[i] < |s| && r[i] == s[idx[i]])
    && (forall i, j :: 0 <= i < j < |idx| ==> idx[i] < idx[j])
  }

  /** `r` picks, in order, exactly the positions of `s` whose elements pass `keep`. */
  ghost predicate PicksPassing<T>(r: seq<T>, s: seq<T>, keep: T -> bool, idx: seq<nat>) {
    && PicksInOrder(r, s, idx)
    && forall k :: 0 <= k < |s| ==> (keep(s[k]) <==> k in idx)
  }

  /** Every position moved one further on, as prepending an element does. */
  function Shifted(idx: seq<nat>): (r: seq<nat>)
    ensures |r| == |idx| && forall i :: 0 <= i < |idx| ==> r[i] == idx[i] + 1
  {
    seq(|idx|, i requires 0 <= i < |idx| => idx[i] + 1)
  }

  lemma ShiftedMembers(idx: seq<nat>, k: nat)
    ensures k + 1 in Shifted(idx) <==> k in idx
    ensures 0 !in Shifted(idx)
  {
    if k in idx {
      var i :| 0 <= i < |idx| && idx[i] == k;
      assert Shifted(idx)[i] == k + 1;
    }
  }

  /** Prepending an element keeps a picking, shifted by one, with or without that element. */
  lemma PicksAfterPrepend<T>(x: T, r: seq<T>, t: seq<T>, idx: seq<nat>)
    requires PicksInOrder(r, t, idx)
    ensures PicksInOrder(r, [x] + t, Shifted(idx))
    ensures PicksInOrder([x] + r, [x] + t, [0] + Shifted(idx))
  {
  }

  /** The passing positions of `[x] + t` are those of `t` moved one on, and 0 if `x` passes. */
  lemma PassingPositionsAfterPrepend<T>(x: T, t: seq<T>, keep: T -> bool, ridx: seq<nat>, idx: seq<nat>)
    requires forall k :: 0 <= k < |t| ==> (keep(t[k]) <==> k in ridx)
    requires idx == if keep(x) then [0] + Shifted(ridx) else Shifted(ridx)
    ensures forall k :: 0 <= k < |[x] + t| ==> (keep(([x] + t)[k]) <==> k in idx)
  {
    forall k | 0 <= k < |[x] + t| ensures keep(([x] + t)[k]) <==> k in idx {
      if k == 0 {
        ShiftedMembers(ridx, 0);
      } else {
        ShiftedMembers(ridx, k - 1);
        assert ([x] + t)[k] == t[k - 1];
      }
    }
  }

  /** `filter` keeps the order: its result is the subsequence of `s` made of the passing elements. */
  lemma {:induction false} FilterKeepsOrder<T(!new)>(s: seq<T>, keep: T -> bool)
    ensures exists idx :: PicksPassing(Filter(s, keep), s, keep, idx)
  {
    if s == [] {
      assert PicksPassing(Filter(s, keep), s, keep, []);
    } else {
      var t := s[1..];
      assert s == [s[0]] + t;
      FilterKeepsOrder(t, keep);
      var ridx :| PicksPassing(Filter(t, keep), t, keep, ridx);
      var idx := if keep(s[0]) then [0] + Shifted(ridx) else Shifted(ridx);
      PicksAfterPrepend(s[0], Filter(t, keep), t, ridx);
      PassingPositionsAfterPrepend(s[0], t, keep, ridx, idx);
      assert PicksPassing(Filter(s, keep), s, keep, idx);
    }
  }

  /** Filtering with a test every element passes keeps the whole sequence. */
  lemma {:induction false} FilterAll<T(!new)>(s: seq<T>, keep: T -> bool)
    requires forall i :: 0 <= i < |s| ==> keep(s[i])
    ensures Filter(s, keep) == s
  {
    if s != [] {
      FilterAll(s[1..], keep);
    }
  }

  /** Filtering a sequence with one more element at the end filters the prefix and then that element. */
  lemma {:induction false} FilterAppend<T(!new)>(s: seq<T>, x: T, keep: T -> bool)
    ensures Filter(s + [x], keep) == Filter(s, keep) + (if keep(x) then [x] else [])
  {
    if s == [] {
      assert [] + [x] == [x];
      assert [x][1..] == [];
    } else {
      assert (s + [x])[1..] == s[1..] + [x];
      FilterAppend(s[1..], x, keep);
    }
  }

  /** `s.findIndex(p)`, as `find` uses it: the first position whose element passes `p`. */
  function FindIndex<T>(s: seq<T>, p: T -> bool): (r: Option<nat>)
    ensures r.Some? ==> r.value < |s| && p(s[r.value]) && forall j :: 0 <= j < r.value ==> !p(s[j])
    ensures r.None? ==> forall j :: 0 <= j < |s| ==> !p(s[j])
  {
    if s == [] then None
    else if p(s[0]) then Some(0)
    else
      match FindIndex(s[1..], p)
      case None => None
      case Some(k) => Some(k + 1)
  }

  /** Lookups whose predicates agree position by position stop at the same position. */
  lemma FindIndexAgrees<T, U>(s: seq<T>, t: seq<U>, p: T -> bool, q: U -> bool)
    requires |s| == |t|
    requires forall i :: 0 <= i < |s| ==> (p(s[i]) <==> q(t[i]))
    ensures FindIndex(s, p) == FindIndex(t, q)
  {
    var a, b := FindIndex(s, p), FindIndex(t, q);
    if a.Some? {
      assert q(t[a.value]);
    }
    if b.Some? {
      assert p(s[b.value]);
    }
  }

  /** `s.find(p)`: the first element that passes `p`, or `undefined`. */
  function Find<T>(s: seq<T>, p: T -> bool): (r: Option<T>)
    ensures r.Some? <==> exists j :: 0 <= j < |s| && p(s[j])
    ensures r.Some? ==> r.value in s && p(r.value)
    ensures r.Some? ==> exists j :: 0 <= j < |s| && r.value == s[j] && forall k :: 0 <= k < j ==> !p(s[k])
  {
    match FindIndex(s, p)
    case None => None
    case Some(k) => Some(s[k])
  }

  /** Places `x` before the first element it may precede. */
  function Insert<T>(x: T, s: seq<T>, before: (T, T) -> bool): (r: seq<T>)
    ensures |r| == |s| + 1
    ensures multiset(r) == multiset(s) + multiset{x}
  {
    if s == [] then [x]
    else if before(x, s[0]) then [x] + s
    else
      assert s == [s[0]] + s[1..];
      [s[0]] + Insert(x, s[1..], before)
  }

  /** `s.sort(comparator)`, with `before(a, b)` meaning that `a` may be placed ahead of `b`. */
  function Sort<T>(s: seq<T>, before: (T, T) -> bool): (r: seq<T>)
    ensures |r| == |s|
    ensures multiset(r) == multiset(s)
  {
    if s == [] then []
    else
      assert s == [s[0]] + s[1..];
      Insert(s[0], Sort(s[1..], before), before)
  }

  lemma {:induction false} InsertSorted<T(!new)>(x: T, s: seq<T>, before: (T, T) -> bool)
    requires TotalPreorder(before) && SortedBy(s, before)
    ensures SortedBy(Insert(x, s, before), before)
  {
    if s != [] && !before(x, s[0]) {
      InsertSorted(x, s[1..], before);
      var r := Insert(x, s, before);
      assert before(s[0], x);
      forall j | 1 <= j < |r| ensures before(s[0], r[j]) {
        assert r[j] in multiset(Insert(x, s[1..], before));
        var k :| 0 <= k < |s| && (r[j] == x || r[j] == s[k]);
        if r[j] != x {
          assert r[j] in multiset(s[1..]);
          var m :| 0 <= m < |s[1..]| && s[1..][m] == r[j];
          assert s[m + 1] == r[j];
        }
      }
    }
  }

  /** The sorted sequence respects `before` everywhere, whatever the input order. */
  lemma {:induction false} SortSorted<T(!new)>(s: seq<T>, before: (T, T) -> bool)
    requires TotalPreorder(before)
    ensures SortedBy(Sort(s, before), before)
  {
    if s != [] {
      SortSorted(s[1..], before);
      InsertSorted(s[0], Sort(s[1..], before), before);
    }
  }
}
