/** Sorting by a total order: what `sort_by` leaves behind. */
module Sorting {

  ghost predicate Total<T(!new)>(le: (T, T) -> bool) {
    && (forall a, b :: le(a, b) || le(b, a))
    && (forall a, b, c :: le(a, b) && le(b, c) ==> le(a, c))
  }

  predicate Ordered<T>(s: seq<T>, le: (T, T) -> bool) {
    forall i, j :: 0 <= i < j < |s| ==> le(s[i], s[j])
  }

  function Insert<T>(x: T, s: seq<T>, le: (T, T) -> bool): seq<T> {
    if s == [] then [x]
    else if le(x, s[0]) then [x] + s
    else [s[0]] + Insert(x, s[1..], le)
  }

  function Sort<T>(s: seq<T>, le: (T, T) -> bool): seq<T> {
    if s == [] then [] else Insert(s[0], Sort(s[1..], le), le)
  }

  lemma OrderedCons<T>(x: T, s: seq<T>, le: (T, T) -> bool)
    requires Ordered(s, le) && forall y :: y in s ==> le(x, y)
    ensures Ordered([x] + s, le)
  {
  }

  lemma {:induction false} InsertSorts<T(!new)>(x: T, s: seq<T>, le: (T, T) -> bool)
    requires Total(le) && Ordered(s, le)
    ensures Ordered(Insert(x, s, le), le)
    ensures multiset(Insert(x, s, le)) == multiset(s) + multiset{x}
  {
    if s == [] {
    } else if le(x, s[0]) {
      forall y | y in s ensures le(x, y) {
        var i :| 0 <= i < |s| && s[i] == y;
        assert i > 0 ==> le(s[0], y);
      }
      hide Ordered, Total;
      OrderedCons(x, s, le);
    } else {
      var first, rest := s[0], s[1..];
      assert s == [first] + rest;
      InsertSorts(x, rest, le);
      var more := Insert(x, rest, le);
      assert le(first, x);
      assert forall y :: y in rest ==> le(first, y);
      forall y | y in more ensures le(first, y) {
        assert y in multiset(more);
      }
      hide Ordered, Total;
      OrderedCons(first, more, le);
    }
  }

  /** A sorted permutation. */
  lemma {:induction false} SortSorts<T(!new)>(s: seq<T>, le: (T, T) -> bool)
    requires Total(le)
    ensures Ordered(Sort(s, le), le) && multiset(Sort(s, le)) == multiset(s) && |Sort(s, le)| == |s|
  {
    assert |multiset(Sort(s, le))| == |Sort(s, le)|;
    if s != [] {
      hide Ordered, Total, Insert;
      SortSorts(s[1..], le);
      InsertSorts(s[0], Sort(s[1..], le), le);
      assert s == [s[0]] + s[1..];
    }
  }
}
