// `recs.sort((a, b) => b.ev - a.ev)` and its siblings: the recommendation
// lists are put in descending order of a numeric key by the runtime's
// stable sort.

module Ordering {

  predicate SortedDesc<T>(s: seq<T>, key: T -> real)
  {
    forall i, j :: 0 <= i < j < |s| ==> key(s[i]) >= key(s[j])
  }

  /** Puts `x` after every element whose key is at least its own. */
  function Insert<T>(sorted: seq<T>, x: T, key: T -> real): (r: seq<T>)
    requires SortedDesc(sorted, key)
    ensures SortedDesc(r, key)
    ensures forall i :: 0 <= i < |r| ==> r[i] in sorted || r[i] == x
    ensures multiset(r) == multiset(sorted) + multiset{x}
  {
    if sorted == [] then [x]
    else
      var last := sorted[|sorted| - 1];
      var init := sorted[..|sorted| - 1];
      assert sorted == init + [last];
      AboveLast(init, last, key);
      if key(last) >= key(x) then
        AppendBelow(sorted, x, key);
        sorted + [x]
      else
        var front := Insert(init, x, key);
        AllAbove(front, init, x, last, key);
        AppendBelow(front, last, key);
        front + [last]
  }

  /** Every element before the last of a descending list has at least the last one's key. */
  lemma AboveLast<T>(init: seq<T>, last: T, key: T -> real)
    requires SortedDesc(init + [last], key)
    ensures SortedDesc(init, key)
    ensures forall y :: y in init ==> key(y) >= key(last)
  {
    var s := init + [last];
    forall y | y in init
      ensures key(y) >= key(last)
    {
      var k :| 0 <= k < |init| && init[k] == y;
      assert s[k] == y && s[|init|] == last;
    }
    forall i, j | 0 <= i < j < |init|
      ensures key(init[i]) >= key(init[j])
    {
      assert s[i] == init[i] && s[j] == init[j];
    }
  }

  /** Elements drawn from `init` and `x`, all keyed at least as high as `last`. */
  lemma AllAbove<T>(front: seq<T>, init: seq<T>, x: T, last: T, key: T -> real)
    requires forall i :: 0 <= i < |front| ==> front[i] in init || front[i] == x
    requires forall y :: y in init ==> key(y) >= key(last)
    requires key(x) >= key(last)
    ensures forall i :: 0 <= i < |front| ==> key(front[i]) >= key(last)
  {
  }

  /** A descending list stays descending when an element no greater than all of it is appended. */
  lemma AppendBelow<T>(s: seq<T>, y: T, key: T -> real)
    requires SortedDesc(s, key) && forall i :: 0 <= i < |s| ==> key(s[i]) >= key(y)
    ensures SortedDesc(s + [y], key)
  {
    var t := s + [y];
    forall i, j | 0 <= i < j < |t|
      ensures key(t[i]) >= key(t[j])
    {
      assert t[i] == s[i];
    }
  }

  /** The list in descending order of `key`, equal keys in their original order. */
  function SortDesc<T>(s: seq<T>, key: T -> real): (r: seq<T>)
    ensures SortedDesc(r, key)
    ensures multiset(r) == multiset(s)
    ensures |r| == |s|
  {
    if s == [] then []
    else
      var init := s[..|s| - 1];
      assert s == init + [s[|s| - 1]];
      var r := Insert(SortDesc(init, key), s[|s| - 1], key);
      assert |r| == |multiset(r)|;
      r
  }
}
