/** The array operations of JavaScript the application uses on lists of
    records: `find` (as the index of the first match), `filter` and a
    counting `filter(...).length`. */
module Lists {
  import opened Wrappers

  /** `findIndex`: the first position whose element satisfies `p`. */
  function FirstWhere<T>(s: seq<T>, p: T -> bool): (r: Option<nat>)
    ensures r.Some? ==> r.value < |s| && p(s[r.value])
    ensures r.Some? ==> forall k :: 0 <= k < r.value ==> !p(s[k])
    ensures r.None? <==> forall k :: 0 <= k < |s| ==> !p(s[k])
  {
    if |s| == 0 then None
    else if p(s[0]) then Some(0)
    else
      match FirstWhere(s[1..], p)
      case None =>
        assert forall k :: 1 <= k < |s| ==> s[k] == s[1..][k - 1];
        None
      case Some(i) =>
        assert forall k :: 1 <= k < i + 1 ==> s[k] == s[1..][k - 1];
        Some(i + 1)
  }

  /** `s.find(p)`: the first element satisfying `p`, or `undefined`. */
  function Find<T(==)>(s: seq<T>, p: T -> bool): (r: Option<T>)
    ensures r.Some? ==> r.value in s && p(r.value)
    ensures r.None? <==> forall k :: 0 <= k < |s| ==> !p(s[k])
  {
    match FirstWhere(s, p)
    case None => None
    case Some(i) => Some(s[i])
  }

  /** `r` is `s` with some elements left out, the rest in their order. */
  predicate IsSubsequence<T(==)>(r: seq<T>, s: seq<T>)
    decreases |s|
  {
    if |r| == 0 then true
    else if |s| == 0 then false
    else if r[0] == s[0] then IsSubsequence(r[1..], s[1..])
    else IsSubsequence(r, s[1..])
  }

  /** `s.filter(p)`. */
  function Filter<T(==)>(s: seq<T>, p: T -> bool): (r: seq<T>)
    ensures |r| <= |s|
    ensures forall k :: 0 <= k < |r| ==> p(r[k])
    ensures IsSubsequence(r, s)
  {
    if |s| == 0 then []
    else
      var rest := Filter(s[1..], p);
      assert forall k :: 1 <= k < |s| ==> s[k] == s[1..][k - 1];
      if p(s[0]) then
        assert ([s[0]] + rest)[1..] == rest;
        [s[0]] + rest
      else
        SubsequenceOfTail(rest, s);
        rest
  }

  /** A filtered list holds exactly the elements of the list that satisfy
      the predicate. */
  lemma {:induction false} FilterMembers<T>(s: seq<T>, p: T -> bool)
    ensures forall k :: 0 <= k < |Filter(s, p)| ==> Filter(s, p)[k] in s
    ensures forall k :: 0 <= k < |s| && p(s[k]) ==> s[k] in Filter(s, p)
  {
    if |s| > 0 {
      FilterMembers(s[1..], p);
      assert forall k :: 1 <= k < |s| ==> s[k] == s[1..][k - 1];
    }
  }

  /** Some kept element satisfies `q` exactly when some element of the
      list satisfies both `p` and `q`. */
  lemma {:induction false} FilterAny<T>(s: seq<T>, p: T -> bool, q: T -> bool)
    ensures (exists j :: 0 <= j < |Filter(s, p)| && q(Filter(s, p)[j]))
            <==> (exists k :: 0 <= k < |s| && p(s[k]) && q(s[k]))
  {
    if |s| > 0 {
      var rest := Filter(s[1..], p);
      FilterAny(s[1..], p, q);
      var inTail := exists k :: 0 <= k < |s[1..]| && p(s[1..][k]) && q(s[1..][k]);
      assert (exists k :: 0 <= k < |s| && p(s[k]) && q(s[k])) <==> (p(s[0]) && q(s[0])) || inTail by {
        if exists k :: 0 <= k < |s| && p(s[k]) && q(s[k]) {
          var k :| 0 <= k < |s| && p(s[k]) && q(s[k]);
          if k > 0 {
            assert s[1..][k - 1] == s[k];
          }
        }
        if inTail {
          var k :| 0 <= k < |s[1..]| && p(s[1..][k]) && q(s[1..][k]);
          assert s[k + 1] == s[1..][k];
        }
      }
      if p(s[0]) {
        var r := [s[0]] + rest;
        assert Filter(s, p) == r;
        assert (exists j :: 0 <= j < |r| && q(r[j])) <==> q(s[0]) || (exists j :: 0 <= j < |rest| && q(rest[j])) by {
          if exists j :: 0 <= j < |r| && q(r[j]) {
            var j :| 0 <= j < |r| && q(r[j]);
            if j > 0 {
              assert r[j] == rest[j - 1];
            }
          }
          if exists j :: 0 <= j < |rest| && q(rest[j]) {
            var j :| 0 <= j < |rest| && q(rest[j]);
            assert r[j + 1] == rest[j];
          }
          if q(s[0]) {
            assert r[0] == s[0];
          }
        }
      } else {
        assert Filter(s, p) == rest;
      }
    }
  }

  lemma {:induction false} SubsequenceOfTail<T>(r: seq<T>, s: seq<T>)
    requires |s| > 0 && IsSubsequence(r, s[1..])
    ensures IsSubsequence(r, s)
    decreases |s|, 0
  {
    if |r| > 0 && r[0] == s[0] {
      // r[1..] is a subsequence of s[1..] because r is.
      SubsequenceDropHead(r, s[1..]);
    }
  }

  lemma {:induction false} SubsequenceDropHead<T>(r: seq<T>, s: seq<T>)
    requires |r| > 0 && IsSubsequence(r, s)
    ensures IsSubsequence(r[1..], s)
    decreases |s|, 1
  {
    if r[0] == s[0] {
      if |r| > 1 {
        SubsequenceDropHead(r[1..], s[1..]);
        assert r[1..][1..] == r[2..];
        SubsequenceOfTail(r[1..], s);
      }
    } else {
      SubsequenceDropHead(r, s[1..]);
      SubsequenceOfTail(r[1..], s);
    }
  }

  /** `s.filter(p).length`. */
  function Count<T>(s: seq<T>, p: T -> bool): (n: nat)
    ensures n <= |s|
    ensures n == 0 <==> forall k :: 0 <= k < |s| ==> !p(s[k])
  {
    if |s| == 0 then 0
    else
      assert forall k :: 1 <= k < |s| ==> s[k] == s[1..][k - 1];
      (if p(s[0]) then 1 else 0) + Count(s[1..], p)
  }

  /** The length of a filtered list is the count of its matches. */
  lemma {:induction false} FilterLength<T>(s: seq<T>, p: T -> bool)
    ensures |Filter(s, p)| == Count(s, p)
  {
    if |s| > 0 {
      FilterLength(s[1..], p);
    }
  }

  /** A filter that keeps everything is the identity. */
  lemma {:induction false} FilterAll<T>(s: seq<T>, p: T -> bool)
    requires forall k :: 0 <= k < |s| ==> p(s[k])
    ensures Filter(s, p) == s
  {
    if |s| > 0 {
      assert forall k :: 0 <= k < |s[1..]| ==> s[1..][k] == s[k + 1];
      FilterAll(s[1..], p);
    }
  }

  /** Counting a list grown at the end, as a loop over it does. */
  lemma {:induction false} CountSnoc<T>(s: seq<T>, x: T, p: T -> bool)
    ensures Count(s + [x], p) == Count(s, p) + (if p(x) then 1 else 0)
  {
    if |s| > 0 {
      assert (s + [x])[1..] == s[1..] + [x];
      CountSnoc(s[1..], x, p);
    }
  }

  /** Two matching positions make a count of at least two. */
  lemma {:induction false} CountTwo<T>(s: seq<T>, p: T -> bool, i: nat, j: nat)
    requires i < j < |s| && p(s[i]) && p(s[j])
    ensures Count(s, p) >= 2
  {
    if i == 0 {
      assert p(s[1..][j - 1]);
    } else {
      CountTwo(s[1..], p, i - 1, j - 1);
    }
  }

  /** The distinct elements of `s` that satisfy `p`. */
  function MatchingSet<T>(s: seq<T>, p: T -> bool): set<T> {
    set x | x in s && p(x)
  }

  /** Over a list without repetitions the count is the number of distinct
      matching elements. */
  lemma {:induction false} CountDistinct<T>(s: seq<T>, p: T -> bool)
    requires forall i, j :: 0 <= i < j < |s| ==> s[i] != s[j]
    ensures Count(s, p) == |MatchingSet(s, p)|
  {
    if |s| > 0 {
      var tail := MatchingSet(s[1..], p);
      DistinctTail(s);
      CountDistinct(s[1..], p);
      MatchingSetCons(s, p);
      if p(s[0]) {
        assert s[0] !in tail;
        assert |MatchingSet(s, p)| == |{s[0]}| + |tail|;
      }
    }
  }

  /** Without repetitions, the head is not in the tail, which has no
      repetitions either. */
  lemma DistinctTail<T>(s: seq<T>)
    requires |s| > 0 && forall i, j :: 0 <= i < j < |s| ==> s[i] != s[j]
    ensures s[0] !in s[1..]
    ensures forall i, j :: 0 <= i < j < |s[1..]| ==> s[1..][i] != s[1..][j]
  {
    forall i, j | 0 <= i < j < |s[1..]| ensures s[1..][i] != s[1..][j] {
      assert s[1..][i] == s[i + 1] && s[1..][j] == s[j + 1];
    }
    forall k | 0 <= k < |s[1..]| ensures s[1..][k] != s[0] {
      assert s[1..][k] == s[k + 1];
    }
  }

  /** The matching set of a list is its head's (if it matches) together
      with its tail's. */
  lemma MatchingSetCons<T>(s: seq<T>, p: T -> bool)
    requires |s| > 0
    ensures MatchingSet(s, p) == (if p(s[0]) then {s[0]} else {}) + MatchingSet(s[1..], p)
  {
    assert forall x :: x in s <==> x == s[0] || x in s[1..] by {
      assert s == [s[0]] + s[1..];
    }
  }

  /** The last position whose element satisfies `p`. */
  function LastWhere<T>(s: seq<T>, p: T -> bool): (r: Option<nat>)
    ensures r.Some? ==> r.value < |s| && p(s[r.value])
    ensures r.Some? ==> forall k :: r.value < k < |s| ==> !p(s[k])
    ensures r.None? <==> forall k :: 0 <= k < |s| ==> !p(s[k])
  {
    if |s| == 0 then None
    else if p(s[|s| - 1]) then Some(|s| - 1)
    else
      var r := LastWhere(s[..|s| - 1], p);
      assert forall k :: 0 <= k < |s| - 1 ==> s[k] == s[..|s| - 1][k];
      r
  }

  /** Filtering a list grown at the end. */
  lemma {:induction false} FilterSnoc<T>(s: seq<T>, x: T, p: T -> bool)
    ensures Filter(s + [x], p) == Filter(s, p) + (if p(x) then [x] else [])
  {
    if |s| == 0 {
      assert [x][1..] == [];
    } else {
      assert (s + [x])[0] == s[0];
      assert (s + [x])[1..] == s[1..] + [x];
      FilterSnoc(s[1..], x, p);
    }
  }

  /** The last element of a filtered list (`filter(p).pop()`) is the last
      element satisfying `p`. */
  lemma {:induction false} FilterLastIsLastMatch<T>(s: seq<T>, p: T -> bool)
    requires |Filter(s, p)| > 0
    ensures LastWhere(s, p).Some?
    ensures Filter(s, p)[|Filter(s, p)| - 1] == s[LastWhere(s, p).value]
    decreases |s|
  {
    var n := |s|;
    assert s == s[..n - 1] + [s[n - 1]];
    FilterSnoc(s[..n - 1], s[n - 1], p);
    if !p(s[n - 1]) {
      FilterLastIsLastMatch(s[..n - 1], p);
    }
  }
}
