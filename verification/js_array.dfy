/**
 * `Array.prototype.filter` on an immutable sequence, with the laws the
 * components rely on: the result is an order-preserving selection of exactly
 * the kept elements, each element kept as often as it occurs.
 */
module JsArray {

  /** `s.filter(keep)`. */
  function Filter<T>(s: seq<T>, keep: T -> bool): (r: seq<T>)
    ensures |r| <= |s|
    ensures forall i :: 0 <= i < |r| ==> keep(r[i])
  {
    if s == [] then []
    else (if keep(s[0]) then [s[0]] else []) + Filter(s[1..], keep)
  }

  /** A value is in the result exactly when it is in the input and passes the test. */
  lemma {:induction false} FilterMember<T>(s: seq<T>, keep: T -> bool, x: T)
    ensures x in Filter(s, keep) <==> x in s && keep(x)
  {
    if s != [] {
      FilterMember(s[1..], keep, x);
      assert s == [s[0]] + s[1..];
    }
  }

  /** Filtering a concatenation filters each part. */
  lemma {:induction false} FilterAppend<T>(a: seq<T>, b: seq<T>, keep: T -> bool)
    ensures Filter(a + b, keep) == Filter(a, keep) + Filter(b, keep)
  {
    if a == [] {
      assert a + b == b;
    } else {
      var head := if keep(a[0]) then [a[0]] else [];
      assert (a + b)[0] == a[0] && (a + b)[1..] == a[1..] + b;
      assert Filter(a + b, keep) == head + Filter(a[1..] + b, keep);
      FilterAppend(a[1..], b, keep);
      assert Filter(a, keep) == head + Filter(a[1..], keep);
    }
  }

  /** When every element is kept, filtering returns the sequence unchanged. */
  lemma {:induction false} FilterKeepsAll<T>(s: seq<T>, keep: T -> bool)
    requires forall i :: 0 <= i < |s| ==> keep(s[i])
    ensures Filter(s, keep) == s
  {
    if s != [] {
      FilterKeepsAll(s[1..], keep);
    }
  }

  /** When no element is kept, filtering returns the empty sequence. */
  lemma {:induction false} FilterDropsAll<T>(s: seq<T>, keep: T -> bool)
    requires forall i :: 0 <= i < |s| ==> !keep(s[i])
    ensures Filter(s, keep) == []
  {
    if s != [] {
      FilterDropsAll(s[1..], keep);
    }
  }

  /** Filtering twice with the same test equals filtering once. */
  lemma FilterIdempotent<T>(s: seq<T>, keep: T -> bool)
    ensures Filter(Filter(s, keep), keep) == Filter(s, keep)
  {
    FilterKeepsAll(Filter(s, keep), keep);
  }

  /** Each kept value occurs in the result exactly as often as in the input; the others never. */
  lemma {:induction false} FilterCount<T>(s: seq<T>, keep: T -> bool, x: T)
    ensures multiset(Filter(s, keep))[x] == if keep(x) then multiset(s)[x] else 0
  {
    if s != [] {
      FilterCount(s[1..], keep, x);
      assert s == [s[0]] + s[1..];
    }
  }

  ghost predicate Increasing(idx: seq<int>)
  {
    forall m, n :: 0 <= m < n < |idx| ==> idx[m] < idx[n]
  }

  /**
   * `r` takes, at the strictly increasing positions `idx` of `s`, exactly the
   * elements that pass `keep`: an order-preserving selection without repeats.
   */
  ghost predicate SelectsKept<T>(s: seq<T>, keep: T -> bool, idx: seq<int>, r: seq<T>)
  {
    && |idx| == |r|
    && Increasing(idx)
    && (forall k :: 0 <= k < |idx| ==> 0 <= idx[k] < |s| && r[k] == s[idx[k]])
    && (forall i :: 0 <= i < |s| ==> (keep(s[i]) <==> i in idx))
  }

  function Shift(idx: seq<int>): (r: seq<int>)
    ensures |r| == |idx|
  {
    seq(|idx|, k requires 0 <= k < |idx| => idx[k] + 1)
  }

  /** The positions of `s` whose elements pass `keep`, in increasing order. */
  function KeptPositions<T>(s: seq<T>, keep: T -> bool): (idx: seq<int>)
    ensures |idx| == |Filter(s, keep)|
  {
    if s == [] then []
    else (if keep(s[0]) then [0] else []) + Shift(KeptPositions(s[1..], keep))
  }

  lemma {:induction false} KeptPositionsIncreasing<T>(s: seq<T>, keep: T -> bool)
    ensures Increasing(KeptPositions(s, keep))
    ensures forall k :: 0 <= k < |KeptPositions(s, keep)| ==> 0 <= KeptPositions(s, keep)[k] < |s|
  {
    if s != [] {
      KeptPositionsIncreasing(s[1..], keep);
      var rest := KeptPositions(s[1..], keep);
      var head := if keep(s[0]) then [0] else [];
      var idx := head + Shift(rest);
      assert forall k :: 0 <= k < |idx| ==> 0 <= idx[k] < |s| by {
        forall k | 0 <= k < |idx|
          ensures 0 <= idx[k] < |s|
        {
          if k >= |head| {
            assert idx[k] == rest[k - |head|] + 1;
          }
        }
      }
      forall m, n | 0 <= m < n < |idx|
        ensures idx[m] < idx[n]
      {
        assert idx[n] == rest[n - |head|] + 1;
        if m >= |head| {
          assert idx[m] == rest[m - |head|] + 1;
        }
      }
    }
  }

  lemma {:induction false} KeptPositionsPick<T>(s: seq<T>, keep: T -> bool)
    ensures forall k :: 0 <= k < |KeptPositions(s, keep)| ==>
      0 <= KeptPositions(s, keep)[k] < |s| && Filter(s, keep)[k] == s[KeptPositions(s, keep)[k]]
  {
    if s != [] {
      KeptPositionsPick(s[1..], keep);
      var rest, rt := KeptPositions(s[1..], keep), Filter(s[1..], keep);
      var head := if keep(s[0]) then [0] else [];
      var idx := head + Shift(rest);
      var r := (if keep(s[0]) then [s[0]] else []) + rt;
      assert r == Filter(s, keep);
      forall k | 0 <= k < |idx|
        ensures 0 <= idx[k] < |s| && r[k] == s[idx[k]]
      {
        if k >= |head| {
          var j := k - |head|;
          assert idx[k] == rest[j] + 1;
          assert r[k] == rt[j] == s[1..][rest[j]];
        }
      }
    }
  }

  lemma {:induction false} KeptPositionsExact<T>(s: seq<T>, keep: T -> bool)
    ensures forall i :: 0 <= i < |s| ==> (keep(s[i]) <==> i in KeptPositions(s, keep))
  {
    if s != [] {
      KeptPositionsExact(s[1..], keep);
      KeptPositionsIncreasing(s[1..], keep);
      var rest := KeptPositions(s[1..], keep);
      var shifted := Shift(rest);
      var head := if keep(s[0]) then [0] else [];
      var idx := head + shifted;
      forall i | 0 <= i < |s|
        ensures keep(s[i]) <==> i in idx
      {
        if i != 0 {
          assert s[i] == s[1..][i - 1];
          if i - 1 in rest {
            var k :| 0 <= k < |rest| && rest[k] == i - 1;
            assert shifted[k] == i;
          }
          if i in shifted {
            var k :| 0 <= k < |shifted| && shifted[k] == i;
            assert rest[k] == i - 1;
          }
        }
      }
    }
  }

  /** The filter result is the kept elements in their original order, each position once. */
  lemma FilterIsOrderedSelection<T>(s: seq<T>, keep: T -> bool)
    ensures SelectsKept(s, keep, KeptPositions(s, keep), Filter(s, keep))
  {
    KeptPositionsIncreasing(s, keep);
    KeptPositionsPick(s, keep);
    KeptPositionsExact(s, keep);
  }
}
