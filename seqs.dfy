/** Sequences without repetitions, and filtering them while keeping order.
    Cache keys (`cache.keys()`) and cache names (`caches.keys()`) are both such sequences. */
module Seqs {

  /** No element occurs twice. */
  ghost predicate Distinct<T>(s: seq<T>) {
    forall i, j :: 0 <= i < j < |s| ==> s[i] != s[j]
  }

  /** The elements of `s` that satisfy `keep`, in their original order. */
  function Filter<T(!new)>(keep: T -> bool, s: seq<T>): (r: seq<T>)
    ensures |r| <= |s|
    ensures forall x :: x in r <==> x in s && keep(x)
  {
    if s == [] then []
    else (if keep(s[0]) then [s[0]] else []) + Filter(keep, s[1..])
  }

  /** `s` without `x`; the other elements keep their order. */
  function Remove<T(==,!new)>(s: seq<T>, x: T): seq<T> {
    Filter(y => y != x, s)
  }

  /** Filtering a sequence without repetitions gives one without repetitions. */
  lemma {:induction false} FilterDistinct<T(!new)>(keep: T -> bool, s: seq<T>)
    requires Distinct(s)
    ensures Distinct(Filter(keep, s))
  {
    if s != [] {
      assert Distinct(s[1..]) by {
        forall i, j | 0 <= i < j < |s[1..]| ensures s[1..][i] != s[1..][j] {
          assert s[1..][i] == s[i + 1] && s[1..][j] == s[j + 1];
        }
      }
      FilterDistinct(keep, s[1..]);
      forall k | 0 <= k < |s[1..]| ensures s[1..][k] != s[0] {
        assert s[1..][k] == s[k + 1];
      }
    }
  }

  /** Filtering distributes over concatenation. */
  lemma {:induction false} FilterAppend<T(!new)>(keep: T -> bool, a: seq<T>, b: seq<T>)
    ensures Filter(keep, a + b) == Filter(keep, a) + Filter(keep, b)
  {
    if a == [] {
      assert a + b == b;
    } else {
      assert (a + b)[1..] == a[1..] + b;
      FilterAppend(keep, a[1..], b);
    }
  }

  /** A filter that keeps every element is the identity. */
  lemma {:induction false} FilterKeepsAll<T(!new)>(keep: T -> bool, s: seq<T>)
    requires forall x :: x in s ==> keep(x)
    ensures Filter(keep, s) == s
  {
    if s != [] {
      FilterKeepsAll(keep, s[1..]);
      assert [s[0]] + s[1..] == s;
    }
  }

  /** In a sequence without repetitions, removing the first element leaves the tail. */
  lemma RemoveFirst<T(!new)>(s: seq<T>)
    requires Distinct(s) && |s| > 0
    ensures Remove(s, s[0]) == s[1..]
  {
    forall x | x in s[1..] ensures x != s[0] {
      var k :| 0 <= k < |s[1..]| && s[1..][k] == x;
      assert s[k + 1] == x;
    }
    FilterKeepsAll(y => y != s[0], s[1..]);
  }

  /** Removing keeps a sequence without repetitions so, and the removed element is gone. */
  lemma RemoveDistinct<T(!new)>(s: seq<T>, x: T)
    requires Distinct(s)
    ensures Distinct(Remove(s, x)) && x !in Remove(s, x)
  {
    FilterDistinct(y => y != x, s);
  }

  /** Removing an element that does not occur changes nothing. */
  lemma RemoveAbsent<T(!new)>(s: seq<T>, x: T)
    requires x !in s
    ensures Remove(s, x) == s
  {
    FilterKeepsAll(y => y != x, s);
  }

  /** Removing distributes over concatenation. */
  lemma RemoveAppend<T(!new)>(a: seq<T>, b: seq<T>, x: T)
    ensures Remove(a + b, x) == Remove(a, x) + Remove(b, x)
  {
    FilterAppend(y => y != x, a, b);
  }

  /** A sequence without repetitions has as many elements as it has distinct ones. */
  lemma {:induction false} DistinctCard<T>(s: seq<T>)
    requires Distinct(s)
    ensures |set x | x in s| == |s|
  {
    if s != [] {
      DistinctSuffix(s, 1);
      DistinctCard(s[1..]);
      assert (set x | x in s) == {s[0]} + (set x | x in s[1..]);
      assert s[0] !in s[1..];
    }
  }

  /** One turn of a loop that walks a snapshot `s` of a sequence without repetitions and removes
      each element `keep` rejects: keeping `s[i]`, the current sequence already has the filtered
      prefix one longer. */
  lemma {:induction false} FilterKeepStep<T(!new)>(keep: T -> bool, s: seq<T>, i: nat)
    requires i < |s| && keep(s[i])
    ensures Filter(keep, s[..i]) + s[i..] == Filter(keep, s[..i + 1]) + s[i + 1..]
  {
    var x := s[i];
    var done := Filter(keep, s[..i]);
    calc {
      Filter(keep, s[..i + 1]) + s[i + 1..];
    == { assert s[..i + 1] == s[..i] + [x]; FilterSnoc(keep, s[..i], x); }
      (done + [x]) + s[i + 1..];
    == { assert [x] + s[i + 1..] == s[i..]; }
      done + s[i..];
    }
  }

  /** The same turn when `keep` rejects `s[i]`: removing it extends the filtered prefix. */
  lemma {:induction false} FilterDropStep<T(!new)>(keep: T -> bool, s: seq<T>, i: nat)
    requires Distinct(s) && i < |s| && !keep(s[i])
    ensures Remove(Filter(keep, s[..i]) + s[i..], s[i]) == Filter(keep, s[..i + 1]) + s[i + 1..]
  {
    var x := s[i];
    var done := Filter(keep, s[..i]);
    assert s[..i + 1] == s[..i] + [x];
    FilterSnoc(keep, s[..i], x);
    assert x !in s[..i] by {
      forall j | 0 <= j < i ensures s[..i][j] != x {
        assert s[..i][j] == s[j];
      }
    }
    assert x !in done;
    DistinctSuffix(s, i);
    RemoveAppend(done, s[i..], x);
    RemoveAbsent(done, x);
    RemoveFirst(s[i..]);
  }

  /** Filtering a sequence with one more element at the end. */
  lemma {:induction false} FilterSnoc<T(!new)>(keep: T -> bool, s: seq<T>, x: T)
    ensures Filter(keep, s + [x]) == if keep(x) then Filter(keep, s) + [x] else Filter(keep, s)
  {
    FilterAppend(keep, s, [x]);
    assert Filter(keep, [x]) == (if keep(x) then [x] else []) by {
      assert [x][1..] == [];
    }
  }

  /** Removing from a sequence without repetitions shortens it by one exactly when the element occurs. */
  lemma {:induction false} RemoveLength<T(!new)>(s: seq<T>, x: T)
    requires Distinct(s)
    ensures |Remove(s, x)| == if x in s then |s| - 1 else |s|
  {
    if s != [] {
      if s[0] == x {
        RemoveFirst(s);
      } else {
        DistinctSuffix(s, 1);
        RemoveLength(s[1..], x);
        assert Remove(s, x) == [s[0]] + Remove(s[1..], x);
        assert x in s <==> x in s[1..] by {
          assert s == [s[0]] + s[1..];
        }
      }
    }
  }

  /** Appending an element that does not occur keeps a sequence without repetitions so. */
  lemma DistinctSnoc<T>(s: seq<T>, x: T)
    requires Distinct(s) && x !in s
    ensures Distinct(s + [x])
  {
    var t := s + [x];
    forall i, j | 0 <= i < j < |t| ensures t[i] != t[j] {
      if j < |s| {
        assert t[i] == s[i] && t[j] == s[j];
      } else {
        assert t[i] == s[i] && t[j] == x;
      }
    }
  }

  /** `x` occurs somewhere before `y` in `s`. */
  ghost predicate Before<T>(s: seq<T>, x: T, y: T) {
    exists i, j :: 0 <= i < j < |s| && s[i] == x && s[j] == y
  }

  /** Order in a sequence with one more element in front. */
  lemma BeforeCons<T>(a: T, t: seq<T>, x: T, y: T)
    ensures Before([a] + t, x, y) <==> (a == x && y in t) || Before(t, x, y)
  {
    var s := [a] + t;
    if Before(s, x, y) {
      var i, j :| 0 <= i < j < |s| && s[i] == x && s[j] == y;
      assert t[j - 1] == y;
      if i > 0 {
        assert t[i - 1] == x;
      }
    }
    if a == x && y in t {
      var j :| 0 <= j < |t| && t[j] == y;
      assert s[0] == x && s[j + 1] == y;
    }
    if Before(t, x, y) {
      var i, j :| 0 <= i < j < |t| && t[i] == x && t[j] == y;
      assert s[i + 1] == x && s[j + 1] == y;
    }
  }

  /** An element appended at the end does not change the order of the others. */
  lemma BeforeSnoc<T>(s: seq<T>, z: T, x: T, y: T)
    requires y != z
    ensures Before(s + [z], x, y) <==> Before(s, x, y)
  {
    var t := s + [z];
    if Before(t, x, y) {
      var i, j :| 0 <= i < j < |t| && t[i] == x && t[j] == y;
      assert s[i] == x && s[j] == y;
    }
    if Before(s, x, y) {
      var i, j :| 0 <= i < j < |s| && s[i] == x && s[j] == y;
      assert t[i] == x && t[j] == y;
    }
  }

  /** Filtering keeps the relative order of the elements it keeps. */
  lemma {:induction false} FilterBefore<T(!new)>(keep: T -> bool, s: seq<T>, x: T, y: T)
    requires keep(x) && keep(y)
    ensures Before(Filter(keep, s), x, y) <==> Before(s, x, y)
  {
    if s != [] {
      FilterBefore(keep, s[1..], x, y);
      BeforeCons(s[0], s[1..], x, y);
      assert s == [s[0]] + s[1..];
      if keep(s[0]) {
        BeforeCons(s[0], Filter(keep, s[1..]), x, y);
      } else {
        assert Filter(keep, s) == Filter(keep, s[1..]);
      }
    }
  }

  /** Removing an element keeps the relative order of the others. */
  lemma RemoveBefore<T(!new)>(s: seq<T>, x: T, a: T, b: T)
    requires a != x && b != x
    ensures Before(Remove(s, x), a, b) <==> Before(s, a, b)
  {
    FilterBefore(y => y != x, s, a, b);
  }

  /** The untouched tail of a sequence without repetitions has none either. */
  lemma DistinctSuffix<T>(s: seq<T>, n: nat)
    requires Distinct(s) && n <= |s|
    ensures Distinct(s[n..])
  {
    forall i, j | 0 <= i < j < |s[n..]| ensures s[n..][i] != s[n..][j] {
      assert s[n..][i] == s[n + i] && s[n..][j] == s[n + j];
    }
  }

  /** In a sequence without repetitions, the elements after position `n` are exactly those not among the first `n`. */
  lemma DistinctSplit<T>(s: seq<T>, n: nat)
    requires Distinct(s) && n <= |s|
    ensures forall x :: x in s[n..] <==> x in s && x !in s[..n]
  {
    assert s == s[..n] + s[n..];
    forall i, j | 0 <= i < n && 0 <= j < |s| - n ensures s[..n][i] != s[n..][j] {
      assert s[..n][i] == s[i] && s[n..][j] == s[n + j];
    }
  }
}
