/**
 * Ordering by a key with a tie-breaker, as used by the exact nearest-neighbour search
 * (distance, then stored position) and by the keyword ranker (descending score, then
 * original position, which is what Python's stable `sort(reverse=True)` yields).
 */
module Ranking {

  /** An element ranked by `key`; among equal keys the lower `tie` comes first. */
  datatype Keyed<T> = Keyed(key: real, tie: int, item: T)

  /** `a` may precede `b`. */
  predicate Le<T>(a: Keyed<T>, b: Keyed<T>) {
    a.key < b.key || (a.key == b.key && a.tie <= b.tie)
  }

  /** `a` must precede `b`. */
  predicate Lt<T>(a: Keyed<T>, b: Keyed<T>) {
    !Le(b, a)
  }

  predicate Sorted<T>(s: seq<Keyed<T>>) {
    forall i, j :: 0 <= i < j < |s| ==> Le(s[i], s[j])
  }

  predicate DistinctTies<T>(s: seq<Keyed<T>>) {
    forall i, j :: 0 <= i < j < |s| ==> s[i].tie != s[j].tie
  }

  /** Number of elements of `s` that must precede `x`. */
  function InsertPos<T>(x: Keyed<T>, s: seq<Keyed<T>>): (j: nat)
    ensures j <= |s|
  {
    if s == [] || Le(x, s[0]) then 0 else 1 + InsertPos(x, s[1..])
  }

  function Insert<T>(x: Keyed<T>, s: seq<Keyed<T>>): seq<Keyed<T>> {
    var j := InsertPos(x, s);
    s[..j] + [x] + s[j..]
  }

  /** Insertion sort by `Le`. */
  function Sort<T>(s: seq<Keyed<T>>): seq<Keyed<T>> {
    if s == [] then [] else Insert(s[0], Sort(s[1..]))
  }

  lemma {:induction false} InsertPosFacts<T>(x: Keyed<T>, s: seq<Keyed<T>>)
    ensures forall k :: 0 <= k < InsertPos(x, s) ==> Lt(s[k], x)
    ensures InsertPos(x, s) < |s| ==> Le(x, s[InsertPos(x, s)])
  {
    if s != [] && !Le(x, s[0]) {
      InsertPosFacts(x, s[1..]);
      forall k | 0 < k < InsertPos(x, s) ensures Lt(s[k], x) {
        assert s[k] == s[1..][k - 1];
      }
    }
  }

  lemma {:induction false} InsertSorted<T>(x: Keyed<T>, s: seq<Keyed<T>>)
    requires Sorted(s)
    ensures Sorted(Insert(x, s))
  {
    var j := InsertPos(x, s);
    InsertPosFacts(x, s);
    var r := Insert(x, s);
    assert |r| == |s| + 1;
    forall a, b | 0 <= a < b < |r| ensures Le(r[a], r[b]) {
      if b < j {
        assert r[a] == s[a] && r[b] == s[b];
      } else if b == j {
        assert r[a] == s[a] && r[b] == x;
      } else if a < j {
        assert r[a] == s[a] && r[b] == s[b - 1];
      } else if a == j {
        assert r[a] == x && r[b] == s[b - 1];
        assert Le(x, s[j]);
        if j < b - 1 { assert Le(s[j], s[b - 1]); }
      } else {
        assert r[a] == s[a - 1] && r[b] == s[b - 1];
      }
    }
  }

  lemma InsertDistinct<T>(x: Keyed<T>, t: seq<Keyed<T>>)
    requires DistinctTies(t)
    requires forall k :: 0 <= k < |t| ==> t[k].tie != x.tie
    ensures DistinctTies(Insert(x, t))
  {
    var j := InsertPos(x, t);
    var r := Insert(x, t);
    forall a, b | 0 <= a < b < |r| ensures r[a].tie != r[b].tie {
      if b < j {
        assert r[a] == t[a] && r[b] == t[b];
      } else if b == j {
        assert r[b] == x && r[a] == t[a];
      } else if a < j {
        assert r[a] == t[a] && r[b] == t[b - 1];
      } else if a == j {
        assert r[a] == x && r[b] == t[b - 1];
      } else {
        assert r[a] == t[a - 1] && r[b] == t[b - 1];
      }
    }
  }

  lemma InsertMultiset<T>(x: Keyed<T>, t: seq<Keyed<T>>)
    ensures multiset(Insert(x, t)) == multiset(t) + multiset{x}
  {
    var j := InsertPos(x, t);
    assert t == t[..j] + t[j..];
  }

  lemma {:induction false} SortFacts<T>(s: seq<Keyed<T>>)
    ensures |Sort(s)| == |s|
    ensures multiset(Sort(s)) == multiset(s)
    ensures Sorted(Sort(s))
  {
    if s != [] {
      SortFacts(s[1..]);
      InsertSorted(s[0], Sort(s[1..]));
      InsertMultiset(s[0], Sort(s[1..]));
      assert s == [s[0]] + s[1..];
    }
  }

  lemma {:induction false} SortDistinct<T>(s: seq<Keyed<T>>)
    requires DistinctTies(s)
    ensures DistinctTies(Sort(s))
  {
    if s != [] {
      var t := Sort(s[1..]);
      assert DistinctTies(s[1..]) by {
        forall a, b | 0 <= a < b < |s| - 1 ensures s[1..][a].tie != s[1..][b].tie {
          assert s[1..][a] == s[a + 1] && s[1..][b] == s[b + 1];
        }
      }
      SortDistinct(s[1..]);
      SortFacts(s[1..]);
      forall k | 0 <= k < |t| ensures t[k].tie != s[0].tie {
        assert t[k] in multiset(s[1..]);
        var m :| 0 <= m < |s[1..]| && s[1..][m] == t[k];
        assert s[m + 1] == t[k];
      }
      InsertDistinct(s[0], t);
    }
  }

  /** In a sorted sequence, every element of the first `m` may precede every later one. */
  lemma PrefixPrecedes<T>(r: seq<Keyed<T>>, m: nat, q: nat)
    requires Sorted(r)
    requires m <= q < |r|
    ensures forall j :: 0 <= j < m ==> Le(r[j], r[q])
  {
  }
}
