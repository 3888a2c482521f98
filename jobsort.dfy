/** The sort step of the job list: Python's stable `sorted` with the key
    `(getattr(job, sort_by) is None, getattr(job, sort_by))`, ascending, or
    with `reverse=True`, which keeps equal keys in their original order too. */
module JobSort {
  import opened Wrappers
  import opened Seqs
  import opened SortKeys
  import opened JobSchema

  /** `getattr(job, sort_by)`. */
  function SortKey(j: Job, f: SortField): Option<Key>
  {
    match f
    case ByEnqueueTime => Some(Int(j.enqueueTime))
    case ById => Some(Str(j.id))
    case ByStatus => Some(Str(StatusName(j.status)))
    case ByFunction => Some(Str(j.functionName))
    case ByStartTime => if j.startTime.Some? then Some(Int(j.startTime.value)) else None
    case ByExecutionDuration => if j.executionDuration.Some? then Some(Int(j.executionDuration.value)) else None
  }

  /** `a` may stand before `b` in the output of the sort in order `o`. */
  predicate Before(o: SortOrder, a: Option<Key>, b: Option<Key>)
  {
    if o == Asc then NullLastLe(a, b) else NullLastLe(b, a)
  }

  lemma BeforeReflexive(o: SortOrder, a: Option<Key>)
    ensures Before(o, a, a)
  {
    NullLastLeReflexive(a);
  }

  lemma NotBeforeDistinct(o: SortOrder, a: Option<Key>, b: Option<Key>)
    requires !Before(o, a, b)
    ensures a != b
  {
    if a == b { BeforeReflexive(o, a); }
  }

  lemma BeforeTotal(o: SortOrder, a: Option<Key>, b: Option<Key>)
    ensures Before(o, a, b) || Before(o, b, a)
  {
    NullLastLeTotal(a, b);
  }

  lemma BeforeTransitive(o: SortOrder, a: Option<Key>, b: Option<Key>, c: Option<Key>)
    requires Before(o, a, b) && Before(o, b, c)
    ensures Before(o, a, c)
  {
    if o == Asc { NullLastLeTransitive(a, b, c); } else { NullLastLeTransitive(c, b, a); }
  }

  lemma BeforeAntisymmetric(o: SortOrder, a: Option<Key>, b: Option<Key>)
    requires Before(o, a, b) && Before(o, b, a)
    ensures a == b
  {
    NullLastLeAntisymmetric(a, b);
  }

  ghost predicate SortedBy(s: seq<Job>, key: Job -> Option<Key>, o: SortOrder)
  {
    forall i, j :: 0 <= i < j < |s| ==> Before(o, key(s[i]), key(s[j]))
  }

  /** The jobs of `s` whose key is `k`, in the order of `s`. */
  function WithKey(s: seq<Job>, key: Job -> Option<Key>, k: Option<Key>): seq<Job>
  {
    Filter(s, j => key(j) == k)
  }

  /** Inserts `x` before the first job of `t` it may stand before. */
  function Insert(x: Job, t: seq<Job>, key: Job -> Option<Key>, o: SortOrder): seq<Job>
  {
    if t == [] then [x]
    else if Before(o, key(x), key(t[0])) then [x] + t
    else [t[0]] + Insert(x, t[1..], key, o)
  }

  lemma {:induction false} InsertPermutation(x: Job, t: seq<Job>, key: Job -> Option<Key>, o: SortOrder)
    ensures multiset(Insert(x, t, key, o)) == multiset(t) + multiset{x}
  {
    if t != [] && !Before(o, key(x), key(t[0])) {
      var h, tail := t[0], t[1..];
      assert t == [h] + tail;
      InsertPermutation(x, tail, key, o);
      calc {
        multiset(Insert(x, t, key, o));
        multiset([h] + Insert(x, tail, key, o));
        multiset([h]) + multiset(Insert(x, tail, key, o));
        multiset([h]) + multiset(tail) + multiset{x};
        multiset(t) + multiset{x};
      }
    }
  }

  /** A job that may stand before every job of a sorted sequence can head it. */
  lemma ConsSorted(h: Job, r: seq<Job>, key: Job -> Option<Key>, o: SortOrder)
    requires SortedBy(r, key, o)
    requires forall j :: 0 <= j < |r| ==> Before(o, key(h), key(r[j]))
    ensures SortedBy([h] + r, key, o)
  {
    var c := [h] + r;
    forall i, j | 0 <= i < j < |c| ensures Before(o, key(c[i]), key(c[j])) {
      assert c[j] == r[j - 1];
      if i > 0 { assert c[i] == r[i - 1]; }
    }
  }

  lemma {:induction false} InsertSorted(x: Job, t: seq<Job>, key: Job -> Option<Key>, o: SortOrder)
    requires SortedBy(t, key, o)
    ensures SortedBy(Insert(x, t, key, o), key, o)
  {
    if t == [] {
    } else if Before(o, key(x), key(t[0])) {
      forall j | 0 <= j < |t| ensures Before(o, key(x), key(t[j])) {
        if j > 0 { BeforeTransitive(o, key(x), key(t[0]), key(t[j])); }
      }
      ConsSorted(x, t, key, o);
    } else {
      var h, tail := t[0], t[1..];
      BeforeTotal(o, key(x), key(h));
      assert SortedBy(tail, key, o);
      InsertSorted(x, tail, key, o);
      InsertPermutation(x, tail, key, o);
      var rest := Insert(x, tail, key, o);
      forall j | 0 <= j < |rest| ensures Before(o, key(h), key(rest[j])) {
        assert rest[j] in multiset(rest);
        if rest[j] != x {
          assert rest[j] in multiset(tail);
          var m :| 0 <= m < |tail| && tail[m] == rest[j];
          assert t[m + 1] == rest[j];
        }
      }
      ConsSorted(h, rest, key, o);
    }
  }

  lemma {:induction false} InsertStable(x: Job, t: seq<Job>, key: Job -> Option<Key>, o: SortOrder, k: Option<Key>)
    ensures WithKey(Insert(x, t, key, o), key, k) == (if key(x) == k then [x] else []) + WithKey(t, key, k)
  {
    var p := (j: Job) => key(j) == k;
    FilterSingleton(x, p);
    if t == [] {
    } else if Before(o, key(x), key(t[0])) {
      FilterConcat([x], t, p);
    } else {
      InsertStable(x, t[1..], key, o, k);
      NotBeforeDistinct(o, key(x), key(t[0]));
      assert Insert(x, t, key, o) == [t[0]] + Insert(x, t[1..], key, o);
      SkipStable(x, t, Insert(x, t[1..], key, o), key, k);
    }
  }

  /** The key class of `[h] + s` is that of `s`, with `h` in front when it has the key. */
  lemma WithKeyCons(h: Job, s: seq<Job>, key: Job -> Option<Key>, k: Option<Key>)
    ensures WithKey([h] + s, key, k) == (if key(h) == k then [h] else []) + WithKey(s, key, k)
  {
    FilterConcat([h], s, (j: Job) => key(j) == k);
    FilterSingleton(h, (j: Job) => key(j) == k);
  }

  /** The step of InsertStable where the head of `t` stays in front of `x`. */
  lemma SkipStable(x: Job, t: seq<Job>, rest: seq<Job>, key: Job -> Option<Key>, k: Option<Key>)
    requires t != [] && key(x) != key(t[0])
    requires WithKey(rest, key, k) == (if key(x) == k then [x] else []) + WithKey(t[1..], key, k)
    ensures WithKey([t[0]] + rest, key, k) == (if key(x) == k then [x] else []) + WithKey(t, key, k)
  {
    var h, tail := t[0], t[1..];
    assert t == [h] + tail;
    WithKeyCons(h, rest, key, k);
    WithKeyCons(h, tail, key, k);
    if key(x) == k {
      assert WithKey([h] + rest, key, k) == WithKey(rest, key, k);
      assert WithKey(t, key, k) == WithKey(tail, key, k);
    } else if key(h) == k {
      assert WithKey([h] + rest, key, k) == [h] + WithKey(rest, key, k);
      assert WithKey(rest, key, k) == WithKey(tail, key, k);
    } else {
      assert WithKey([h] + rest, key, k) == WithKey(rest, key, k);
      assert WithKey(rest, key, k) == WithKey(tail, key, k);
    }
  }

  /** `sorted(s, key=..., reverse=(o == Desc))`: a permutation of `s`, sorted,
      in which the jobs sharing a key keep the order they have in `s`. */
  function SortJobs(s: seq<Job>, key: Job -> Option<Key>, o: SortOrder): (r: seq<Job>)
    ensures multiset(r) == multiset(s)
    ensures SortedBy(r, key, o)
    ensures forall k :: WithKey(r, key, k) == WithKey(s, key, k)
  {
    if s == [] then []
    else
      var t := SortJobs(s[1..], key, o);
      InsertSorted(s[0], t, key, o);
      InsertPermutation(s[0], t, key, o);
      assert s == [s[0]] + s[1..];
      assert forall k :: WithKey(Insert(s[0], t, key, o), key, k) == WithKey(s, key, k) by {
        forall k ensures WithKey(Insert(s[0], t, key, o), key, k) == WithKey(s, key, k) {
          InsertStable(s[0], t, key, o, k);
          FilterConcat([s[0]], s[1..], j => key(j) == k);
        }
      }
      Insert(s[0], t, key, o)
  }

  /** The key `sorted` is given when the list is sorted by field `f`. */
  function FieldKey(f: SortField): Job -> Option<Key>
  {
    (j: Job) => SortKey(j, f)
  }

  /** Any contiguous part of a sorted sequence is sorted. */
  lemma SliceSorted(s: seq<Job>, a: nat, b: nat, key: Job -> Option<Key>, o: SortOrder)
    requires a <= b <= |s| && SortedBy(s, key, o)
    ensures SortedBy(s[a..b], key, o)
  {
    var r := s[a..b];
    forall i, j | 0 <= i < j < |r| ensures Before(o, key(r[i]), key(r[j])) {
      assert r[i] == s[a + i] && r[j] == s[a + j];
    }
  }

  /** In ascending order the jobs with a value come first, in non-decreasing
      order of that value, and the jobs whose field is null come last. */
  lemma AscendingLayout(s: seq<Job>, key: Job -> Option<Key>)
    ensures var r := SortJobs(s, key, Asc);
      && (forall i, j :: 0 <= i < j < |r| && key(r[i]).None? ==> key(r[j]).None?)
      && (forall i, j :: 0 <= i < j < |r| && key(r[i]).Some? && key(r[j]).Some? ==> KeyLe(key(r[i]).value, key(r[j]).value))
  {
  }

  /** In descending order the jobs whose field is null come first and the
      rest follow in non-increasing order of the value. */
  lemma DescendingLayout(s: seq<Job>, key: Job -> Option<Key>)
    ensures var r := SortJobs(s, key, Desc);
      && (forall i, j :: 0 <= i < j < |r| && key(r[j]).None? ==> key(r[i]).None?)
      && (forall i, j :: 0 <= i < j < |r| && key(r[i]).Some? && key(r[j]).Some? ==> KeyLe(key(r[j]).value, key(r[i]).value))
  {
  }

  lemma WithKeyHead(s: seq<Job>, key: Job -> Option<Key>)
    requires s != []
    ensures WithKey(s, key, key(s[0])) == [s[0]] + WithKey(s[1..], key, key(s[0]))
    ensures forall k :: k != key(s[0]) ==> WithKey(s, key, k) == WithKey(s[1..], key, k)
  {
  }

  /** Two sorted sequences with the same key classes start with the same job. */
  lemma SameHead(r1: seq<Job>, r2: seq<Job>, key: Job -> Option<Key>, o: SortOrder)
    requires r1 != [] && r2 != []
    requires SortedBy(r1, key, o) && SortedBy(r2, key, o)
    requires forall k :: WithKey(r1, key, k) == WithKey(r2, key, k)
    ensures r1[0] == r2[0]
  {
    var a, b := r1[0], r2[0];
    WithKeyHead(r1, key);
    WithKeyHead(r2, key);
    // a's key occurs in r2, so b's key may stand before it, and vice versa.
    assert a in WithKey(r2, key, key(a));
    var i :| 0 <= i < |r2| && r2[i] == a;
    if i > 0 { assert Before(o, key(b), key(r2[i])); } else { BeforeReflexive(o, key(b)); }
    assert b in WithKey(r1, key, key(b));
    var j :| 0 <= j < |r1| && r1[j] == b;
    if j > 0 { assert Before(o, key(a), key(r1[j])); } else { BeforeReflexive(o, key(a)); }
    BeforeAntisymmetric(o, key(a), key(b));
    var ka := key(a);
    assert WithKey(r1, key, ka)[0] == a;
    assert WithKey(r2, key, ka)[0] == b;
  }

  /** A sorted sequence whose key classes are those of another sorted
      sequence is that sequence: sortedness and stability leave no choice. */
  lemma {:induction false} SortedStableUnique(r1: seq<Job>, r2: seq<Job>, key: Job -> Option<Key>, o: SortOrder)
    requires SortedBy(r1, key, o) && SortedBy(r2, key, o)
    requires forall k :: WithKey(r1, key, k) == WithKey(r2, key, k)
    ensures r1 == r2
    decreases |r1|
  {
    if r1 == [] || r2 == [] {
      if r1 != [] {
        WithKeyHead(r1, key);
      } else if r2 != [] {
        WithKeyHead(r2, key);
      }
    } else {
      SameHead(r1, r2, key, o);
      var a := r1[0];
      WithKeyHead(r1, key);
      WithKeyHead(r2, key);
      assert r2[0] == a;
      forall k ensures WithKey(r1[1..], key, k) == WithKey(r2[1..], key, k) {
        assert WithKey(r1, key, k) == WithKey(r2, key, k);
        if k == key(a) {
          var x1, x2 := WithKey(r1[1..], key, k), WithKey(r2[1..], key, k);
          assert [a] + x1 == [a] + x2;
          assert ([a] + x1)[1..] == x1 && ([a] + x2)[1..] == x2;
        } else {
          assert WithKey(r1, key, k) == WithKey(r1[1..], key, k);
          assert WithKey(r2, key, k) == WithKey(r2[1..], key, k);
        }
      }
      SortedStableUnique(r1[1..], r2[1..], key, o);
      assert r1 == [a] + r1[1..] && r2 == [a] + r2[1..];
    }
  }

  /** SortJobs is the only stable sort of `s`: any sorted sequence that keeps
      the jobs of each key in their order in `s` equals it. */
  lemma SortJobsIsTheStableSort(s: seq<Job>, r: seq<Job>, key: Job -> Option<Key>, o: SortOrder)
    requires SortedBy(r, key, o)
    requires forall k :: WithKey(r, key, k) == WithKey(s, key, k)
    ensures r == SortJobs(s, key, o)
  {
    SortedStableUnique(r, SortJobs(s, key, o), key, o);
  }
}
