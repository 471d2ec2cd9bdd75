/** Stable sorting of tasks by creation time, and the old/fresh split of the latency-aware scheduler
    (system/scheduler.py) measured against it. */
module StableSorting {
  import opened Tasks

  predicate Sorted(s: seq<Task>) {
    forall i, k | 0 <= i < k < |s| :: s[i].creationTime <= s[k].creationTime
  }

  predicate NoRepeats(s: seq<Task>) {
    forall i, k | 0 <= i < k < |s| :: s[i] != s[k]
  }

  /** The tasks created at one moment, in order. */
  function At(s: seq<Task>, time: Time): seq<Task> {
    if s == [] then [] else
    At(s[..|s| - 1], time) + if s[|s| - 1].creationTime == time then [s[|s| - 1]] else []
  }

  /** Sorted by creation time, with tasks of the same moment in their given order. */
  ghost predicate StablySorts(r: seq<Task>, s: seq<Task>) {
    Sorted(r) && multiset(r) == multiset(s) && forall time: Time :: At(r, time) == At(s, time)
  }

  function Insert(s: seq<Task>, t: Task): seq<Task> {
    if s == [] || s[|s| - 1].creationTime <= t.creationTime then s + [t]
    else Insert(s[..|s| - 1], t) + [s[|s| - 1]]
  }

  function StableSort(s: seq<Task>): seq<Task> {
    if s == [] then [] else Insert(StableSort(s[..|s| - 1]), s[|s| - 1])
  }

  lemma {:induction false} AtBoth(a: seq<Task>, b: seq<Task>, time: Time)
    ensures At(a + b, time) == At(a, time) + At(b, time)
  {
    if b == [] {
      assert a + b == a;
    } else {
      AtBoth(a, b[..|b| - 1], time);
      assert (a + b)[..|a + b| - 1] == a + b[..|b| - 1];
    }
  }

  lemma SortedAppend(s: seq<Task>, t: Task)
    requires Sorted(s) && forall x | x in s :: x.creationTime <= t.creationTime
    ensures Sorted(s + [t])
  {
  }

  lemma SortedPrefix(s: seq<Task>)
    requires Sorted(s) && s != []
    ensures Sorted(s[..|s| - 1]) && forall x | x in s[..|s| - 1] :: x.creationTime <= s[|s| - 1].creationTime
  {
  }

  lemma {:induction false} InsertHolds(s: seq<Task>, t: Task)
    ensures multiset(Insert(s, t)) == multiset(s + [t]) && |Insert(s, t)| == |s| + 1
  {
    if s != [] {
      InsertHolds(s[..|s| - 1], t);
      assert s == s[..|s| - 1] + [s[|s| - 1]];
    }
  }

  lemma MultisetMembers(r: seq<Task>, s: seq<Task>)
    requires multiset(r) == multiset(s)
    ensures (forall x | x in r :: x in s) && (forall x | x in s :: x in r)
  {
    forall x | x in r ensures x in s {
      assert x in multiset(s);
    }
    forall x | x in s ensures x in r {
      assert x in multiset(r);
    }
  }

  lemma {:induction false} InsertSorts(s: seq<Task>, t: Task)
    requires Sorted(s)
    ensures Sorted(Insert(s, t))
  {
    if s != [] {
      SortedPrefix(s);
      var rest, last := s[..|s| - 1], s[|s| - 1];
      if last.creationTime > t.creationTime {
        InsertSorts(rest, t);
        InsertHolds(rest, t);
        MultisetMembers(Insert(rest, t), rest + [t]);
        var put := Insert(rest, t);
        forall x | x in put ensures x.creationTime <= last.creationTime {
          assert x in rest + [t];
        }
        SortedAppend(put, last);
      } else {
        assert forall x | x in s :: x in rest || x == last;
        SortedAppend(s, t);
      }
    }
  }

  lemma {:induction false} InsertIsStable(s: seq<Task>, t: Task, time: Time)
    ensures At(Insert(s, t), time) == At(s, time) + At([t], time)
  {
    if s == [] || s[|s| - 1].creationTime <= t.creationTime {
      AtBoth(s, [t], time);
    } else {
      var rest, last := s[..|s| - 1], s[|s| - 1];
      InsertIsStable(rest, t, time);
      AtBoth(Insert(rest, t), [last], time);
      AtBoth(rest, [last], time);
      assert s == rest + [last];
    }
  }

  /** The sort used below meets the specification. */
  lemma {:induction false} StableSortSorts(s: seq<Task>)
    ensures StablySorts(StableSort(s), s) && |StableSort(s)| == |s|
    ensures (forall x | x in StableSort(s) :: x in s) && (forall x | x in s :: x in StableSort(s))
  {
    if s != [] {
      var rest, last := s[..|s| - 1], s[|s| - 1];
      StableSortSorts(rest);
      InsertSorts(StableSort(rest), last);
      InsertHolds(StableSort(rest), last);
      assert s == rest + [last];
      MultisetMembers(StableSort(s), s);
      forall time: Time ensures At(StableSort(s), time) == At(s, time) {
        InsertIsStable(StableSort(rest), last, time);
        AtBoth(rest, [last], time);
      }
    }
  }

  /** And nothing else does: a stably sorted list is determined by what it holds at each moment. */
  lemma {:induction false} StablySortedIsUnique(r: seq<Task>, s: seq<Task>)
    requires Sorted(r) && Sorted(s) && forall time: Time :: At(r, time) == At(s, time)
    ensures r == s
    decreases |r|
  {
    SameEmptiness(r, s);
    if r != [] {
      var r0, s0, a, b := r[..|r| - 1], s[..|s| - 1], r[|r| - 1], s[|s| - 1];
      LastAt(r, s);
      LastAt(s, r);
      assert At(r, a.creationTime) == At(s, a.creationTime);
      forall time: Time ensures At(r0, time) == At(s0, time) {
        assert At(r, time) == At(s, time);
        CutLast(r, time);
        CutLast(s, time);
      }
      CutLast(r, a.creationTime);
      CutLast(s, a.creationTime);
      StablySortedIsUnique(r0, s0);
      assert r == r0 + [a] && s == s0 + [b];
    }
  }

  lemma SameEmptiness(r: seq<Task>, s: seq<Task>)
    requires forall time: Time :: At(r, time) == At(s, time)
    ensures r == [] <==> s == []
  {
    if r != [] {
      CutLast(r, r[|r| - 1].creationTime);
    }
    if s != [] {
      CutLast(s, s[|s| - 1].creationTime);
    }
  }

  lemma CutLast(s: seq<Task>, time: Time)
    requires s != []
    ensures var last, rest := s[|s| - 1], At(s[..|s| - 1], time);
            if last.creationTime == time then
              At(s, time) != [] && At(s, time)[..|At(s, time)| - 1] == rest && At(s, time)[|At(s, time)| - 1] == last
            else At(s, time) == rest
  {
  }

  lemma LastAt(r: seq<Task>, s: seq<Task>)
    requires Sorted(s) && r != [] && s != [] && forall time: Time :: At(r, time) == At(s, time)
    ensures r[|r| - 1].creationTime <= s[|s| - 1].creationTime
  {
    var time := r[|r| - 1].creationTime;
    assert At(s, time) == At(r, time);
    SomeAt(s, time);
  }

  lemma {:induction false} SomeAt(s: seq<Task>, time: Time)
    requires At(s, time) != []
    ensures exists i | 0 <= i < |s| :: s[i].creationTime == time
  {
    if s[|s| - 1].creationTime != time {
      SomeAt(s[..|s| - 1], time);
    }
  }

  // ---------------------------------------------------------------------------------------------
  // Removing dispatched tasks commutes with sorting
  // ---------------------------------------------------------------------------------------------

  /** The tasks that are not among those gone, in order. */
  function Without(s: seq<Task>, gone: set<Task>): seq<Task> {
    if s == [] then [] else
    Without(s[..|s| - 1], gone) + if s[|s| - 1] in gone then [] else [s[|s| - 1]]
  }

  lemma {:induction false} WithoutBoth(a: seq<Task>, b: seq<Task>, gone: set<Task>)
    ensures Without(a + b, gone) == Without(a, gone) + Without(b, gone)
  {
    if b == [] {
      assert a + b == a;
    } else {
      WithoutBoth(a, b[..|b| - 1], gone);
      assert (a + b)[..|a + b| - 1] == a + b[..|b| - 1];
    }
  }

  lemma {:induction false} WithoutAt(s: seq<Task>, gone: set<Task>, time: Time)
    ensures At(Without(s, gone), time) == Without(At(s, time), gone)
  {
    if s != [] {
      var rest, last := s[..|s| - 1], s[|s| - 1];
      WithoutAt(rest, gone, time);
      AtBoth(Without(rest, gone), if last in gone then [] else [last], time);
      WithoutBoth(At(rest, time), if last.creationTime == time then [last] else [], gone);
    }
  }

  lemma {:induction false} WithoutMembers(s: seq<Task>, gone: set<Task>)
    ensures (forall t | t in Without(s, gone) :: t in s && t !in gone)
              && (forall t | t in s && t !in gone :: t in Without(s, gone))
  {
    if s != [] {
      WithoutMembers(s[..|s| - 1], gone);
      assert s == s[..|s| - 1] + [s[|s| - 1]];
    }
  }

  lemma {:induction false} WithoutSorted(s: seq<Task>, gone: set<Task>)
    requires Sorted(s)
    ensures Sorted(Without(s, gone))
  {
    if s != [] {
      SortedPrefix(s);
      WithoutSorted(s[..|s| - 1], gone);
      WithoutMembers(s[..|s| - 1], gone);
      var left := Without(s[..|s| - 1], gone);
      forall x | x in left ensures x.creationTime <= s[|s| - 1].creationTime {
        assert x in s[..|s| - 1];
      }
      SortedAppend(left, s[|s| - 1]);
    }
  }

  lemma {:induction false} WithoutNoRepeats(s: seq<Task>, gone: set<Task>)
    requires NoRepeats(s)
    ensures NoRepeats(Without(s, gone))
  {
    if s != [] {
      WithoutNoRepeats(s[..|s| - 1], gone);
      WithoutMembers(s[..|s| - 1], gone);
    }
  }

  lemma SortWithout(s: seq<Task>, gone: set<Task>)
    ensures StableSort(Without(s, gone)) == Without(StableSort(s), gone)
  {
    StableSortSorts(s);
    StableSortSorts(Without(s, gone));
    WithoutSorted(StableSort(s), gone);
    var r, q := StableSort(Without(s, gone)), Without(StableSort(s), gone);
    forall time: Time ensures At(r, time) == At(q, time) {
      WithoutAt(s, gone, time);
      WithoutAt(StableSort(s), gone, time);
    }
    StablySortedIsUnique(r, q);
  }

  lemma {:induction false} WithoutAll(s: seq<Task>, gone: set<Task>)
    requires forall t | t in s :: t in gone
    ensures Without(s, gone) == []
  {
    if s != [] {
      WithoutAll(s[..|s| - 1], gone);
    }
  }

  /** Without a prefix of a list of different tasks, the rest of the list remains. */
  lemma {:induction false} WithoutPrefix(s: seq<Task>, k: nat)
    requires k <= |s| && NoRepeats(s)
    ensures Without(s, set t | t in s[..k]) == s[k..]
    decreases |s|
  {
    var gone := set t | t in s[..k];
    if |s| > k {
      WithoutPrefix(s[..|s| - 1], k);
      assert s[..|s| - 1][..k] == s[..k];
      assert s[k..] == s[..|s| - 1][k..] + [s[|s| - 1]];
    } else {
      assert s[..k] == s;
      WithoutAll(s, gone);
    }
  }
}
