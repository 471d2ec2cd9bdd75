/** Batch selection (system/scheduler.py): what the latency-aware strategy picks for any clock readings,
    how long a task can wait, and that no strategy or change of strategy loses or repeats a task. */
module Scheduling {
  import opened Wrappers
  import opened Tasks
  import opened StableSorting

  // ---------------------------------------------------------------------------------------------
  // The old/recent split
  // ---------------------------------------------------------------------------------------------

  predicate IsOld(t: Task, now: Time, threshold: int) {
    now - t.creationTime >= threshold
  }

  /** One list comprehension: the clock is read once per element. */
  function Aged(s: seq<Task>, clock: seq<Time>, threshold: int, wantOld: bool): seq<Task>
    requires |clock| == |s|
  {
    if s == [] then [] else
    var n := |s| - 1;
    Aged(s[..n], clock[..n], threshold, wantOld) + if IsOld(s[n], clock[n], threshold) == wantOld then [s[n]] else []
  }

  function Pick(s: seq<Task>, first: seq<Time>, second: seq<Time>, threshold: int): seq<Task>
    requires |first| == |second| == |s|
  {
    StableSort(Aged(s, first, threshold, true)) + StableSort(Aged(s, second, threshold, false))
  }

  function Min(a: nat, b: nat): nat {
    if a < b then a else b
  }

  /** The slice that is dispatched. */
  function Cut(picked: seq<Task>, size: nat): seq<Task> {
    picked[..Min(size, |picked|)]
  }

  function Members(s: seq<Task>): set<Task> {
    set t | t in s
  }

  predicate Constant(clock: seq<Time>, now: Time) {
    forall i | 0 <= i < |clock| :: clock[i] == now
  }

  lemma {:induction false} AgedAt(s: seq<Task>, clock: seq<Time>, threshold: int, now: Time, wantOld: bool, time: Time)
    requires |clock| == |s| && Constant(clock, now)
    ensures At(Aged(s, clock, threshold, wantOld), time) == if (now - time >= threshold) == wantOld then At(s, time)
              else []
  {
    if s != [] {
      var n := |s| - 1;
      AgedAt(s[..n], clock[..n], threshold, now, wantOld, time);
      AtBoth(Aged(s[..n], clock[..n], threshold, wantOld),
            if IsOld(s[n], clock[n], threshold) == wantOld then [s[n]] else [], time);
    }
  }

  lemma {:induction false} AgedMembers(s: seq<Task>, clock: seq<Time>, threshold: int, wantOld: bool)
    requires |clock| == |s|
    ensures forall t | t in Aged(s, clock, threshold, wantOld) ::
              exists i | 0 <= i < |s| :: s[i] == t && IsOld(t, clock[i], threshold) == wantOld
    ensures forall i | 0 <= i < |s| && IsOld(s[i], clock[i], threshold) == wantOld ::
              s[i] in Aged(s, clock, threshold, wantOld)
  {
    if s != [] {
      AgedMembers(s[..|s| - 1], clock[..|s| - 1], threshold, wantOld);
    }
  }

  lemma {:induction false} AgedNoRepeats(s: seq<Task>, clock: seq<Time>, threshold: int, wantOld: bool)
    requires |clock| == |s| && NoRepeats(s)
    ensures NoRepeats(Aged(s, clock, threshold, wantOld))
  {
    if s != [] {
      var rest, a := s[..|s| - 1], Aged(s[..|s| - 1], clock[..|s| - 1], threshold, wantOld);
      AgedNoRepeats(rest, clock[..|s| - 1], threshold, wantOld);
      AgedMembers(rest, clock[..|s| - 1], threshold, wantOld);
      assert forall t | t in a :: t in rest;
      assert s[|s| - 1] !in rest;
    }
  }

  lemma SortedBoth(a: seq<Task>, b: seq<Task>, bound: Time)
    requires Sorted(a) && Sorted(b)
    requires (forall t | t in a :: t.creationTime <= bound) && (forall t | t in b :: t.creationTime > bound)
    ensures Sorted(a + b)
  {
  }

  /** With one clock value for the whole tick, the split only sorts: old tasks before recent ones is the
      stable order by creation time. */
  lemma FrozenClockSorts(s: seq<Task>, first: seq<Time>, second: seq<Time>, threshold: int, now: Time)
    requires |first| == |second| == |s| && Constant(first, now) && Constant(second, now)
    ensures Pick(s, first, second, threshold) == StableSort(s)
  {
    var stale, recent := Aged(s, first, threshold, true), Aged(s, second, threshold, false);
    StableSortSorts(stale);
    StableSortSorts(recent);
    StableSortSorts(s);
    AgedMembers(s, first, threshold, true);
    AgedMembers(s, second, threshold, false);
    var r := Pick(s, first, second, threshold);
    hide Sorted, Aged, StableSort, At;
    forall time: Time ensures At(r, time) == At(StableSort(s), time) {
      AtBoth(StableSort(stale), StableSort(recent), time);
      AgedAt(s, first, threshold, now, true, time);
      AgedAt(s, second, threshold, now, false, time);
    }
    SortedBoth(StableSort(stale), StableSort(recent), now - threshold);
    StablySortedIsUnique(r, StableSort(s));
  }

  // ---------------------------------------------------------------------------------------------
  // Nothing is picked twice or lost
  // ---------------------------------------------------------------------------------------------

  lemma {:induction false} NoRepeatsCount(s: seq<Task>, t: Task)
    requires NoRepeats(s)
    ensures multiset(s)[t] == if t in s then 1 else 0
  {
    if s != [] {
      var rest, last := s[..|s| - 1], s[|s| - 1];
      NoRepeatsCount(rest, t);
      assert s == rest + [last];
      assert last !in rest;
    }
  }

  lemma CountNoRepeats(s: seq<Task>)
    requires forall t | t in s :: multiset(s)[t] == 1
    ensures NoRepeats(s)
  {
    forall i, k | 0 <= i < k < |s| ensures s[i] != s[k] {
      assert s == s[..i] + [s[i]] + s[i + 1..];
      assert s[k] in s[i + 1..];
      assert multiset(s) == multiset(s[..i]) + multiset{s[i]} + multiset(s[i + 1..]);
      assert multiset(s)[s[i]] == 1;
    }
  }

  lemma SortNoRepeats(s: seq<Task>)
    requires NoRepeats(s)
    ensures NoRepeats(StableSort(s))
  {
    StableSortSorts(s);
    forall t | t in StableSort(s) ensures multiset(StableSort(s))[t] == 1 {
      NoRepeatsCount(s, t);
    }
    CountNoRepeats(StableSort(s));
  }

  /** A task is old by the first reading and fresh by the second. */
  predicate Twice(s: seq<Task>, first: seq<Time>, second: seq<Time>, threshold: int, i: nat)
    requires |first| == |second| == |s| && i < |s|
  {
    IsOld(s[i], first[i], threshold) && !IsOld(s[i], second[i], threshold)
  }

  lemma NoRepeatsJoin(a: seq<Task>, b: seq<Task>)
    requires NoRepeats(a) && NoRepeats(b) && forall t | t in a :: t !in b
    ensures NoRepeats(a + b)
  {
    forall i, k | 0 <= i < k < |a + b| ensures (a + b)[i] != (a + b)[k] {
      if i < |a| <= k {
        assert (a + b)[i] in a && (a + b)[k] in b;
      }
    }
  }

  /** Both halves of what is picked are without repeats, and hold exactly the old and the fresh tasks. */
  lemma Halves(s: seq<Task>, clock: seq<Time>, threshold: int, wantOld: bool)
    requires |clock| == |s| && NoRepeats(s)
    ensures
      var half := StableSort(Aged(s, clock, threshold, wantOld));
      && NoRepeats(half)
      && (forall t | t in half :: exists i | 0 <= i < |s| :: s[i] == t && IsOld(t, clock[i], threshold) == wantOld)
      && (forall i | 0 <= i < |s| && IsOld(s[i], clock[i], threshold) == wantOld :: s[i] in half)
  {
    AgedMembers(s, clock, threshold, wantOld);
    AgedNoRepeats(s, clock, threshold, wantOld);
    SortNoRepeats(Aged(s, clock, threshold, wantOld));
    StableSortSorts(Aged(s, clock, threshold, wantOld));
  }

  /** Exactly when a task appears twice in what is picked: when the clock went back between its readings. */
  lemma PickedOnce(s: seq<Task>, first: seq<Time>, second: seq<Time>, threshold: int)
    requires |first| == |second| == |s| && NoRepeats(s)
    ensures NoRepeats(Pick(s, first, second, threshold))
            <==> forall i | 0 <= i < |s| :: !Twice(s, first, second, threshold, i)
  {
    Halves(s, first, threshold, true);
    Halves(s, second, threshold, false);
    var a, b := StableSort(Aged(s, first, threshold, true)), StableSort(Aged(s, second, threshold, false));
    hide Aged, StableSort, IsOld;
    if i :| 0 <= i < |s| && Twice(s, first, second, threshold, i) {
      NoRepeatsBothContra(a, b, s[i]);
    } else {
      forall t | t in a ensures t !in b {
        var i :| 0 <= i < |s| && s[i] == t && IsOld(t, first[i], threshold);
        assert !Twice(s, first, second, threshold, i);
      }
      NoRepeatsJoin(a, b);
    }
  }

  lemma NoRepeatsBothContra(a: seq<Task>, b: seq<Task>, t: Task)
    requires t in a && t in b
    ensures !NoRepeats(a + b)
  {
    var k, m :| 0 <= k < |a| && 0 <= m < |b| && a[k] == t && b[m] == t;
    assert (a + b)[k] == (a + b)[|a| + m];
  }

  /** The fresh copy of a task, which stands behind all old tasks, is dispatched. */
  predicate FreshCopyCut(s: seq<Task>, first: seq<Time>, second: seq<Time>, threshold: int, size: nat, t: Task)
    requires |first| == |second| == |s|
  {
    var batch := Cut(Pick(s, first, second, threshold), size);
    exists k | |Aged(s, first, threshold, true)| <= k < |batch| :: batch[k] == t
  }

  /** Exactly when a task is twice in a batch: when it is old by its first reading and fresh by its second,
      and its fresh copy stands before the cut. */
  lemma BatchPickedOnce(s: seq<Task>, first: seq<Time>, second: seq<Time>, threshold: int, size: nat)
    requires |first| == |second| == |s| && NoRepeats(s)
    ensures NoRepeats(Cut(Pick(s, first, second, threshold), size))
            <==> forall i | 0 <= i < |s| && Twice(s, first, second, threshold, i) ::
                   !FreshCopyCut(s, first, second, threshold, size, s[i])
  {
    hide Pick, Cut, Twice, FreshCopyCut, NoRepeats;
    if !NoRepeats(Cut(Pick(s, first, second, threshold), size)) {
      var i := RepeatIsTwice(s, first, second, threshold, size);
    }
    forall i | 0 <= i < |s| && Twice(s, first, second, threshold, i)
               && FreshCopyCut(s, first, second, threshold, size, s[i])
      ensures !NoRepeats(Cut(Pick(s, first, second, threshold), size))
    {
      TwiceRepeats(s, first, second, threshold, size, i);
    }
  }

  lemma RepeatIsTwice(s: seq<Task>, first: seq<Time>, second: seq<Time>, threshold: int, size: nat) returns (i: nat)
    requires |first| == |second| == |s| && NoRepeats(s)
    requires !NoRepeats(Cut(Pick(s, first, second, threshold), size))
    ensures i < |s| && Twice(s, first, second, threshold, i) && FreshCopyCut(s, first, second, threshold, size, s[i])
  {
    Halves(s, first, threshold, true);
    Halves(s, second, threshold, false);
    StableSortSorts(Aged(s, first, threshold, true));
    hide Aged, StableSort, IsOld, NoRepeats, FreshCopyCut;
    var a, b := StableSort(Aged(s, first, threshold, true)), StableSort(Aged(s, second, threshold, false));
    var k := CutRepeat(a, b, size);
    var t := Cut(a + b, size)[k];
    i :| 0 <= i < |s| && s[i] == t && IsOld(t, first[i], threshold);
    var m :| 0 <= m < |s| && s[m] == t && !IsOld(t, second[m], threshold);
    OnlyOnce(s, i, m);
    CopyIsCut(s, first, second, threshold, size, k);
  }

  lemma CutRepeat(a: seq<Task>, b: seq<Task>, size: nat) returns (k: nat)
    requires NoRepeats(a) && NoRepeats(b) && !NoRepeats(Cut(a + b, size))
    ensures |a| <= k < |Cut(a + b, size)| && Cut(a + b, size)[k] in a && Cut(a + b, size)[k] in b
  {
    var batch := Cut(a + b, size);
    var j: nat;
    j, k :| j < k < |batch| && batch[j] == batch[k];
    SplitRepeat(a, b, j, k);
  }

  lemma OnlyOnce(s: seq<Task>, i: nat, k: nat)
    requires NoRepeats(s) && i < |s| && k < |s| && s[i] == s[k]
    ensures i == k
  {
  }

  lemma CopyIsCut(s: seq<Task>, first: seq<Time>, second: seq<Time>, threshold: int, size: nat, k: nat)
    requires |first| == |second| == |s|
    requires |Aged(s, first, threshold, true)| <= k < |Cut(Pick(s, first, second, threshold), size)|
    ensures FreshCopyCut(s, first, second, threshold, size, Cut(Pick(s, first, second, threshold), size)[k])
  {
  }

  lemma TwiceRepeats(s: seq<Task>, first: seq<Time>, second: seq<Time>, threshold: int, size: nat, i: nat)
    requires |first| == |second| == |s| && NoRepeats(s) && i < |s|
    requires Twice(s, first, second, threshold, i) && FreshCopyCut(s, first, second, threshold, size, s[i])
    ensures !NoRepeats(Cut(Pick(s, first, second, threshold), size))
  {
    Halves(s, first, threshold, true);
    StableSortSorts(Aged(s, first, threshold, true));
    var a := StableSort(Aged(s, first, threshold, true));
    var batch := Cut(Pick(s, first, second, threshold), size);
    hide Aged, StableSort, IsOld;
    var k :| |a| <= k < |batch| && batch[k] == s[i];
    var j :| 0 <= j < |a| && a[j] == s[i];
    assert batch[j] == batch[k];
  }

  /** Two equal elements of a list joined from two without repeats stand in both. */
  lemma SplitRepeat(a: seq<Task>, b: seq<Task>, i: nat, k: nat)
    requires NoRepeats(a) && NoRepeats(b) && i < k < |a + b| && (a + b)[i] == (a + b)[k]
    ensures i < |a| <= k && (a + b)[i] in a && (a + b)[i] in b
  {
    assert forall j | 0 <= j < |a + b| :: (a + b)[j] == if j < |a| then a[j] else b[j - |a|];
  }

  /** Any task: read just old enough, and then, after the clock was set back, just not. */
  lemma BatchRepeats(t: Task, threshold: int)
    ensures NoRepeats([t])
    ensures !NoRepeats(Cut(Pick([t], [t.creationTime + threshold], [t.creationTime + threshold - 1], threshold), 2))
  {
    var s, first, second := [t], [t.creationTime + threshold], [t.creationTime + threshold - 1];
    assert s[..0] == [] && first[..0] == [] && second[..0] == [];
    assert Aged(s, first, threshold, true) == [t] && Aged(s, second, threshold, false) == [t];
    assert StableSort([t]) == [t];
    var batch := Cut(Pick(s, first, second, threshold), 2);
    assert batch[0] == batch[1];
  }

  predicate NonDecreasing(clock: seq<Time>) {
    forall i, k | 0 <= i < k < |clock| :: clock[i] <= clock[k]
  }

  lemma ForwardClockPicksOnce(s: seq<Task>, first: seq<Time>, second: seq<Time>, threshold: int)
    requires |first| == |second| == |s| && NoRepeats(s) && NonDecreasing(first + second)
    ensures NoRepeats(Pick(s, first, second, threshold))
  {
    PickedOnce(s, first, second, threshold);
    forall i | 0 <= i < |s| ensures !Twice(s, first, second, threshold, i) {
      assert (first + second)[i] <= (first + second)[|s| + i];
    }
  }

  lemma PickMembers(s: seq<Task>, first: seq<Time>, second: seq<Time>, threshold: int)
    requires |first| == |second| == |s|
    ensures forall t | t in Pick(s, first, second, threshold) :: t in s
  {
    var stale, recent := Aged(s, first, threshold, true), Aged(s, second, threshold, false);
    AgedMembers(s, first, threshold, true);
    AgedMembers(s, second, threshold, false);
    StableSortSorts(stale);
    StableSortSorts(recent);
  }

  lemma {:induction false} NoRepeatsIsSet(s: seq<Task>)
    requires NoRepeats(s)
    ensures multiset(s) == multiset(Members(s))
  {
    if s == [] {
      assert Members(s) == {};
    } else {
      var rest, last := s[..|s| - 1], s[|s| - 1];
      NoRepeatsIsSet(rest);
      assert s == rest + [last];
      assert last !in rest;
      assert Members(s) == Members(rest) + {last};
    }
  }

  lemma {:induction false} WithoutSplits(s: seq<Task>, gone: set<Task>)
    requires NoRepeats(s)
    ensures multiset(s) == multiset(Without(s, gone)) + multiset(Members(s) * gone)
  {
    if s == [] {
      assert Members(s) * gone == {};
    } else {
      var rest, last := s[..|s| - 1], s[|s| - 1];
      LastIsNew(s);
      hide NoRepeats;
      WithoutSplits(rest, gone);
      assert s == rest + [last];
      var kept := Members(rest) * gone;
      if last in gone {
        assert Members(s) * gone == kept + {last};
        AddOne(kept, last);
        assert Without(s, gone) == Without(rest, gone);
      } else {
        assert Members(s) * gone == kept;
        assert Without(s, gone) == Without(rest, gone) + [last];
      }
    }
  }

  lemma LastIsNew(s: seq<Task>)
    requires NoRepeats(s) && s != []
    ensures NoRepeats(s[..|s| - 1]) && s[|s| - 1] !in s[..|s| - 1]
  {
  }

  lemma AddOne(s: set<Task>, t: Task)
    requires t !in s
    ensures multiset(s + {t}) == multiset(s) + multiset{t}
  {
  }

  /** A batch without repeats and what is left after removing it are together the whole buffer. */
  lemma Conserved(s: seq<Task>, batch: seq<Task>)
    requires NoRepeats(s) && NoRepeats(batch) && forall t | t in batch :: t in s
    ensures multiset(batch) + multiset(Without(s, Members(batch))) == multiset(s)
    ensures NoRepeats(Without(s, Members(batch)))
  {
    WithoutNoRepeats(s, Members(batch));
    WithoutSplits(s, Members(batch));
    NoRepeatsIsSet(batch);
    assert Members(s) * Members(batch) == Members(batch);
  }

  // ---------------------------------------------------------------------------------------------
  // Bounded waiting
  // ---------------------------------------------------------------------------------------------

  /** One tick with one clock value, on the buffer after draining. */
  function Batch(buffer: seq<Task>, size: nat): seq<Task> {
    Cut(StableSort(buffer), size)
  }

  function Rest(buffer: seq<Task>, size: nat): seq<Task> {
    Without(buffer, Members(Batch(buffer, size)))
  }

  /** The tick at which a task is dispatched, if any, when each tick first drains what arrived. */
  function DispatchedAt(buffer: seq<Task>, arrivals: seq<seq<Task>>, size: nat, t: Task): Option<nat>
    decreases |arrivals|
  {
    if arrivals == [] then None else
    var full := buffer + arrivals[0];
    if t in Batch(full, size) then Some(0) else
    match DispatchedAt(Rest(full, size), arrivals[1..], size, t)
    case None => None
    case Some(k) => Some(k + 1)
  }

  lemma {:induction false} InsertAfter(s: seq<Task>, t: Task, r: nat)
    requires r < |s| && Sorted(s) && s[r].creationTime <= t.creationTime
    ensures |Insert(s, t)| == |s| + 1 && Insert(s, t)[..r + 1] == s[..r + 1]
  {
    if s[|s| - 1].creationTime > t.creationTime {
      InsertAfter(s[..|s| - 1], t, r);
      assert Insert(s, t)[..r + 1] == Insert(s[..|s| - 1], t)[..r + 1];
    }
  }

  /** Later arrivals that are no older leave a task's place in the sorted buffer alone. */
  lemma {:induction false} LaterArrivals(buffer: seq<Task>, more: seq<Task>, r: nat)
    requires r < |StableSort(buffer)| && forall t | t in more :: StableSort(buffer)[r].creationTime <= t.creationTime
    ensures r < |StableSort(buffer + more)| && StableSort(buffer + more)[r] == StableSort(buffer)[r]
  {
    if more == [] {
      assert buffer + more == buffer;
    } else {
      var rest, last := more[..|more| - 1], more[|more| - 1];
      LaterArrivals(buffer, rest, r);
      assert (buffer + more)[..|buffer + more| - 1] == buffer + rest;
      StableSortSorts(buffer + rest);
      InsertAfter(StableSort(buffer + rest), last, r);
      assert StableSort(buffer + more)[..r + 1][r] == StableSort(buffer + rest)[..r + 1][r];
    }
  }

  /** After a tick, the sorted remainder is the sorted buffer without its first batch. */
  lemma RestSorts(buffer: seq<Task>, size: nat)
    requires NoRepeats(buffer)
    ensures StableSort(Rest(buffer, size)) == StableSort(buffer)[Min(size, |StableSort(buffer)|)..]
    ensures NoRepeats(Rest(buffer, size))
  {
    var s, k := StableSort(buffer), Min(size, |StableSort(buffer)|);
    SortWithout(buffer, Members(Batch(buffer, size)));
    SortNoRepeats(buffer);
    WithoutPrefix(s, k);
    WithoutNoRepeats(buffer, Members(Batch(buffer, size)));
    assert Members(Batch(buffer, size)) == set t | t in s[..k];
  }

  /** A task with r tasks before it in the sorted buffer is dispatched exactly at tick r / size, counting
      from zero, when later arrivals are no older. */
  lemma BoundedWaiting(buffer: seq<Task>, arrivals: seq<seq<Task>>, size: nat, t: Task, r: nat)
    requires size >= 1 && r / size < |arrivals|
    requires r < |StableSort(buffer)| && StableSort(buffer)[r] == t
    requires NoRepeats(buffer + Flatten(arrivals))
    requires forall x | x in Flatten(arrivals) :: t.creationTime <= x.creationTime
    ensures DispatchedAt(buffer, arrivals, size, t) == Some(r / size)
  {
    hide *;
    TicksOf(r, size, r / size);
    WaitsFor(buffer, arrivals, size, t, r, r / size);
  }

  /** r lies in the batch of this tick. */
  predicate InTick(r: int, size: nat, tick: nat)
    decreases tick
  {
    if tick == 0 then 0 <= r < size else InTick(r - size, size, tick - 1)
  }

  lemma {:induction false} TicksOf(r: nat, size: nat, tick: nat)
    requires size >= 1 && tick == r / size
    ensures InTick(r, size, tick)
    decreases tick
  {
    if tick > 0 {
      NextTick(r, size);
      TicksOf(r - size, size, tick - 1);
    } else {
      DivMod(r, size);
    }
  }

  lemma DivMod(r: nat, size: nat)
    requires size >= 1
    ensures r == r / size * size + r % size && 0 <= r % size < size
  {
  }

  lemma NextTick(r: nat, size: nat)
    requires size >= 1 && r / size >= 1
    ensures r >= size && (r - size) / size == r / size - 1
  {
    DivMod(r, size);
    var q, m := r / size, r % size;
    Times(q, size);
    DivUnique(r - size, size, q - 1, m);
  }

  lemma Times(q: nat, size: nat)
    requires q >= 1
    ensures q * size == (q - 1) * size + size && (q - 1) * size >= 0
  {
  }

  lemma DivUnique(a: nat, size: nat, q: nat, m: nat)
    requires size >= 1 && m < size && a == q * size + m
    ensures a / size == q
  {
    DivMod(a, size);
    var p := a / size;
    if p > q {
      Gap(p, q, size);
    } else if p < q {
      Gap(q, p, size);
    }
  }

  lemma {:induction false} Gap(p: nat, q: nat, size: nat)
    requires p > q
    ensures p * size >= q * size + size
    decreases p
  {
    Times(p, size);
    if p - 1 > q {
      Gap(p - 1, q, size);
    }
  }

  lemma {:induction false} WaitsFor(buffer: seq<Task>, arrivals: seq<seq<Task>>, size: nat, t: Task, r: nat, ticks: nat)
    requires ticks < |arrivals| && InTick(r, size, ticks)
    requires r < |StableSort(buffer)| && StableSort(buffer)[r] == t
    requires NoRepeats(buffer + Flatten(arrivals))
    requires forall x | x in Flatten(arrivals) :: t.creationTime <= x.creationTime
    ensures DispatchedAt(buffer, arrivals, size, t) == Some(ticks)
    decreases ticks
  {
    hide StableSort, Rest, NoRepeats;
    var full, rest := buffer + arrivals[0], Flatten(arrivals[1..]);
    assert Flatten(arrivals) == arrivals[0] + rest;
    assert buffer + Flatten(arrivals) == full + rest;
    LaterArrivals(buffer, arrivals[0], r);
    NoRepeatsBoth(full, rest);
    if ticks == 0 {
      assert Batch(full, size)[r] == t;
    } else {
      InTickLow(r - size, size, ticks - 1);
      NotYet(full, size, t, r);
      RestNoRepeats(full, rest, size);
      WaitsFor(Rest(full, size), arrivals[1..], size, t, r - size, ticks - 1);
    }
  }

  lemma {:induction false} InTickLow(r: int, size: nat, tick: nat)
    requires InTick(r, size, tick)
    ensures r >= 0
    decreases tick
  {
    if tick > 0 {
      InTickLow(r - size, size, tick - 1);
    }
  }

  lemma NotYet(full: seq<Task>, size: nat, t: Task, r: nat)
    requires NoRepeats(full) && size <= r < |StableSort(full)| && StableSort(full)[r] == t
    ensures t !in Batch(full, size)
    ensures r - size < |StableSort(Rest(full, size))| && StableSort(Rest(full, size))[r - size] == t
  {
    hide StableSort, Rest, NoRepeats;
    SortNoRepeats(full);
    RestSorts(full, size);
    OnlyAt(StableSort(full), r, size);
  }

  lemma OnlyAt(s: seq<Task>, r: nat, k: nat)
    requires NoRepeats(s) && k <= r < |s|
    ensures s[r] !in s[..k]
  {
  }

  function Flatten(lists: seq<seq<Task>>): seq<Task> {
    if lists == [] then [] else lists[0] + Flatten(lists[1..])
  }

  lemma NoRepeatsBoth(a: seq<Task>, b: seq<Task>)
    requires NoRepeats(a + b)
    ensures NoRepeats(a) && NoRepeats(b) && forall t | t in a :: t !in b
  {
    assert forall i | 0 <= i < |a| :: a[i] == (a + b)[i];
    assert forall i | 0 <= i < |b| :: b[i] == (a + b)[|a| + i];
  }

  lemma RestNoRepeats(a: seq<Task>, b: seq<Task>, size: nat)
    requires NoRepeats(a + b)
    ensures NoRepeats(Rest(a, size) + b)
  {
    NoRepeatsBoth(a, b);
    RestSorts(a, size);
    WithoutMembers(a, Members(Batch(a, size)));
    NoRepeatsJoin(Rest(a, size), b);
  }

  /** Since the buffer never holds more than four batches, no task waits for more than four ticks. */
  lemma WithinFourTicks(buffer: seq<Task>, arrivals: seq<seq<Task>>, size: nat, t: Task, r: nat)
    requires size >= 1 && |arrivals| >= 4 && |buffer| <= 4 * size
    requires r < |StableSort(buffer)| && StableSort(buffer)[r] == t
    requires NoRepeats(buffer + Flatten(arrivals))
    requires forall x | x in Flatten(arrivals) :: t.creationTime <= x.creationTime
    ensures DispatchedAt(buffer, arrivals, size, t).Some? && DispatchedAt(buffer, arrivals, size, t).value < 4
  {
    StableSortSorts(buffer);
    BelowFour(r, size);
    BoundedWaiting(buffer, arrivals, size, t, r);
  }

  lemma BelowFour(r: nat, size: nat)
    requires size >= 1 && r < 4 * size
    ensures r / size < 4
  {
  }
}
