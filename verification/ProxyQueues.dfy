/** A task that left a proxy's queue never comes back to it: an invariant of the worker pool protocol. */
module ProxyQueues {
  import opened ProxyProtocol
  import opened ProxyDispatch

  predicate Queued(s: Pool, p: ProxyId, t: TaskId) {
    p in s.proxies && t in Flat(s.proxies[p].queue)
  }

  /** The task is in the batch that the dispatch thread takes, or among those that stop drains. */
  predicate Leaves(s: Pool, a: Step, p: ProxyId, t: TaskId) {
    || (a == Take(p) && p in s.proxies && s.proxies[p].queue != [] && t in s.proxies[p].queue[0])
    || (a == Drain(p) && Queued(s, p, t))
  }

  /** A handoff of the task is under way, its retry reserved. */
  predicate Offered(q: Proxy, who: Thread, t: TaskId) {
    && q.HandOf(who).offer.Some? && q.HandOf(who).offer.value.reserved
    && q.HandOf(who).tasks != [] && q.HandOf(who).tasks[0] == t
  }

  /** The task has been in the queue of p and left it; elsewhere it can only be on its last way. */
  ghost predicate Gone(s: Pool, p: ProxyId, t: TaskId) {
    && t in s.placed && p in s.proxies && !Queued(s, p, t)
    && forall o | o in s.proxies && o != p :: LastWay(s, s.proxies[o], t)
  }

  ghost predicate LastWay(s: Pool, q: Proxy, t: TaskId) {
    && (t in Holds(q) ==> t in s.tasks && s.tasks[t].state.retries == 1)
    && !Offered(q, Dispatcher, t) && !Offered(q, Stopper, t)
  }

  // ---------------------------------------------------------------------------------------------
  // Queues
  // ---------------------------------------------------------------------------------------------

  lemma FlatSplit(q: seq<Batch>)
    requires q != []
    ensures Flat(q) == multiset(q[0]) + Flat(q[1..])
  {
  }

  /** What a step puts in the queue of p. */
  function Received(s: Pool, a: Step, p: ProxyId): seq<TaskId>
    requires Can(s, a)
  {
    if a.Submit? && a.p == p then a.batch
    else if Accepting(s, a) && a.p != p && a.c == p then [Head(s, a.p, a.who)]
    else []
  }

  lemma QueueAfter(s: Pool, a: Step, p: ProxyId)
    requires Can(s, a) && p in s.proxies
    ensures
      var q, q' := s.proxies[p].queue, ProxyAfter(s, a, p).queue;
      || q' == q
      || (q' == q + [Received(s, a, p)] && Received(s, a, p) != [])
      || (a == Take(p) && q != [] && q' == q[1..])
      || (a == Drain(p) && q' == [])
  {
    hide CandidatesFor, NoTimeLeft, Concat, Remove;
  }

  /** A task leaves a queue in no other way. */
  lemma QueueLeaves(s: Pool, a: Step, p: ProxyId, t: TaskId)
    requires Can(s, a) && Queued(s, p, t) && t !in Flat(ProxyAfter(s, a, p).queue)
    ensures Leaves(s, a, p, t)
  {
    hide Can, ProxyAfter, Received;
    QueueAfter(s, a, p);
    var q := s.proxies[p].queue;
    FlatAppend(q, Received(s, a, p));
    if a == Take(p) && q != [] {
      FlatSplit(q);
    }
  }

  /** A task enters a queue in no other way. */
  lemma QueueReceives(s: Pool, a: Step, p: ProxyId, t: TaskId)
    requires Can(s, a) && p in s.proxies && !Queued(s, p, t) && t in Flat(ProxyAfter(s, a, p).queue)
    ensures t in Received(s, a, p)
  {
    hide Can, ProxyAfter, Received;
    QueueAfter(s, a, p);
    var q := s.proxies[p].queue;
    FlatAppend(q, Received(s, a, p));
    if a == Take(p) && q != [] {
      FlatSplit(q);
    }
  }

  // ---------------------------------------------------------------------------------------------
  // Leaving
  // ---------------------------------------------------------------------------------------------

  lemma OthersWithout(s: Pool, p: ProxyId, o: ProxyId, t: TaskId)
    requires Conserved(s) && p in s.proxies && o in s.proxies && o != p && t in Holds(s.proxies[p])
    ensures LastWay(s, s.proxies[o], t)
  {
    HeldOnce(s, p, o, t);
    OfferedIsHeld(s.proxies[o], Dispatcher, t);
    OfferedIsHeld(s.proxies[o], Stopper, t);
  }

  lemma OfferedIsHeld(q: Proxy, who: Thread, t: TaskId)
    ensures Offered(q, who, t) ==> t in Holds(q)
  {
    assert Offered(q, who, t) ==> t in multiset(q.HandOf(who).tasks);
  }

  lemma QueuedIsHeld(s: Pool, p: ProxyId, t: TaskId)
    requires Conserved(s) && Queued(s, p, t)
    ensures t in Holds(s.proxies[p]) && Flat(s.proxies[p].queue)[t] == 1 && t in s.placed
  {
    var h := Holdings(s);
    assert h[p][t] <= 1 && t in h[p] && Held(h, t);
  }

  lemma LeavingLeaves(s: Pool, a: Step, p: ProxyId, t: TaskId)
    requires Conserved(s) && Can(s, a) && Leaves(s, a, p, t)
    ensures Gone(Next(s, a), p, t) && Queued(s, p, t)
  {
    var q := s.proxies[p];
    if a == Take(p) {
      FlatSplit(q.queue);
    }
    QueuedIsHeld(s, p, t);
    OldProxy(s, a, p);
    var s' := Next(s, a);
    assert t !in Flat(s'.proxies[p].queue);
    forall o | o in s'.proxies && o != p ensures LastWay(s', s'.proxies[o], t) {
      OldProxy(s, a, o);
      OthersWithout(s, p, o, t);
      assert ProxyAfter(s, a, o) == s.proxies[o];
    }
  }

  // ---------------------------------------------------------------------------------------------
  // Staying away
  // ---------------------------------------------------------------------------------------------

  lemma RetriesStay(s: Pool, a: Step, t: TaskId)
    requires Counted(s) && Structured(s) && Conserved(s) && Can(s, a) && t in s.tasks && s.tasks[t].state.retries == 1
    ensures t in TasksAfter(s, a) && TasksAfter(s, a)[t].state.retries == 1
  {
    hide Counted, Structured, Conserved, Can, TasksAfter, Sends, Retries;
    if Sends(s, a) {
      SentRetries(s, a, t);
    } else if Retries(s, a) {
      ReservedRetries(s, a, t);
    } else {
      QuietCounts(s, a);
    }
  }

  lemma SentRetries(s: Pool, a: Step, t: TaskId)
    requires Can(s, a) && Sends(s, a) && t in s.tasks
    ensures t in TasksAfter(s, a) && TasksAfter(s, a)[t].state.retries == s.tasks[t].state.retries
  {
    hide NoTimeLeft;
  }

  lemma ReservedRetries(s: Pool, a: Step, t: TaskId)
    requires Can(s, a) && Retries(s, a) && t in s.tasks && s.tasks[t].state.retries == 1
    ensures t in TasksAfter(s, a) && TasksAfter(s, a)[t] == s.tasks[t]
  {
    ReserveShape(s, a);
  }

  /** An offer with a reserved retry was there before, or the retry is reserved now. */
  lemma OfferBefore(s: Pool, a: Step, o: ProxyId, who: Thread, t: TaskId)
    requires Can(s, a) && o in s.proxies && Offered(ProxyAfter(s, a, o), who, t)
    ensures Offered(s.proxies[o], who, t) || (Retries(s, a) && a.p == o && a.who == who && Head(s, o, who) == t)
  {
    hide CandidatesFor, NoTimeLeft, Concat, Remove;
  }

  /** What a proxy other than p holds after a step it held before, or it is handed over now. */
  lemma HoldsBefore(s: Pool, a: Step, o: ProxyId, t: TaskId)
    requires Structured(s) && Can(s, a) && o in s.proxies && t in Holds(ProxyAfter(s, a, o))
    ensures t in Holds(s.proxies[o]) || t in Received(s, a, o)
  {
    hide Structured, Holds, LetGo;
    if a.Submit? {
      if a.p == o {
        SubmitHolds(s, a);
      } else {
        Untouched(s, a, o);
      }
    } else if Accepting(s, a) {
      OtherProxy(s, a);
      HandoffHolds(s, a);
      if o != a.p && o != a.c {
        Untouched(s, a, o);
      }
    } else {
      HoldsStep(s, a, o);
    }
  }

  lemma GoneStep(s: Pool, a: Step, p: ProxyId, t: TaskId)
    requires Counted(s) && Structured(s) && Conserved(s) && Can(s, a) && Gone(s, p, t)
    ensures Gone(Next(s, a), p, t)
  {
    hide Counted, Structured, Conserved, Can, Next, LastWay, Received;
    var s' := Next(s, a);
    StaysPlaced(s, a, t);
    OldProxy(s, a, p);
    if Queued(s', p, t) {
      QueueReceives(s, a, p, t);
      NotReceived(s, a, p, p, t);
    }
    forall o | o in s'.proxies && o != p ensures LastWay(s', s'.proxies[o], t) {
      if o in s.proxies {
        OldProxy(s, a, o);
        LastWayStep(s, a, p, o, t);
      } else {
        NewLastWay(s, a, o, t);
      }
    }
  }

  lemma StaysPlaced(s: Pool, a: Step, t: TaskId)
    requires Can(s, a) && t in s.placed
    ensures t in Next(s, a).placed && Next(s, a).tasks == TasksAfter(s, a)
  {
    hide TasksAfter, ProxiesAfter, OmittedBy, MembersAfter;
  }

  /** Only p itself can hand over a task that is gone from its queue. */
  lemma NotReceived(s: Pool, a: Step, p: ProxyId, o: ProxyId, t: TaskId)
    requires Structured(s) && Can(s, a) && Gone(s, p, t) && o in s.proxies && t in Received(s, a, o)
    ensures Accepting(s, a) && a.p == p && o != p && HasHead(s, p, a.who) && Head(s, p, a.who) == t
  {
    hide Structured, Holds;
    if a.TryNext? {
      OtherProxy(s, a);
    }
  }

  lemma LastWayStep(s: Pool, a: Step, p: ProxyId, o: ProxyId, t: TaskId)
    requires Counted(s) && Structured(s) && Conserved(s) && Can(s, a) && Gone(s, p, t) && o in s.proxies && o != p
    ensures LastWay(Next(s, a), ProxyAfter(s, a, o), t)
  {
    hide Counted, Structured, Conserved, Can, Next, Gone, Holds, ProxyAfter, TasksAfter, Received, Offered;
    GoneHere(s, p, o, t);
    StaysPlaced(s, a, t);
    if t in Holds(ProxyAfter(s, a, o)) {
      HoldsBefore(s, a, o, t);
      if t !in Holds(s.proxies[o]) {
        NotReceived(s, a, p, o, t);
        HandedOnce(s, a, t);
      }
      RetriesStay(s, a, t);
    }
    NotOffered(s, a, p, o, Dispatcher, t);
    NotOffered(s, a, p, o, Stopper, t);
  }

  lemma GoneHere(s: Pool, p: ProxyId, o: ProxyId, t: TaskId)
    requires Gone(s, p, t) && o in s.proxies && o != p
    ensures t in s.placed && LastWay(s, s.proxies[o], t)
  {
  }

  /** A task that is handed over has used its retry. */
  lemma HandedOnce(s: Pool, a: Step, t: TaskId)
    requires Counted(s) && Can(s, a) && Accepting(s, a) && HasHead(s, a.p, a.who) && Head(s, a.p, a.who) == t
    ensures t in s.tasks && s.tasks[t].state.retries == 1
  {
    CountsOf(s, a.p);
    hide Counted, Counts;
    HeadOnOffer(s.tasks, s.proxies[a.p], a.who);
  }

  lemma NotOffered(s: Pool, a: Step, p: ProxyId, o: ProxyId, who: Thread, t: TaskId)
    requires Can(s, a) && Gone(s, p, t) && o in s.proxies && o != p
    ensures !Offered(ProxyAfter(s, a, o), who, t)
  {
    GoneHere(s, p, o, t);
    hide Can, Holds, ProxyAfter, Gone;
    if Offered(ProxyAfter(s, a, o), who, t) {
      OfferBefore(s, a, o, who, t);
      if !Offered(s.proxies[o], who, t) {
        HeadHeld(s, o, who);
      }
    }
  }

  lemma HeadHeld(s: Pool, o: ProxyId, who: Thread)
    requires HasHead(s, o, who)
    ensures Head(s, o, who) in Holds(s.proxies[o])
  {
    HeadIsHeld(s, o, who);
  }

  lemma NewLastWay(s: Pool, a: Step, o: ProxyId, t: TaskId)
    requires Can(s, a) && o in Next(s, a).proxies && o !in s.proxies
    ensures LastWay(Next(s, a), Next(s, a).proxies[o], t)
  {
    hide ProxyAfter, TasksAfter, OmittedBy, MembersAfter, Can;
    AddedProxy(s, a, o);
  }
}
