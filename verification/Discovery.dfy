/** How worker discovery follows the registry (system/zookeeper_registry.py), as a transition system: the
    tree of registered workers, the one-shot watches on it, the wakeup flag, and the refresh thread with
    its separate reads.

    A watch is armed or has an event on its way to the client; delivering the event reads again, arms the
    watch again and sets the wakeup flag. While the session is down no events are produced; on
    reconnection all watches are armed and the flag is set. */
module Discovery {
  import opened Wrappers

  type Id = string
  type Info = string           // a parsed address and state

  /** A node's data: usable, or such that parsing it raises. */
  datatype Data = Usable(info: Info) | Malformed

  datatype Watch = Armed | Fired

  datatype Phase =
    | Waiting
    | Starting
    | Watching(children: set<Id>, todo: set<Id>)
    | Reading(children: set<Id>, todo: set<Id>, got: map<Id, Info>)
    | Publishing(got: map<Id, Info>)
    | Retrying

  datatype State = State(
    tree: map<Id, Data>,
    connected: bool,
    listing: Watch,                  // the watch on the list of children
    watched: map<Id, Watch>,         // the watches on single nodes, missing ones included
    wakeup: bool,
    phase: Phase,
    published: Option<map<Id, Info>>
  )

  datatype Step =
    | Change(id: Id, data: Option<Data>)   // create, overwrite or delete a node
    | Disconnect
    | Reconnect
    | DeliverListing
    | Deliver(id: Id)
    | Wake
    | List
    | WatchOne(id: Id)
    | Watched
    | ReadOne(id: Id)
    | ReadAll
    | Publish
    | Fail                                 // any read or the notification raises
    | Retry

  function Init(tree: map<Id, Data>): State {
    State(tree, true, Armed, map[], true, Starting, None)
  }

  predicate Enabled(s: State, step: Step) {
    match step
    case Change(_, _) => true
    case Disconnect => s.connected
    case Reconnect => !s.connected
    case DeliverListing => s.connected && s.listing == Fired
    case Deliver(id) => s.connected && id in s.watched && s.watched[id] == Fired
    case Wake => s.phase == Waiting && s.wakeup
    case List => s.connected && s.phase == Starting
    case WatchOne(id) => s.connected && s.phase.Watching? && id in s.phase.todo
    case Watched => s.phase.Watching? && s.phase.todo == {}
    case ReadOne(id) => s.connected && s.phase.Reading? && id in s.phase.todo && (id in s.tree ==> s.tree[id].Usable?)
    case ReadAll => s.phase.Reading? && s.phase.todo == {}
    case Publish => s.phase.Publishing?
    case Fail => !s.phase.Waiting? && !s.phase.Retrying?
    case Retry => s.phase.Retrying?
  }

  /** What a change of one node does to the watches. */
  function AfterChange(s: State, id: Id, data: Option<Data>): State {
    var present := id in s.tree;
    s.(tree := match data case None => s.tree - {id} case Some(d) => s.tree[id := d],
       listing := if s.connected && present != data.Some? then Fired else s.listing,
       watched := if s.connected && id in s.watched && (present || data.Some?) then s.watched[id := Fired]
           else s.watched)
  }

  function Next(s: State, step: Step): State
    requires Enabled(s, step)
  {
    match step
    case Change(id, data) => AfterChange(s, id, data)
    case Disconnect => s.(connected := false)
    case Reconnect => s.(connected := true, listing := Armed,
          watched := map id | id in s.watched :: Armed, wakeup := true)
    case DeliverListing => s.(listing := Armed, wakeup := true)
    case Deliver(id) => s.(watched := s.watched[id := Armed], wakeup := true)
    case Wake => s.(wakeup := false, phase := Starting)
    case List => s.(phase := Watching(s.tree.Keys, s.tree.Keys))
    case WatchOne(id) =>
      var next := Watching(s.phase.children, s.phase.todo - {id});
      if id in s.watched then s.(phase := next)
          else s.(phase := next, watched := s.watched[id := Armed], wakeup := true)
    case Watched => s.(phase := Reading(s.phase.children, s.phase.children, map[]))
    case ReadOne(id) =>
      s.(phase := Reading(s.phase.children, s.phase.todo - {id},
                          if id in s.tree then s.phase.got[id := s.tree[id].info] else s.phase.got))
    case ReadAll => s.(phase := Publishing(s.phase.got))
    case Publish => s.(phase := Waiting, published := Some(s.phase.got))
    case Fail => s.(phase := Retrying)
    case Retry => s.(phase := Waiting, wakeup := true)
  }

  // ---------------------------------------------------------------------------------------------
  // No change is missed
  // ---------------------------------------------------------------------------------------------

  /** No wakeup, no event on its way, and the session is up. */
  predicate Calm(s: State) {
    s.connected && !s.wakeup && s.listing == Armed && forall id | id in s.watched :: s.watched[id] == Armed
  }

  /** What is known of a node once it was read. */
  predicate Current(s: State, id: Id, got: map<Id, Info>) {
    if id in s.tree then id in got && s.tree[id] == Usable(got[id]) else id !in got
  }

  /** A snapshot of the whole tree. */
  predicate Mirrors(s: State, got: map<Id, Info>) {
    got.Keys == s.tree.Keys && forall id | id in got :: s.tree[id] == Usable(got[id])
  }

  /** Structure that holds always: nodes already passed by the watching loop are watched. */
  predicate Follows(s: State) {
    match s.phase
    case Watching(children, todo) => todo <= children && children - todo <= s.watched.Keys
    case Reading(children, todo, got) => todo <= children && children <= s.watched.Keys && got.Keys <= children - todo
    case Publishing(got) => got.Keys <= s.watched.Keys
    case _ => true
  }

  /** How far the refresh is right, if nothing is on its way. */
  predicate RightSoFar(s: State) {
    match s.phase
    case Waiting => s.published.Some? && Mirrors(s, s.published.value)
    case Watching(children, _) => children == s.tree.Keys
    case Reading(children, todo, got) => children == s.tree.Keys
        && forall id | id in children - todo :: Current(s, id, got)
    case Publishing(got) => Mirrors(s, got)
    case Starting => true
    case Retrying => true
  }

  predicate Inv(s: State) {
    && Follows(s) && (s.published.Some? ==> s.published.value.Keys <= s.watched.Keys)
    && (Calm(s) ==> RightSoFar(s))
  }

  /** A change that matters to what is known so far is noticed by a watch, if the session is up. */
  lemma ChangeStep(s: State, id: Id, data: Option<Data>)
    requires Inv(s)
    ensures Inv(AfterChange(s, id, data))
  {
    var t := AfterChange(s, id, data);
    if Calm(t) && id in s.watched {
      assert t.watched[id] == Armed;
    }
  }

  lemma ReadStep(s: State, step: Step)
    requires Inv(s) && Enabled(s, step) && (step.ReadOne? || step.ReadAll?)
    ensures Inv(Next(s, step))
  {
    var t := Next(s, step);
    if Calm(t) {
      var children, todo, got := s.phase.children, s.phase.todo, s.phase.got;
      if step.ReadOne? {
        forall id | id in children - t.phase.todo ensures Current(t, id, t.phase.got) {
          assert id != step.id ==> id in children - todo && Current(s, id, got);
        }
      } else {
        forall id | id in t.tree ensures id in got && t.tree[id] == Usable(got[id]) {
          assert id in children - todo && Current(s, id, got);
        }
      }
    }
  }

  lemma InvStep(s: State, step: Step)
    requires Inv(s) && Enabled(s, step)
    ensures Inv(Next(s, step))
  {
    match step
    case Change(id, data) => ChangeStep(s, id, data);
    case ReadOne(_) => ReadStep(s, step);
    case ReadAll => ReadStep(s, step);
    case _ =>
  }

  function Perform(s: State, step: Step): State {
    if Enabled(s, step) then Next(s, step) else s
  }

  function Run(tree: map<Id, Data>, steps: seq<Step>): State {
    if steps == [] then Init(tree) else Perform(Run(tree, steps[..|steps| - 1]), steps[|steps| - 1])
  }

  lemma {:induction false} InvRun(tree: map<Id, Data>, steps: seq<Step>)
    ensures Inv(Run(tree, steps))
  {
    if steps != [] {
      InvRun(tree, steps[..|steps| - 1]);
      if Enabled(Run(tree, steps[..|steps| - 1]), steps[|steps| - 1]) {
        InvStep(Run(tree, steps[..|steps| - 1]), steps[|steps| - 1]);
      }
    }
  }

  /** Something will still make the thread look: the wakeup flag, an event on its way, a refresh or a retry
      under way, or the session is down and will set the flag when it is back. */
  predicate Outstanding(s: State) {
    || s.wakeup || s.listing == Fired || (exists id | id in s.watched :: s.watched[id] == Fired)
    || s.phase != Waiting || !s.connected
  }

  /** In every reachable state: if what was last published is not the tree, something is outstanding. */
  lemma NoMissedChange(tree: map<Id, Data>, steps: seq<Step>)
    ensures
      var s := Run(tree, steps);
      (s.published.None? || !Mirrors(s, s.published.value)) ==> Outstanding(s)
  {
    InvRun(tree, steps);
    var s := Run(tree, steps);
    if !Outstanding(s) {
      assert forall id | id in s.watched :: s.watched[id] == Armed;
    }
  }

  // ---------------------------------------------------------------------------------------------
  // An undisturbed refresh publishes the tree
  // ---------------------------------------------------------------------------------------------

  /** The thread runs from its wakeup to the publication with no failure and no change in between. */
  predicate Undisturbed(step: Step) {
    step.List? || step.WatchOne? || step.Watched? || step.ReadOne? || step.ReadAll? || step.Publish?
  }

  /** How many steps a refresh still has. */
  function Work(s: State): nat {
    match s.phase
    case Starting => |s.tree.Keys| + |s.tree.Keys| + 4
    case Watching(children, todo) => |todo| + |children| + 3
    case Reading(_, todo, _) => |todo| + 2
    case Publishing(_) => 1
    case _ => 0
  }

  lemma Smaller(todo: set<Id>, id: Id)
    requires id in todo
    ensures |todo - {id}| < |todo|
  {
  }

  lemma WorkStep(s: State, step: Step)
    requires Enabled(s, step) && Undisturbed(step)
    ensures Work(Next(s, step)) < Work(s) && Next(s, step).tree == s.tree && Next(s, step).connected == s.connected
  {
    if step.WatchOne? || step.ReadOne? {
      WorkOne(s, step, step.id);
    }
  }

  lemma WorkOne(s: State, step: Step, id: Id)
    requires Enabled(s, step) && step in {WatchOne(id), ReadOne(id)}
    ensures Work(Next(s, step)) < Work(s) && Next(s, step).tree == s.tree && Next(s, step).connected == s.connected
  {
    Smaller(s.phase.todo, id);
  }

  /** While the session is up and every node can be parsed, a refresh always has a next step, and each of
      its steps leaves less to do: it gets to the publication. */
  lemma RefreshAdvances(s: State) returns (step: Step)
    requires s.connected && (forall id | id in s.tree :: s.tree[id].Usable?) && s.phase != Waiting
              && s.phase != Retrying
    ensures Undisturbed(step) && Enabled(s, step) && Work(Next(s, step)) < Work(s)
    ensures Next(s, step).tree == s.tree && Next(s, step).connected
  {
    step := if s.phase.Starting? then List else if s.phase.Publishing? then Publish
            else if s.phase.Watching?
                then (if s.phase.todo == {} then Watched else WatchOne(var id :| id in s.phase.todo; id))
            else if s.phase.todo == {} then ReadAll else ReadOne(var id :| id in s.phase.todo; id);
    WorkStep(s, step);
  }

  lemma RightStep(s: State, step: Step)
    requires Follows(s) && RightSoFar(s) && Enabled(s, step) && Undisturbed(step)
    ensures Follows(Next(s, step)) && RightSoFar(Next(s, step))
  {
    var t := Next(s, step);
    if step.ReadOne? {
      forall id | id in s.phase.children - t.phase.todo ensures Current(t, id, t.phase.got) {
        assert id != step.id ==> id in s.phase.children - s.phase.todo && Current(s, id, s.phase.got);
      }
    } else if step.ReadAll? {
      forall id | id in t.tree ensures id in s.phase.got && t.tree[id] == Usable(s.phase.got[id]) {
        assert id in s.phase.children - s.phase.todo && Current(s, id, s.phase.got);
      }
    }
  }

  function RunFrom(s: State, steps: seq<Step>): State
    decreases |steps|
  {
    if steps == [] then s else RunFrom(Perform(s, steps[0]), steps[1..])
  }

  /** A refresh that is right so far, left alone, ends with the tree published. A fresh one always is. */
  lemma {:induction false} RefreshPublishes(s: State) returns (steps: seq<Step>)
    requires Follows(s) && RightSoFar(s) && s.connected && (forall id | id in s.tree :: s.tree[id].Usable?)
    requires s.phase != Waiting && s.phase != Retrying
    ensures forall step | step in steps :: Undisturbed(step)
    ensures var t := RunFrom(s, steps);
            t.phase == Waiting && t.tree == s.tree && t.published.Some? && Mirrors(t, t.published.value)
    decreases Work(s)
  {
    var step := RefreshAdvances(s);
    RightStep(s, step);
    var t := Next(s, step);
    NeverRetries(s, step);
    if t.phase == Waiting {
      steps := [step];
      assert RunFrom(s, steps) == RunFrom(t, []);
    } else {
      var rest := RefreshPublishes(t);
      steps := [step] + rest;
      assert steps[1..] == rest;
    }
  }

  lemma NeverRetries(s: State, step: Step)
    requires Enabled(s, step) && Undisturbed(step)
    ensures Next(s, step).phase != Retrying
  {
  }
}
