/** Admission and active-handler accounting of one process (system/deployment.py), with the marker file
    that a deployment publishes outside the process. */
module DeploymentGates {
  import opened Wrappers

  type Proc = nat
  type Token = nat

  /** Where a thread is: before the lock, holding it, having read the marker, or inside its handler. */
  datatype Place =
    | Arriving | Entering | Read(draining: bool)
    | Inside
    | Asking | Looking | Seen(draining: bool, token: Option<Token>)

  datatype Snapshot = Snapshot(draining: bool, token: Option<Token>, active: int)

  datatype Gate = Gate(
    marker: Option<Token>,        // the drain file
    lock: Option<Proc>,
    at: map<Proc, Place>,
    active: int,
    answers: seq<Snapshot>        // every snapshot handed out, in order
  ) {
    predicate Draining() {
      marker.Some?
    }
  }

  const Started := Gate(None, None, map[], 0, [])

  datatype Step =
    | Arrive(p: Proc)
    | Lock(p: Proc)
    | ReadMarker(p: Proc, readable: bool)
    | Admit(p: Proc)               // count or refuse, and release the lock
    | Leave(p: Proc)               // the whole of leave
    | Ask(p: Proc)
    | LockAsk(p: Proc)
    | Look(p: Proc, readable: bool)
    | Answer(p: Proc)              // read the counter and release the lock
    | Restart                      // the process is replaced
    | Publish(token: Token)        // an exclusive link: never over another marker
    | Remove

  predicate Enabled(g: Gate, step: Step) {
    match step
    case Arrive(p) => p !in g.at
    case Ask(p) => p !in g.at
    case Lock(p) => p in g.at && g.at[p] == Arriving && g.lock == None
    case LockAsk(p) => p in g.at && g.at[p] == Asking && g.lock == None
    case ReadMarker(p, _) => p in g.at && g.at[p] == Entering
    case Look(p, _) => p in g.at && g.at[p] == Looking
    case Admit(p) => p in g.at && g.at[p].Read?
    case Answer(p) => p in g.at && g.at[p].Seen?
    case Leave(p) => p in g.at && g.at[p] == Inside && g.lock == None
    case Restart => true
    case Publish(_) => g.marker == None
    case Remove => true
  }

  /** A marker that exists but cannot be read counts as draining, without a token. */
  function Marked(g: Gate, readable: bool): (bool, Option<Token>) {
    if g.marker == None then (false, None) else (true, if readable then g.marker else None)
  }

  function Next(g: Gate, step: Step): Gate
    requires Enabled(g, step)
  {
    match step
    case Arrive(p) => g.(at := g.at[p := Arriving])
    case Ask(p) => g.(at := g.at[p := Asking])
    case Lock(p) => g.(at := g.at[p := Entering], lock := Some(p))
    case LockAsk(p) => g.(at := g.at[p := Looking], lock := Some(p))
    case ReadMarker(p, readable) => g.(at := g.at[p := Read(Marked(g, readable).0)])
    case Look(p, readable) => g.(at := g.at[p := Seen(Marked(g, readable).0, Marked(g, readable).1)])
    case Admit(p) =>
      if g.at[p].draining then g.(at := g.at - {p}, lock := None)
      else g.(at := g.at[p := Inside], active := g.active + 1, lock := None)
    case Answer(p) =>
      g.(at := g.at - {p}, lock := None, answers := g.answers + [Snapshot(g.at[p].draining, g.at[p].token, g.active)])
    case Leave(p) => g.(at := g.at - {p}, active := g.active - 1)
    case Restart => g.(lock := None, at := map[], active := 0)
    case Publish(token) => g.(marker := Some(token))
    case Remove => g.(marker := None)
  }

  function Perform(g: Gate, step: Step): Gate {
    if Enabled(g, step) then Next(g, step) else g
  }

  function Run(g: Gate, steps: seq<Step>): Gate {
    if steps == [] then g else Perform(Run(g, steps[..|steps| - 1]), steps[|steps| - 1])
  }

  // ---------------------------------------------------------------------------------------------
  // The counter is the number of handlers
  // ---------------------------------------------------------------------------------------------

  function Handlers(g: Gate): set<Proc> {
    set p | p in g.at && g.at[p] == Inside
  }

  predicate Holds(place: Place) {
    place == Entering || place.Read? || place == Looking || place.Seen?
  }

  predicate Inv(g: Gate) {
    && g.active == |Handlers(g)|
    && (forall p | p in g.at && Holds(g.at[p]) :: g.lock == Some(p))
  }

  lemma InvStep(g: Gate, step: Step)
    requires Inv(g) && Enabled(g, step)
    ensures Inv(Next(g, step))
  {
    CountStep(g, step);
    hide Handlers;
  }

  lemma CountStep(g: Gate, step: Step)
    requires g.active == |Handlers(g)| && Enabled(g, step)
    ensures Next(g, step).active == |Handlers(Next(g, step))|
  {
    HandlersStep(g, step);
    hide Next, Handlers;
  }

  lemma HandlersStep(g: Gate, step: Step)
    requires Enabled(g, step)
    ensures
      var h, was := Next(g, step), Handlers(g);
      match step
      case Admit(p) => p !in was && if g.at[p].draining then Handlers(h) == was && h.active == g.active
                                    else Handlers(h) == was + {p} && h.active == g.active + 1
      case Leave(p) => p in was && Handlers(h) == was - {p} && h.active == g.active - 1
      case Restart => Handlers(h) == {} && h.active == 0
      case _ => Handlers(h) == was && h.active == g.active
  {
  }

  lemma {:induction false} InvRun(g: Gate, steps: seq<Step>)
    requires Inv(g)
    ensures Inv(Run(g, steps))
  {
    if steps != [] {
      InvRun(g, steps[..|steps| - 1]);
      var h := Run(g, steps[..|steps| - 1]);
      if Enabled(h, steps[|steps| - 1]) {
        InvStep(h, steps[|steps| - 1]);
      }
    }
  }

  // ---------------------------------------------------------------------------------------------
  // An idle answer stays true
  // ---------------------------------------------------------------------------------------------

  /** The marker is there, no handler runs, and no thread that missed the marker can still be admitted. */
  predicate Sealed(g: Gate) {
    && g.Draining() && g.active == 0 && Handlers(g) == {}
    && forall p | p in g.at && g.at[p].Read? :: g.at[p].draining
  }

  lemma SealedStep(g: Gate, step: Step)
    requires Sealed(g) && Enabled(g, step) && step != Remove
    ensures Sealed(Next(g, step)) && Next(g, step).marker == g.marker
  {
    forall p | p in g.at ensures g.at[p] != Inside {
      assert p !in Handlers(g);
    }
  }

  /** The thread that answers holds the lock, so nobody else is between reading the marker and counting. */
  lemma AnswerSeals(g: Gate, p: Proc)
    requires Inv(g) && Enabled(g, Answer(p)) && g.Draining() && g.active == 0
    ensures Sealed(Next(g, Answer(p)))
  {
    assert |Handlers(g)| == 0;
  }

  lemma {:induction false} SealedRun(g: Gate, steps: seq<Step>)
    requires Sealed(g) && Remove !in steps
    ensures Sealed(Run(g, steps)) && Run(g, steps).marker == g.marker
  {
    if steps != [] {
      SealedRun(g, steps[..|steps| - 1]);
      var h := Run(g, steps[..|steps| - 1]);
      if Enabled(h, steps[|steps| - 1]) {
        SealedStep(h, steps[|steps| - 1]);
      }
    }
  }

  /** If a snapshot says draining with no active handler, then from the moment it was taken until the
      marker is removed no handler is active and none starts, whatever threads do, and the marker stays.
      Here the answer is step m of a run, the marker was read at step k, and it is not removed in
      steps k to n. */
  lemma IdleStaysTrue(steps: seq<Step>, k: nat, m: nat, n: nat, p: Proc, readable: bool)
    requires k < m < n <= |steps|
    requires steps[k] == Look(p, readable) && Enabled(Run(Started, steps[..k]), steps[k])
    requires steps[m] == Answer(p) && Enabled(Run(Started, steps[..m]), steps[m])
    requires forall i | k < i < m :: !IsStepOf(steps[i], p) && steps[i] != Restart
    requires Remove !in steps[k..n]
    ensures
      var answer := Run(Started, steps[..m + 1]).answers;
      answer != [] && var last := answer[|answer| - 1];
      last.draining && last.active == 0 ==>
        var g := Run(Started, steps[..n]);
        Sealed(g) && Handlers(g) == {} && g.active == 0 && (readable ==> g.marker == last.token)
  {
    var before := Run(Started, steps[..k]);
    assert steps[..k + 1][..k] == steps[..k];
    assert steps[..m + 1][..m] == steps[..m];
    SawMarker(steps, k, m, p, readable);
    InvRun(Started, steps[..m]);
    var g := Run(Started, steps[..m]);
    if g.at[p].draining && g.active == 0 {
      AnswerSeals(g, p);
      RunSplit(Started, steps[..m + 1], steps[m + 1..n]);
      assert steps[..m + 1] + steps[m + 1..n] == steps[..n];
      assert forall i | m + 1 <= i < n :: steps[i] in steps[k..n];
      SealedRun(Run(Started, steps[..m + 1]), steps[m + 1..n]);
    }
  }

  predicate IsStepOf(step: Step, p: Proc) {
    match step
    case Restart => false
    case Publish(_) => false
    case Remove => false
    case _ => step.p == p
  }

  /** Between reading the marker and answering, what the thread saw is kept, and a marker stays. */
  lemma {:induction false} SawMarker(steps: seq<Step>, k: nat, m: nat, p: Proc, readable: bool)
    requires k < m <= |steps|
    requires steps[k] == Look(p, readable) && Enabled(Run(Started, steps[..k]), steps[k])
    requires forall i | k < i < m :: !IsStepOf(steps[i], p) && steps[i] != Restart && steps[i] != Remove
    ensures
      var was, g := Run(Started, steps[..k]), Run(Started, steps[..m]);
      && p in g.at && g.at[p] == Seen(Marked(was, readable).0, Marked(was, readable).1)
      && (was.Draining() ==> g.marker == was.marker)
    decreases m
  {
    assert steps[..m][..m - 1] == steps[..m - 1];
    if m > k + 1 {
      SawMarker(steps, k, m - 1, p, readable);
    }
  }

  lemma {:induction false} RunSplit(g: Gate, a: seq<Step>, b: seq<Step>)
    ensures Run(g, a + b) == Run(Run(g, a), b)
  {
    if b == [] {
      assert a + b == a;
    } else {
      RunSplit(g, a, b[..|b| - 1]);
      assert (a + b)[..|a + b| - 1] == a + b[..|b| - 1];
    }
  }

  // ---------------------------------------------------------------------------------------------
  // The gate as an object
  // ---------------------------------------------------------------------------------------------

  class DeploymentGate {
    var marker: Option<Token>
    var active: int
    ghost var inside: set<Proc>
    ghost var answers: seq<Snapshot>

    /** The object between two calls: nobody holds its lock. */
    ghost function Abstract(): Gate
      reads this
    {
      Gate(marker, None, map p | p in inside :: Inside, active, answers)
    }

    constructor ()
      ensures Abstract() == Started
    {
      marker, active, inside, answers := None, 0, {}, [];
    }

    method MarkerState(readable: bool) returns (draining: bool, token: Option<Token>)
      ensures (draining, token) == Marked(Abstract(), readable)
    {
      if marker == None {
        return false, None;
      }
      return true, if readable then marker else None;
    }

    /** Undisturbed, a call of enter takes the thread through the four steps of admission. */
    method Enter(ghost p: Proc, readable: bool) returns (admitted: bool)
      requires Inv(Abstract()) && p !in inside
      modifies this
      ensures Abstract() == Run(old(Abstract()), [Arrive(p), Lock(p), ReadMarker(p, readable), Admit(p)])
                && Inv(Abstract())
      ensures admitted <==> old(marker) == None
      ensures if admitted then inside == old(inside) + {p} && active == old(active) + 1
              else inside == old(inside) && active == old(active)
    {
      InvRun(Abstract(), [Arrive(p), Lock(p), ReadMarker(p, readable), Admit(p)]);
      RunFour(Abstract(), Arrive(p), Lock(p), ReadMarker(p, readable), Admit(p));
      var draining, token := MarkerState(readable);
      if draining {
        return false;
      }
      active := active + 1;
      inside := inside + {p};
      return true;
    }

    method Leave(ghost p: Proc)
      requires Inv(Abstract()) && p in inside
      modifies this
      ensures Abstract() == Run(old(Abstract()), [Step.Leave(p)]) && Inv(Abstract())
      ensures inside == old(inside) - {p} && active == old(active) - 1
    {
      InvRun(Abstract(), [Step.Leave(p)]);
      assert [Step.Leave(p)][..0] == [];
      active := active - 1;
      inside := inside - {p};
    }

    method TakeSnapshot(ghost p: Proc, readable: bool) returns (answer: Snapshot)
      requires Inv(Abstract()) && p !in inside
      modifies this`answers
      ensures Abstract() == Run(old(Abstract()), [Ask(p), LockAsk(p), Look(p, readable), Answer(p)]) && Inv(Abstract())
      ensures answers == old(answers) + [answer]
      ensures answer.draining && answer.active == 0 ==> Sealed(Abstract())
    {
      InvRun(Abstract(), [Ask(p), LockAsk(p), Look(p, readable), Answer(p)]);
      RunFour(Abstract(), Ask(p), LockAsk(p), Look(p, readable), Answer(p));
      var draining, token := MarkerState(readable);
      answer := Snapshot(draining, token, active);
      answers := answers + [answer];
    }
  }

  lemma RunFour(g: Gate, a: Step, b: Step, c: Step, d: Step)
    ensures Run(g, [a, b, c, d]) == Perform(Perform(Perform(Perform(g, a), b), c), d)
  {
    assert [a][..0] == [] && [a, b][..1] == [a] && [a, b, c][..2] == [a, b] && [a, b, c, d][..3] == [a, b, c];
    assert Run(g, [a]) == Perform(g, a);
    assert Run(g, [a, b]) == Perform(Perform(g, a), b);
    assert Run(g, [a, b, c]) == Perform(Perform(Perform(g, a), b), c);
  }
}
