/** Every run of `Deployment.run` (deploy/ci/deploy_platform.py:180-214). A step is one effect of a runtime
    call or one statement of `run`, and an exception may strike before any of them: a call that fails, or
    a signal, which the handlers that `main` installs turn into an exception between two statements. */
module RolloutRuns {
  import opened Wrappers

  datatype Service = Gateway | TextWorker

  const SERVICES: set<Service> := {Gateway, TextWorker}

  type Image = string

  datatype Container = Container(image: Image, up: bool)

  /** current.json: a release with the images it runs. */
  datatype Release = Release(sha: string, images: map<Service, Image>)

  /** What an operator would look at: containers, the recorded release, the dependency pins. */
  datatype View = View(containers: map<Service, Container>, current: Release, pins: map<Service, Image>)

  /** What is to be deployed, and what is there when `run` starts. */
  datatype Plan = Plan(sha: string, image: Image, before: View)

  datatype Ending =
    | Deployed(images: map<Service, Image>)
    | Refused
    | Undone
    | Interrupted
    | RolledBack
    | RollbackFailed
    | ReopeningFailed

  /** Where `run` is. `Switched` and `Restored` are the ends of the two inner `try` bodies: the flag that
      allows reopening has been set, and the body has not been left yet. */
  datatype Place =
    | Preparing
    | Closing(step: nat)
    | Ready
    | Switching(step: nat)
    | Switched
    | Failing
    | Undoing(step: nat)
    | Restored
    | Reporting
    | Failed
    | Leaving(ending: Ending)
    | Reopening(step: nat, ending: Ending)
    | Over(ending: Ending)

  datatype Event = Proceed | Raise

  /** `found` is what the rollback started from; nothing depends on it. */
  datatype State = State(
    place: Place, resumeSafe: bool, transaction: bool, view: View, journal: Option<Release>,
    backendClosed: bool, fenced: set<Service>, openings: seq<View>, found: View)

  function ImagesOf(containers: map<Service, Container>): map<Service, Image> {
    map s | s in containers :: containers[s].image
  }

  predicate AllUp(containers: map<Service, Container>) {
    forall s | s in containers :: containers[s].up
  }

  function NewRelease(sha: string, image: Image): Release {
    Release(sha, map[Gateway := image, TextWorker := image])
  }

  function Target(p: Plan): Release {
    NewRelease(p.sha, p.image)
  }

  /** The build is everywhere: both services are up on the image, and the recorded release, its images and the
      pins name nothing else. */
  predicate Runs(v: View, sha: string, image: Image) {
    && v.current.sha == sha
    && forall s: Service ::
         && s in v.containers && v.containers[s] == Container(image, true)
         && s in v.current.images && v.current.images[s] == image && s in v.pins && v.pins[s] == image
  }

  predicate IsNew(v: View, p: Plan) {
    Runs(v, p.sha, p.image)
  }

  /** As it was found: running if a switch was tried, and otherwise untouched. */
  predicate IsOld(v: View, p: Plan) {
    && v.current == p.before.current && v.pins == p.before.pins
    && (|| v.containers == p.before.containers
        || (v.containers.Keys == p.before.current.images.Keys
            && forall s | s in v.containers :: v.containers[s] == Container(p.before.current.images[s], true)))
  }

  /** All of the new release, running, or all of what was there before. */
  predicate Consistent(v: View, p: Plan) {
    IsNew(v, p) || IsOld(v, p)
  }

  /** `previous` raises unless both containers run what current.json says. */
  predicate Adopted(v: View) {
    v.containers.Keys == SERVICES && ImagesOf(v.containers) == v.current.images
  }

  // -------------------------------------------------------------------------------------------
  // Steps
  // -------------------------------------------------------------------------------------------

  function Stopped(containers: map<Service, Container>, s: Service): map<Service, Container> {
    if s in containers then containers[s := containers[s].(up := false)] else containers
  }

  function Started(containers: map<Service, Container>, s: Service, images: map<Service, Image>)
    : map<Service, Container>
  {
    if s in images then containers[s := Container(images[s], true)] else containers
  }

  const EFFECTS := 7

  /** What stop, start, the health check and the record change, one effect at a time. */
  function Effect(v: View, step: nat, release: Release, pins: map<Service, Image>): View {
    match step
    case 0 => v.(containers := Stopped(v.containers, Gateway))
    case 1 => v.(containers := Stopped(v.containers, TextWorker))
    case 2 => v.(containers := Started(v.containers, TextWorker, release.images))
    case 3 => v.(containers := Started(v.containers, Gateway, release.images))
    case 4 => v
    case 5 => v.(pins := pins)
    case 6 => v.(current := release)
    case _ => v
  }

  function Close(p: Plan, s: State, step: nat): State {
    match step
    case 0 => s.(journal := Some(p.before.current), place := Closing(1))
    case 1 => s.(transaction := true, place := Closing(2))
    case 2 => s.(backendClosed := true, place := Closing(3))
    case 3 => s.(fenced := s.fenced + {Gateway}, place := Closing(4))
    case 4 => s.(fenced := s.fenced + {TextWorker}, place := Closing(5))
    case _ => s.(resumeSafe := false, place := Ready)
  }

  /** Opening the boundary of a service this deployment remembers having closed. */
  function Opened(s: State, name: Service): State {
    if name in s.fenced then s.(openings := s.openings + [s.view]) else s
  }

  function Reopen(s: State, step: nat, ending: Ending): State {
    match step
    case 0 => s.(place := Reopening(1, ending))
    case 1 => Opened(s, TextWorker).(place := Reopening(2, ending))
    case 2 => Opened(s, Gateway).(place := Reopening(3, ending))
    case 3 => s.(fenced := {}, place := Reopening(4, ending))
    case 4 => s.(backendClosed := false, openings := s.openings + [s.view], place := Reopening(5, ending))
    case 5 => s.(journal := if s.transaction then None else s.journal, place := Reopening(6, ending))
    case _ => s.(place := Over(ending))
  }

  function Forward(p: Plan, s: State): State {
    match s.place
    case Preparing => s.(place := if Adopted(p.before) then Closing(0) else Over(Refused))
    case Closing(step) => Close(p, s, step)
    case Ready => s.(place := Switching(0))
    case Switching(step) =>
      if step < EFFECTS then
        s.(view := Effect(s.view, step, Target(p), Target(p).images), place := Switching(step + 1))
      else
        s.(resumeSafe := true, place := Switched)
    case Switched => s.(place := Leaving(Deployed(Target(p).images)))
    case Failing => s.(place := Undoing(0), found := s.view)
    case Undoing(step) =>
      if step < EFFECTS then
        s.(view := Effect(s.view, step, p.before.current, p.before.pins), place := Undoing(step + 1))
      else
        s.(resumeSafe := true, place := Restored)
    case Restored => s.(place := Reporting)
    case Reporting => s.(place := Leaving(RolledBack))
    case Failed => s.(place := Leaving(RollbackFailed))
    case Leaving(ending) => s.(place := if s.resumeSafe then Reopening(0, ending) else Over(ending))
    case Reopening(step, ending) => Reopen(s, step, ending)
    case Over(_) => s
  }

  /** Where an exception leads: to the nearest handler, or through `finally` out of `run`. */
  function Handler(place: Place): Place {
    match place
    case Preparing => Over(Refused)
    case Closing(_) => Leaving(Undone)
    case Ready => Leaving(Interrupted)
    case Switching(_) => Failing
    case Switched => Failing
    case Failing => Leaving(Interrupted)
    case Undoing(_) => Failed
    case Restored => Failed
    case Reporting => Leaving(Interrupted)
    case Failed => Leaving(Interrupted)
    case Leaving(_) => Over(ReopeningFailed)
    case Reopening(_, _) => Over(ReopeningFailed)
    case Over(_) => place
  }

  function Thrown(s: State): State {
    s.(place := Handler(s.place))
  }

  function After(p: Plan, s: State, e: Event): State {
    if e == Proceed then Forward(p, s) else Thrown(s)
  }

  function Start(p: Plan): State {
    State(Preparing, true, false, p.before, None, false, {}, [], p.before)
  }

  function At(p: Plan, es: seq<Event>): State {
    if es == [] then Start(p) else After(p, At(p, es[..|es| - 1]), es[|es| - 1])
  }

  // -------------------------------------------------------------------------------------------
  // Calls
  // -------------------------------------------------------------------------------------------

  /** n steps without an exception. */
  function Straight(p: Plan, s: State, n: nat): State {
    if n == 0 then s else Forward(p, Straight(p, s, n - 1))
  }

  /** A call with n effects: it returned after all of them, or raised after some. */
  predicate Went(p: Plan, s: State, n: nat, returned: bool, t: State) {
    if returned then t == Straight(p, s, n) else exists k | 0 <= k <= n :: t == Thrown(Straight(p, s, k))
  }

  lemma {:induction false} StraightAdd(p: Plan, s: State, n: nat, k: nat)
    ensures Straight(p, Straight(p, s, n), k) == Straight(p, s, n + k)
  {
    hide Forward;
    if k > 0 {
      StraightAdd(p, s, n, k - 1);
    }
  }

  /** One call after another. */
  lemma WentOn(p: Plan, s: State, n: nat, t: State, k: nat, returned: bool, u: State)
    requires Went(p, s, n, true, t) && Went(p, t, k, returned, u)
    ensures Went(p, s, n + k, returned, u)
  {
    hide Straight, Thrown;
    StraightAdd(p, s, n, k);
    if !returned {
      var i :| 0 <= i <= k && u == Thrown(Straight(p, t, i));
      StraightAdd(p, s, n, i);
    }
  }

  lemma StraightStep(p: Plan, s: State, n: nat)
    ensures Straight(p, s, 0) == s && Straight(p, s, n + 1) == Forward(p, Straight(p, s, n))
  {
  }

  /** The place n effects further on. */
  function Moved(place: Place, n: nat): Place {
    match place
    case Switching(step) => Switching(step + n)
    case Undoing(step) => Undoing(step + n)
    case _ => place
  }

  predicate Working(place: Place, n: nat) {
    (place.Switching? || place.Undoing?) && place.step + n <= EFFECTS
  }

  lemma {:induction false} StraightEffects(p: Plan, s: State, n: nat)
    requires Working(s.place, n)
    ensures Straight(p, s, n).place == Moved(s.place, n) && SameFlags(s, Straight(p, s, n))
  {
    hide Effect, Target, Straight, Forward;
    if n == 0 {
      StraightStep(p, s, 0);
    } else {
      StraightEffects(p, s, n - 1);
      StraightStep(p, s, n - 1);
      Works(p, Straight(p, s, n - 1));
    }
  }

  lemma Closes(p: Plan, s: State)
    requires s.place.Closing? && s.place.step < 5 && s.place.step != 1
    ensures Forward(p, s).place == Closing(s.place.step + 1) && SameFlags(s, Forward(p, s))
  {
  }

  lemma {:induction false} StraightClosing(p: Plan, s: State, n: nat)
    requires s.place.Closing? && s.place.step + n <= 5 && (s.place.step < 2 ==> s.place.step + n <= 1)
    ensures Straight(p, s, n).place == Closing(s.place.step + n) && SameFlags(s, Straight(p, s, n))
  {
    hide Straight, Forward;
    if n == 0 {
      StraightStep(p, s, 0);
    } else {
      StraightClosing(p, s, n - 1);
      StraightStep(p, s, n - 1);
      Closes(p, Straight(p, s, n - 1));
    }
  }

  lemma Reopens(p: Plan, s: State)
    requires s.place.Reopening? && s.place.step < 6
    ensures Forward(p, s).place == Reopening(s.place.step + 1, s.place.ending) && SameFlags(s, Forward(p, s))
  {
  }

  lemma {:induction false} StraightReopening(p: Plan, s: State, n: nat)
    requires s.place.Reopening? && s.place.step + n <= 6
    ensures Straight(p, s, n).place == Reopening(s.place.step + n, s.place.ending) && SameFlags(s, Straight(p, s, n))
  {
    hide Straight, Forward;
    if n == 0 {
      StraightStep(p, s, 0);
    } else {
      StraightReopening(p, s, n - 1);
      StraightStep(p, s, n - 1);
      Reopens(p, Straight(p, s, n - 1));
    }
  }

  predicate SameFlags(s: State, t: State) {
    s.resumeSafe == t.resumeSafe && s.transaction == t.transaction
  }

  /** Where a call that raised leaves `run`. */
  lemma Raises(p: Plan, s: State, n: nat, t: State)
    requires Went(p, s, n, false, t)
    requires || Working(s.place, n) || (s.place.Reopening? && s.place.step + n <= 6)
             || (s.place.Closing? && s.place.step + n <= 5 && (s.place.step < 2 ==> s.place.step + n <= 1))
    ensures t.place == Handler(s.place) && SameFlags(s, t)
  {
    hide Straight;
    var k :| 0 <= k <= n && t == Thrown(Straight(p, s, k));
    if s.place.Reopening? {
      StraightReopening(p, s, k);
    } else if s.place.Closing? {
      StraightClosing(p, s, k);
    } else {
      StraightEffects(p, s, k);
    }
  }

  /** A call that raised has raised before whatever would have come after it. */
  lemma Longer(p: Plan, s: State, n: nat, m: nat, t: State)
    requires Went(p, s, n, false, t) && n <= m
    ensures Went(p, s, m, false, t)
  {
  }

  lemma CallEnds(p: Plan, s: State, k: nat, n: nat)
    requires k <= n
    ensures Went(p, s, n, false, Thrown(Straight(p, s, k))) && Went(p, s, n, true, Straight(p, s, n))
  {
  }

  /** A place where the next thing is a statement of `run` itself. */
  predicate IsStatement(place: Place) {
    match place
    case Closing(step) => step == 1 || step == 5
    case Switching(step) => step == EFFECTS
    case Undoing(step) => step == EFFECTS
    case Reopening(step, _) => step == 6
    case Preparing => false
    case _ => true
  }

  function Resumed(s: State): bool {
    match s.place
    case Switching(_) => true
    case Undoing(_) => true
    case Closing(step) => s.resumeSafe && step != 5
    case _ => s.resumeSafe
  }

  function Continued(p: Plan, s: State): Place {
    match s.place
    case Closing(step) => if step == 1 then Closing(2) else Ready
    case Ready => Switching(0)
    case Switching(_) => Switched
    case Switched => Leaving(Deployed(Target(p).images))
    case Failing => Undoing(0)
    case Undoing(_) => Restored
    case Restored => Reporting
    case Reporting => Leaving(RolledBack)
    case Failed => Leaving(RollbackFailed)
    case Leaving(ending) => if s.resumeSafe then Reopening(0, ending) else Over(ending)
    case Reopening(_, ending) => Over(ending)
    case _ => s.place
  }

  /** A statement changes nothing that can be seen from outside. */
  lemma Statement(p: Plan, s: State)
    requires IsStatement(s.place)
    ensures var t := Forward(p, s);
            && t.view == s.view && t.journal == s.journal && t.backendClosed == s.backendClosed
            && t.fenced == s.fenced && t.openings == s.openings
            && t.place == Continued(p, s) && t.resumeSafe == Resumed(s)
            && t.transaction == (s.transaction || s.place == Closing(1))
  {
  }

  /** What one effect does. */
  lemma Works(p: Plan, s: State)
    requires Working(s.place, 1)
    ensures Forward(p, s).(view := s.view, place := s.place) == s && Forward(p, s).place == Moved(s.place, 1)
    ensures var release := if s.place.Undoing? then p.before.current else Target(p);
            var pins := if s.place.Undoing? then p.before.pins else Target(p).images;
            Forward(p, s).view == Effect(s.view, s.place.step, release, pins)
  {
  }

  /** One effect, itself a call, in the middle of a call of n. */
  lemma Follow(p: Plan, s: State, k: nat, returned: bool, t: State, n: nat)
    requires Went(p, Straight(p, s, k), 1, returned, t) && k < n
    ensures returned ==> t == Straight(p, s, k + 1) && t == Forward(p, Straight(p, s, k))
    ensures !returned ==> Went(p, s, n, false, t)
  {
    hide Forward, Thrown;
    CallEnds(p, s, k, k);
    WentOn(p, s, k, Straight(p, s, k), 1, returned, t);
    if !returned {
      Longer(p, s, k + 1, n, t);
    }
  }

  // -------------------------------------------------------------------------------------------
  // Where exceptions struck
  // -------------------------------------------------------------------------------------------

  /** A signal after the flag was set at line 200 and before the inner `try` was left. */
  predicate LateInterrupt(p: Plan, es: seq<Event>) {
    exists n | 0 <= n < |es| :: es[n] == Raise && At(p, es[..n]).place == Switched
  }

  /** A rollback broken off after it changed something and before it had put everything back. */
  predicate BreaksOff(p: Plan, es: seq<Event>) {
    exists n | 0 <= n < |es| ::
      es[n] == Raise && At(p, es[..n]).place.Undoing? && 1 <= At(p, es[..n]).place.step < EFFECTS
  }

  /** A signal after the flag was set at line 206 and before the rollback's `try` was left. */
  predicate InterruptedRestored(p: Plan, es: seq<Event>) {
    exists n | 0 <= n < |es| :: es[n] == Raise && At(p, es[..n]).place == Restored
  }

  predicate Breaks(place: Place, e: Event) {
    e == Raise && place.Undoing? && 1 <= place.step < EFFECTS
  }

  lemma StruckStep(p: Plan, es: seq<Event>, e: Event)
    ensures LateInterrupt(p, es + [e]) <==> LateInterrupt(p, es) || (e == Raise && At(p, es).place == Switched)
    ensures BreaksOff(p, es + [e]) <==> BreaksOff(p, es) || Breaks(At(p, es).place, e)
    ensures InterruptedRestored(p, es + [e]) <==>
            InterruptedRestored(p, es) || (e == Raise && At(p, es).place == Restored)
  {
    hide At;
    var all := es + [e];
    assert all[..|es|] == es && all[|es|] == e;
    forall n | 0 <= n < |es| ensures all[..n] == es[..n] && all[n] == es[n] {
    }
  }

  // -------------------------------------------------------------------------------------------
  // What the effects amount to
  // -------------------------------------------------------------------------------------------

  function Applied(v: View, step: nat, release: Release, pins: map<Service, Image>): View {
    if step == 0 then v else Effect(Applied(v, step - 1, release, pins), step - 1, release, pins)
  }

  lemma BothAreAll(services: set<Service>)
    requires Gateway in services && TextWorker in services
    ensures services == SERVICES
  {
    forall s: Service ensures s in services && s in SERVICES {
      match s
      case Gateway =>
      case TextWorker =>
    }
  }

  /** The containers after the four effects on them, by cases. */
  lemma AppliedContainers(v: View, step: nat, release: Release, pins: map<Service, Image>)
    requires v.containers.Keys == SERVICES == release.images.Keys && step <= EFFECTS
    ensures Applied(v, step, release, pins).containers.Keys == SERVICES
    ensures Applied(v, step, release, pins).containers[Gateway] ==
            if step == 0 then v.containers[Gateway]
            else if step < 4 then v.containers[Gateway].(up := false)
            else Container(release.images[Gateway], true)
    ensures Applied(v, step, release, pins).containers[TextWorker] ==
            if step < 2 then v.containers[TextWorker]
            else if step == 2 then v.containers[TextWorker].(up := false)
            else Container(release.images[TextWorker], true)
    ensures Applied(v, step, release, pins).pins == if step < 6 then v.pins else pins
    ensures Applied(v, step, release, pins).current == if step < 7 then v.current else release
  {
    if step > 0 {
      AppliedContainers(v, step - 1, release, pins);
      BothAreAll(Applied(v, step, release, pins).containers.Keys);
    }
  }

  lemma AllApplied(v: View, release: Release, pins: map<Service, Image>)
    requires v.containers.Keys == SERVICES == release.images.Keys
    ensures var w := Applied(v, EFFECTS, release, pins);
            && w.current == release && w.pins == pins && w.containers.Keys == SERVICES
            && forall s | s in SERVICES :: w.containers[s] == Container(release.images[s], true)
  {
    hide Applied;
    AppliedContainers(v, EFFECTS, release, pins);
  }

  /** Between two releases with different images, a rollback broken off is neither. */
  lemma TornIsInconsistent(p: Plan, found: View, step: nat)
    requires Adopted(p.before) && p.before.current.images != map[Gateway := p.image, TextWorker := p.image]
    requires IsNew(found, p) && found.containers.Keys == SERVICES && 1 <= step < EFFECTS
    ensures !Consistent(Applied(found, step, p.before.current, p.before.pins), p)
  {
    hide Applied;
    var v := Applied(found, step, p.before.current, p.before.pins);
    var previous := p.before.current;
    assert previous.images.Keys == SERVICES by {
      assert p.before.containers.Keys == SERVICES;
    }
    AppliedContainers(found, step, previous, p.before.pins);
    assert v.current == Target(p) && v.current != previous;
    if step < 4 {
      assert !v.containers[Gateway].up;
    } else {
      forall s | s in SERVICES ensures v.containers[s].image == previous.images[s] {
      }
      assert ImagesOf(v.containers) == previous.images;
    }
  }

  // -------------------------------------------------------------------------------------------
  // Accounts
  // -------------------------------------------------------------------------------------------

  predicate Closed(p: Plan, s: State) {
    s.openings == [] && s.backendClosed && s.fenced == SERVICES && s.journal == Some(p.before.current)
  }

  /** What a rollback from the whole new release has half undone. */
  predicate Torn(p: Plan, found: View, v: View) {
    && Adopted(p.before) && IsNew(found, p) && found.containers.Keys == SERVICES
    && exists step | 1 <= step < EFFECTS :: v == Applied(found, step, p.before.current, p.before.pins)
  }

  /** What may be opened once `run` has come to its `finally` with the flag set. */
  predicate Settled(p: Plan, resumeSafe: bool, found: View, v: View, late: bool, broken: bool) {
    && (resumeSafe && !(late && broken) ==> Consistent(v, p))
    && (late && broken ==> Torn(p, found, v))
    && (broken && resumeSafe ==> late)
  }

  /** Places between the decision to switch and the way out: everything is closed and the journal written. */
  predicate Inside(place: Place) {
    place.Ready? || place.Switching? || place.Switched? || place.Failing? || place.Undoing? || place.Restored?
    || place.Reporting? || place.Failed?
  }

  /** What an ending that is reported promises. */
  predicate Promised(p: Plan, v: View, ending: Ending) {
    && (ending.Deployed? ==> ending.images == map[Gateway := p.image, TextWorker := p.image] && IsNew(v, p))
    && (ending == RolledBack ==> IsOld(v, p))
    && (ending == Undone ==> v == p.before)
  }

  /** What is true of a state, given which of the three exceptions struck on the way to it. */
  predicate Account(p: Plan, s: State, late: bool, broken: bool, again: bool) {
    && (s.place != Preparing && s.place != Over(Refused) ==> Adopted(p.before))
    && (s.journal == None ==> !s.backendClosed && s.fenced == {})
    && (Inside(s.place) ==> Closed(p, s) && s.transaction)
    && (s.place.Switching? || s.place.Switched? || s.place.Failing? || s.place.Undoing? ==>
           s.view.containers.Keys == SERVICES)
    && match s.place
       case Preparing => s == Start(p) && !late && !broken && !again
       case Closing(step) =>
         && !late && !broken && !again && s.resumeSafe && s.view == p.before && s.openings == [] && step <= 5
         && s.journal == (if step == 0 then None else Some(p.before.current))
         && (s.transaction <==> 2 <= step) && (s.backendClosed <==> 3 <= step)
         && s.fenced == (if step <= 3 then {} else if step == 4 then {Gateway} else SERVICES)
       case Ready => !late && !broken && !again && !s.resumeSafe && s.view == p.before
       case Switching(step) =>
         && !late && !broken && !again && !s.resumeSafe && step <= EFFECTS
         && s.view == Applied(p.before, step, Target(p), Target(p).images)
       case Switched => !late && !broken && !again && s.resumeSafe && IsNew(s.view, p)
       case Failing => !broken && !again && (s.resumeSafe <==> late) && (late ==> IsNew(s.view, p))
       case Undoing(step) =>
         && !broken && !again && (s.resumeSafe <==> late) && step <= EFFECTS
         && (late ==> IsNew(s.found, p)) && s.found.containers.Keys == SERVICES
         && s.view == Applied(s.found, step, p.before.current, p.before.pins)
       case Restored => !broken && !again && s.resumeSafe && IsOld(s.view, p)
       case Reporting => !broken && !again && s.resumeSafe && IsOld(s.view, p)
       case Failed => (s.resumeSafe <==> late || again) && Settled(p, s.resumeSafe, s.found, s.view, late, broken)
       case Leaving(ending) =>
         && ending != Refused && Settled(p, s.resumeSafe, s.found, s.view, late, broken) && s.openings == []
         && Promised(p, s.view, ending)
         && (ending == RollbackFailed ==> Closed(p, s) && (s.resumeSafe <==> late || again))
         && (ending == Undone || ending == RolledBack || ending.Deployed? ==> s.resumeSafe)
         && (ending.Deployed? || ending == RolledBack ==> s.transaction)
       case Reopening(step, ending) =>
         && ending != Refused && Settled(p, s.resumeSafe, s.found, s.view, late, broken) && s.resumeSafe && step <= 6
         && Promised(p, s.view, ending)
         && (forall v | v in s.openings :: v == s.view)
         && (ending == RollbackFailed ==> late || again)
         && (4 <= step ==> s.fenced == {}) && (5 <= step ==> s.openings != [] && !s.backendClosed)
         && (ending.Deployed? || ending == RolledBack ==> s.transaction)
         && (step == 6 && s.transaction ==> s.journal == None)
       case Over(ending) =>
         && (s.resumeSafe && ending != ReopeningFailed ==> !s.backendClosed && s.fenced == {})
         && (ending == Undone || ending == RolledBack || ending.Deployed? ==> s.resumeSafe)
         && (s.openings != [] ==>
               s.resumeSafe && Settled(p, s.resumeSafe, s.found, s.view, late, broken)
                   && forall v | v in s.openings :: v == s.view)
         && Promised(p, s.view, ending)
         && (ending.Deployed? || ending == RolledBack ==> s.journal == None)
         && (ending == RollbackFailed ==>
               if s.resumeSafe then s.openings != [] && (late || again) else !late && !again && Closed(p, s))
         && (ending == Refused ==> s.(place := Preparing) == Start(p))
  }

  lemma OneApplied(v: View, step: nat, release: Release, pins: map<Service, Image>)
    requires v.containers.Keys == SERVICES == release.images.Keys && step <= EFFECTS
    ensures Applied(v, 0, release, pins) == v
    ensures Effect(Applied(v, step, release, pins), step, release, pins) == Applied(v, step + 1, release, pins)
    ensures Applied(v, step, release, pins).containers.Keys == SERVICES
    ensures step < EFFECTS ==> Applied(v, step + 1, release, pins).containers.Keys == SERVICES
  {
    AppliedContainers(v, step, release, pins);
    if step < EFFECTS {
      AppliedContainers(v, step + 1, release, pins);
    }
  }

  lemma TargetRuns(p: Plan)
    ensures Target(p).images.Keys == SERVICES
  {
    BothAreAll(Target(p).images.Keys);
  }

  lemma PreviousRuns(p: Plan)
    requires Adopted(p.before)
    ensures p.before.current.images.Keys == SERVICES
  {
  }

  lemma WholeApplied(p: Plan, v: View)
    requires v.containers.Keys == SERVICES && Adopted(p.before)
    ensures IsNew(Applied(v, EFFECTS, Target(p), Target(p).images), p)
    ensures IsOld(Applied(v, EFFECTS, p.before.current, p.before.pins), p)
  {
    TargetRuns(p);
    PreviousRuns(p);
    AllApplied(v, Target(p), Target(p).images);
    AllApplied(v, p.before.current, p.before.pins);
    TargetImages(p);
    hide Applied, Target;
    var w := Applied(v, EFFECTS, Target(p), Target(p).images);
    forall s: Service
      ensures s in w.containers && w.containers[s] == Container(p.image, true)
              && s in w.current.images && w.current.images[s] == p.image && s in w.pins && w.pins[s] == p.image
    {
      assert s == Gateway || s == TextWorker;
    }
  }

  lemma TargetImages(p: Plan)
    ensures Target(p) == Release(p.sha, map[Gateway := p.image, TextWorker := p.image])
  {
  }

  /** What a deployment that is reported has put where. */
  lemma NewMeans(v: View, p: Plan)
    requires IsNew(v, p)
    ensures Runs(v, p.sha, p.image)
    ensures v.current.sha == p.sha
    ensures forall s: Service ::
              && s in v.containers && v.containers[s] == Container(p.image, true)
              && s in v.current.images && v.current.images[s] == p.image && s in v.pins && v.pins[s] == p.image
  {
  }

  lemma AccountProceeds(p: Plan, s: State, late: bool, broken: bool, again: bool)
    requires Account(p, s, late, broken, again)
    ensures Account(p, Forward(p, s), late, broken, again)
  {
    hide IsNew, IsOld, Effect, Torn, Applied, Target, Adopted, Account, Forward;
    match s.place {
      case Closing(step) =>
        ClosingProceeds(p, s, step, late, broken, again);
      case Ready =>
        ReadyProceeds(p, s, late, broken, again);
      case Switching(step) =>
        SwitchingProceeds(p, s, step, late, broken, again);
      case Failing =>
        FailingProceeds(p, s, late, broken, again);
      case Undoing(step) =>
        UndoingProceeds(p, s, step, late, broken, again);
      case Reopening(step, ending) =>
        ReopeningProceeds(p, s, step, ending, late, broken, again);
      case _ =>
        OthersProceed(p, s, late, broken, again);
    }
  }

  lemma OthersProceed(p: Plan, s: State, late: bool, broken: bool, again: bool)
    requires Account(p, s, late, broken, again) && !s.place.Closing? && !s.place.Ready? && !s.place.Switching?
    requires !s.place.Failing? && !s.place.Undoing? && !s.place.Reopening?
    ensures Account(p, Forward(p, s), late, broken, again)
  {
    hide IsNew, IsOld, Effect, Torn, Applied, Target, Adopted;
    TargetImages(p);
  }

  lemma ClosingProceeds(p: Plan, s: State, step: nat, late: bool, broken: bool, again: bool)
    requires s.place == Closing(step) && Account(p, s, late, broken, again)
    ensures Account(p, Forward(p, s), late, broken, again)
  {
    hide IsNew, IsOld, Effect, Torn, Applied, Target, Adopted, Settled;
    BothAreAll({Gateway, TextWorker});
  }

  lemma ReopeningProceeds(p: Plan, s: State, step: nat, ending: Ending, late: bool, broken: bool, again: bool)
    requires s.place == Reopening(step, ending) && Account(p, s, late, broken, again)
    ensures Account(p, Forward(p, s), late, broken, again)
  {
    hide IsNew, IsOld, Effect, Torn, Applied, Target, Adopted, Settled, Promised;
  }

  lemma FailingProceeds(p: Plan, s: State, late: bool, broken: bool, again: bool)
    requires s.place.Failing? && Account(p, s, late, broken, again)
    ensures Account(p, Forward(p, s), late, broken, again)
  {
    hide IsNew, IsOld, Effect, Torn, Applied, Target, Settled;
    PreviousRuns(p);
    OneApplied(s.view, 0, p.before.current, p.before.pins);
  }

  lemma UndoingProceeds(p: Plan, s: State, step: nat, late: bool, broken: bool, again: bool)
    requires s.place == Undoing(step) && Account(p, s, late, broken, again)
    ensures Account(p, Forward(p, s), late, broken, again)
  {
    hide IsNew, IsOld, Effect, Torn, Applied, Target, Settled;
    PreviousRuns(p);
    OneApplied(s.found, step, p.before.current, p.before.pins);
    if step == EFFECTS {
      WholeApplied(p, s.found);
    }
  }

  lemma ReadyProceeds(p: Plan, s: State, late: bool, broken: bool, again: bool)
    requires s.place.Ready? && Account(p, s, late, broken, again)
    ensures Account(p, Forward(p, s), late, broken, again)
  {
    hide IsNew, IsOld, Effect, Torn, Target, Applied;
    assert p.before.containers.Keys == SERVICES;
    TargetRuns(p);
    OneApplied(p.before, 0, Target(p), Target(p).images);
  }

  lemma SwitchingProceeds(p: Plan, s: State, step: nat, late: bool, broken: bool, again: bool)
    requires s.place == Switching(step) && Account(p, s, late, broken, again)
    ensures Account(p, Forward(p, s), late, broken, again)
  {
    hide IsNew, IsOld, Effect, Torn, Target, Applied;
    TargetRuns(p);
    assert p.before.containers.Keys == SERVICES;
    OneApplied(p.before, step, Target(p), Target(p).images);
    WholeApplied(p, p.before);
  }

  /** The only exceptions that change the account are those at the ends of the two bodies and in the
      middle of the rollback. */
  lemma AccountThrown(p: Plan, s: State, late: bool, broken: bool, again: bool)
    requires Account(p, s, late, broken, again)
    ensures Account(p, Thrown(s), late || s.place == Switched, broken || Breaks(s.place, Raise), again
                || s.place == Restored)
  {
    hide IsNew, IsOld, Target, Applied, Adopted, Torn, Account, Thrown;
    match s.place {
      case Undoing(step) =>
        UndoingThrown(p, s, step, late, broken, again);
      case Preparing => OuterThrown(p, s, late, broken, again);
      case Closing(step) => OuterThrown(p, s, late, broken, again);
      case Leaving(ending) => OuterThrown(p, s, late, broken, again);
      case Reopening(step, ending) => OuterThrown(p, s, late, broken, again);
      case _ =>
        InnerThrown(p, s, late, broken, again);
    }
  }

  lemma OuterThrown(p: Plan, s: State, late: bool, broken: bool, again: bool)
    requires Account(p, s, late, broken, again)
    requires s.place.Preparing? || s.place.Closing? || s.place.Leaving? || s.place.Reopening?
    ensures Account(p, Thrown(s), late, broken, again)
  {
    hide IsNew, IsOld, Target, Applied, Adopted, Torn;
    if s.place.Closing? {
      BeforeIsOld(p);
    } else {
      hide Settled;
    }
  }

  lemma InnerThrown(p: Plan, s: State, late: bool, broken: bool, again: bool)
    requires Account(p, s, late, broken, again) && !s.place.Undoing?
    requires Inside(s.place) || s.place.Over?
    ensures Account(p, Thrown(s), late || s.place == Switched, broken, again || s.place == Restored)
  {
    hide IsNew, IsOld, Target, Applied, Adopted, Torn;
  }

  lemma BeforeIsOld(p: Plan)
    requires Adopted(p.before)
    ensures IsOld(p.before, p)
  {
  }

  lemma UndoingThrown(p: Plan, s: State, step: nat, late: bool, broken: bool, again: bool)
    requires s.place == Undoing(step) && Account(p, s, late, broken, again)
    ensures Account(p, Thrown(s), late, broken || Breaks(s.place, Raise), again)
  {
    hide IsNew, IsOld, Target, Applied;
    PreviousRuns(p);
    OneApplied(s.found, 0, p.before.current, p.before.pins);
    WholeApplied(p, s.found);
  }

  lemma {:induction false} Accounts(p: Plan, es: seq<Event>)
    ensures Account(p, At(p, es), LateInterrupt(p, es), BreaksOff(p, es), InterruptedRestored(p, es))
  {
    hide Account, LateInterrupt, BreaksOff, InterruptedRestored, Forward, Thrown;
    if es == [] {
      StartAccounts(p);
    } else {
      var front, e := es[..|es| - 1], es[|es| - 1];
      assert es == front + [e];
      Accounts(p, front);
      StruckStep(p, front, e);
      var late, broken, again := LateInterrupt(p, front), BreaksOff(p, front), InterruptedRestored(p, front);
      if e == Proceed {
        AccountProceeds(p, At(p, front), late, broken, again);
      } else {
        AccountThrown(p, At(p, front), late, broken, again);
      }
    }
  }

  lemma StartAccounts(p: Plan)
    ensures Account(p, Start(p), LateInterrupt(p, []), BreaksOff(p, []), InterruptedRestored(p, []))
  {
  }

  // -------------------------------------------------------------------------------------------
  // Results
  // -------------------------------------------------------------------------------------------

  /** Whatever calls fail and whenever signals arrive, what was there whenever a boundary was opened is all
      of the new release or all that was found, unless a signal struck between line 200 and the end of the
      inner `try` and the rollback it started was broken off. For two builds with different images that is
      exact: a run that opens anything opens a mixture if and only if both happened. */
  lemma OpensConsistently(p: Plan, es: seq<Event>)
    ensures !(LateInterrupt(p, es) && BreaksOff(p, es)) ==> forall v | v in At(p, es).openings :: Consistent(v, p)
    ensures p.before.current.images != map[Gateway := p.image, TextWorker := p.image] && At(p, es).openings != [] ==>
              ((forall v | v in At(p, es).openings :: Consistent(v, p))
                    <==> !(LateInterrupt(p, es) && BreaksOff(p, es)))
  {
    hide IsNew, IsOld, Applied, Target, Adopted, LateInterrupt, BreaksOff, InterruptedRestored;
    Accounts(p, es);
    var s := At(p, es);
    if s.openings != [] && Torn(p, s.found, s.view)
       && p.before.current.images != map[Gateway := p.image, TextWorker := p.image] {
      var step :| 1 <= step < EFFECTS && s.view == Applied(s.found, step, p.before.current, p.before.pins);
      TornIsInconsistent(p, s.found, step);
      assert s.openings[0] in s.openings;
    }
  }

  /** "Platform rollback failed; admission remains closed" is true if and only if no signal struck at the
      end of either inner `try`, after its flag was set; otherwise everything has been opened by then. */
  lemma RemainsClosed(p: Plan, es: seq<Event>)
    requires At(p, es).place == Over(RollbackFailed)
    ensures Closed(p, At(p, es)) <==> !At(p, es).resumeSafe
    ensures Closed(p, At(p, es)) <==> !LateInterrupt(p, es) && !InterruptedRestored(p, es)
    ensures !Closed(p, At(p, es)) ==> At(p, es).openings != []
  {
    hide IsNew, IsOld, Applied, Target, Adopted, LateInterrupt, BreaksOff, InterruptedRestored, Torn;
    Accounts(p, es);
  }

  /** The journal is gone only when every boundary is open. */
  lemma JournalGoesLast(p: Plan, es: seq<Event>)
    ensures At(p, es).journal == None ==> !At(p, es).backendClosed && At(p, es).fenced == {}
  {
    hide IsNew, IsOld, Applied, Target, Adopted, LateInterrupt, BreaksOff, InterruptedRestored, Torn;
    Accounts(p, es);
  }

  /** The same on the way into the `finally` block, and when it may reopen after a rollback that failed. */
  lemma LeavingHolds(p: Plan, es: seq<Event>, ending: Ending)
    requires At(p, es).place == Leaving(ending)
    ensures Promised(p, At(p, es).view, ending)
    ensures ending.Deployed? || ending == RolledBack ==> At(p, es).resumeSafe
    ensures ending == RollbackFailed ==>
              (At(p, es).resumeSafe <==> LateInterrupt(p, es) || InterruptedRestored(p, es))
  {
    hide IsNew, IsOld, Applied, Target, Adopted, LateInterrupt, BreaksOff, InterruptedRestored, Torn;
    Accounts(p, es);
  }

  /** What an ending that is reported promises is true. */
  lemma EndingsHold(p: Plan, es: seq<Event>, ending: Ending)
    requires At(p, es).place == Over(ending)
    ensures Promised(p, At(p, es).view, ending)
    ensures ending.Deployed? ==>
              var v := At(p, es).view;
              && v.current.sha == p.sha && ending.images == map[Gateway := p.image, TextWorker := p.image]
              && forall s: Service ::
                   && s in v.containers && v.containers[s] == Container(p.image, true)
                   && s in v.current.images && v.current.images[s] == p.image && s in v.pins && v.pins[s] == p.image
    ensures ending.Deployed? || ending == RolledBack ==> At(p, es).journal == None
    ensures ending == Undone || ending == RolledBack || ending.Deployed? ==>
              !At(p, es).backendClosed && At(p, es).fenced == {}
    ensures ending == Refused ==> At(p, es).(place := Preparing) == Start(p)
  {
    hide IsNew, IsOld, Applied, Target, Adopted, LateInterrupt, BreaksOff, InterruptedRestored, Torn;
    Accounts(p, es);
    if ending.Deployed? {
      NewMeans(At(p, es).view, p);
    }
  }

  // -------------------------------------------------------------------------------------------
  // The two runs in which the code does not keep its promise
  // -------------------------------------------------------------------------------------------

  function Steps(n: nat): seq<Event> {
    seq(n, _ => Proceed)
  }

  lemma {:induction false} AtStraight(p: Plan, es: seq<Event>, n: nat)
    ensures At(p, es + Steps(n)) == Straight(p, At(p, es), n)
  {
    hide Forward;
    if n == 0 {
      assert es + Steps(0) == es;
    } else {
      AtStraight(p, es, n - 1);
      var all := es + Steps(n);
      assert all[..|all| - 1] == es + Steps(n - 1) && all[|all| - 1] == Proceed;
    }
  }

  lemma AtStep(p: Plan, es: seq<Event>, e: Event)
    ensures At(p, es + [e]) == After(p, At(p, es), e)
  {
    var all := es + [e];
    assert all[..|all| - 1] == es;
  }

  lemma StraightIn(p: Plan)
    requires Adopted(p.before)
    ensures Straight(p, Start(p), 8).place == Switching(0)
  {
    var s := Start(p);
    assert Straight(p, s, 1).place == Closing(0);
    assert Straight(p, s, 2).place == Closing(1);
    assert Straight(p, s, 3).place == Closing(2);
    assert Straight(p, s, 4).place == Closing(3);
    assert Straight(p, s, 5).place == Closing(4);
    assert Straight(p, s, 6).place == Closing(5);
    assert Straight(p, s, 7).place == Ready;
  }

  lemma StraightOut(p: Plan, s: State)
    requires s.place == Failed && s.resumeSafe && s.transaction
    ensures Straight(p, s, 9).place == Over(RollbackFailed) && Straight(p, s, 9).openings != []
    ensures Straight(p, s, 9).journal == None
  {
    assert Straight(p, s, 1) == s.(place := Leaving(RollbackFailed));
    assert Straight(p, s, 2) == s.(place := Reopening(0, RollbackFailed));
    assert Straight(p, s, 3) == s.(place := Reopening(1, RollbackFailed));
    assert Straight(p, s, 4).place == Reopening(2, RollbackFailed) && Straight(p, s, 4).transaction;
    assert Straight(p, s, 5).place == Reopening(3, RollbackFailed) && Straight(p, s, 5).transaction;
    assert Straight(p, s, 6).place == Reopening(4, RollbackFailed) && Straight(p, s, 6).transaction;
    assert Straight(p, s, 7).place == Reopening(5, RollbackFailed) && Straight(p, s, 7).transaction;
    assert Straight(p, s, 8).place == Reopening(6, RollbackFailed) && Straight(p, s, 8).journal == None;
  }

  /** Steps without an exception add none. */
  lemma {:induction false} NothingStrikes(p: Plan, es: seq<Event>, n: nat)
    ensures LateInterrupt(p, es + Steps(n)) <==> LateInterrupt(p, es)
    ensures BreaksOff(p, es + Steps(n)) <==> BreaksOff(p, es)
    ensures InterruptedRestored(p, es + Steps(n)) <==> InterruptedRestored(p, es)
  {
    hide At, LateInterrupt, BreaksOff, InterruptedRestored;
    if n == 0 {
      assert es + Steps(0) == es;
    } else {
      NothingStrikes(p, es, n - 1);
      assert es + Steps(n) == es + Steps(n - 1) + [Proceed];
      StruckStep(p, es + Steps(n - 1), Proceed);
    }
  }

  /** A signal right after line 200, and a rollback whose first call fails half way. */
  function MixtureRun(): seq<Event> {
    Steps(16) + [Raise] + Steps(2) + [Raise] + Steps(9)
  }

  /** A first call that fails, a rollback that succeeds, and a signal right after line 206. */
  function MisreportedRun(): seq<Event> {
    Steps(8) + [Raise] + Steps(9) + [Raise] + Steps(9)
  }

  /** For any two builds with different images, the first run opens a mixture of both, removes the journal,
      and reports that admission remains closed. */
  lemma MixtureOpened(p: Plan)
    requires Adopted(p.before) && p.before.current.images != map[Gateway := p.image, TextWorker := p.image]
    ensures var s := At(p, MixtureRun());
            s.place == Over(RollbackFailed) && s.journal == None && s.openings != []
            && !(forall v | v in s.openings :: Consistent(v, p))
  {
    hide At, Adopted, Target, Forward, LateInterrupt, BreaksOff, InterruptedRestored, Account, Consistent, Straight;
    var one := Steps(16);
    var two := one + [Raise];
    var three := two + Steps(2);
    var four := three + [Raise];
    SwitchedAt(p);
    StruckStep(p, one, Raise);
    AtStep(p, one, Raise);
    AtStraight(p, two, 2);
    UndoingAt(p, At(p, two), 1);
    StruckStep(p, three, Raise);
    AtStep(p, three, Raise);
    NothingStrikes(p, two, 2);
    NothingStrikes(p, four, 9);
    FailedRollback(p, four);
    OpensConsistently(p, MixtureRun());
  }

  /** In the second run everything has been opened on the previous release, and the report is the same. */
  lemma ClosureMisreported(p: Plan)
    requires Adopted(p.before)
    ensures var s := At(p, MisreportedRun());
            s.place == Over(RollbackFailed) && s.journal == None && s.openings != []
            && forall v | v in s.openings :: Consistent(v, p)
  {
    hide At, Adopted, Target, Forward, LateInterrupt, BreaksOff, InterruptedRestored, Consistent, Straight;
    var one := Steps(8);
    var two := one + [Raise];
    var three := two + Steps(9);
    var four := three + [Raise];
    SwitchingAt(p);
    AtStep(p, one, Raise);
    AtStraight(p, two, 9);
    UndoingAt(p, At(p, two), EFFECTS);
    Accounts(p, three);
    StruckStep(p, three, Raise);
    AtStep(p, three, Raise);
    NothingStrikes(p, four, 9);
    FailedRollback(p, four);
    OpensConsistently(p, MisreportedRun());
  }

  lemma SwitchingAt(p: Plan)
    requires Adopted(p.before)
    ensures At(p, Steps(8)).place == Switching(0)
  {
    AtStraight(p, [], 8);
    assert [] + Steps(8) == Steps(8);
    StraightIn(p);
  }

  lemma SwitchedAt(p: Plan)
    requires Adopted(p.before)
    ensures At(p, Steps(16)).place == Switched
  {
    hide Adopted, Effect, Target;
    AtStraight(p, [], 16);
    assert [] + Steps(16) == Steps(16);
    StraightIn(p);
    StraightEffects(p, Straight(p, Start(p), 8), EFFECTS);
    StraightAdd(p, Start(p), 8, EFFECTS);
  }

  lemma UndoingAt(p: Plan, s: State, n: nat)
    requires s.place == Failing && n <= EFFECTS
    ensures Straight(p, s, n + 1).place == Undoing(n)
    ensures n == EFFECTS ==> Straight(p, s, n + 2).place == Restored
  {
    hide Straight, Forward;
    StraightStep(p, s, 0);
    Statement(p, s);
    StraightEffects(p, Straight(p, s, 1), n);
    StraightAdd(p, s, 1, n);
    if n == EFFECTS {
      StraightStep(p, s, n + 1);
      Statement(p, Straight(p, s, n + 1));
    }
  }

  /** From a failed rollback whose flag is set, the way out opens everything. */
  lemma FailedRollback(p: Plan, es: seq<Event>)
    requires At(p, es).place == Failed && (LateInterrupt(p, es) || InterruptedRestored(p, es))
    ensures At(p, es + Steps(9)).place == Over(RollbackFailed) && At(p, es + Steps(9)).openings != []
    ensures At(p, es + Steps(9)).journal == None
  {
    hide At, LateInterrupt, BreaksOff, InterruptedRestored, Settled, Adopted, Closed;
    Accounts(p, es);
    AtStraight(p, es, 9);
    StraightOut(p, At(p, es));
  }
}
