/** The capture task joined to the macOS backend: producer events go one way
    through a queue, capture events come back through another. */
module Handshake {
  import opened Types
  import opened Subscriptions
  import opened Capture
  import opened MacBackend
  import opened CaptureRuns

  /** `polled` is the last event taken from the backend, `lastControl` the last
      one that was not an Input, and `informed` the subscribers it went to. */
  datatype System = System(
    up: bool,
    task: Task,
    queue: seq<Delivery>,
    notify: seq<ProducerEvent>,
    events: seq<Emission>,
    back: Backend,
    polled: Option<Emission>,
    lastControl: Option<Emission>,
    informed: seq<Handle>,
    log: seq<Sent>)

  datatype Move =
    | TapMove(tap: TapEvent)
    | ProduceMove(os: Os)
    | DeliverMove(env: Env)
    | TaskMove(stimulus: Stimulus, env: Env)
    | EndSession
    | DownMove(request: Request)
    | Reenable(displays: seq<Display>)
    | ReconfigureMove(displays: seq<Display>)

  // ----- the moves -----

  /** The task produced `out` in state `s`. */
  function Commit(s: System, out: Out): System {
    s.(task := out.task, notify := s.notify + out.calls, log := s.log + out.sent)
  }

  /** The event and handle the next poll yields, and the task that sees it. */
  function Taking(s: System): System
    requires s.queue == [] && s.events != []
  {
    var (k, e) := s.events[0];
    var subs := Subscribers(Regs(s.task.captures), k);
    var fan := FanOut(subs, e);
    s.(task := s.task.(held := Track(s.task.held, e)),
       events := s.events[1..],
       queue := fan,
       polled := Some(s.events[0]),
       lastControl := if e.Input? then s.lastControl else Some(s.events[0]),
       informed := if e.Input? then s.informed else subs)
  }

  /** A poll: the queue is filled from the backend if it is empty, and its
      first entry, if any, is handled. */
  function Polled(s: System): System {
    if s.queue == [] && s.events != [] then Taking(s) else s
  }

  function Deliver(s: System, env: Env): System {
    var p := Polled(s);
    if p.queue == [] then p
    else Commit(p.(queue := p.queue[1..]), HandleCaptureEvent(p.task, p.queue[0].0, p.queue[0].1, env))
  }

  function Creates(captures: seq<Entry>): seq<ProducerEvent> {
    if captures == [] then []
    else
      var n := |captures| - 1;
      Creates(captures[..n]) + CreateCalls(Regs(captures[..n]), captures[n].key)
  }

  function Perform(s: System, m: Move): System {
    match m
    case TapMove(e) =>
      var (b, out, posted) := Tap(s.back, e);
      s.(back := b, events := s.events + out, notify := s.notify + posted)
    case ProduceMove(os) =>
      if s.notify == [] then s
      else
        var (b, out) := HandleProducer(s.back, s.notify[0], os);
        s.(back := b, events := s.events + out, notify := s.notify[1..])
    case DeliverMove(env) => Deliver(s, env)
    case TaskMove(stimulus, env) => Commit(s, Arm(s.task, stimulus, env))
    case EndSession =>
      s.(up := false, queue := [], notify := [], events := [], back := Fresh([]),
         polled := None, lastControl := None, informed := [])
    case DownMove(r) => s.(task := OnRequestWhileDown(s.task, r))
    case Reenable(ds) =>
      s.(up := true, task := Restarted(s.task), notify := Creates(s.task.captures), back := Fresh(ds))
    case ReconfigureMove(ds) => s.(notify := s.notify + [DisplayReconfigured(ds)])
  }

  // ----- which moves happen -----

  /** Triggers for incoming connections have their own range of handles. */
  function KindOf(h: Handle): Kind {
    if h >= ENTER_HANDLE_BEGIN then EnterOnly else Default
  }

  /** What the service asks for is of the kind its handle says. */
  predicate Proper(r: Request) {
    r.CreateRequest? ==> r.kind == KindOf(r.handle)
  }

  /** What the outside may do next. Backend calls only enqueue, so they succeed. */
  predicate Offered(s: System, m: Move) {
    match m
    case TapMove(_) => s.up
    case ProduceMove(_) => s.up && s.notify != []
    case DeliverMove(env) => s.up && env.callOk && env.startOk
    case TaskMove(stimulus, env) =>
      && s.up && env.callOk && env.startOk && !stimulus.Captured?
      && (stimulus.Requested? ==> Proper(stimulus.request))
    case EndSession => s.up
    case DownMove(r) => !s.up && Proper(r)
    case Reenable(_) => !s.up
    case ReconfigureMove(_) => s.up
  }

  /** The move looks up a capture that does not exist, or creates one that does,
      which ends the program. */
  predicate Panics(s: System, m: Move) {
    match m
    case DeliverMove(_) =>
      var p := Polled(s);
      p.queue != [] && !ChordHeld(p.task) && Lookup(p.task.captures, p.queue[0].0).None?
    case TaskMove(stimulus, _) =>
      stimulus.Requested? && Mistaken(s.task.captures, stimulus.request)
    case Reenable(_) => !Distinct(Regs(s.task.captures))
    case _ => false
  }

  predicate Mistaken(captures: seq<Entry>, r: Request) {
    || (r.CreateRequest? && Lookup(captures, r.handle).Some?)
    || (r.DestroyRequest? && Lookup(captures, r.handle).None?)
  }

  /** Moves of the running program. */
  predicate Allowed(s: System, m: Move) {
    Offered(s, m) && !Panics(s, m)
  }

  /** Creating the captures one by one meets a handle that is there already. */
  predicate Repeats(captures: seq<Entry>) {
    captures != [] &&
    var n := |captures| - 1;
    Repeats(captures[..n]) || Lookup(captures[..n], captures[n].handle).Some?
  }

  /** What the task makes of a move, if it makes anything of it. */
  function Outcomes(s: System, m: Move): Outcome {
    match m
    case DeliverMove(env) =>
      var p := Polled(s);
      if p.queue == [] then Done else HandleCaptureEvent(p.task, p.queue[0].0, p.queue[0].1, env).outcome
    case TaskMove(stimulus, env) => Arm(s.task, stimulus, env).outcome
    case Reenable(_) => if Repeats(s.task.captures) then Panicked else Done
    case _ => Done
  }

  lemma EventPanicsExactly(t: Task, h: Handle, e: CaptureEvent, env: Env)
    ensures HandleCaptureEvent(t, h, e, env).outcome == Panicked <==> !ChordHeld(t) && Lookup(t.captures, h).None?
  {
  }

  lemma ArmPanicsExactly(t: Task, s: Stimulus, env: Env)
    requires !s.Captured?
    ensures Arm(t, s, env).outcome == Panicked <==> s.Requested? && Mistaken(t.captures, s.request)
  {
  }

  lemma {:induction false} RepeatsExactly(captures: seq<Entry>)
    ensures Repeats(captures) <==> !Distinct(Regs(captures))
    decreases |captures|
  {
    if captures != [] {
      var n := |captures| - 1;
      RepeatsExactly(captures[..n]);
      DistinctSnoc(captures[..n], captures[n]);
      assert captures == captures[..n] + [captures[n]];
    }
  }

  lemma DistinctSnoc(captures: seq<Entry>, e: Entry)
    ensures Distinct(Regs(captures + [e])) <==> Distinct(Regs(captures)) && Lookup(captures, e.handle).None?
  {
    var regs := Regs(captures + [e]);
    assert forall i | 0 <= i < |captures| :: regs[i] == Regs(captures)[i];
    assert regs[|captures|].handle == e.handle;
    if Lookup(captures, e.handle).Some? {
      var i :| 0 <= i < |captures| && captures[i] == Lookup(captures, e.handle).value;
      assert regs[i].handle == e.handle;
    } else {
      assert forall i | 0 <= i < |captures| :: captures[i] in captures;
    }
  }

  /** A move panics exactly when it delivers to a handle that is gone while the
      release bind is not held, destroys an unknown handle, creates a registered
      one, or starts a session with a handle listed twice. */
  lemma PanicsExactly(s: System, m: Move)
    requires Offered(s, m)
    ensures Outcomes(s, m) == Panicked <==> Panics(s, m)
  {
    match m
    case DeliverMove(env) =>
      var p := Polled(s);
      if p.queue != [] { EventPanicsExactly(p.task, p.queue[0].0, p.queue[0].1, env); }
    case TaskMove(stimulus, env) => ArmPanicsExactly(s.task, stimulus, env);
    case Reenable(_) => RepeatsExactly(s.task.captures);
    case _ =>
  }

  function Boot(bind: seq<Scancode>, cfg: Config, now: nat): System {
    System(false, Task(Idle, None, [], bind, {}, Watchdog(0, [], now), cfg), [], [], [], Fresh([]), None, None, [], [])
  }
}
