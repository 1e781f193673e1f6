/** Runs of the whole system that show why the safety theorems need what they
    ask for. Each is a chain of states, reached one move at a time. */
module Counterexamples {
  import opened Types
  import opened Geometry
  import opened Subscriptions
  import opened Capture
  import opened MacBackend
  import opened Handshake
  import opened GrabSafety
  import opened EnterSafety
  import CaptureRuns
  import GrabBound
  import AckSafety

  // ----- runs, but for one condition -----

  /** A condition of `Steady` that a run may break, if any. */
  datatype Condition = NoCondition | Smoothness | Exclusivity | Undiversion | Subscription

  /** Everything the Enter discipline asks for, but for this one. */
  predicate Fair(but: Condition, s: System, m: Move) {
    && (but != Smoothness ==> Smooth(s, m))
    && (but != Exclusivity ==> Exclusive(s, m))
    && (but != Undiversion ==> Undiverted(s, m))
    && (but != Subscription ==> Subscribed(s, m))
  }

  const BOOT := Boot([1], DEFAULT_CONFIG, 0)

  /** A run of the program in which every move is fair. */
  predicate FairRun(but: Condition, moves: seq<Move>) {
    && AllAllowed(BOOT, moves)
    && forall i :: 0 <= i < |moves| ==> Fair(but, After(BOOT, moves[..i]), moves[i])
  }

  /** One move of such a run. */
  predicate Goes(but: Condition, s: System, m: Move, s': System) {
    Allowed(s, m) && Fair(but, s, m) && Perform(s, m) == s'
  }

  /** The states such a run goes through. */
  predicate Visits(but: Condition, states: seq<System>, moves: seq<Move>) {
    && |states| == |moves| + 1
    && states[0] == BOOT
    && forall i {:trigger moves[i]} :: 0 <= i < |moves| ==> Goes(but, states[i], moves[i], states[i + 1])
  }

  /** Such a run leads here. */
  ghost predicate Reaches(but: Condition, s: System) {
    exists states, moves :: Visits(but, states, moves) && states[|moves|] == s
  }

  lemma Boots(but: Condition)
    ensures Reaches(but, BOOT)
  {
    assert Visits(but, [BOOT], []);
  }

  lemma Extends(but: Condition, s: System, m: Move, s': System)
    requires Reaches(but, s) && Goes(but, s, m, s')
    ensures Reaches(but, s')
  {
    var states, moves :| Visits(but, states, moves) && states[|moves|] == s;
    assert Visits(but, states + [s'], moves + [m]);
  }

  lemma {:induction false} VisitsAfter(but: Condition, states: seq<System>, moves: seq<Move>, i: nat)
    requires Visits(but, states, moves) && i <= |moves|
    ensures After(BOOT, moves[..i]) == states[i]
  {
    if i != 0 {
      VisitsAfter(but, states, moves, i - 1);
      assert moves[..i][..i - 1] == moves[..i - 1];
      assert moves[..i][i - 1] == moves[i - 1];
    }
  }

  lemma ReachedByRun(but: Condition, s: System) returns (moves: seq<Move>)
    requires Reaches(but, s)
    ensures FairRun(but, moves) && After(BOOT, moves) == s
  {
    var states, ms :| Visits(but, states, ms) && states[|ms|] == s;
    forall i | 0 <= i <= |ms| ensures After(BOOT, ms[..i]) == states[i] {
      VisitsAfter(but, states, ms, i);
    }
    assert ms[..|ms|] == ms;
    moves := ms;
  }

  // ----- the setting: one display, a barrier on its left edge -----

  const EDGE := BarrierKey(Left, None, 0, 10000)
  const SCREEN := Display(Rect(0.0, 0.0, 100.0, 100.0), None)
  const SPOT := Point(0.0, 50.0)
  const PUSH := Moved(SPOT, Point(-1.0, 0.0), [])
  const BACK := Moved(Point(50.0, 50.0), Point(0.0, 0.0), [])
  const CLICK := Pointer(0)
  const KEY := Key(2, 1)
  const FINE := Os(true, true, true)
  const UNWARPED := Os(true, true, false)
  const UNSENT := Env(0, false, true, true, [])

  const BP: Emission := (EDGE, BeginPending)
  const CP: Emission := (EDGE, CancelPending)
  const BG: Emission := (EDGE, Begin)
  const CLICKED: Emission := (EDGE, Input(CLICK))
  const PRESS: Emission := (EDGE, Input(KEY))

  function Now(t: nat): Env { Env(t, true, true, true, []) }

  function Client(h: Handle): Entry { Entry(h, EDGE, Default) }

  function Asked(r: Request): Move { TaskMove(Requested(r), Now(0)) }

  function Mac(current: Option<BarrierKey>, pending: Option<BarrierKey>): Backend {
    Backend({EDGE}, current, pending, if current.Some? || pending.Some? then Some(SPOT) else None, [SCREEN])
  }

  /** Released again, the last crossing on record. */
  const HOME := Mac(None, None).(enter := Some(SPOT))

  function TaskIn(state: State, active: Option<Handle>, captures: seq<Entry>, bind: seq<Scancode>, crossings: seq<nat>): Task {
    Task(state, active, captures, bind, {}, Watchdog(0, crossings, 0), DEFAULT_CONFIG)
  }

  lemma PushCrosses()
    ensures Geometry.Crossed(SPOT, Point(SPOT.x + -1.0, SPOT.y + 0.0), [SCREEN], {EDGE}) == Some(EDGE)
  {
    var curr := Point(-1.0, 50.0);
    assert SCREEN in [SCREEN] && SCREEN.rect.Contains(SPOT) && !SCREEN.rect.Contains(curr);
    assert FirstContaining([SCREEN], SPOT) == Some(0);
    assert InRegion([SCREEN], SPOT) && !InRegion([SCREEN], curr);
    assert EnteredBarrier(SPOT, curr, [SCREEN]) == Some(Left);
  }

  // ----- the moves the runs are made of -----

  /** The cursor is pushed over the edge, with nothing going on. */
  lemma Pushes(but: Condition, s: System, enter: Option<Point>, s': System)
    requires Reaches(but, s) && s.up && s.back == Backend({EDGE}, None, None, enter, [SCREEN])
    requires s' == s.(back := Mac(None, Some(EDGE)), events := s.events + [BP])
    ensures Reaches(but, s')
  {
    PushCrosses();
    assert s.notify + [] == s.notify;
    Extends(but, s, TapMove(PUSH), s');
  }

  /** It goes back inside. */
  lemma Returns(but: Condition, s: System, s': System)
    requires Reaches(but, s) && s.up && s.back == Mac(None, Some(EDGE))
    requires s' == s.(back := HOME, events := s.events + [CP])
    ensures Reaches(but, s')
  {
    assert SCREEN in [SCREEN] && SCREEN.rect.Contains(Point(50.0, 50.0));
    assert InRegion([SCREEN], Point(50.0, 50.0));
    assert s.notify + [] == s.notify;
    Extends(but, s, TapMove(BACK), s');
  }

  /** An input is captured. */
  lemma Captures(but: Condition, s: System, e: Event, s': System)
    requires Reaches(but, s) && s.up && s.back == Mac(Some(EDGE), None)
    requires s' == s.(events := s.events + [(EDGE, Input(e))])
    ensures Reaches(but, s')
  {
    assert Stamp(EDGE, [e]) == [(EDGE, Input(e))];
    assert s.notify + [] == s.notify;
    Extends(but, s, TapMove(Other([e])), s');
  }

  /** The backend is told of the barrier. */
  lemma Registers(but: Condition, s: System, s': System)
    requires Reaches(but, s) && s.up && s.notify == [Create(EDGE)] && s.back == Fresh([SCREEN])
    requires s' == s.(back := Mac(None, None), notify := [])
    ensures Reaches(but, s')
  {
    assert s.events + [] == s.events;
    Extends(but, s, ProduceMove(FINE), s');
  }

  /** The backend promotes. */
  lemma Promotes(but: Condition, s: System, s': System)
    requires Reaches(but, s) && s.up && s.notify != [] && s.notify[0] == StartCapture(EDGE) && s.back == Mac(None, Some(EDGE))
    requires s' == s.(back := Mac(Some(EDGE), None), events := s.events + [BG], notify := s.notify[1..])
    ensures Reaches(but, s')
  {
    Extends(but, s, ProduceMove(FINE), s');
  }

  /** The backend lets go. */
  lemma LetsGo(but: Condition, s: System, s': System)
    requires Reaches(but, s) && s.up && s.notify == [Release] && s.back == Mac(Some(EDGE), None)
    requires s' == s.(back := HOME, notify := [])
    ensures Reaches(but, s')
  {
    assert s.events + [] == s.events;
    Extends(but, s, ProduceMove(FINE), s');
  }

  /** The client that is waited for confirms. */
  lemma Confirms(but: Condition, s: System, h: Handle, s': System)
    requires Reaches(but, s) && s.up && s.task.state == Pending(h, EDGE, 0) && (s.task.active.None? || s.task.active == Some(h))
    requires s.task.dog.failures == s.task.dog.progressAt == 0
    requires s' == s.(notify := s.notify + [StartCapture(EDGE)])
    ensures Reaches(but, s')
  {
    assert s.log + [] == s.log;
    Extends(but, s, TaskMove(FromPeer(h, Ack), Now(0)), s');
  }

  /** The active client's confirmation, out of turn, resumes. */
  lemma Resumes(but: Condition, s: System, s': System)
    requires Reaches(but, s) && s.up && s.task.state == Idle && s.task.active == Some(7)
    requires s.task.dog.failures == s.task.dog.progressAt == 0
    requires s' == s.(task := s.task.(state := Sending))
    ensures Reaches(but, s')
  {
    assert s.log + [] == s.log && s.notify + [] == s.notify;
    Extends(but, s, TaskMove(FromPeer(7, Ack), Now(0)), s');
  }

  /** Another release bind. */
  lemma Rebinds(but: Condition, s: System, s': System)
    requires Reaches(but, s) && s.up && s' == s.(task := s.task.(bind := [2]))
    ensures Reaches(but, s')
  {
    assert s.log + [] == s.log && s.notify + [] == s.notify;
    Extends(but, s, Asked(SetReleaseBind([2])), s');
  }

  lemma OneSubscriber(h: Handle)
    ensures Subscribers(Regs([Client(h)]), EDGE) == [h]
    ensures Subscribers(Regs([]), EDGE) == []
    ensures Lookup([Client(h)], h) == Some(Client(h))
    ensures Without(Regs([Client(h)]), h) == []
  {
    assert Regs([Client(h)]) == [Registration(h, EDGE)];
    assert [Registration(h, EDGE)][..0] == [];
    assert Regs([]) == [];
  }

  /** The first client. */
  lemma Creates(but: Condition, s: System, h: Handle, s': System)
    requires Reaches(but, s) && s.up && s.task.captures == [] && h < ENTER_HANDLE_BEGIN
    requires s' == s.(task := s.task.(captures := [Client(h)]), notify := s.notify + [Create(EDGE)])
    ensures Reaches(but, s')
  {
    OneSubscriber(h);
    assert s.log + [] == s.log;
    Extends(but, s, Asked(CreateRequest(h, EDGE, Default)), s');
  }

  /** The last client. */
  lemma Destroys(but: Condition, s: System, h: Handle, s': System)
    requires Reaches(but, s) && s.up && s.task.captures == [Client(h)]
    requires s' == s.(task := s.task.(captures := []), notify := s.notify + [Destroy(EDGE)])
    ensures Reaches(but, s')
  {
    OneSubscriber(h);
    assert s.log + [] == s.log;
    assert [Client(h)][..0] == [] && RemoveCapture([Client(h)], h) == [];
    Extends(but, s, Asked(DestroyRequest(h)), s');
  }

  const SWAP := [Destroy(EDGE), Create(EDGE)]

  /** One client takes over the barrier of another. */
  lemma TakesOver(but: Condition, s: System, h: Handle, h': Handle, s': System)
    requires Reaches(but, s) && s.up && s.task.captures == [Client(h)] && h' < ENTER_HANDLE_BEGIN
    requires s' == s.(task := s.task.(captures := [Client(h')]), notify := s.notify + SWAP)
    ensures Reaches(but, s')
  {
    var gone := s.(task := s.task.(captures := []), notify := s.notify + [Destroy(EDGE)]);
    Destroys(but, s, h, gone);
    assert gone.notify + [Create(EDGE)] == s'.notify;
    Creates(but, gone, h', s');
  }

  /** With one client, an event is taken for it alone. */
  function OnePolled(s: System, h: Handle, e: CaptureEvent): System
    requires s.events != []
  {
    s.(task := s.task.(held := Track(s.task.held, e)), events := s.events[1..], queue := [(h, e)],
       polled := Some((EDGE, e)), lastControl := if e.Input? then s.lastControl else Some((EDGE, e)),
       informed := if e.Input? then s.informed else [h])
  }

  lemma OnePoll(s: System, h: Handle, e: CaptureEvent)
    requires s.queue == [] && s.events != [] && s.events[0] == (EDGE, e) && s.task.captures == [Client(h)]
    ensures Lookup(s.task.captures, h) == Some(Client(h))
    ensures Polled(s) == OnePolled(s, h, e)
  {
    OneSubscriber(h);
  }

  /** What the task does with the delivery at the head of the queue. */
  function Handled(p: System, o: Out): System
    requires p.queue != []
  {
    p.(task := o.task, queue := p.queue[1..], notify := p.notify + o.calls, log := p.log + o.sent)
  }

  /** Without the bind held, a delivery is fair if it is no input or its client was
      told of the Begin. */
  lemma Handles(but: Condition, s: System, p: System, c: Entry, e: CaptureEvent, env: Env, s': System)
    requires Reaches(but, s) && s.up && p == Polled(s) && p.queue != [] && p.queue[0] == (c.handle, e)
    requires Lookup(p.task.captures, c.handle) == Some(c) && c.kind == Default && env.callOk && env.startOk
    requires but == Subscription || (e.Input? ==> c.handle in p.informed)
    requires exists k :: k in p.task.bind && k !in p.task.held
    requires s' == Handled(p, OnClientEvent(p.task, c, e, env))
    ensures Reaches(but, s')
  {
    assert !ChordHeld(p.task);
    Extends(but, s, DeliverMove(env), s');
  }

  /** With the bind held, it is a release. */
  lemma Releases(but: Condition, s: System, p: System, env: Env, s': System)
    requires Reaches(but, s) && s.up && p == Polled(s) && p.queue != [] && ChordHeld(p.task) && env.callOk && env.startOk
    requires !p.queue[0].1.Input? && (but == Undiversion || p.queue[0].1 != Begin || p.task.active.None?)
    requires s' == Handled(p, ReleaseCapture(p.task, env))
    ensures Reaches(but, s')
  {
    Extends(but, s, DeliverMove(env), s');
  }

  /** The only client is given the next event. */
  lemma Hears(but: Condition, s: System, h: Handle, e: CaptureEvent, env: Env, s': System)
    requires Reaches(but, s) && s.up && s.queue == [] && s.events != [] && s.events[0] == (EDGE, e) && s.task.captures == [Client(h)]
    requires env.callOk && env.startOk && (but == Subscription || (e.Input? ==> h in s.informed))
    requires exists k :: k in s.task.bind && k !in Track(s.task.held, e)
    requires s' == Handled(OnePolled(s, h, e), OnClientEvent(OnePolled(s, h, e).task, Client(h), e, env))
    ensures Reaches(but, s')
  {
    OnePoll(s, h, e);
    Handles(but, s, OnePolled(s, h, e), Client(h), e, env, s');
  }

  /** With the bind held, it is not given the next event: that is a release. */
  lemma Misses(but: Condition, s: System, h: Handle, e: CaptureEvent, env: Env, s': System)
    requires Reaches(but, s) && s.up && s.queue == [] && s.events != [] && s.events[0] == (EDGE, e) && s.task.captures == [Client(h)]
    requires !e.Input? && ChordHeld(s.task) && env.callOk && env.startOk && (but == Undiversion || e != Begin || s.task.active.None?)
    requires s' == Handled(OnePolled(s, h, e), ReleaseCapture(s.task, env))
    ensures Reaches(but, s')
  {
    OnePoll(s, h, e);
    Releases(but, s, OnePolled(s, h, e), env, s');
  }

  // ----- up to a capture -----

  function Fresh0(): System {
    System(true, TaskIn(Idle, None, [], [1], []), [], [], [], Fresh([SCREEN]), None, None, [], [])
  }

  function Known(notify: seq<ProducerEvent>, back: Backend, events: seq<Emission>): System {
    System(true, TaskIn(Idle, None, [Client(7)], [1], []), [], notify, events, back, None, None, [], [])
  }

  lemma ReachesCreated(but: Condition)
    ensures Reaches(but, Known([Create(EDGE)], Fresh([SCREEN]), []))
  {
    Boots(but);
    Extends(but, BOOT, Reenable([SCREEN]), Fresh0());
    Creates(but, Fresh0(), 7, Known([Create(EDGE)], Fresh([SCREEN]), []));
  }

  /** Waiting for client 7, which the task has entered. */
  function Waiting(notify: seq<ProducerEvent>): System {
    System(true, TaskIn(Pending(7, EDGE, 0), None, [Client(7)], [1], [0]), [], notify, [],
           Mac(None, Some(EDGE)), Some(BP), Some(BP), [7], [Enter(7, Right)])
  }

  lemma ReachesWaiting(but: Condition)
    ensures Reaches(but, Waiting([]))
  {
    var s := Known([], Mac(None, Some(EDGE)), [BP]);
    ReachesCreated(but);
    Registers(but, Known([Create(EDGE)], Fresh([SCREEN]), []), Known([], Mac(None, None), []));
    Pushes(but, Known([], Mac(None, None), []), None, s);
    assert 1 in s.task.bind;
    Hears(but, s, 7, BeginPending, Now(0), Waiting([]));
  }

  /** Client 7 has been promoted; `events` are on their way. */
  function Capturing(events: seq<Emission>): System {
    System(true, TaskIn(Sending, Some(7), [Client(7)], [1], [0]), [], [], events,
           Mac(Some(EDGE), None), Some(BG), Some(BG), [7], [Enter(7, Right)])
  }

  lemma ReachesCapturing(but: Condition, e: Event)
    ensures Reaches(but, Capturing([(EDGE, Input(e))]))
  {
    var s := Waiting([]).(back := Mac(Some(EDGE), None), events := [BG]);
    ReachesWaiting(but);
    Confirms(but, Waiting([]), 7, Waiting([StartCapture(EDGE)]));
    Promotes(but, Waiting([StartCapture(EDGE)]), s);
    assert 1 in s.task.bind;
    Hears(but, s, 7, Begin, Now(0), Capturing([]));
    Captures(but, Capturing([]), e, Capturing([(EDGE, Input(e))]));
  }

  // ----- an input for someone who was never entered -----

  lemma {:induction false} NotOpen(log: seq<Sent>, h: Handle)
    requires forall m :: m in log ==> m.to != h
    ensures !CaptureRuns.Open(log, h)
  {
    if log != [] {
      assert log[|log| - 1] in log;
      NotOpen(log[..|log| - 1], h);
    }
  }

  /** An input for a client that was never entered is outside. */
  lemma ForwardOutside(but: Condition, s: System, log: seq<Sent>, h: Handle, e: Event)
    requires Reaches(but, s) && s.log == log + [Forward(h, e)] && !CaptureRuns.Open(log, h)
    ensures exists moves :: FairRun(but, moves) && !Inside(After(BOOT, moves).log)
  {
    assert s.log[..|log|] == log && s.log[|log|] == Forward(h, e);
    var _ := ReachedByRun(but, s);
  }

  /** All else in order, a client that replaces another on its barrier mid-capture
      receives the inputs still on their way, without having been entered. */
  lemma LateSubscriberIsNotEntered()
    ensures exists moves :: FairRun(Subscription, moves) && !Inside(After(BOOT, moves).log)
  {
    var s := Capturing([CLICKED]).(task := TaskIn(Sending, Some(7), [Client(8)], [1], [0]), notify := SWAP);
    var s' := s.(events := [], polled := Some(CLICKED), log := [Enter(7, Right)] + [Forward(8, CLICK)]);
    ReachesCapturing(Subscription, CLICK);
    TakesOver(Subscription, Capturing([CLICKED]), 7, 8, s);
    assert 1 in s.task.bind;
    Hears(Subscription, s, 8, Input(CLICK), Now(0), s');
    NotOpen([Enter(7, Right)], 8);
    ForwardOutside(Subscription, s', [Enter(7, Right)], 8, CLICK);
  }

  // ----- client 7 pending again while still active -----

  /** Client 7 is active throughout. */
  function Active7(state: State, captures: seq<Entry>, bind: seq<Scancode>, held: set<Scancode>, failures: nat, crossings: seq<nat>): Task {
    Task(state, Some(7), captures, bind, held, Watchdog(failures, crossings, 0), DEFAULT_CONFIG)
  }

  const SENT := [Enter(7, Right), Forward(7, CLICK)]
  const HELD := [Enter(7, Right), Forward(7, CLICK), Forward(7, KEY)]
  const AGAIN := [Enter(7, Right), Forward(7, CLICK), Forward(7, KEY), Enter(7, Right)]

  /** A send failed, and the backend is to let go. */
  function SendFailed(events: seq<Emission>): System {
    System(true, Active7(Sending, [Client(7)], [1], {}, 1, [0]), [], [Release], events, Mac(Some(EDGE), None), Some(CLICKED), Some(BG), [7], SENT)
  }

  lemma ReachesSendFailed(but: Condition)
    ensures Reaches(but, SendFailed([PRESS]))
  {
    var s := Capturing([CLICKED]);
    ReachesCapturing(but, CLICK);
    assert 1 in s.task.bind && s.log + [Forward(7, CLICK)] == SENT;
    Hears(but, s, 7, Input(CLICK), UNSENT, SendFailed([]));
    Captures(but, SendFailed([]), KEY, SendFailed([PRESS]));
  }

  /** A key was pressed after it, and sent. */
  function KeyHeld(notify: seq<ProducerEvent>, back: Backend, events: seq<Emission>): System {
    System(true, Active7(Sending, [Client(7)], [1], {2}, 0, [0]), [], notify, events, back, Some(PRESS), Some(BG), [7], HELD)
  }

  lemma ReachesKeyHeld(but: Condition)
    ensures Reaches(but, KeyHeld([], Mac(None, Some(EDGE)), [BP]))
  {
    var s := SendFailed([PRESS]);
    ReachesSendFailed(but);
    assert 1 in s.task.bind && s.log + [Forward(7, KEY)] == HELD;
    Hears(but, s, 7, Input(KEY), Now(0), KeyHeld([Release], Mac(Some(EDGE), None), []));
    LetsGo(but, KeyHeld([Release], Mac(Some(EDGE), None), []), KeyHeld([], HOME, []));
    Pushes(but, KeyHeld([], HOME, []), Some(SPOT), KeyHeld([], Mac(None, Some(EDGE)), [BP]));
  }

  function Waiting7(captures: seq<Entry>, bind: seq<Scancode>): Task {
    Active7(Pending(7, EDGE, 0), captures, bind, {2}, 0, [0, 0])
  }

  function Recrossed(task: Task, notify: seq<ProducerEvent>, back: Backend, events: seq<Emission>): System {
    System(true, task, [], notify, events, back, Some(BP), Some(BP), [7], AGAIN)
  }

  lemma ReachesRecrossed(but: Condition)
    ensures Reaches(but, Recrossed(Waiting7([Client(7)], [1]), [StartCapture(EDGE)], Mac(None, Some(EDGE)), []))
  {
    var s := KeyHeld([], Mac(None, Some(EDGE)), [BP]);
    var s' := Recrossed(Waiting7([Client(7)], [1]), [], Mac(None, Some(EDGE)), []);
    ReachesKeyHeld(but);
    assert 1 in s.task.bind && s.log + [Enter(7, Right)] == AGAIN;
    Hears(but, s, 7, BeginPending, Now(0), s');
    Confirms(but, s', 7, s'.(notify := [StartCapture(EDGE)]));
  }

  // ----- a Begin diverted into a release -----

  lemma ReachesTakenOver(but: Condition)
    ensures Reaches(but, Recrossed(Waiting7([Client(9)], [2]), SWAP, Mac(Some(EDGE), None), [BG]))
  {
    var s := Recrossed(Waiting7([Client(7)], [1]), [StartCapture(EDGE)], Mac(None, Some(EDGE)), []);
    var grabbed := Recrossed(Waiting7([Client(7)], [1]), [], Mac(Some(EDGE), None), [BG]);
    var taken := Recrossed(Waiting7([Client(9)], [1]), SWAP, Mac(Some(EDGE), None), [BG]);
    ReachesRecrossed(but);
    Promotes(but, s, grabbed);
    TakesOver(but, grabbed, 7, 9, taken);
    Rebinds(but, taken, taken.(task := Waiting7([Client(9)], [2])));
  }

  function Diverted(state: State, events: seq<Emission>): System {
    System(true, Active7(state, [Client(9)], [2], {}, 0, []), [], SWAP + [CancelPendingRequest(EDGE), Release], events,
           Mac(Some(EDGE), None), Some(BG), Some(BG), [9], AGAIN)
  }

  /** Client 9's Begin, with the new bind held, only cancels what client 7 was
      pending for, and client 7's Ack resumes. */
  lemma ReachesDiverted()
    ensures Reaches(Undiversion, Diverted(Sending, [CLICKED]))
  {
    var s := Recrossed(Waiting7([Client(9)], [2]), SWAP, Mac(Some(EDGE), None), [BG]);
    ReachesTakenOver(Undiversion);
    assert s.log + [] == AGAIN && s.events[1..] == [];
    Misses(Undiversion, s, 9, Begin, Now(0), Diverted(Idle, []));
    Resumes(Undiversion, Diverted(Idle, []), Diverted(Sending, []));
    Captures(Undiversion, Diverted(Sending, []), CLICK, Diverted(Sending, [CLICKED]));
  }

  /** All else in order, a Begin diverted into a release that leaves another
      client active is enough for an input to reach a client that was never
      entered. */
  lemma DivertedBeginIsNotEntered()
    ensures exists moves :: FairRun(Undiversion, moves) && !Inside(After(BOOT, moves).log)
  {
    var s := Diverted(Sending, [CLICKED]);
    var s' := s.(events := [], polled := Some(CLICKED), log := AGAIN + [Forward(9, CLICK)]);
    ReachesDiverted();
    assert 2 in s.task.bind;
    Hears(Undiversion, s, 9, Input(CLICK), Now(0), s');
    NotOpen(AGAIN, 9);
    ForwardOutside(Undiversion, s', AGAIN, 9, CLICK);
  }

  // ----- a grab that is not announced -----

  /** With a promotion on its way, the cursor goes back and crosses again, and
      client 9 takes over the barrier. */
  lemma ReachesCrossedTwice(but: Condition)
    ensures Reaches(but, Recrossed(Waiting7([Client(9)], [1]), [StartCapture(EDGE)] + SWAP, Mac(None, Some(EDGE)), [CP, BP]))
  {
    var s := Recrossed(Waiting7([Client(7)], [1]), [StartCapture(EDGE)], Mac(None, Some(EDGE)), []);
    var back, crossed := s.(back := HOME, events := [CP]), s.(events := [CP, BP]);
    ReachesRecrossed(but);
    Returns(but, s, back);
    Pushes(but, back, Some(SPOT), crossed);
    TakesOver(but, crossed, 7, 9, Recrossed(Waiting7([Client(9)], [1]), [StartCapture(EDGE)] + SWAP, Mac(None, Some(EDGE)), [CP, BP]));
  }

  function Told9(task: Task, notify: seq<ProducerEvent>, events: seq<Emission>, last: Emission): System {
    System(true, task, [], notify, events, Mac(None, Some(EDGE)), Some(last), Some(last), [9], AGAIN)
  }

  /** Client 9 is told that the first crossing is cancelled. */
  lemma ReachesTold(but: Condition)
    ensures Reaches(but, Told9(Waiting7([Client(9)], [2]), [StartCapture(EDGE)] + SWAP + [CancelPendingRequest(EDGE)], [BP], CP))
  {
    var s := Recrossed(Waiting7([Client(9)], [1]), [StartCapture(EDGE)] + SWAP, Mac(None, Some(EDGE)), [CP, BP]);
    var s' := Told9(Waiting7([Client(9)], [1]), [StartCapture(EDGE)] + SWAP + [CancelPendingRequest(EDGE)], [BP], CP);
    ReachesCrossedTwice(but);
    assert 1 in s.task.bind && s.log + [] == AGAIN;
    Hears(but, s, 9, CancelPending, Now(0), s');
    Rebinds(but, s', s'.(task := Waiting7([Client(9)], [2])));
  }

  const REST := [Destroy(EDGE), Create(EDGE), CancelPendingRequest(EDGE), CancelPendingRequest(EDGE), Release]

  /** Its BeginPending, with the new bind held, releases. */
  lemma ReachesReleased(but: Condition)
    ensures Reaches(but, Told9(Active7(Idle, [Client(9)], [2], {}, 0, []), [StartCapture(EDGE)] + REST, [], BP))
  {
    var s := Told9(Waiting7([Client(9)], [2]), [StartCapture(EDGE)] + SWAP + [CancelPendingRequest(EDGE)], [BP], CP);
    var idle := Told9(Active7(Idle, [Client(9)], [2], {}, 0, []), [StartCapture(EDGE)] + REST, [], BP);
    ReachesTold(but);
    assert s.notify + [CancelPendingRequest(EDGE), Release] == [StartCapture(EDGE)] + REST && s.log + [] == AGAIN && s.events[1..] == [];
    Misses(but, s, 9, BeginPending, Now(0), idle);
  }

  function Unannounced(events: seq<Emission>): System {
    System(true, Active7(Sending, [Client(9)], [2], {}, 0, []), [], REST, events, Mac(Some(EDGE), None), Some(BP), Some(BP), [9], AGAIN)
  }

  /** Client 7's Ack resumes, and the promotion grabs the cursor without a Begin. */
  lemma ReachesUnannounced()
    ensures Reaches(Smoothness, Unannounced([CLICKED]))
  {
    var s := Told9(Active7(Sending, [Client(9)], [2], {}, 0, []), [StartCapture(EDGE)] + REST, [], BP);
    ReachesReleased(Smoothness);
    Resumes(Smoothness, s.(task := Active7(Idle, [Client(9)], [2], {}, 0, [])), s);
    assert s.notify[1..] == REST;
    Extends(Smoothness, s, ProduceMove(UNWARPED), Unannounced([]));
    Captures(Smoothness, Unannounced([]), CLICK, Unannounced([CLICKED]));
  }

  /** All else in order, a promotion that fails to warp the cursor is enough: the
      inputs it captures go to whoever was told of the crossing. */
  lemma UnannouncedGrabIsNotEntered()
    ensures exists moves :: FairRun(Smoothness, moves) && !Inside(After(BOOT, moves).log)
  {
    var s := Unannounced([CLICKED]);
    var s' := s.(events := [], polled := Some(CLICKED), log := AGAIN + [Forward(9, CLICK)]);
    ReachesUnannounced();
    assert 2 in s.task.bind;
    Hears(Smoothness, s, 9, Input(CLICK), Now(0), s');
    NotOpen(AGAIN, 9);
    ForwardOutside(Smoothness, s', AGAIN, 9, CLICK);
  }

  // ----- two clients on one barrier -----

  function Pair(): seq<Entry> { [Client(7), Client(8)] }

  lemma PairSubscribes()
    ensures Subscribers(Regs(Pair()), EDGE) == [7, 8]
    ensures Lookup(Pair(), 7) == Some(Client(7)) && Lookup(Pair(), 8) == Some(Client(8))
  {
    var regs := Regs(Pair());
    assert regs[..1] == Regs([Client(7)]) && regs[1] == Registration(8, EDGE);
    OneSubscriber(7);
    assert Pair()[1..] == [Client(8)];
    OneSubscriber(8);
  }

  function PairPolled(s: System, e: CaptureEvent): System {
    s.(task := s.task.(held := Track(s.task.held, e)), events := [], queue := [(7, e), (8, e)], polled := Some((EDGE, e)),
       lastControl := if e.Input? then s.lastControl else Some((EDGE, e)), informed := if e.Input? then s.informed else [7, 8])
  }

  lemma PairPoll(s: System, e: CaptureEvent)
    requires s.queue == [] && s.events == [(EDGE, e)] && s.task.captures == Pair()
    ensures Polled(s) == PairPolled(s, e)
  {
    PairSubscribes();
  }

  /** The first of the two is given the next event. */
  lemma FirstHears(but: Condition, s: System, e: CaptureEvent, s': System)
    requires Reaches(but, s) && s.up && s.queue == [] && s.events == [(EDGE, e)] && s.task.captures == Pair()
    requires (e.Input? ==> 7 in s.informed) && exists k :: k in s.task.bind && k !in Track(s.task.held, e)
    requires s' == Handled(PairPolled(s, e), OnClientEvent(PairPolled(s, e).task, Client(7), e, Now(0)))
    ensures Reaches(but, s')
  {
    PairSubscribes();
    PairPoll(s, e);
    Handles(but, s, PairPolled(s, e), Client(7), e, Now(0), s');
  }

  /** Both clients known, nobody entered yet. */
  function Quiet2(notify: seq<ProducerEvent>, back: Backend, events: seq<Emission>): System {
    System(true, TaskIn(Idle, None, Pair(), [1], []), [], notify, events, back, None, None, [], [])
  }

  lemma ReachesQuiet()
    ensures Reaches(Exclusivity, Quiet2([], Mac(None, Some(EDGE)), [BP]))
  {
    var s, home := Quiet2([Create(EDGE)], Fresh([SCREEN]), []), Quiet2([], Mac(None, None), []);
    ReachesCreated(Exclusivity);
    OneSubscriber(7);
    assert [Client(7)] + [Client(8)] == Pair();
    Extends(Exclusivity, Known([Create(EDGE)], Fresh([SCREEN]), []), Asked(CreateRequest(8, EDGE, Default)), s);
    Registers(Exclusivity, s, home);
    Pushes(Exclusivity, home, None, Quiet2([], Mac(None, Some(EDGE)), [BP]));
  }

  function Waiting2(h: Handle, crossings: seq<nat>, queue: seq<Delivery>, notify: seq<ProducerEvent>, log: seq<Sent>): System {
    System(true, TaskIn(Pending(h, EDGE, 0), None, Pair(), [1], crossings), queue, notify, [], Mac(None, Some(EDGE)), Some(BP), Some(BP), [7, 8], log)
  }

  const BOTH := [Enter(7, Right), Enter(8, Right)]

  lemma ReachesFirstWaiting()
    ensures Reaches(Exclusivity, Waiting2(7, [0], [(8, BeginPending)], [], [Enter(7, Right)]))
  {
    var s := Quiet2([], Mac(None, Some(EDGE)), [BP]);
    ReachesQuiet();
    assert 1 in s.task.bind && [(7, BeginPending), (8, BeginPending)][1..] == [(8, BeginPending)];
    FirstHears(Exclusivity, s, BeginPending, Waiting2(7, [0], [(8, BeginPending)], [], [Enter(7, Right)]));
  }

  lemma ReachesBothWaiting()
    ensures Reaches(Exclusivity, Waiting2(8, [0, 0], [], [], BOTH))
  {
    var s := Waiting2(7, [0], [(8, BeginPending)], [], [Enter(7, Right)]);
    ReachesFirstWaiting();
    PairSubscribes();
    assert 1 in s.task.bind && s.log + [Enter(8, Right)] == BOTH;
    Handles(Exclusivity, s, s, Client(8), BeginPending, Now(0), Waiting2(8, [0, 0], [], [], BOTH));
  }

  function Promoted2(): System {
    Waiting2(8, [0, 0], [], [], BOTH).(events := [BG], back := Mac(Some(EDGE), None))
  }

  lemma ReachesPromoted2()
    ensures Reaches(Exclusivity, Promoted2())
  {
    var s := Waiting2(8, [0, 0], [], [StartCapture(EDGE)], BOTH);
    ReachesBothWaiting();
    Confirms(Exclusivity, Waiting2(8, [0, 0], [], [], BOTH), 8, s);
    Promotes(Exclusivity, s, Promoted2());
  }

  function Begun2(task: Task, queue: seq<Delivery>, notify: seq<ProducerEvent>, events: seq<Emission>, log: seq<Sent>): System {
    System(true, task, queue, notify, events, Mac(Some(EDGE), None), Some(BG), Some(BG), [7, 8], log)
  }

  const FIRST := TaskIn(Sending, Some(7), Pair(), [1], [0, 0])
  const SECOND := TaskIn(Sending, Some(8), Pair(), [1], [])
  const LEFT := [Enter(7, Right), Enter(8, Right), Enter(7, Right), Forward(7, NO_MODIFIERS), Leave(7)]

  /** Client 7's Begin is followed by a release. */
  lemma ReachesBegun()
    ensures Reaches(Exclusivity, Begun2(FIRST, [(8, Begin)], [], [], BOTH + [Enter(7, Right)]))
  {
    var s := Promoted2();
    ReachesPromoted2();
    assert 1 in s.task.bind && [(7, Begin), (8, Begin)][1..] == [(8, Begin)];
    FirstHears(Exclusivity, s, Begin, Begun2(FIRST, [(8, Begin)], [], [], BOTH + [Enter(7, Right)]));
  }

  lemma ReachesLeft()
    ensures Reaches(Exclusivity, Begun2(TaskIn(Idle, None, Pair(), [1], []), [(8, Begin)], [Release], [], LEFT))
  {
    ReachesBegun();
    assert KeyUps(7, []) == [];
    assert BOTH + [Enter(7, Right)] + Farewell(Some(7), []) == LEFT;
    Extends(Exclusivity, Begun2(FIRST, [(8, Begin)], [], [], BOTH + [Enter(7, Right)]), Asked(ReleaseRequest),
            Begun2(TaskIn(Idle, None, Pair(), [1], []), [(8, Begin)], [Release], [], LEFT));
  }

  /** Client 8's copy of it by an Enter that resumes sending. */
  lemma ReachesShared()
    ensures Reaches(Exclusivity, Begun2(SECOND, [], [Release], [], LEFT + [Enter(8, Right)]))
  {
    var s := Begun2(TaskIn(Idle, None, Pair(), [1], []), [(8, Begin)], [Release], [], LEFT);
    ReachesLeft();
    PairSubscribes();
    assert 1 in s.task.bind && s.queue[1..] == [] && s.notify + [] == s.notify;
    Handles(Exclusivity, s, s, Client(8), Begin, Now(0), Begun2(SECOND, [], [Release], [], LEFT + [Enter(8, Right)]));
  }

  function Forwarded2(): System {
    Begun2(SECOND, [(8, Input(CLICK))], [Release], [], LEFT + [Enter(8, Right), Forward(7, CLICK)]).(polled := Some(CLICKED))
  }

  lemma ReachesForwarded()
    ensures Reaches(Exclusivity, Forwarded2())
  {
    var s := Begun2(SECOND, [], [Release], [CLICKED], LEFT + [Enter(8, Right)]);
    ReachesShared();
    Captures(Exclusivity, Begun2(SECOND, [], [Release], [], LEFT + [Enter(8, Right)]), CLICK, s);
    assert 1 in s.task.bind && s.log + [Forward(7, CLICK)] == Forwarded2().log;
    assert [(7, Input(CLICK)), (8, Input(CLICK))][1..] == Forwarded2().queue;
    FirstHears(Exclusivity, s, Input(CLICK), Forwarded2());
  }

  /** All else in order, a second client on a barrier is enough: an input reaches
      the first after its Leave, because the second resumed sending. */
  lemma SharedBarrierIsNotEntered()
    ensures exists moves :: FairRun(Exclusivity, moves) && !Inside(After(BOOT, moves).log)
  {
    var log := LEFT + [Enter(8, Right)];
    ReachesForwarded();
    assert log[..5] == LEFT && log + [Forward(7, CLICK)] == Forwarded2().log;
    ForwardOutside(Exclusivity, Forwarded2(), log, 7, CLICK);
  }

  // ----- a grab nobody knows of -----

  /** Released, with one key-down still on its way and then recorded as held. */
  function Released(held: set<Scancode>, state: State, bind: seq<Scancode>, crossings: seq<nat>): Task {
    Task(state, None, [Client(7)], bind, held, Watchdog(0, crossings, 0), DEFAULT_CONFIG)
  }

  const BYE := [Enter(7, Right), Forward(7, NO_MODIFIERS), Leave(7)]
  const RETURNED := [Enter(7, Right), Forward(7, NO_MODIFIERS), Leave(7), Enter(7, Right)]

  function Parted(held: set<Scancode>, notify: seq<ProducerEvent>, back: Backend, events: seq<Emission>, polled: Emission): System {
    System(true, Released(held, Idle, [1], []), [], notify, events, back, Some(polled), Some(BG), [7], BYE)
  }

  lemma ReachesParted(but: Condition)
    ensures Reaches(but, Parted({}, [Release], Mac(Some(EDGE), None), [PRESS], BG))
  {
    ReachesCapturing(but, KEY);
    assert KeyUps(7, []) == [];
    assert [Enter(7, Right)] + Farewell(Some(7), []) == BYE;
    Extends(but, Capturing([PRESS]), Asked(ReleaseRequest), Parted({}, [Release], Mac(Some(EDGE), None), [PRESS], BG));
  }

  lemma ReachesHeldAfterwards(but: Condition)
    ensures Reaches(but, Parted({2}, [], Mac(None, Some(EDGE)), [BP], PRESS))
  {
    var s := Parted({}, [Release], Mac(Some(EDGE), None), [PRESS], BG);
    ReachesParted(but);
    assert 1 in s.task.bind;
    Hears(but, s, 7, Input(KEY), Now(0), Parted({2}, [Release], Mac(Some(EDGE), None), [], PRESS));
    LetsGo(but, Parted({2}, [Release], Mac(Some(EDGE), None), [], PRESS), Parted({2}, [], HOME, [], PRESS));
    Pushes(but, Parted({2}, [], HOME, [], PRESS), Some(SPOT), Parted({2}, [], Mac(None, Some(EDGE)), [BP], PRESS));
  }

  function Waiting3(state: State, bind: seq<Scancode>, notify: seq<ProducerEvent>, back: Backend, events: seq<Emission>): System {
    System(true, Released({2}, state, bind, [0]), [], notify, events, back, Some(BP), Some(BP), [7], RETURNED)
  }

  lemma ReachesWaitingAgain(but: Condition)
    ensures Reaches(but, Waiting3(Pending(7, EDGE, 0), [1], [StartCapture(EDGE)], Mac(None, Some(EDGE)), []))
  {
    var s := Parted({2}, [], Mac(None, Some(EDGE)), [BP], PRESS);
    var s' := Waiting3(Pending(7, EDGE, 0), [1], [], Mac(None, Some(EDGE)), []);
    ReachesHeldAfterwards(but);
    assert 1 in s.task.bind && s.log + [Enter(7, Right)] == RETURNED;
    Hears(but, s, 7, BeginPending, Now(0), s');
    Confirms(but, s', 7, s'.(notify := [StartCapture(EDGE)]));
  }

  const TIMED_OUT := [StartCapture(EDGE), CancelPendingRequest(EDGE)]

  lemma ReachesTimedOut(but: Condition)
    ensures Reaches(but, Waiting3(Idle, [2], [CancelPendingRequest(EDGE)], Mac(Some(EDGE), None), [BG]))
  {
    var s := Waiting3(Pending(7, EDGE, 0), [1], [StartCapture(EDGE)], Mac(None, Some(EDGE)), []);
    var late := Waiting3(Idle, [1], TIMED_OUT, Mac(None, Some(EDGE)), []);
    ReachesWaitingAgain(but);
    Extends(but, s, TaskMove(PendingTick, Now(500)), late);
    Rebinds(but, late, late.(task := Released({2}, Idle, [2], [0])));
    assert TIMED_OUT[1..] == [CancelPendingRequest(EDGE)];
    Promotes(but, late.(task := Released({2}, Idle, [2], [0])), Waiting3(Idle, [2], [CancelPendingRequest(EDGE)], Mac(Some(EDGE), None), [BG]));
  }

  function Stranded(): System {
    var s := Waiting3(Idle, [2], [CancelPendingRequest(EDGE)], Mac(Some(EDGE), None), []);
    s.(task := s.task.(dog := Watchdog(0, [], 500)), polled := Some(BG), lastControl := Some(BG))
  }

  lemma ReachesStranded(but: Condition)
    ensures Reaches(but, Stranded())
  {
    var s := Waiting3(Idle, [2], [CancelPendingRequest(EDGE)], Mac(Some(EDGE), None), [BG]);
    ReachesTimedOut(but);
    assert s.log + [] == RETURNED && s.events[1..] == [] && s.notify + [] == s.notify;
    Misses(but, s, 7, Begin, Now(500), Stranded());
  }

  /** With the release bind changed to a key that is still recorded as held, a
      Begin that crossed the timeout is swallowed: the cursor stays hidden and
      nobody will release it. The run keeps every condition of the discipline. */
  lemma SwallowedBeginStrands()
    ensures exists moves :: FairRun(NoCondition, moves) && !NoOrphanedGrab(After(BOOT, moves))
  {
    ReachesStranded(NoCondition);
    var _ := ReachedByRun(NoCondition, Stranded());
  }

  // ----- a grab that outruns its answer -----

  /** Client 7 answered, the wait for it timed out, and the promotion came through
      all the same. */
  function Late(): System {
    Waiting([CancelPendingRequest(EDGE)]).(task := TaskIn(Idle, None, [Client(7)], [1], [0]), back := Mac(Some(EDGE), None), events := [BG])
  }

  lemma ReachesLate(but: Condition)
    ensures Reaches(but, Late())
  {
    var s, late := Waiting([StartCapture(EDGE)]), Waiting(TIMED_OUT).(task := TaskIn(Idle, None, [Client(7)], [1], [0]));
    ReachesWaiting(but);
    Confirms(but, Waiting([]), 7, s);
    Extends(but, s, TaskMove(PendingTick, Now(500)), late);
    assert TIMED_OUT[1..] == [CancelPendingRequest(EDGE)];
    Promotes(but, late, Late());
  }

  lemma LateEnters()
    ensures Goes(NoCondition, Late(), DeliverMove(Now(500)), Deliver(Late(), Now(500)))
    ensures AckSafety.Enters(Polled(Late())) && Polled(Late()).queue[0].0 == 7
    ensures Deliver(Late(), Now(500)).back.current == Some(EDGE)
  {
    OnePoll(Late(), 7, Begin);
    assert 1 in Polled(Late()).task.bind && !ChordHeld(Polled(Late()).task);
  }

  /** Nobody but client 7 can have answered so far. */
  lemma OnlySeven(moves: seq<Move>, h: Handle)
    requires After(BOOT, moves) == Late() && h != 7
    ensures !AckSafety.AnsweredBy(CaptureRuns.Start([1], DEFAULT_CONFIG, 0), GrabBound.Follow(BOOT, moves), EDGE, h)
  {
    var start, turns := CaptureRuns.Start([1], DEFAULT_CONFIG, 0), GrabBound.Follow(BOOT, moves);
    GrabBound.SystemMirrorsTask([1], DEFAULT_CONFIG, 0, moves);
    if AckSafety.AnsweredBy(start, turns, EDGE, h) {
      AckSafety.AnswersWereEntered(start, turns, EDGE, h);
      assert false;
    }
  }

  lemma RunSnoc(but: Condition, moves: seq<Move>, m: Move)
    requires FairRun(but, moves) && Goes(but, After(BOOT, moves), m, Perform(After(BOOT, moves), m))
    ensures FairRun(but, moves + [m]) && After(BOOT, moves + [m]) == Perform(After(BOOT, moves), m)
    ensures GrabBound.Follow(BOOT, moves + [m]) == GrabBound.Follow(BOOT, moves) + GrabBound.Turning(After(BOOT, moves), m)
  {
    var all := moves + [m];
    assert all[..|moves|] == moves;
    forall i | 0 <= i < |all| ensures Allowed(After(BOOT, all[..i]), all[i]) && Fair(but, After(BOOT, all[..i]), all[i]) {
      assert all[..i] == moves[..i];
    }
  }

  /** A Begin that comes after the wait has timed out has its client entered once
      more: the pointer is then grabbed although nobody has answered the latest
      Enter sent to them. */
  lemma LateBeginOutrunsAck()
    ensures exists moves ::
              && FairRun(NoCondition, moves) && After(BOOT, moves).back.current == Some(EDGE)
              && !AckSafety.Confirmed(CaptureRuns.Start([1], DEFAULT_CONFIG, 0), GrabBound.Follow(BOOT, moves), EDGE)
  {
    ReachesLate(NoCondition);
    var moves := ReachedByRun(NoCondition, Late());
    LateEnters();
    RunSnoc(NoCondition, moves, DeliverMove(Now(500)));
    var start, turns := CaptureRuns.Start([1], DEFAULT_CONFIG, 0), GrabBound.Follow(BOOT, moves);
    GrabBound.SystemMirrorsTask([1], DEFAULT_CONFIG, 0, moves);
    AckSafety.DeliveryConfirms(start, turns, Late(), Now(500), EDGE);
    forall h | h != 7 ensures !AckSafety.AnsweredBy(start, turns, EDGE, h) {
      OnlySeven(moves, h);
    }
  }

  // ----- an event for someone who is gone -----

  const TRIGGER := Entry(ENTER_HANDLE_BEGIN, EDGE, EnterOnly)

  function Watched(back: Backend, events: seq<Emission>): System {
    System(true, TaskIn(Idle, None, [Client(7), TRIGGER], [1], []), [], [], events, back, None, None, [], [])
  }

  function Entered(captures: seq<Entry>): System {
    System(true, TaskIn(Pending(7, EDGE, 0), None, captures, [1], [0]), [(ENTER_HANDLE_BEGIN, BeginPending)], [], [],
           Mac(None, Some(EDGE)), Some(BP), Some(BP), [7, ENTER_HANDLE_BEGIN], [Enter(7, Right)])
  }

  lemma TwoSubscribers()
    ensures Subscribers(Regs([Client(7), TRIGGER]), EDGE) == [7, ENTER_HANDLE_BEGIN]
    ensures Lookup([Client(7), TRIGGER], 7) == Some(Client(7))
  {
    var regs := Regs([Client(7), TRIGGER]);
    assert regs[..1] == Regs([Client(7)]) && regs[1] == Registration(ENTER_HANDLE_BEGIN, EDGE);
    OneSubscriber(7);
  }

  lemma TriggerRemoved()
    ensures RemoveCapture([Client(7), TRIGGER], ENTER_HANDLE_BEGIN) == [Client(7)]
    ensures Without(Regs([Client(7), TRIGGER]), ENTER_HANDLE_BEGIN) == Regs([Client(7)])
  {
    assert [Client(7), TRIGGER][..1] == [Client(7)] && [Client(7)][..0] == [];
    CaptureRuns.ListFollowsIndex([Client(7), TRIGGER], ENTER_HANDLE_BEGIN);
  }

  lemma TriggerLeaves(t: Task, env: Env)
    requires t.captures == [Client(7), TRIGGER]
    ensures OnDestroy(t, ENTER_HANDLE_BEGIN, env) == Out(t.(captures := [Client(7)]), [], [], None, Done)
  {
    TriggerRemoved();
    OneSubscriber(7);
    assert t.captures[1..] == [TRIGGER] && Lookup(t.captures, ENTER_HANDLE_BEGIN) == Some(TRIGGER);
  }

  lemma ReachesWatched(but: Condition)
    ensures Reaches(but, Watched(Mac(None, Some(EDGE)), [BP]))
  {
    ReachesCreated(but);
    Registers(but, Known([Create(EDGE)], Fresh([SCREEN]), []), Known([], Mac(None, None), []));
    OneSubscriber(7);
    assert [Client(7)] + [TRIGGER] == [Client(7), TRIGGER];
    Extends(but, Known([], Mac(None, None), []), Asked(CreateRequest(ENTER_HANDLE_BEGIN, EDGE, EnterOnly)), Watched(Mac(None, None), []));
    Pushes(but, Watched(Mac(None, None), []), None, Watched(Mac(None, Some(EDGE)), [BP]));
  }

  function TriggerPolled(): System {
    Watched(Mac(None, Some(EDGE)), []).(queue := [(7, BeginPending), (ENTER_HANDLE_BEGIN, BeginPending)],
                                        polled := Some(BP), lastControl := Some(BP), informed := [7, ENTER_HANDLE_BEGIN])
  }

  lemma TriggerPoll()
    ensures Polled(Watched(Mac(None, Some(EDGE)), [BP])) == TriggerPolled()
    ensures Lookup(TriggerPolled().task.captures, 7) == Some(Client(7))
    ensures exists k :: k in TriggerPolled().task.bind && k !in TriggerPolled().task.held
  {
    TwoSubscribers();
    assert 1 in TriggerPolled().task.bind;
  }

  lemma TriggerHandled()
    ensures Handled(TriggerPolled(), OnClientEvent(TriggerPolled().task, Client(7), BeginPending, Now(0))) == Entered([Client(7), TRIGGER])
  {
    assert TriggerPolled().queue[1..] == [(ENTER_HANDLE_BEGIN, BeginPending)];
  }

  lemma ReachesEntered(but: Condition)
    ensures Reaches(but, Entered([Client(7), TRIGGER]))
  {
    var s := Watched(Mac(None, Some(EDGE)), [BP]);
    ReachesWatched(but);
    TriggerPoll();
    TriggerHandled();
    Handles(but, s, TriggerPolled(), Client(7), BeginPending, Now(0), Entered([Client(7), TRIGGER]));
  }

  lemma ReachesOrphaned(but: Condition)
    ensures Reaches(but, Entered([Client(7)]))
  {
    ReachesEntered(but);
    TriggerLeaves(Entered([Client(7), TRIGGER]).task, Now(0));
    Extends(but, Entered([Client(7), TRIGGER]), Asked(DestroyRequest(ENTER_HANDLE_BEGIN)), Entered([Client(7)]));
  }

  /** A move is next that the program does not survive. */
  predicate PanicsOn(s: System, m: Move) {
    Offered(s, m) && Outcomes(s, m) == Panicked
  }

  /** Destroying a capture does not purge its queued deliveries: the next one
      looks up a handle that is gone, and panics. */
  lemma QueuedDeliveryMayPanic()
    ensures exists moves :: FairRun(NoCondition, moves) && PanicsOn(After(BOOT, moves), DeliverMove(Now(0)))
  {
    var s := Entered([Client(7)]);
    ReachesOrphaned(NoCondition);
    assert 1 in s.task.bind && !ChordHeld(s.task);
    assert Lookup(s.task.captures, ENTER_HANDLE_BEGIN) == None;
    PanicsExactly(s, DeliverMove(Now(0)));
    var _ := ReachedByRun(NoCondition, s);
  }

  // ----- a capture created twice -----

  /** The same request once more, as the service makes it when a monitor appears
      that an active client was already bound to. */
  lemma SecondCreatePanics()
    ensures exists moves :: FairRun(NoCondition, moves) && PanicsOn(After(BOOT, moves), Asked(CreateRequest(7, EDGE, Default)))
  {
    var s := Known([Create(EDGE)], Fresh([SCREEN]), []);
    ReachesCreated(NoCondition);
    OneSubscriber(7);
    PanicsExactly(s, Asked(CreateRequest(7, EDGE, Default)));
    var _ := ReachedByRun(NoCondition, s);
  }

  function Down(captures: seq<Entry>): System {
    BOOT.(task := BOOT.task.(captures := captures))
  }

  lemma TwiceRepeats()
    ensures PanicsOn(Down([Client(7), Client(7)]), Reenable([SCREEN]))
  {
    OneSubscriber(7);
    assert [Client(7), Client(7)][..1] == [Client(7)];
  }

  lemma ReachesListedTwice()
    ensures Reaches(Exclusivity, Down([Client(7), Client(7)]))
  {
    Boots(Exclusivity);
    assert [] + [Client(7)] == [Client(7)];
    Extends(Exclusivity, BOOT, DownMove(CreateRequest(7, EDGE, Default)), Down([Client(7)]));
    assert [Client(7)] + [Client(7)] == [Client(7), Client(7)];
    Extends(Exclusivity, Down([Client(7)]), DownMove(CreateRequest(7, EDGE, Default)), Down([Client(7), Client(7)]));
  }

  /** Between sessions nothing objects; the next session does. */
  lemma ListedTwicePanics()
    ensures exists moves :: FairRun(Exclusivity, moves) && PanicsOn(After(BOOT, moves), Reenable([SCREEN]))
  {
    ReachesListedTwice();
    TwiceRepeats();
    var _ := ReachedByRun(Exclusivity, Down([Client(7), Client(7)]));
  }
}
