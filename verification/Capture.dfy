/** `CaptureTask`: the controlling side's state machine. Every arm of its event
    loop is a function from the task and what the arm awaited to the new task
    and the messages, backend calls and outcome it produced. */
module Capture {
  import opened Types
  import opened Subscriptions

  // All times are milliseconds.
  const PENDING_ACK_TIMEOUT: nat := 500
  const PENDING_TICK_INTERVAL: nat := 100
  const WATCHDOG_HEAVY_INTERVAL: nat := 3000
  const MAX_U32: nat := 0xffff_ffff

  datatype Config = Config(
    ghostActive: bool,
    crossingStorm: bool,
    sendFailures: bool,
    noProgress: bool,
    window: nat,
    stormThreshold: nat,
    failureThreshold: nat,
    noProgressTimeout: nat)

  const DEFAULT_CONFIG := Config(true, true, true, true, 5000, 5, 3, 8000)

  datatype Kind = Default | EnterOnly

  datatype Entry = Entry(handle: Handle, key: BarrierKey, kind: Kind)

  datatype State = Idle | Pending(handle: Handle, key: BarrierKey, started: nat) | Sending

  datatype Watchdog = Watchdog(failures: nat, crossings: seq<nat>, progressAt: nat)

  /** The task together with the held keys of its `InputCapture`. */
  datatype Task = Task(
    state: State,
    active: Option<Handle>,
    captures: seq<Entry>,
    bind: seq<Scancode>,
    held: set<Scancode>,
    dog: Watchdog,
    cfg: Config)

  /** A message the task tried to send. Key-ups and modifiers are forwards. */
  datatype Sent = Enter(to: Handle, side: Position) | Leave(to: Handle) | Forward(to: Handle, event: Event)

  /** What the outside decides while one arm runs: the time, whether sends and
      backend calls succeed, and the order in which a hash set of keys drains. */
  datatype Env = Env(now: nat, sendOk: bool, callOk: bool, startOk: bool, order: seq<Scancode>)

  /** `Failed` ends the capture session, `Panicked` the task. */
  datatype Outcome = Done | Failed | Panicked

  /** Instants the watchdog counts from. */
  datatype Mark = Crossing | Reset

  datatype Out = Out(task: Task, sent: seq<Sent>, calls: seq<ProducerEvent>, mark: Option<Mark>, outcome: Outcome)

  datatype Message = Ack | LeaveMessage | OtherMessage

  datatype Request =
    | ReleaseRequest
    | CreateRequest(handle: Handle, key: BarrierKey, kind: Kind)
    | DestroyRequest(handle: Handle)
    | SetReleaseBind(bind: seq<Scancode>)
    | OtherRequest

  // ----- small pieces -----

  function Quiet(t: Task): Out { Out(t, [], [], None, Done) }

  function Panic(t: Task): Out { Out(t, [], [], None, Panicked) }

  function Called(ok: bool): Outcome { if ok then Done else Failed }

  function Progress(d: Watchdog, now: nat): Watchdog { d.(failures := 0, progressAt := now) }

  function Failure(d: Watchdog): Watchdog {
    d.(failures := if d.failures < MAX_U32 then d.failures + 1 else MAX_U32)
  }

  function Regs(captures: seq<Entry>): (regs: seq<Registration>)
    ensures |regs| == |captures|
    ensures forall i :: 0 <= i < |regs| ==> regs[i] == Registration(captures[i].handle, captures[i].key)
  {
    seq(|captures|, i requires 0 <= i < |captures| => Registration(captures[i].handle, captures[i].key))
  }

  function Lookup(captures: seq<Entry>, h: Handle): (e: Option<Entry>)
    ensures e.Some? ==> e.value in captures && e.value.handle == h
    ensures e.None? ==> forall c :: c in captures ==> c.handle != h
  {
    if captures == [] then None
    else if captures[0].handle == h then Some(captures[0])
    else Lookup(captures[1..], h)
  }

  function RemoveCapture(captures: seq<Entry>, h: Handle): seq<Entry> {
    if captures == [] then []
    else
      var rest := RemoveCapture(captures[..|captures| - 1], h);
      if captures[|captures| - 1].handle == h then rest else rest + [captures[|captures| - 1]]
  }

  predicate DefaultAt(captures: seq<Entry>, k: BarrierKey) {
    exists c :: c in captures && c.key == k && c.kind == Default
  }

  /** The release bind is held: true also of an empty bind. */
  predicate ChordHeld(t: Task) {
    forall k :: k in t.bind ==> k in t.held
  }

  const NO_MODIFIERS := Modifiers(0, 0, 0, 0)

  function KeyUps(to: Handle, order: seq<Scancode>): (ups: seq<Sent>)
    ensures |ups| == |order|
    ensures forall i :: 0 <= i < |ups| ==> ups[i] == Forward(to, Key(order[i], 0))
  {
    seq(|order|, i requires 0 <= i < |order| => Forward(to, Key(order[i], 0)))
  }

  /** What a released client is told. */
  function Farewell(active: Option<Handle>, order: seq<Scancode>): seq<Sent> {
    if active.None? then []
    else KeyUps(active.value, order) + [Forward(active.value, NO_MODIFIERS), Leave(active.value)]
  }

  // ----- release -----

  predicate SkipsRelease(t: Task) {
    t.state.Idle? && t.active.None?
  }

  function ReleaseCapture(t: Task, env: Env): Out {
    var dog := Watchdog(0, [], env.now);
    if SkipsRelease(t) then Out(t.(dog := dog), [], [], Some(Reset), Done)
    else if t.state.Pending? then
      Out(t.(state := Idle, held := {}, dog := dog), [], [CancelPendingRequest(t.state.key), Release], Some(Reset), Called(env.callOk))
    else
      Out(t.(state := Idle, active := None, held := {}, dog := dog), Farewell(t.active, env.order), [Release], Some(Reset), Called(env.callOk))
  }

  /** `capture.release()` alone: the backend lets go, the task keeps its state. */
  function Drop(t: Task, sent: seq<Sent>, env: Env): Out {
    Out(t.(held := {}), sent, [Release], None, Called(env.callOk))
  }

  // ----- capture events -----

  function OnEnterOnly(t: Task, e: Entry, env: Env): Out {
    if DefaultAt(t.captures, e.key) then Quiet(t) else Drop(t, [], env)
  }

  function OnBeginPending(t: Task, e: Entry, env: Env): Out {
    var dog := t.dog.(crossings := t.dog.crossings + [env.now]);
    var sent := [Enter(e.handle, e.key.pos.Opposite())];
    if env.sendOk then
      Out(t.(state := Pending(e.handle, e.key, env.now), dog := Progress(dog, env.now)), sent, [], Some(Crossing), Done)
    else
      Out(t.(state := Idle, dog := Failure(dog)), sent, [CancelPendingRequest(e.key)], Some(Crossing), Done)
  }

  function OnCancelPending(t: Task, e: Entry): Out {
    Out(if t.state.Pending? && t.state.handle == e.handle then t.(state := Idle) else t,
        [], [CancelPendingRequest(e.key)], None, Done)
  }

  function OnBegin(t: Task, e: Entry, env: Env): Out {
    var t' := t.(state := Sending, active := Some(e.handle));
    if t.state.Pending? && t.state.handle == e.handle then
      Quiet(t'.(dog := Progress(t.dog, env.now)))
    else
      var sent := [Enter(e.handle, e.key.pos.Opposite())];
      if env.sendOk then Out(t'.(dog := Progress(t.dog, env.now)), sent, [], None, Done)
      else Drop(t'.(dog := Failure(t.dog)), sent, env)
  }

  function OnInput(t: Task, h: Handle, event: Event, env: Env): Out {
    if !t.state.Sending? then Quiet(t)
    else if env.sendOk then Out(t.(dog := Progress(t.dog, env.now)), [Forward(h, event)], [], None, Done)
    else Drop(t.(dog := Failure(t.dog)), [Forward(h, event)], env)
  }

  function OnClientEvent(t: Task, e: Entry, event: CaptureEvent, env: Env): Out {
    match event
    case BeginPending => OnBeginPending(t, e, env)
    case CancelPending => OnCancelPending(t, e)
    case Begin => OnBegin(t, e, env)
    case Input(ev) => OnInput(t, e.handle, ev, env)
  }

  function HandleCaptureEvent(t: Task, h: Handle, event: CaptureEvent, env: Env): Out {
    if ChordHeld(t) then ReleaseCapture(t, env)
    else
      match Lookup(t.captures, h)
      case None => Panic(t)
      case Some(e) => if e.kind == EnterOnly then OnEnterOnly(t, e, env) else OnClientEvent(t, e, event, env)
  }

  /** What the service is told meanwhile. */
  datatype Notice = CaptureBegin(handle: Handle) | ClientEntered(handle: Handle)

  /** A trigger reports both kinds of crossing, a client only its Begin; and a
      client that was not active before is announced as entered. */
  function Notices(t: Task, h: Handle, event: CaptureEvent): seq<Notice> {
    if ChordHeld(t) then []
    else
      match Lookup(t.captures, h)
      case None => []
      case Some(e) =>
        if e.kind == EnterOnly then if event == Begin || event == BeginPending then [CaptureBegin(h)] else []
        else if event != Begin then []
        else if t.active == Some(h) then [CaptureBegin(h)]
        else [CaptureBegin(h), ClientEntered(h)]
  }

  // ----- messages from peers -----

  function OnAck(t: Task, h: Handle, env: Env): Out {
    if t.state.Pending? then
      if t.state.handle != h then Quiet(t)
      else if env.startOk then Out(t, [], [StartCapture(t.state.key)], None, Done)
      else Out(t.(state := Idle), [], [CancelPendingRequest(t.state.key)], None, Done)
    else if t.active.Some? then Quiet(t.(state := Sending))
    else Quiet(t)
  }

  function OnMessage(t: Task, h: Handle, m: Message, env: Env): Out {
    if t.active.Some? && t.active.value != h then Quiet(t)
    else
      var t' := t.(dog := Progress(t.dog, env.now));
      match m
      case Ack => OnAck(t', h, env)
      case LeaveMessage => ReleaseCapture(t', env)
      case OtherMessage => Quiet(t')
  }

  // ----- requests -----

  function OnCreate(t: Task, e: Entry, env: Env): Out {
    if Lookup(t.captures, e.handle).Some? then Panic(t)
    else
      var calls := CreateCalls(Regs(t.captures), e.key);
      Out(t.(captures := t.captures + [e]), [], calls, None, Called(calls == [] || env.callOk))
  }

  function OnDestroy(t: Task, h: Handle, env: Env): Out {
    match Lookup(t.captures, h)
    case None => Panic(t)
    case Some(e) =>
      var calls := DestroyCalls(Regs(t.captures), h, e.key);
      Out(t.(captures := RemoveCapture(t.captures, h)), [], calls, None, Called(calls == [] || env.callOk))
  }

  function OnRequest(t: Task, r: Request, env: Env): Out {
    match r
    case ReleaseRequest => ReleaseCapture(t, env)
    case CreateRequest(h, k, kind) => OnCreate(t, Entry(h, k, kind), env)
    case DestroyRequest(h) => OnDestroy(t, h, env)
    case SetReleaseBind(bind) => Quiet(t.(bind := bind))
    case OtherRequest => Quiet(t)
  }

  /** Requests handled between two sessions. */
  function OnRequestWhileDown(t: Task, r: Request): Task {
    match r
    case CreateRequest(h, k, kind) => t.(captures := t.captures + [Entry(h, k, kind)])
    case DestroyRequest(h) => t.(captures := RemoveCapture(t.captures, h))
    case SetReleaseBind(bind) => t.(bind := bind)
    case _ => t
  }

  /** A new session: its `InputCapture` has seen no key yet. */
  function Restarted(t: Task): Task {
    t.(held := {})
  }

  // ----- timers and peer loss -----

  function OnPendingTick(t: Task, env: Env): Out {
    if t.state.Pending? && env.now - t.state.started >= PENDING_ACK_TIMEOUT then
      Out(t.(state := Idle), [], [CancelPendingRequest(t.state.key)], None, Done)
    else Quiet(t)
  }

  function OnLightTick(t: Task, env: Env): Out {
    if t.cfg.ghostActive && t.state.Sending? && t.active.None? then
      Out(t.(state := Idle, held := {}, dog := Progress(t.dog, env.now)), [], [Release], None, Done)
    else Quiet(t)
  }

  /** Crossings left after popping the front while it is too old. */
  function Prune(crossings: seq<nat>, now: nat, window: nat): seq<nat> {
    if crossings != [] && now - crossings[0] > window then Prune(crossings[1..], now, window) else crossings
  }

  predicate StormTriggers(t: Task) {
    |t.dog.crossings| >= t.cfg.stormThreshold && t.state.Idle? && t.active.None?
  }

  predicate FailuresTrigger(t: Task) {
    t.state.Sending? && t.dog.failures >= t.cfg.failureThreshold
  }

  predicate NoProgressTriggers(t: Task, now: nat) {
    !t.state.Idle? && now - t.dog.progressAt > t.cfg.noProgressTimeout
  }

  /** A release forced by the heavy tick: errors are only logged. */
  function Forced(o: Out, dog: Watchdog): Out {
    o.(task := o.task.(dog := dog), outcome := Done)
  }

  function OnHeavyTick(t: Task, env: Env): Out {
    var p := if t.cfg.crossingStorm then t.(dog := t.dog.(crossings := Prune(t.dog.crossings, env.now, t.cfg.window))) else t;
    if t.cfg.crossingStorm && StormTriggers(p) then
      Forced(ReleaseCapture(p, env), Watchdog(0, [], env.now))
    else if t.cfg.sendFailures && FailuresTrigger(p) then
      Forced(ReleaseCapture(p.(dog := p.dog.(failures := 0)), env), Watchdog(0, [], env.now))
    else if t.cfg.noProgress && NoProgressTriggers(p, env.now) then
      Forced(ReleaseCapture(p, env), Watchdog(0, [], env.now))
    else Quiet(p)
  }

  /** `None`: the channel of lost peers was closed. */
  function OnPeerLost(t: Task, lost: Option<Handle>, env: Env): Out {
    if t.active.Some? && (lost.None? || lost == t.active) then ReleaseCapture(t, env) else Quiet(t)
  }

  // ----- the whole event loop -----

  datatype Stimulus =
    | Captured(handle: Handle, event: CaptureEvent)
    | FromPeer(peer: Handle, message: Message)
    | Requested(request: Request)
    | PendingTick
    | LightTick
    | HeavyTick
    | PeerLost(lost: Option<Handle>)

  function Arm(t: Task, s: Stimulus, env: Env): Out {
    match s
    case Captured(h, e) => HandleCaptureEvent(t, h, e, env)
    case FromPeer(h, m) => OnMessage(t, h, m, env)
    case Requested(r) => OnRequest(t, r, env)
    case PendingTick => OnPendingTick(t, env)
    case LightTick => OnLightTick(t, env)
    case HeavyTick => OnHeavyTick(t, env)
    case PeerLost(h) => OnPeerLost(t, h, env)
  }
}
