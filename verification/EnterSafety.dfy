/** No input goes to a client outside an open Enter. */
module EnterSafety {
  import opened Types
  import opened Subscriptions
  import opened Capture
  import opened MacBackend
  import opened Handshake
  import opened CaptureRuns
  import opened GrabSafety

  /** Every forwarded event lies between an Enter and the next Leave. */
  predicate Inside(log: seq<Sent>) {
    forall i :: 0 <= i < |log| && log[i].Forward? ==> Open(log[..i], log[i].to)
  }

  /** Neither sending nor able to resume sending without a new Begin. */
  predicate Inert(t: Task) {
    t.active.None? && !t.state.Sending?
  }

  predicate OneClientPerBarrier(captures: seq<Entry>) {
    forall c, d :: c in captures && d in captures && c.kind == Default && d.kind == Default && c.key == d.key ==> c.handle == d.handle
  }

  predicate OneClient(handles: seq<Handle>) {
    forall c, d :: c in handles && d in handles && KindOf(c) == Default && KindOf(d) == Default ==> c == d
  }

  /** After a Begin, each client told of it is yet to handle it, is entered, or
      nobody is being sent to. */
  predicate Greeted(s: System) {
    s.lastControl.Some? && s.lastControl.value.1 == Begin ==>
      forall d :: d in s.informed && KindOf(d) == Default ==>
        (d, Begin) in s.queue || Inert(s.task) || Open(s.log, d)
  }

  predicate Orderly(s: System) {
    && OneClientPerBarrier(s.task.captures)
    && OneClient(s.informed)
    && (s.queue != [] && s.polled.Some? && !s.polled.value.1.Input? ==> forall d :: d in s.queue ==> d.0 in s.informed)
    && Greeted(s)
  }

  ghost predicate Courteous(s: System) {
    && Coupled(s) && Orderly(s)
    && Disciplined(s.log) && Engaged(s.task, s.log) && Inside(s.log)
  }

  /** No second client is put on a barrier. */
  predicate Exclusive(s: System, m: Move) {
    && (m.TaskMove? && m.stimulus.Requested? ==> Single(s.task.captures, m.stimulus.request))
    && (m.DownMove? ==> Single(s.task.captures, m.request))
  }

  predicate Single(captures: seq<Entry>, r: Request) {
    r.CreateRequest? && r.kind == Default ==> !DefaultAt(captures, r.key)
  }

  /** No client's Begin is turned into a release that leaves another client
      active because yet another was pending. */
  predicate Undiverted(s: System, m: Move) {
    m.DeliverMove? && Polled(s).queue != [] ==>
      var p := Polled(s);
      p.queue[0].1 == Begin && KindOf(p.queue[0].0) == Default && ChordHeld(p.task) && p.task.active.Some? && p.task.state.Pending? ==>
        p.task.state.handle == p.queue[0].0 || p.task.active == Some(p.queue[0].0)
  }

  /** No input is delivered while sending to a client that is not the active one
      and subscribed after the Begin it belongs to was taken. */
  predicate Subscribed(s: System, m: Move) {
    m.DeliverMove? ==> !Intrudes(Polled(s))
  }

  /** The head of the queue is such an input. */
  predicate Intrudes(p: System) {
    && p.queue != [] && p.queue[0].1.Input? && KindOf(p.queue[0].0) == Default
    && p.task.state.Sending? && !ChordHeld(p.task)
    && p.task.active != Some(p.queue[0].0) && p.queue[0].0 !in p.informed
  }

  /** What the discipline is promised for. */
  predicate Steady(s: System, m: Move) {
    Smooth(s, m) && Exclusive(s, m) && Undiverted(s, m) && Subscribed(s, m)
  }

  // ----- logs -----

  lemma {:induction false} ForwardsInside(log: seq<Sent>, forwards: seq<Sent>, h: Handle)
    requires Inside(log) && Disciplined(log) && Open(log, h)
    requires forall m :: m in forwards ==> m.Forward? && m.to == h
    ensures Inside(log + forwards)
    decreases |forwards|
  {
    if forwards == [] {
      assert log + forwards == log;
    } else {
      var n := |forwards| - 1;
      assert forwards[n] in forwards;
      ForwardsInside(log, forwards[..n], h);
      ForwardsKeepOpen(log, forwards[..n]);
      var init := log + forwards[..n];
      assert log + forwards == init + [forwards[n]];
      assert forall i | 0 <= i < |init| :: (init + [forwards[n]])[..i] == init[..i];
      assert (init + [forwards[n]])[..|init|] == init;
    }
  }

  lemma InsideSnoc(log: seq<Sent>, m: Sent)
    requires Inside(log) && (m.Forward? ==> Open(log, m.to))
    ensures Inside(log + [m])
  {
    assert forall i | 0 <= i < |log| :: (log + [m])[..i] == log[..i];
    assert (log + [m])[..|log|] == log;
  }

  lemma FarewellInside(log: seq<Sent>, h: Handle, order: seq<Scancode>)
    requires Inside(log) && Disciplined(log) && Open(log, h)
    ensures Inside(log + Farewell(Some(h), order))
  {
    var forwards := KeyUps(h, order) + [Forward(h, NO_MODIFIERS)];
    ForwardsInside(log, forwards, h);
    InsideSnoc(log + forwards, Leave(h));
    assert log + Farewell(Some(h), order) == log + forwards + [Leave(h)];
  }

  /** What any output does to the log and to who is open, given `Engages`. */
  lemma OutputKeepsLog(t: Task, out: Out, order: seq<Scancode>, log: seq<Sent>)
    requires Disciplined(log) && Engaged(t, log) && Inside(log) && Engages(t, out, order)
    requires |out.sent| == 1 && out.sent[0].Forward? ==> Open(log, out.sent[0].to)
    ensures Disciplined(log + out.sent) && Engaged(out.task, log + out.sent) && Inside(log + out.sent)
  {
    EngagesKeepsEngaged(t, out, order, log);
    if out.sent == [] {
      assert log + out.sent == log;
    } else if |out.sent| == 1 && !out.sent[0].Leave? {
      InsideSnoc(log, out.sent[0]);
      assert log + out.sent == log + [out.sent[0]];
    } else {
      FarewellInside(log, t.active.value, order);
    }
  }

  /** Nobody is closed, except by a farewell that leaves the task inert. */
  lemma OutputKeepsOpen(t: Task, out: Out, order: seq<Scancode>, log: seq<Sent>, d: Handle)
    requires Disciplined(log) && Engaged(t, log) && Engages(t, out, order) && Open(log, d)
    requires t.active.Some? && out.sent == Farewell(t.active, order) ==> Inert(out.task)
    ensures Open(log + out.sent, d) || Inert(out.task)
  {
    if out.sent == [] {
      assert log + out.sent == log;
    } else if |out.sent| == 1 && !out.sent[0].Leave? {
      assert log + out.sent == log + [out.sent[0]];
      assert (log + [out.sent[0]])[..|log|] == log;
    }
  }

  // ----- the task -----

  /** Only a Begin wakes an inert task, and a farewell leaves it inert. */
  lemma ArmStaysInert(t: Task, s: Stimulus, env: Env)
    ensures Inert(t) && !(s.Captured? && s.event == Begin) ==> Inert(Arm(t, s, env).task)
    ensures t.active.Some? && Arm(t, s, env).sent == Farewell(t.active, env.order) ==> Inert(Arm(t, s, env).task)
  {
  }

  /** Only a client's captured input is forwarded, and only while sending. */
  lemma ForwardsAreInputs(t: Task, s: Stimulus, env: Env)
    requires WellKinded(t.captures)
    ensures var sent := Arm(t, s, env).sent;
            |sent| == 1 && sent[0].Forward? ==>
              s.Captured? && s.event.Input? && sent[0].to == s.handle && KindOf(s.handle) == Default && t.state.Sending?
  {
  }

  lemma ArmKeepsOneClient(t: Task, s: Stimulus, env: Env)
    requires OneClientPerBarrier(t.captures)
    requires s.Requested? ==> Single(t.captures, s.request)
    ensures OneClientPerBarrier(Arm(t, s, env).task.captures)
  {
    if s.Requested? && s.request.DestroyRequest? {
      RemoveKeepsKinds(t.captures, s.request.handle);
    }
  }

  /** Any arm but the handling of a Begin keeps clients greeted. */
  lemma ArmKeepsCourteous(s: System, stimulus: Stimulus, env: Env)
    requires Orderly(s) && WellKinded(s.task.captures)
    requires Disciplined(s.log) && Engaged(s.task, s.log) && Inside(s.log)
    requires !(stimulus.Captured? && stimulus.event == Begin)
    requires stimulus.Requested? ==> Single(s.task.captures, stimulus.request)
    requires stimulus.Captured? && stimulus.event.Input? && s.task.state.Sending? && !ChordHeld(s.task) && KindOf(stimulus.handle) == Default ==> Open(s.log, stimulus.handle)
    ensures var s' := Commit(s, Arm(s.task, stimulus, env));
            Orderly(s') && Disciplined(s'.log) && Engaged(s'.task, s'.log) && Inside(s'.log)
  {
    var out := Arm(s.task, stimulus, env);
    ArmEngages(s.task, stimulus, env);
    ArmStaysInert(s.task, stimulus, env);
    ForwardsAreInputs(s.task, stimulus, env);
    ArmKeepsOneClient(s.task, stimulus, env);
    OutputKeepsLog(s.task, out, env.order, s.log);
    forall d | d in s.informed && Open(s.log, d)
      ensures Open(s.log + out.sent, d) || Inert(out.task)
    {
      OutputKeepsOpen(s.task, out, env.order, s.log, d);
    }
  }

  // ----- deliveries -----

  lemma TakingKeepsOrderly(s: System)
    requires Orderly(s) && WellKinded(s.task.captures) && s.queue == [] && s.events != []
    ensures Orderly(Taking(s))
  {
    var (k, e) := s.events[0];
    var regs := Regs(s.task.captures);
    var subs := Subscribers(regs, k);
    var p := Taking(s);
    if !e.Input? {
      SubscribersMembers(regs, k);
      forall c, d | c in subs && d in subs && KindOf(c) == Default && KindOf(d) == Default ensures c == d {
        var i :| 0 <= i < |regs| && regs[i] == Registration(c, k);
        var j :| 0 <= j < |regs| && regs[j] == Registration(d, k);
        assert s.task.captures[i] in s.task.captures && s.task.captures[j] in s.task.captures;
      }
      forall d | d in subs ensures (d, e) in p.queue {
        var i :| 0 <= i < |subs| && subs[i] == d;
        assert p.queue[i] == (d, e);
      }
    }
  }

  /** Handling a Begin without the release bind held: a trigger changes nothing
      here, and a client is entered. */
  lemma BeginGreets(t: Task, h: Handle, env: Env)
    requires WellKinded(t.captures) && !ChordHeld(t)
    ensures var out := Arm(t, Captured(h, Begin), env);
            if KindOf(h) == Default && out.outcome != Panicked then out.task.active == Some(h)
            else out.sent == [] && out.task.state == t.state && out.task.active == t.active
    ensures Arm(t, Captured(h, Begin), env).task.captures == t.captures
    ensures !(|Arm(t, Captured(h, Begin), env).sent| == 1 && Arm(t, Captured(h, Begin), env).sent[0].Forward?)
  {
  }

  lemma BeginKeepsCourteous(p: System, env: Env)
    requires Orderly(p) && WellKinded(p.task.captures) && Informed(p)
    requires Disciplined(p.log) && Engaged(p.task, p.log) && Inside(p.log)
    requires p.queue != [] && p.queue[0].1 == Begin && !ChordHeld(p.task)
    requires HandleCaptureEvent(p.task, p.queue[0].0, Begin, env).outcome != Panicked
    ensures var s' := Commit(p.(queue := p.queue[1..]), HandleCaptureEvent(p.task, p.queue[0].0, Begin, env));
            Orderly(s') && Disciplined(s'.log) && Engaged(s'.task, s'.log) && Inside(s'.log)
  {
    var h := p.queue[0].0;
    var out := Arm(p.task, Captured(h, Begin), env);
    assert p.queue[0] in p.queue && p.queue == [p.queue[0]] + p.queue[1..];
    ArmEngages(p.task, Captured(h, Begin), env);
    BeginGreets(p.task, h, env);
    OutputKeepsLog(p.task, out, env.order, p.log);
    if KindOf(h) == EnterOnly {
      assert p.log + out.sent == p.log;
    }
  }

  /** With the bind held the Begin releases instead, which leaves nobody being
      sent to, or one client pending that was entered. */
  lemma ChordedBeginKeepsCourteous(p: System, env: Env)
    requires Orderly(p) && WellKinded(p.task.captures) && Informed(p)
    requires Disciplined(p.log) && Engaged(p.task, p.log) && Inside(p.log)
    requires p.queue != [] && p.queue[0].1 == Begin && ChordHeld(p.task)
    requires KindOf(p.queue[0].0) == Default && p.task.active.Some? && p.task.state.Pending? ==>
               p.task.state.handle == p.queue[0].0 || p.task.active == Some(p.queue[0].0)
    ensures var s' := Commit(p.(queue := p.queue[1..]), HandleCaptureEvent(p.task, p.queue[0].0, Begin, env));
            Orderly(s') && Disciplined(s'.log) && Engaged(s'.task, s'.log) && Inside(s'.log)
  {
    var h := p.queue[0].0;
    var out := HandleCaptureEvent(p.task, h, Begin, env);
    assert p.queue[0] in p.queue && p.queue == [p.queue[0]] + p.queue[1..];
    EventEngages(p.task, h, Begin, env);
    assert out == ReleaseCapture(p.task, env);
    OutputKeepsLog(p.task, out, env.order, p.log);
    if !Inert(out.task) {
      assert p.task.state.Pending? && p.task.active.Some? && out.sent == [];
      assert p.log + out.sent == p.log;
    }
  }

  lemma DeliverKeepsCourteous(s: System, env: Env)
    requires Courteous(s) && Allowed(s, DeliverMove(env)) && Steady(s, DeliverMove(env))
    ensures Courteous(Deliver(s, env))
  {
    DeliverKeepsCoupled(s, env);
    var p := Polled(s);
    if p.queue != [] { EventPanicsExactly(p.task, p.queue[0].0, p.queue[0].1, env); }
    if s.queue == [] && s.events != [] {
      TakingKeepsOrderly(s);
      TakingKeepsCoupled(s);
    }
    if p.queue != [] {
      var (h, e) := p.queue[0];
      assert p.queue[0] in p.queue;
      if e == Begin {
        if ChordHeld(p.task) { ChordedBeginKeepsCourteous(p, env); } else { BeginKeepsCourteous(p, env); }
      } else {
        var q := p.(queue := p.queue[1..]);
        OtherDeliveryIsOrderly(p);
        ArmKeepsCourteous(q, Captured(h, e), env);
      }
    }
  }

  /** Dropping the head of the queue when it is not a Begin, and why an input
      delivered in Sending finds its client entered. */
  lemma OtherDeliveryIsOrderly(p: System)
    requires Orderly(p) && Informed(p) && p.queue != [] && p.queue[0].1 != Begin
    ensures Orderly(p.(queue := p.queue[1..]))
    ensures p.queue[0].1.Input? && p.queue[0].0 in p.informed && p.task.state.Sending? && KindOf(p.queue[0].0) == Default ==>
              Open(p.log, p.queue[0].0)
  {
    assert p.queue[0] in p.queue && p.queue == [p.queue[0]] + p.queue[1..];
  }

  // ----- whole runs -----

  lemma MoveKeepsCourteous(s: System, m: Move)
    requires Courteous(s) && Allowed(s, m) && Steady(s, m)
    ensures Courteous(Perform(s, m))
  {
    MoveKeepsCoupled(s, m);
    match m
    case DeliverMove(env) => DeliverKeepsCourteous(s, env);
    case TaskMove(stimulus, env) => ArmKeepsCourteous(s, stimulus, env);
    case DownMove(r) =>
      if r.DestroyRequest? { RemoveKeepsKinds(s.task.captures, r.handle); }
    case _ =>
  }

  predicate AllSteady(start: System, moves: seq<Move>) {
    forall i :: 0 <= i < |moves| ==> Steady(After(start, moves[..i]), moves[i])
  }

  lemma SteadyPrefix(start: System, moves: seq<Move>)
    requires moves != [] && AllAllowed(start, moves) && AllSteady(start, moves)
    ensures AllAllowed(start, moves[..|moves| - 1]) && AllSteady(start, moves[..|moves| - 1])
    ensures var s := After(start, moves[..|moves| - 1]);
            Allowed(s, moves[|moves| - 1]) && Steady(s, moves[|moves| - 1])
  {
    var n := |moves| - 1;
    forall i | 0 <= i < n
      ensures Allowed(After(start, moves[..n][..i]), moves[..n][i]) && Steady(After(start, moves[..n][..i]), moves[..n][i])
    {
      assert moves[..n][..i] == moves[..i];
    }
  }

  lemma {:induction false} CourteousEver(start: System, moves: seq<Move>)
    requires Courteous(start) && AllAllowed(start, moves) && AllSteady(start, moves)
    ensures Courteous(After(start, moves))
    decreases |moves|
  {
    if moves != [] {
      SteadyPrefix(start, moves);
      CourteousEver(start, moves[..|moves| - 1]);
      MoveKeepsCourteous(After(start, moves[..|moves| - 1]), moves[|moves| - 1]);
    }
  }

  /** In every run of the whole system no event is forwarded to a client outside
      an open Enter, and every Leave closes one. */
  lemma InputsInsideEnter(bind: seq<Scancode>, cfg: Config, now: nat, moves: seq<Move>)
    requires AllAllowed(Boot(bind, cfg, now), moves) && AllSteady(Boot(bind, cfg, now), moves)
    ensures Inside(After(Boot(bind, cfg, now), moves).log)
    ensures Disciplined(After(Boot(bind, cfg, now), moves).log)
  {
    BootIsSound(bind, cfg, now);
    CourteousEver(Boot(bind, cfg, now), moves);
  }

  // ----- exactly when it fails -----

  lemma EventOutside(t: Task, log: seq<Sent>, h: Handle, e: CaptureEvent, env: Env)
    requires WellKinded(t.captures) && Disciplined(log) && Engaged(t, log) && Inside(log)
    requires HandleCaptureEvent(t, h, e, env).outcome != Panicked
    ensures Inside(log + HandleCaptureEvent(t, h, e, env).sent) <==>
            (e.Input? && KindOf(h) == Default && t.state.Sending? && !ChordHeld(t) ==> Open(log, h))
  {
    var out := HandleCaptureEvent(t, h, e, env);
    if e.Input? && KindOf(h) == Default && t.state.Sending? && !ChordHeld(t) && !Open(log, h) {
      assert out.sent == [Forward(h, e.event)];
      var log' := log + out.sent;
      assert log'[|log|] == Forward(h, e.event) && log'[..|log|] == log;
    } else {
      EventEngages(t, h, e, env);
      ForwardsAreInputs(t, Captured(h, e), env);
      ChordForwardsNothing(t, h, e, env);
      OutputKeepsLog(t, out, env.order, log);
    }
  }

  lemma ChordForwardsNothing(t: Task, h: Handle, e: CaptureEvent, env: Env)
    ensures var sent := HandleCaptureEvent(t, h, e, env).sent;
            ChordHeld(t) ==> !(|sent| == 1 && sent[0].Forward?)
  {
  }

  /** A delivery that is no intrusion never forwards outside an Enter; one that
      is does exactly when its client has not been entered, or left since. */
  lemma OutsideExactly(s: System, env: Env)
    requires Courteous(s) && Allowed(s, DeliverMove(env))
    ensures !Intrudes(Polled(s)) ==> Inside(Deliver(s, env).log)
    ensures Intrudes(Polled(s)) ==> (Inside(Deliver(s, env).log) <==> Open(s.log, Polled(s).queue[0].0))
  {
    var p := Polled(s);
    if s.queue == [] && s.events != [] {
      TakingKeepsOrderly(s);
      TakingKeepsCoupled(s);
    }
    if p.queue != [] {
      var (h, e) := p.queue[0];
      assert p.queue[0] in p.queue;
      EventPanicsExactly(p.task, h, e, env);
      EventOutside(p.task, p.log, h, e, env);
      if e.Input? { OtherDeliveryIsOrderly(p); }
    }
  }
}
