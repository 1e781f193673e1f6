/** The capture task as the object whose fields the event loop updates. */
module CaptureLoop {
  import opened Types
  import opened Subscriptions
  import opened Capture

  class CaptureTask {
    var state: State
    var active: Option<Handle>
    var captures: seq<Entry>
    var bind: seq<Scancode>
    var held: set<Scancode>
    var failures: nat
    var crossings: seq<nat>
    var progressAt: nat
    const cfg: Config

    function View(): Task
      reads this
    {
      Task(state, active, captures, bind, held, Watchdog(failures, crossings, progressAt), cfg)
    }

    constructor (bind: seq<Scancode>, cfg: Config, now: nat)
      ensures View() == Task(Idle, None, [], bind, {}, Watchdog(0, [], now), cfg)
    {
      state, active, captures, this.bind, held := Idle, None, [], bind, {};
      failures, crossings, progressAt, this.cfg := 0, [], now, cfg;
    }

    /** `release_capture`. */
    method Release(env: Env) returns (sent: seq<Sent>, calls: seq<ProducerEvent>, outcome: Outcome)
      requires Lists(env.order, held)
      modifies this
      ensures View() == ReleaseCapture(old(View()), env).task
      ensures sent == ReleaseCapture(old(View()), env).sent
      ensures calls == ReleaseCapture(old(View()), env).calls
      ensures outcome == ReleaseCapture(old(View()), env).outcome
    {
      sent, calls, outcome := [], [], Done;
      if state.Idle? && active.None? {
        failures, crossings, progressAt := 0, [], env.now;
        return;
      }
      if state.Pending? {
        calls := [CancelPendingRequest(state.key)];
        state := Idle;
        held, calls := {}, calls + [ProducerEvent.Release];
        failures, crossings, progressAt := 0, [], env.now;
        return sent, calls, Called(env.callOk);
      }
      if active.Some? {
        var h := active.value;
        active := None;
        held := {};
        for i := 0 to |env.order|
          invariant sent == KeyUps(h, env.order)[..i]
        {
          sent := sent + [Forward(h, Key(env.order[i], 0))];
        }
        assert sent == KeyUps(h, env.order);
        sent := sent + [Forward(h, NO_MODIFIERS)];
        sent := sent + [Leave(h)];
        assert sent == Farewell(old(active), env.order);
      }
      state := Idle;
      held, calls := {}, [ProducerEvent.Release];
      failures, crossings, progressAt := 0, [], env.now;
      outcome := Called(env.callOk);
    }

    /** `handle_capture_event`. */
    method OnCaptured(h: Handle, event: CaptureEvent, env: Env)
      returns (sent: seq<Sent>, calls: seq<ProducerEvent>, outcome: Outcome, told: seq<Notice>)
      requires Lists(env.order, held)
      modifies this
      ensures told == Notices(old(View()), h, event)
      ensures View() == HandleCaptureEvent(old(View()), h, event, env).task
      ensures sent == HandleCaptureEvent(old(View()), h, event, env).sent
      ensures calls == HandleCaptureEvent(old(View()), h, event, env).calls
      ensures outcome == HandleCaptureEvent(old(View()), h, event, env).outcome
    {
      sent, calls, outcome, told := [], [], Done, [];
      var pressed := AllPressed(bind, held);
      if pressed {
        sent, calls, outcome := Release(env);
        return;
      }
      var found := Lookup(captures, h);
      if found.None? { return [], [], Panicked, []; }
      var e := found.value;
      if e.kind == EnterOnly {
        if event == Begin || event == BeginPending {
          told := [CaptureBegin(h)];
        }
        if !DefaultAt(captures, e.key) {
          held, calls, outcome := {}, [ProducerEvent.Release], Called(env.callOk);
        }
        return;
      }
      sent, calls, outcome, told := Dispatch(e, event, env);
    }

    /** The dispatch of a client's event. */
    method Dispatch(e: Entry, event: CaptureEvent, env: Env)
      returns (sent: seq<Sent>, calls: seq<ProducerEvent>, outcome: Outcome, told: seq<Notice>)
      modifies this
      ensures View() == OnClientEvent(old(View()), e, event, env).task
      ensures sent == OnClientEvent(old(View()), e, event, env).sent
      ensures calls == OnClientEvent(old(View()), e, event, env).calls
      ensures outcome == OnClientEvent(old(View()), e, event, env).outcome
      ensures told == if event != Begin then [] else [CaptureBegin(e.handle)] + if old(active) == Some(e.handle) then [] else [ClientEntered(e.handle)]
    {
      var h := e.handle;
      sent, calls, outcome, told := [], [], Done, [];
      if event == Begin {
        told := [CaptureBegin(h)];
      }
      match event
      case BeginPending =>
        state := Pending(h, e.key, env.now);
        crossings := crossings + [env.now];
        sent := [Enter(h, e.key.pos.Opposite())];
        if !env.sendOk {
          calls := [CancelPendingRequest(e.key)];
          state := Idle;
          failures := if failures < MAX_U32 then failures + 1 else MAX_U32;
          return;
        }
        failures, progressAt := 0, env.now;
      case CancelPending =>
        calls := [CancelPendingRequest(e.key)];
        if state.Pending? && state.handle == h { state := Idle; }
      case Begin =>
        if active != Some(h) {
          active := Some(h);
          told := told + [ClientEntered(h)];
        }
        if state.Pending? && state.handle == h {
          state, progressAt, failures := Sending, env.now, 0;
        } else {
          state := Sending;
          sent := [Enter(h, e.key.pos.Opposite())];
          outcome, calls := Settle(env);
        }
      case Input(ev) =>
        if state.Sending? {
          sent := [Forward(h, ev)];
          outcome, calls := Settle(env);
        }
    }

    /** After a send: progress, or one more failure and the backend lets go. */
    method Settle(env: Env) returns (outcome: Outcome, calls: seq<ProducerEvent>)
      modifies this`failures, this`progressAt, this`held
      ensures var t := old(View());
              View() == if env.sendOk then t.(dog := Progress(t.dog, env.now)) else t.(dog := Failure(t.dog), held := {})
      ensures calls == (if env.sendOk then [] else [ProducerEvent.Release])
      ensures outcome == if env.sendOk then Done else Called(env.callOk)
    {
      outcome, calls := Done, [];
      if env.sendOk {
        failures, progressAt := 0, env.now;
      } else {
        failures := if failures < MAX_U32 then failures + 1 else MAX_U32;
        held, calls, outcome := {}, [ProducerEvent.Release], Called(env.callOk);
      }
    }

    /** Crossings too old are popped off the front. */
    method DropExpired(now: nat)
      modifies this`crossings
      ensures crossings == Prune(old(crossings), now, cfg.window)
    {
      while crossings != [] && now - crossings[0] > cfg.window
        modifies this`crossings
        invariant Prune(crossings, now, cfg.window) == Prune(old(crossings), now, cfg.window)
        decreases |crossings|
      {
        crossings := crossings[1..];
      }
    }

    /** A release forced by a check; its failure is only logged. */
    method ForceRelease(env: Env) returns (sent: seq<Sent>, calls: seq<ProducerEvent>)
      requires Lists(env.order, held)
      modifies this
      ensures var out := Forced(ReleaseCapture(old(View()), env), Watchdog(0, [], env.now));
              View() == out.task && sent == out.sent && calls == out.calls
    {
      var logged;
      sent, calls, logged := Release(env);
      crossings, progressAt := [], env.now;
    }

    /** `run_watchdog_heavy`. */
    method RunWatchdogHeavy(env: Env) returns (sent: seq<Sent>, calls: seq<ProducerEvent>)
      requires Lists(env.order, held)
      modifies this
      ensures View() == OnHeavyTick(old(View()), env).task
      ensures sent == OnHeavyTick(old(View()), env).sent
      ensures calls == OnHeavyTick(old(View()), env).calls
    {
      sent, calls := [], [];
      if cfg.crossingStorm {
        DropExpired(env.now);
        if |crossings| >= cfg.stormThreshold && state.Idle? && active.None? {
          sent, calls := ForceRelease(env);
          return;
        }
      }
      if cfg.sendFailures && state.Sending? && failures >= cfg.failureThreshold {
        failures := 0;
        sent, calls := ForceRelease(env);
        return;
      }
      if cfg.noProgress && !state.Idle? && env.now - progressAt > cfg.noProgressTimeout {
        sent, calls := ForceRelease(env);
      }
    }

    /** `run_watchdog_light`. */
    method RunWatchdogLight(env: Env) returns (calls: seq<ProducerEvent>)
      modifies this
      ensures View() == OnLightTick(old(View()), env).task
      ensures calls == OnLightTick(old(View()), env).calls
    {
      calls := [];
      if !cfg.ghostActive { return; }
      if state.Sending? && active.None? {
        state := Idle;
        held, calls := {}, [ProducerEvent.Release];
        failures, progressAt := 0, env.now;
      }
    }

    /** The receive arm of the event loop. */
    method OnReceive(h: Handle, m: Message, env: Env)
      returns (sent: seq<Sent>, calls: seq<ProducerEvent>, outcome: Outcome)
      requires Lists(env.order, held)
      modifies this
      ensures View() == OnMessage(old(View()), h, m, env).task
      ensures sent == OnMessage(old(View()), h, m, env).sent
      ensures calls == OnMessage(old(View()), h, m, env).calls
      ensures outcome == OnMessage(old(View()), h, m, env).outcome
    {
      sent, calls, outcome := [], [], Done;
      if active.Some? && h != active.value { return; }
      failures, progressAt := 0, env.now;
      match m
      case Ack =>
        if state.Pending? {
          if state.handle == h {
            if env.startOk {
              calls := [StartCapture(state.key)];
            } else {
              calls := [CancelPendingRequest(state.key)];
              state := Idle;
            }
          }
        } else if active.Some? {
          state := Sending;
        }
      case LeaveMessage =>
        sent, calls, outcome := Release(env);
      case OtherMessage =>
    }

    /** The pending-timeout arm. */
    method OnTick(env: Env) returns (calls: seq<ProducerEvent>)
      modifies this
      ensures View() == OnPendingTick(old(View()), env).task
      ensures calls == OnPendingTick(old(View()), env).calls
    {
      calls := [];
      if state.Pending? && env.now - state.started >= PENDING_ACK_TIMEOUT {
        calls := [CancelPendingRequest(state.key)];
        state := Idle;
      }
    }
  }
}
