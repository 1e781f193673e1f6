/** A grab does not last without progress: what the task guarantees over time,
    carried over to the whole system. */
module GrabBound {
  import opened Types
  import opened Capture
  import opened MacBackend
  import opened Handshake
  import opened CaptureRuns
  import opened GrabSafety

  // ----- every run of the system is a run of its task -----

  function Turning(s: System, m: Move): seq<Turn> {
    match m
    case TapMove(_) => []
    case ProduceMove(_) => []
    case DeliverMove(env) => Polling(s) + Handling(Polled(s), env)
    case TaskMove(stimulus, env) => [InSession(stimulus, env)]
    case EndSession => []
    case DownMove(r) => [WhileDown(r)]
    case Reenable(_) => [Restart]
    case ReconfigureMove(_) => []
  }

  function Polling(s: System): seq<Turn> {
    if s.queue == [] && s.events != [] then [Passing(s.events[0].1)] else []
  }

  function Handling(p: System, env: Env): seq<Turn> {
    if p.queue == [] then [] else [InSession(Captured(p.queue[0].0, p.queue[0].1), env)]
  }

  function Follow(start: System, moves: seq<Move>): seq<Turn> {
    if moves == [] then []
    else
      var n := |moves| - 1;
      Follow(start, moves[..n]) + Turning(After(start, moves[..n]), moves[n])
  }

  lemma ExecuteSnoc(start: Run, turns: seq<Turn>, more: seq<Turn>)
    requires |more| <= 1
    ensures Execute(start, turns + more) == if more == [] then Execute(start, turns) else Take(Execute(start, turns), more[0])
  {
    if more == [] {
      assert turns + more == turns;
    } else {
      assert (turns + more)[..|turns|] == turns;
    }
  }

  /** The task and its sends, as far as the system knows them. */
  predicate Mirrors(r: Run, s: System) {
    r.task == s.task && r.log == s.log
  }

  lemma CommitMirrors(r: Run, s: System, stimulus: Stimulus, env: Env, out: Out)
    requires Mirrors(r, s) && out == Arm(r.task, stimulus, env)
    ensures Mirrors(Take(r, InSession(stimulus, env)), Commit(s, out))
  {
  }

  lemma PolledMirrors(r: Run, s: System)
    requires Mirrors(r, s)
    ensures Mirrors(if Polling(s) == [] then r else Take(r, Polling(s)[0]), Polled(s))
  {
  }

  lemma HandledMirrors(r: Run, p: System, env: Env)
    requires Mirrors(r, p) && p.queue != []
    ensures Mirrors(Take(r, Handling(p, env)[0]),
                    Commit(p.(queue := p.queue[1..]), HandleCaptureEvent(p.task, p.queue[0].0, p.queue[0].1, env)))
  {
    var (h, e) := p.queue[0];
    CommitMirrors(r, p.(queue := p.queue[1..]), Captured(h, e), env, Arm(r.task, Captured(h, e), env));
  }

  lemma AfterPolling(start: Run, turns: seq<Turn>, s: System)
    requires Mirrors(Execute(start, turns), s)
    ensures Mirrors(Execute(start, turns + Polling(s)), Polled(s))
  {
    ExecuteSnoc(start, turns, Polling(s));
    PolledMirrors(Execute(start, turns), s);
  }

  lemma AfterHandling(start: Run, turns: seq<Turn>, p: System, env: Env)
    requires Mirrors(Execute(start, turns), p) && p.queue != []
    ensures Mirrors(Execute(start, turns + Handling(p, env)),
                    Commit(p.(queue := p.queue[1..]), HandleCaptureEvent(p.task, p.queue[0].0, p.queue[0].1, env)))
  {
    ExecuteSnoc(start, turns, Handling(p, env));
    HandledMirrors(Execute(start, turns), p, env);
  }

  lemma DeliverMirrors(start: Run, turns: seq<Turn>, s: System, env: Env)
    requires Mirrors(Execute(start, turns), s)
    ensures Mirrors(Execute(start, turns + Turning(s, DeliverMove(env))), Deliver(s, env))
  {
    var p := Polled(s);
    AfterPolling(start, turns, s);
    if p.queue == [] {
      assert turns + Turning(s, DeliverMove(env)) == turns + Polling(s);
    } else {
      AfterHandling(start, turns + Polling(s), p, env);
      assert turns + Turning(s, DeliverMove(env)) == turns + Polling(s) + Handling(p, env);
    }
  }

  lemma {:induction false} SystemMirrorsTask(bind: seq<Scancode>, cfg: Config, now: nat, moves: seq<Move>)
    ensures Mirrors(Execute(Start(bind, cfg, now), Follow(Boot(bind, cfg, now), moves)), After(Boot(bind, cfg, now), moves))
    decreases |moves|
  {
    if moves != [] {
      var n, start, boot := |moves| - 1, Start(bind, cfg, now), Boot(bind, cfg, now);
      SystemMirrorsTask(bind, cfg, now, moves[..n]);
      MoveMirrors(start, Follow(boot, moves[..n]), After(boot, moves[..n]), moves[n]);
    }
  }

  lemma TurnMirrors(r: Run, s: System, m: Move)
    requires Mirrors(r, s) && !m.DeliverMove?
    ensures Mirrors(if Turning(s, m) == [] then r else Take(r, Turning(s, m)[0]), Perform(s, m))
  {
    if m.TaskMove? { CommitMirrors(r, s, m.stimulus, m.env, Arm(s.task, m.stimulus, m.env)); }
  }

  lemma MoveMirrors(start: Run, turns: seq<Turn>, s: System, m: Move)
    requires Mirrors(Execute(start, turns), s)
    ensures Mirrors(Execute(start, turns + Turning(s, m)), Perform(s, m))
  {
    if m.DeliverMove? {
      DeliverMirrors(start, turns, s, m.env);
    } else {
      ExecuteSnoc(start, turns, Turning(s, m));
      TurnMirrors(Execute(start, turns), s, m);
    }
  }

  // ----- the bound -----

  predicate Drained(s: System) {
    s.queue == [] && s.events == [] && s.notify == []
  }

  /** While both queues are drained, the latest heavy tick is at most 3 s old and
      the check is on, a grab has a task that is sending, and that task has made
      progress within the no-progress timeout plus 3 s, or begun within 3 s: after
      that the grab has been released, or the release is on its way. */
  lemma GrabIsBounded(bind: seq<Scancode>, cfg: Config, now: nat, moves: seq<Move>, at: nat)
    requires Happens(Boot(bind, cfg, now), moves) && Legal(Start(bind, cfg, now), Follow(Boot(bind, cfg, now), moves))
    requires var s := After(Boot(bind, cfg, now), moves);
             Drained(s) && s.back.current.Some? && s.task.cfg.noProgress
    requires var r := Execute(Start(bind, cfg, now), Follow(Boot(bind, cfg, now), moves));
             r.now <= at <= r.lastHeavyTick + WATCHDOG_HEAVY_INTERVAL
    ensures var s := After(Boot(bind, cfg, now), moves);
            var r := Execute(Start(bind, cfg, now), Follow(Boot(bind, cfg, now), moves));
            && s.task.state.Sending? && s.task.active.Some?
            && (|| at - s.task.dog.progressAt <= s.task.cfg.noProgressTimeout + WATCHDOG_HEAVY_INTERVAL
                || at - r.nonIdleSince <= WATCHDOG_HEAVY_INTERVAL)
  {
    var turns := Follow(Boot(bind, cfg, now), moves);
    SystemMirrorsTask(bind, cfg, now, moves);
    NoOrphanedGrabEver(bind, cfg, now, moves);
    RunsKeepClient(Start(bind, cfg, now), turns);
    BoundedWaiting(bind, cfg, now, turns, at);
  }
}
