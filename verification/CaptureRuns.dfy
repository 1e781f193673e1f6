/** What the capture task guarantees over whole runs, whatever its backend, its
    peers, the service and the network do. */
module CaptureRuns {
  import opened Types
  import opened Subscriptions
  import opened Capture

  /** One turn of the event loop, or what happens around it: an event passing
      through `InputCapture` (which tracks held keys), a request handled while
      no session runs, and a session starting over with a fresh backend. */
  datatype Turn =
    | InSession(stimulus: Stimulus, env: Env)
    | Passing(event: CaptureEvent)
    | WhileDown(request: Request)
    | Restart

  /** The task with the history of its run. `crossings` are those since the
      last reset; `nonIdleSince` is when the state last left Idle. */
  datatype Run = Run(
    task: Task,
    log: seq<Sent>,
    crossings: seq<nat>,
    nonIdleSince: nat,
    lastPendingTick: nat,
    lastHeavyTick: nat,
    now: nat)

  function Start(bind: seq<Scancode>, cfg: Config, now: nat): Run {
    Run(Task(Idle, None, [], bind, {}, Watchdog(0, [], now), cfg), [], [], now, now, now, now)
  }

  function Record(crossings: seq<nat>, mark: Option<Mark>, now: nat): seq<nat> {
    match mark
    case None => crossings
    case Some(Reset) => []
    case Some(Crossing) => crossings + [now]
  }

  /** The run after an arm that was woken by `s` at `now` and produced `out`. */
  function Advance(r: Run, s: Stimulus, out: Out, now: nat): Run {
    Run(out.task,
        r.log + out.sent,
        Record(r.crossings, out.mark, now),
        if r.task.state.Idle? && !out.task.state.Idle? then now else r.nonIdleSince,
        if s.PendingTick? then now else r.lastPendingTick,
        if s.HeavyTick? then now else r.lastHeavyTick,
        now)
  }

  function Take(r: Run, turn: Turn): Run {
    match turn
    case InSession(s, env) => Advance(r, s, Arm(r.task, s, env), env.now)
    case Passing(e) => r.(task := r.task.(held := Track(r.task.held, e)))
    case WhileDown(q) => r.(task := OnRequestWhileDown(r.task, q))
    case Restart => r.(task := Restarted(r.task))
  }

  /** Time does not run backwards, and a hash set drains its own elements. */
  ghost predicate Possible(r: Run, turn: Turn) {
    turn.InSession? ==> r.now <= turn.env.now && Lists(turn.env.order, r.task.held)
  }

  function Execute(start: Run, turns: seq<Turn>): Run {
    if turns == [] then start
    else Take(Execute(start, turns[..|turns| - 1]), turns[|turns| - 1])
  }

  ghost predicate Legal(start: Run, turns: seq<Turn>) {
    forall i :: 0 <= i < |turns| ==> Possible(Execute(start, turns[..i]), turns[i])
  }

  lemma LegalPrefix(start: Run, turns: seq<Turn>)
    requires turns != [] && Legal(start, turns)
    ensures Legal(start, turns[..|turns| - 1])
    ensures Possible(Execute(start, turns[..|turns| - 1]), turns[|turns| - 1])
  {
    var n := |turns| - 1;
    forall i | 0 <= i < n ensures Possible(Execute(start, turns[..n][..i]), turns[..n][i]) {
      assert turns[..n][..i] == turns[..i];
    }
  }

  // ----- Sending implies an active client -----

  predicate SendingHasClient(t: Task) {
    t.state.Sending? ==> t.active.Some?
  }

  lemma {:induction false} RunsKeepClient(start: Run, turns: seq<Turn>)
    requires SendingHasClient(start.task)
    ensures SendingHasClient(Execute(start, turns).task)
    decreases |turns|
  {
    if turns != [] {
      RunsKeepClient(start, turns[..|turns| - 1]);
      var t := Execute(start, turns[..|turns| - 1]).task;
      match turns[|turns| - 1]
      case InSession(s, env) => ArmKeepsClient(t, s, env);
      case _ =>
    }
  }

  lemma ArmKeepsClient(t: Task, s: Stimulus, env: Env)
    requires SendingHasClient(t)
    ensures SendingHasClient(Arm(t, s, env).task)
  {
  }

  /** At every loop boundary the Sending state has a client, so the repair of
      the light watchdog never has anything to do. */
  lemma NoGhostActive(bind: seq<Scancode>, cfg: Config, now: nat, turns: seq<Turn>, env: Env)
    ensures var t := Execute(Start(bind, cfg, now), turns).task;
            SendingHasClient(t) && OnLightTick(t, env) == Quiet(t)
  {
    RunsKeepClient(Start(bind, cfg, now), turns);
  }

  // ----- Enter and Leave -----

  /** The latest Enter or Leave sent to `h` is an Enter. */
  predicate Open(log: seq<Sent>, h: Handle) {
    if log == [] then false
    else
      match log[|log| - 1]
      case Enter(to, _) => to == h || Open(log[..|log| - 1], h)
      case Leave(to) => to != h && Open(log[..|log| - 1], h)
      case Forward(_, _) => Open(log[..|log| - 1], h)
  }

  /** Every Leave answers an Enter sent since the previous Leave. */
  predicate Disciplined(log: seq<Sent>) {
    forall i :: 0 <= i < |log| && log[i].Leave? ==> Open(log[..i], log[i].to)
  }

  /** Whoever is pending or active has been entered and not left. */
  predicate Engaged(t: Task, log: seq<Sent>) {
    && (t.state.Pending? ==> Open(log, t.state.handle))
    && (t.active.Some? ==> Open(log, t.active.value))
  }

  lemma DisciplinedSnoc(log: seq<Sent>, m: Sent)
    requires Disciplined(log) && (m.Leave? ==> Open(log, m.to))
    ensures Disciplined(log + [m])
    ensures (log + [m])[..|log|] == log
  {
    assert (log + [m])[..|log|] == log;
    assert forall i | 0 <= i < |log| :: (log + [m])[..i] == log[..i];
  }

  lemma {:induction false} ForwardsKeepOpen(log: seq<Sent>, forwards: seq<Sent>)
    requires Disciplined(log) && forall m :: m in forwards ==> m.Forward?
    ensures Disciplined(log + forwards)
    ensures forall h :: Open(log + forwards, h) <==> Open(log, h)
    decreases |forwards|
  {
    if forwards == [] {
      assert log + forwards == log;
    } else {
      var n := |forwards| - 1;
      assert forwards[n] in forwards;
      ForwardsKeepOpen(log, forwards[..n]);
      DisciplinedSnoc(log + forwards[..n], forwards[n]);
      assert log + forwards == log + forwards[..n] + [forwards[n]];
    }
  }

  /** A farewell closes exactly the client it is addressed to. */
  lemma FarewellCloses(log: seq<Sent>, h: Handle, order: seq<Scancode>)
    requires Disciplined(log) && Open(log, h)
    ensures Disciplined(log + Farewell(Some(h), order))
    ensures forall x :: Open(log + Farewell(Some(h), order), x) <==> x != h && Open(log, x)
  {
    var forwards := KeyUps(h, order) + [Forward(h, NO_MODIFIERS)];
    ForwardsKeepOpen(log, forwards);
    DisciplinedSnoc(log + forwards, Leave(h));
    assert log + Farewell(Some(h), order) == log + forwards + [Leave(h)];
  }

  /** Every arm sends nothing, one forward, one Enter or a farewell, and only
      engages whom it entered, or whom it was already waiting for. */
  predicate Engages(t: Task, out: Out, order: seq<Scancode>) {
    || (out.sent == [] && KeepsEngagements(t, out.task))
    || (|out.sent| == 1 && out.sent[0].Forward? && KeepsEngagements(t, out.task))
    || (|out.sent| == 1 && out.sent[0].Enter?
        && (out.task.state.Pending? ==> out.task.state.handle == out.sent[0].to)
        && (out.task.active == t.active || out.task.active == Some(out.sent[0].to)))
    || (t.active.Some? && out.sent == Farewell(t.active, order) && !out.task.state.Pending? && out.task.active.None?)
  }

  predicate KeepsEngagements(t: Task, t': Task) {
    && (t'.state.Pending? ==> t'.state == t.state)
    && (t'.active == t.active || t'.active == None || (t.state.Pending? && t'.active == Some(t.state.handle)))
  }

  lemma EventEngages(t: Task, h: Handle, e: CaptureEvent, env: Env)
    ensures Engages(t, HandleCaptureEvent(t, h, e, env), env.order)
  {
  }

  lemma ArmEngages(t: Task, s: Stimulus, env: Env)
    ensures Engages(t, Arm(t, s, env), env.order)
  {
    if s.Captured? { EventEngages(t, s.handle, s.event, env); }
  }

  lemma EngagesKeepsEngaged(t: Task, out: Out, order: seq<Scancode>, log: seq<Sent>)
    requires Disciplined(log) && Engaged(t, log) && Engages(t, out, order)
    ensures Disciplined(log + out.sent)
    ensures Engaged(out.task, log + out.sent)
  {
    if out.sent == [] {
      assert log + out.sent == log;
    } else if |out.sent| == 1 && !out.sent[0].Leave? {
      assert out.sent == [out.sent[0]];
      DisciplinedSnoc(log, out.sent[0]);
    } else {
      FarewellCloses(log, t.active.value, order);
    }
  }

  lemma {:induction false} RunsAreDisciplined(start: Run, turns: seq<Turn>)
    requires Disciplined(start.log) && Engaged(start.task, start.log)
    ensures Disciplined(Execute(start, turns).log)
    ensures Engaged(Execute(start, turns).task, Execute(start, turns).log)
    decreases |turns|
  {
    if turns != [] {
      RunsAreDisciplined(start, turns[..|turns| - 1]);
      var r := Execute(start, turns[..|turns| - 1]);
      match turns[|turns| - 1]
      case InSession(s, env) =>
        ArmEngages(r.task, s, env);
        EngagesKeepsEngaged(r.task, Arm(r.task, s, env), env.order, r.log);
      case _ =>
    }
  }

  /** Enter/Leave discipline of every run. */
  lemma EnterLeaveDiscipline(bind: seq<Scancode>, cfg: Config, now: nat, turns: seq<Turn>)
    ensures var r := Execute(Start(bind, cfg, now), turns);
            Disciplined(r.log) && Engaged(r.task, r.log)
  {
    RunsAreDisciplined(Start(bind, cfg, now), turns);
  }

  // ----- bounded waiting -----

  /** A Pending state was under the timeout at the last pending tick; a
      non-Idle one had progressed, or not begun, by the last heavy tick. */
  predicate Timely(r: Run) {
    && r.lastPendingTick <= r.now && r.lastHeavyTick <= r.now
    && r.task.dog.progressAt <= r.now && r.nonIdleSince <= r.now
    && (r.task.state.Pending? ==>
          && r.task.state.started <= r.now
          && r.lastPendingTick - r.task.state.started < PENDING_ACK_TIMEOUT)
    && (!r.task.state.Idle? && r.task.cfg.noProgress ==>
          || r.nonIdleSince >= r.lastHeavyTick
          || r.lastHeavyTick - r.task.dog.progressAt <= r.task.cfg.noProgressTimeout)
  }

  /** What an arm does to the clocks: each tick enforces its own limit. */
  predicate Paces(t: Task, s: Stimulus, out: Out, now: nat) {
    var t' := out.task;
    && t'.cfg == t.cfg
    && (t'.dog.progressAt == t.dog.progressAt || t'.dog.progressAt == now)
    && (t'.state.Pending? ==> t'.state == t.state || t'.state.started == now)
    && (s.PendingTick? && t'.state.Pending? ==> now - t'.state.started < PENDING_ACK_TIMEOUT)
    && (s.HeavyTick? && t.cfg.noProgress && !t'.state.Idle? ==> now - t'.dog.progressAt <= t.cfg.noProgressTimeout)
  }

  lemma ArmPaces(t: Task, s: Stimulus, env: Env)
    ensures Paces(t, s, Arm(t, s, env), env.now)
  {
  }

  lemma PacesKeepsTimely(r: Run, s: Stimulus, out: Out, now: nat)
    requires Timely(r) && r.now <= now && Paces(r.task, s, out, now)
    ensures Timely(Advance(r, s, out, now))
  {
  }

  lemma TurnKeepsTimely(r: Run, turn: Turn)
    requires Timely(r) && Possible(r, turn)
    ensures Timely(Take(r, turn))
  {
    if turn.InSession? {
      ArmPaces(r.task, turn.stimulus, turn.env);
      PacesKeepsTimely(r, turn.stimulus, Arm(r.task, turn.stimulus, turn.env), turn.env.now);
    }
  }

  lemma {:induction false} RunsAreTimely(start: Run, turns: seq<Turn>)
    requires Timely(start) && Legal(start, turns)
    ensures Timely(Execute(start, turns))
    decreases |turns|
  {
    if turns != [] {
      var n := |turns| - 1;
      LegalPrefix(start, turns);
      RunsAreTimely(start, turns[..n]);
      TurnKeepsTimely(Execute(start, turns[..n]), turns[n]);
    }
  }

  /** As long as the latest pending tick is at most 100 ms old, no Pending state
      is 600 ms old; as long as the latest heavy tick is at most 3 s old and the
      check is on, nothing but Idle outlives the no-progress timeout plus 3 s
      since it last progressed, or 3 s since it began. */
  lemma BoundedWaiting(bind: seq<Scancode>, cfg: Config, now: nat, turns: seq<Turn>, at: nat)
    requires Legal(Start(bind, cfg, now), turns)
    requires Execute(Start(bind, cfg, now), turns).now <= at
    ensures var r := Execute(Start(bind, cfg, now), turns);
            r.task.state.Pending? && at - r.lastPendingTick <= PENDING_TICK_INTERVAL ==>
              at - r.task.state.started < PENDING_ACK_TIMEOUT + PENDING_TICK_INTERVAL
    ensures var r := Execute(Start(bind, cfg, now), turns);
            !r.task.state.Idle? && r.task.cfg.noProgress && at - r.lastHeavyTick <= WATCHDOG_HEAVY_INTERVAL ==>
              || at - r.task.dog.progressAt <= r.task.cfg.noProgressTimeout + WATCHDOG_HEAVY_INTERVAL
              || at - r.nonIdleSince <= WATCHDOG_HEAVY_INTERVAL
  {
    RunsAreTimely(Start(bind, cfg, now), turns);
  }

  // ----- crossing storms -----

  /** The reference for the sliding window. */
  function InWindow(times: seq<nat>, now: nat, window: nat): seq<nat> {
    if times == [] then []
    else if now - times[0] > window then InWindow(times[1..], now, window)
    else [times[0]] + InWindow(times[1..], now, window)
  }

  predicate Sorted(times: seq<nat>) {
    forall i, j :: 0 <= i < j < |times| ==> times[i] <= times[j]
  }

  /** On a sorted queue, popping expired entries off the front is filtering. */
  lemma {:induction false} PruneIsInWindow(times: seq<nat>, now: nat, window: nat)
    requires Sorted(times)
    ensures Prune(times, now, window) == InWindow(times, now, window)
  {
    if times != [] {
      if now - times[0] > window {
        PruneIsInWindow(times[1..], now, window);
      } else {
        AllInWindow(times, now, window);
      }
    }
  }

  lemma {:induction false} AllInWindow(times: seq<nat>, now: nat, window: nat)
    requires forall i :: 0 <= i < |times| ==> now - times[i] <= window
    ensures InWindow(times, now, window) == times
  {
    if times != [] {
      AllInWindow(times[1..], now, window);
    }
  }

  lemma {:induction false} ExpiredPrefix(times: seq<nat>, n: nat, now: nat, window: nat)
    requires n <= |times| && forall i :: 0 <= i < n ==> now - times[i] > window
    ensures InWindow(times, now, window) == InWindow(times[n..], now, window)
    decreases n
  {
    if n > 0 {
      ExpiredPrefix(times[1..], n - 1, now, window);
      assert times[1..][n - 1..] == times[n..];
    } else {
      assert times[0..] == times;
    }
  }

  /** What is kept of all crossings is all but a prefix that expired. */
  predicate Kept(kept: seq<nat>, all: seq<nat>, now: nat, window: nat) {
    && Sorted(all)
    && (forall i :: 0 <= i < |all| ==> all[i] <= now)
    && |kept| <= |all|
    && var dropped := |all| - |kept|;
       kept == all[dropped..] && forall i :: 0 <= i < dropped ==> now - all[i] > window
  }

  predicate Windowed(r: Run) {
    Kept(r.task.dog.crossings, r.crossings, r.now, r.task.cfg.window)
  }

  lemma {:induction false} PruneDropsExpired(times: seq<nat>, now: nat, window: nat)
    ensures |Prune(times, now, window)| <= |times|
    ensures var n := |times| - |Prune(times, now, window)|;
            Prune(times, now, window) == times[n..] && forall i :: 0 <= i < n ==> now - times[i] > window
  {
    if times != [] && now - times[0] > window {
      PruneDropsExpired(times[1..], now, window);
      var n := |times[1..]| - |Prune(times[1..], now, window)|;
      assert times[1..][n..] == times[n + 1..];
      assert forall i | 0 < i < n + 1 :: times[i] == times[1..][i - 1];
    }
  }

  /** Each arm records at most one crossing, or clears the window; only the
      heavy tick prunes it. */
  predicate Counts(t: Task, s: Stimulus, out: Out, now: nat) {
    && out.task.cfg == t.cfg
    && match out.mark
       case Some(Reset) => out.task.dog.crossings == []
       case Some(Crossing) => out.task.dog.crossings == t.dog.crossings + [now]
       case None =>
         || out.task.dog.crossings == t.dog.crossings
         || (s.HeavyTick? && out.task.dog.crossings == Prune(t.dog.crossings, now, t.cfg.window))
  }

  lemma EventCounts(t: Task, h: Handle, e: CaptureEvent, env: Env)
    ensures Counts(t, Captured(h, e), HandleCaptureEvent(t, h, e, env), env.now)
  {
  }

  lemma ArmCounts(t: Task, s: Stimulus, env: Env)
    ensures Counts(t, s, Arm(t, s, env), env.now)
  {
    if s.Captured? { EventCounts(t, s.handle, s.event, env); }
  }

  lemma KeptSnoc(kept: seq<nat>, all: seq<nat>, now: nat, window: nat)
    requires Kept(kept, all, now, window)
    ensures Kept(kept + [now], all + [now], now, window)
  {
    var dropped := |all| - |kept|;
    assert (all + [now])[dropped..] == all[dropped..] + [now];
  }

  lemma KeptPrunes(kept: seq<nat>, all: seq<nat>, now: nat, window: nat)
    requires Kept(kept, all, now, window)
    ensures Kept(Prune(kept, now, window), all, now, window)
  {
    PruneDropsExpired(kept, now, window);
    var dropped, more := |all| - |kept|, |kept| - |Prune(kept, now, window)|;
    assert all[dropped..][more..] == all[dropped + more..];
    forall i | 0 <= i < dropped + more ensures now - all[i] > window {
      if dropped <= i {
        assert all[i] == kept[i - dropped];
      }
    }
  }

  lemma CountsKeepsWindowed(r: Run, s: Stimulus, out: Out, now: nat)
    requires Windowed(r) && r.now <= now && Counts(r.task, s, out, now)
    ensures Windowed(Advance(r, s, out, now))
  {
    var kept, window := r.task.dog.crossings, r.task.cfg.window;
    assert Kept(kept, r.crossings, now, window);
    KeptSnoc(kept, r.crossings, now, window);
    KeptPrunes(kept, r.crossings, now, window);
  }

  lemma TurnKeepsWindowed(r: Run, turn: Turn)
    requires Windowed(r) && Possible(r, turn)
    ensures Windowed(Take(r, turn))
  {
    if turn.InSession? {
      ArmCounts(r.task, turn.stimulus, turn.env);
      CountsKeepsWindowed(r, turn.stimulus, Arm(r.task, turn.stimulus, turn.env), turn.env.now);
    }
  }

  lemma {:induction false} RunsAreWindowed(start: Run, turns: seq<Turn>)
    requires Windowed(start) && Legal(start, turns)
    ensures Windowed(Execute(start, turns))
    decreases |turns|
  {
    if turns != [] {
      var n := |turns| - 1;
      LegalPrefix(start, turns);
      RunsAreWindowed(start, turns[..n]);
      TurnKeepsWindowed(Execute(start, turns[..n]), turns[n]);
    }
  }

  /** At a heavy tick the pruned queue is the set of all crossings since the
      last reset that lie in the window, and, in Idle without a client, the
      tick resets the watchdog exactly when at least the threshold many do. */
  lemma StormExactly(bind: seq<Scancode>, cfg: Config, now: nat, turns: seq<Turn>, env: Env)
    requires var start := Start(bind, cfg, now);
             Legal(start, turns) && Possible(Execute(start, turns), InSession(HeavyTick, env)) && Execute(start, turns).task.cfg.crossingStorm
    ensures var r := Execute(Start(bind, cfg, now), turns);
            var recent := InWindow(r.crossings, env.now, r.task.cfg.window);
            && Prune(r.task.dog.crossings, env.now, r.task.cfg.window) == recent
            && (SkipsRelease(r.task) ==>
                  (OnHeavyTick(r.task, env).mark == Some(Reset) <==> |recent| >= r.task.cfg.stormThreshold))
  {
    var r := Execute(Start(bind, cfg, now), turns);
    RunsAreWindowed(Start(bind, cfg, now), turns);
    WindowedPrunes(r, env.now);
    if SkipsRelease(r.task) {
      HeavyTickInIdle(r.task, env);
    }
  }

  lemma WindowedPrunes(r: Run, now: nat)
    requires Windowed(r) && r.now <= now
    ensures Prune(r.task.dog.crossings, now, r.task.cfg.window) == InWindow(r.crossings, now, r.task.cfg.window)
  {
    ExpiredPrefix(r.crossings, |r.crossings| - |r.task.dog.crossings|, now, r.task.cfg.window);
    PruneIsInWindow(r.task.dog.crossings, now, r.task.cfg.window);
  }

  lemma HeavyTickInIdle(t: Task, env: Env)
    requires t.cfg.crossingStorm && SkipsRelease(t)
    ensures OnHeavyTick(t, env).mark == Some(Reset) <==>
            |Prune(t.dog.crossings, env.now, t.cfg.window)| >= t.cfg.stormThreshold
  {
  }

  // ----- the heavy watchdog -----

  predicate Settled(t: Task, now: nat) {
    !StormTriggers(t) && !FailuresTrigger(t) && !NoProgressTriggers(t, now)
  }

  /** The tick finds Idle without a client, or brings that about. */
  predicate EndsIdle(t: Task, now: nat) {
    || SkipsRelease(t)
    || ((FailuresTrigger(t) || NoProgressTriggers(t, now)) && (t.state.Pending? ==> t.active.None?))
  }

  /** With all checks on, a heavy tick leaves nothing for the next one to find.
      A storm threshold of zero is the exception: it always finds Idle stormy. */
  lemma HeavyTickSettles(t: Task, env: Env)
    requires t.cfg.crossingStorm && t.cfg.sendFailures && t.cfg.noProgress
    ensures Settled(OnHeavyTick(t, env).task, env.now) <==> t.cfg.stormThreshold > 0 || !EndsIdle(t, env.now)
  {
  }

  /** The loss of the active client always ends in Idle, whatever was pending. */
  lemma PeerLossReleases(t: Task, h: Handle, env: Env)
    requires t.active == Some(h)
    ensures OnPeerLost(t, Some(h), env).task.state == Idle
    ensures Release in OnPeerLost(t, Some(h), env).calls
    ensures !t.state.Pending? ==> OnPeerLost(t, Some(h), env).task.active == None
  {
  }

  // ----- the capture list as registrations -----

  /** Removing a capture from the list removes its registration. */
  lemma {:induction false} ListFollowsIndex(captures: seq<Entry>, h: Handle)
    ensures Regs(RemoveCapture(captures, h)) == Without(Regs(captures), h)
  {
    if captures != [] {
      var n := |captures| - 1;
      ListFollowsIndex(captures[..n], h);
      assert Regs(captures)[..n] == Regs(captures[..n]);
      if captures[n].handle != h {
        assert Regs(RemoveCapture(captures, h)) == Regs(RemoveCapture(captures[..n], h)) + [Registration(captures[n].handle, captures[n].key)];
      }
    }
  }

  // ----- a new session -----

  /** Keys held in one session do not count in the next: the release bind counts
      as held right after a restart exactly when it is empty. */
  lemma RestartLetsGo(t: Task)
    ensures ChordHeld(Restarted(t)) <==> t.bind == []
  {
    if t.bind != [] {
      assert t.bind[0] in t.bind;
    }
  }

  // ----- the history is what happened -----

  predicate IsTick(turn: Turn, s: Stimulus) {
    turn.InSession? && turn.stimulus == s
  }

  /** When the last such tick came. */
  function LatestTick(start: nat, turns: seq<Turn>, s: Stimulus): nat {
    if turns == [] then start
    else
      var t := turns[|turns| - 1];
      if IsTick(t, s) then t.env.now else LatestTick(start, turns[..|turns| - 1], s)
  }

  lemma {:induction false} TicksAreRecorded(start: Run, turns: seq<Turn>)
    ensures Execute(start, turns).lastPendingTick == LatestTick(start.lastPendingTick, turns, PendingTick)
    ensures Execute(start, turns).lastHeavyTick == LatestTick(start.lastHeavyTick, turns, HeavyTick)
    decreases |turns|
  {
    if turns != [] {
      TicksAreRecorded(start, turns[..|turns| - 1]);
    }
  }

  // ----- what the service is told -----

  function TellsOn(t: Task, turn: Turn): seq<Notice> {
    if turn.InSession? && turn.stimulus.Captured? then Notices(t, turn.stimulus.handle, turn.stimulus.event) else []
  }

  /** Everything the service was told in a run. */
  function Told(start: Run, turns: seq<Turn>): seq<Notice> {
    if turns == [] then []
    else
      var n := |turns| - 1;
      Told(start, turns[..n]) + TellsOn(Execute(start, turns[..n]).task, turns[n])
  }

  /** The client that was announced last. */
  function LastEntered(told: seq<Notice>): Option<Handle> {
    if told == [] then None
    else if told[|told| - 1].ClientEntered? then Some(told[|told| - 1].handle)
    else LastEntered(told[..|told| - 1])
  }

  lemma {:induction false} LastEnteredAppend(told: seq<Notice>, more: seq<Notice>)
    ensures LastEntered(told + more) == if LastEntered(more).Some? then LastEntered(more) else LastEntered(told)
    decreases |more|
  {
    if more == [] {
      assert told + more == told;
    } else {
      assert (told + more)[..|told + more| - 1] == told + more[..|more| - 1];
      LastEnteredAppend(told, more[..|more| - 1]);
    }
  }

  /** A client becomes active only with its announcement, and only becoming
      active is announced. */
  lemma EventAnnounces(t: Task, h: Handle, e: CaptureEvent, env: Env)
    ensures var t' := HandleCaptureEvent(t, h, e, env).task;
            if t'.active.Some? && t'.active != t.active then LastEntered(Notices(t, h, e)) == t'.active
            else LastEntered(Notices(t, h, e)) == None
  {
    assert [CaptureBegin(h), ClientEntered(h)][..1] == [CaptureBegin(h)];
    assert [CaptureBegin(h)][..0] == [];
  }

  lemma OthersActivateNobody(t: Task, s: Stimulus, env: Env)
    requires !s.Captured?
    ensures Arm(t, s, env).task.active == t.active || Arm(t, s, env).task.active == None
  {
  }

  predicate Known(t: Task, told: seq<Notice>) {
    t.active.Some? ==> LastEntered(told) == t.active
  }

  lemma TurnKeepsKnown(r: Run, turn: Turn, told: seq<Notice>)
    requires Known(r.task, told)
    ensures Known(Take(r, turn).task, told + TellsOn(r.task, turn))
  {
    LastEnteredAppend(told, TellsOn(r.task, turn));
    if turn.InSession? {
      var s := turn.stimulus;
      if s.Captured? {
        EventAnnounces(r.task, s.handle, s.event, turn.env);
      } else {
        OthersActivateNobody(r.task, s, turn.env);
      }
    }
  }

  /** In every run, whoever is active is the client the service heard of last. */
  lemma {:induction false} ServiceKnowsClient(bind: seq<Scancode>, cfg: Config, now: nat, turns: seq<Turn>)
    ensures Known(Execute(Start(bind, cfg, now), turns).task, Told(Start(bind, cfg, now), turns))
    decreases |turns|
  {
    if turns != [] {
      var start, n := Start(bind, cfg, now), |turns| - 1;
      ServiceKnowsClient(bind, cfg, now, turns[..n]);
      TurnKeepsKnown(Execute(start, turns[..n]), turns[n], Told(start, turns[..n]));
    }
  }
}
