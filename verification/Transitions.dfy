/** The capture task's state machine, told from outside: which stimuli enter and
    leave each state, what the backend is told, and what counts as progress. */
module Transitions {
  import opened Types
  import opened Capture
  import opened CaptureRuns

  /** The event is dispatched to the client that subscribed. */
  predicate Attends(t: Task, s: Stimulus) {
    && s.Captured? && !ChordHeld(t)
    && Lookup(t.captures, s.handle).Some? && Lookup(t.captures, s.handle).value.kind == Default
  }

  predicate Attending(t: Task, s: Stimulus, e: CaptureEvent) {
    Attends(t, s) && s.event == e
  }

  /** The message comes from the active client, or nobody is active. */
  predicate Minds(t: Task, s: Stimulus, m: Message) {
    s.FromPeer? && s.message == m && (t.active.None? || t.active == Some(s.peer))
  }

  /** The heavy watchdog has reason to act. */
  predicate Alarmed(t: Task, now: nat) {
    || (t.cfg.crossingStorm && t.state.Idle? && t.active.None? && |Prune(t.dog.crossings, now, t.cfg.window)| >= t.cfg.stormThreshold)
    || (t.cfg.sendFailures && t.state.Sending? && t.dog.failures >= t.cfg.failureThreshold)
    || (t.cfg.noProgress && !t.state.Idle? && now - t.dog.progressAt > t.cfg.noProgressTimeout)
  }

  /** Capture is given up: the release bind is held when an event comes, the peer
      leaves or is lost, the service asks, or the watchdog has reason to. */
  predicate Frees(t: Task, s: Stimulus, now: nat) {
    || (s.Captured? && ChordHeld(t))
    || Minds(t, s, LeaveMessage)
    || s == Requested(ReleaseRequest)
    || (s.PeerLost? && t.active.Some? && (s.lost.None? || s.lost == t.active))
    || (s.HeavyTick? && Alarmed(t, now))
  }

  /** Sending to nobody, which the light watchdog repairs. */
  predicate Haunted(t: Task, s: Stimulus) {
    s.LightTick? && t.cfg.ghostActive && t.state.Sending? && t.active.None?
  }

  /** The client of this stimulus. */
  function Subject(t: Task, s: Stimulus): Entry
    requires Attends(t, s)
  {
    Lookup(t.captures, s.handle).value
  }

  // ----- states -----

  /** A wait for an answer begins with a crossing whose Enter could be sent, and
      with nothing else. */
  lemma WaitBegins(t: Task, s: Stimulus, env: Env)
    ensures var t' := Arm(t, s, env).task;
            && (Attending(t, s, BeginPending) && env.sendOk ==> t'.state == Pending(s.handle, Subject(t, s).key, env.now))
            && (t'.state.Pending? ==> (Attending(t, s, BeginPending) && env.sendOk) || t'.state == t.state)
  {
  }

  /** A wait ends: another crossing, the cursor's return, a Begin, a promotion
      that could not be asked for, the timeout of 500 ms, or a release. */
  predicate EndsWait(t: Task, s: Stimulus, env: Env)
    requires t.state.Pending?
  {
    || Frees(t, s, env.now)
    || Attending(t, s, Begin)
    || (Attending(t, s, CancelPending) && s.handle == t.state.handle)
    || (Attending(t, s, BeginPending) && (!env.sendOk || t.state != Pending(s.handle, Subject(t, s).key, env.now)))
    || (Minds(t, s, Ack) && s.peer == t.state.handle && !env.startOk)
    || (s.PendingTick? && env.now - t.state.started >= 500)
  }

  lemma WaitEndsExactly(t: Task, s: Stimulus, env: Env)
    requires t.state.Pending?
    ensures Arm(t, s, env).task.state != t.state <==> EndsWait(t, s, env)
  {
  }

  /** Sending begins with a Begin for a client, or resumes with the active
      client's Ack, and lasts until a release or another crossing. */
  lemma SendingExactly(t: Task, s: Stimulus, env: Env)
    ensures Arm(t, s, env).task.state.Sending? <==>
            || Attending(t, s, Begin)
            || (Minds(t, s, Ack) && t.active.Some? && !t.state.Pending?)
            || (t.state.Sending? && !Frees(t, s, env.now) && !Attending(t, s, BeginPending) && !Haunted(t, s))
  {
  }

  /** A client becomes active with its Begin, and stays so until a release outside
      Pending. */
  lemma ActiveExactly(t: Task, s: Stimulus, env: Env)
    ensures Arm(t, s, env).task.active ==
            if Attending(t, s, Begin) then Some(s.handle)
            else if Frees(t, s, env.now) && !t.state.Pending? then None
            else t.active
  {
  }

  // ----- the backend -----

  /** A send to the client fails. */
  predicate SendFails(t: Task, s: Stimulus, env: Env) {
    Sends(t, s) && !env.sendOk
  }

  /** The event has something sent to the client. */
  predicate Sends(t: Task, s: Stimulus) {
    && Attends(t, s)
    && match s.event
       case BeginPending => true
       case Begin => !(t.state.Pending? && t.state.handle == s.handle)
       case Input(_) => t.state.Sending?
       case CancelPending => false
  }

  /** A trigger fires on a barrier that is nobody's. */
  predicate Misfires(t: Task, s: Stimulus) {
    && s.Captured? && !ChordHeld(t) && Lookup(t.captures, s.handle).Some?
    && var c := Lookup(t.captures, s.handle).value; c.kind == EnterOnly && !DefaultAt(t.captures, c.key)
  }

  /** The backend is told to let go exactly on a release that is not skipped, when
      a send fails after a Begin, when a trigger fires alone, or on repair. */
  lemma LetGoExactly(t: Task, s: Stimulus, env: Env)
    ensures Release in Arm(t, s, env).calls <==>
            || (Frees(t, s, env.now) && !(t.state.Idle? && t.active.None?))
            || (SendFails(t, s, env) && s.event != BeginPending)
            || Misfires(t, s)
            || Haunted(t, s)
  {
  }

  /** The backend is told to forget a crossing exactly when it was cancelled, the
      Enter for it failed, or the wait for its answer was given up. */
  lemma CancelExactly(t: Task, s: Stimulus, env: Env, k: BarrierKey)
    ensures CancelPendingRequest(k) in Arm(t, s, env).calls <==>
            || (Attending(t, s, CancelPending) && Subject(t, s).key == k)
            || (Attending(t, s, BeginPending) && !env.sendOk && Subject(t, s).key == k)
            || (t.state.Pending? && t.state.key == k
                && (|| Frees(t, s, env.now)
                    || (Minds(t, s, Ack) && s.peer == t.state.handle && !env.startOk)
                    || (s.PendingTick? && env.now - t.state.started >= 500)))
  {
  }

  // ----- the service -----

  /** The service hears of a capture exactly when a trigger's barrier is crossed or
      grabbed, or a client's is grabbed; and of a client that enters exactly when
      it was not the active one. */
  lemma TellsExactly(t: Task, h: Handle, e: CaptureEvent)
    ensures var told, s := Notices(t, h, e), Captured(h, e);
            && (forall x :: CaptureBegin(x) in told <==>
                  x == h && !ChordHeld(t) && Lookup(t.captures, h).Some?
                  && (e == Begin || (e == BeginPending && Lookup(t.captures, h).value.kind == EnterOnly)))
            && (forall x :: ClientEntered(x) in told <==> x == h && Attending(t, s, Begin) && t.active != Some(h))
            && |told| <= 2
  {
  }

  /** The release bind is the one the service set last, whether or not a session
      was running. */
  function BindSet(bind: seq<Scancode>, turns: seq<Turn>): seq<Scancode> {
    if turns == [] then bind
    else
      match turns[|turns| - 1]
      case InSession(Requested(SetReleaseBind(b)), _) => b
      case WhileDown(SetReleaseBind(b)) => b
      case _ => BindSet(bind, turns[..|turns| - 1])
  }

  lemma ArmKeepsBind(t: Task, s: Stimulus, env: Env)
    ensures Arm(t, s, env).task.bind == if s.Requested? && s.request.SetReleaseBind? then s.request.bind else t.bind
  {
  }

  lemma {:induction false} BindIsLatest(bind: seq<Scancode>, cfg: Config, now: nat, turns: seq<Turn>)
    ensures Execute(Start(bind, cfg, now), turns).task.bind == BindSet(bind, turns)
    decreases |turns|
  {
    if turns != [] {
      var n := |turns| - 1;
      BindIsLatest(bind, cfg, now, turns[..n]);
      match turns[n]
      case InSession(s, env) => ArmKeepsBind(Execute(Start(bind, cfg, now), turns[..n]).task, s, env);
      case _ =>
    }
  }

  // ----- the watchdog's books -----

  /** A message or a successful send shows that the peer is alive. */
  predicate Progresses(t: Task, s: Stimulus, env: Env) {
    || (Sends(t, s) && env.sendOk)
    || (Attending(t, s, Begin) && !Sends(t, s))
    || Minds(t, s, Ack) || Minds(t, s, OtherMessage)
    || Haunted(t, s)
  }

  /** Failed sends are counted since the last progress or release, up to the end
      of the 32-bit range. */
  lemma FailuresExactly(t: Task, s: Stimulus, env: Env)
    ensures Arm(t, s, env).task.dog.failures ==
            if Frees(t, s, env.now) || Progresses(t, s, env) then 0
            else if SendFails(t, s, env) && t.dog.failures < 0xffff_ffff then t.dog.failures + 1
            else if SendFails(t, s, env) then 0xffff_ffff
            else t.dog.failures
  {
  }

  /** The time of the last progress or release. */
  lemma ProgressExactly(t: Task, s: Stimulus, env: Env)
    ensures Arm(t, s, env).task.dog.progressAt == if Frees(t, s, env.now) || Progresses(t, s, env) then env.now else t.dog.progressAt
  {
  }

  /** A crossing is recorded exactly when a client's barrier is crossed, and the
      record is cleared exactly by a release. */
  lemma MarksExactly(t: Task, s: Stimulus, env: Env)
    ensures Arm(t, s, env).mark == Some(Crossing) <==> Attending(t, s, BeginPending)
    ensures Arm(t, s, env).mark == Some(Reset) <==> Frees(t, s, env.now)
  {
  }

  // ----- over runs -----

  /** The crossings of clients' barriers since the last release. */
  function CrossingTimes(start: Run, turns: seq<Turn>): seq<nat> {
    if turns == [] then []
    else
      var n := |turns| - 1;
      var t, before := Execute(start, turns[..n]).task, CrossingTimes(start, turns[..n]);
      match turns[n]
      case InSession(s, env) =>
        if Frees(t, s, env.now) then [] else if Attending(t, s, BeginPending) then before + [env.now] else before
      case _ => before
  }

  /** The history that the storm check is proved against is that of the run. */
  lemma {:induction false} CrossingsAreRecorded(start: Run, turns: seq<Turn>)
    requires start.crossings == []
    ensures Execute(start, turns).crossings == CrossingTimes(start, turns)
    decreases |turns|
  {
    if turns != [] {
      var n := |turns| - 1;
      CrossingsAreRecorded(start, turns[..n]);
      match turns[n]
      case InSession(s, env) => MarksExactly(Execute(start, turns[..n]).task, s, env);
      case _ =>
    }
  }

  /** How many sends failed in a row. */
  function Streak(start: Run, turns: seq<Turn>): nat {
    if turns == [] then 0
    else
      var n := |turns| - 1;
      var t, before := Execute(start, turns[..n]).task, Streak(start, turns[..n]);
      match turns[n]
      case InSession(s, env) =>
        if Frees(t, s, env.now) || Progresses(t, s, env) then 0 else if SendFails(t, s, env) then before + 1 else before
      case _ => before
  }

  /** In every run the failure count is that number, as far as it fits. */
  lemma {:induction false} FailuresAreCounted(bind: seq<Scancode>, cfg: Config, now: nat, turns: seq<Turn>)
    ensures var n := Streak(Start(bind, cfg, now), turns);
            Execute(Start(bind, cfg, now), turns).task.dog.failures == if n < 0xffff_ffff then n else 0xffff_ffff
    decreases |turns|
  {
    if turns != [] {
      var n, start := |turns| - 1, Start(bind, cfg, now);
      FailuresAreCounted(bind, cfg, now, turns[..n]);
      match turns[n]
      case InSession(s, env) => FailuresExactly(Execute(start, turns[..n]).task, s, env);
      case _ =>
    }
  }
}
