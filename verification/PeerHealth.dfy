/** Death detection: a watchdog that declares a peer lost when its Pongs stop,
    and what the capture task makes of that. Times are milliseconds. */
module PeerHealth {
  import opened Types
  import Capture
  import CaptureRuns

  const PONG_HEALTH_TIMEOUT: nat := 3500
  const PONG_HEALTH_TICK: nat := 500

  /** One session with a peer. `watching` until the watchdog returns or the
      session ends; `lost` are the signals sent to the capture task. */
  datatype Session = Session(handle: Handle, lastPongAt: nat, watching: bool, closed: bool, lost: seq<Handle>)

  datatype Step = Pong(at: nat) | Tick(at: nat) | Ended(at: nat)

  function Initial(h: Handle, now: nat): Session {
    Session(h, now, true, false, [])
  }

  function OnPong(s: Session, at: nat): Session {
    s.(lastPongAt := at)
  }

  function OnTick(s: Session, at: nat): Session {
    if s.watching && at - s.lastPongAt > PONG_HEALTH_TIMEOUT then
      s.(watching := false, closed := true, lost := s.lost + [s.handle])
    else s
  }

  function Advance(s: Session, t: Step): Session {
    match t
    case Pong(at) => OnPong(s, at)
    case Tick(at) => OnTick(s, at)
    case Ended(_) => s.(watching := false)
  }

  function Execute(start: Session, steps: seq<Step>): Session {
    if steps == [] then start else Advance(Execute(start, steps[..|steps| - 1]), steps[|steps| - 1])
  }

  /** What the watchdog sees at a tick. */
  datatype Check = Check(at: nat, lastPongAt: nat)

  /** The watchdog as the loop it is. */
  method PongHealthWatchdog(h: Handle, ticks: seq<Check>) returns (fired: nat, lost: seq<Handle>)
    ensures fired <= |ticks|
    ensures forall i :: 0 <= i < fired ==> ticks[i].at - ticks[i].lastPongAt <= PONG_HEALTH_TIMEOUT
    ensures fired < |ticks| ==> ticks[fired].at - ticks[fired].lastPongAt > PONG_HEALTH_TIMEOUT
    ensures lost == if fired < |ticks| then [h] else []
  {
    fired, lost := 0, [];
    while fired < |ticks|
      invariant fired <= |ticks| && lost == []
      invariant forall i :: 0 <= i < fired ==> ticks[i].at - ticks[i].lastPongAt <= PONG_HEALTH_TIMEOUT
    {
      var elapsed := ticks[fired].at - ticks[fired].lastPongAt;
      if elapsed > PONG_HEALTH_TIMEOUT {
        lost := [h];
        return;
      }
      fired := fired + 1;
    }
  }

  // ----- independent of the state: what happened so far -----

  function LastPong(start: nat, steps: seq<Step>): nat {
    if steps == [] then start
    else
      var t := steps[|steps| - 1];
      if t.Pong? then t.at else LastPong(start, steps[..|steps| - 1])
  }

  function LastTick(start: nat, steps: seq<Step>): nat {
    if steps == [] then start
    else
      var t := steps[|steps| - 1];
      if t.Tick? then t.at else LastTick(start, steps[..|steps| - 1])
  }

  /** A check at this point finds the peer overdue. */
  predicate Overdue(start: nat, steps: seq<Step>, i: nat)
    requires i < |steps|
  {
    steps[i].Tick? && steps[i].at - LastPong(start, steps[..i]) > PONG_HEALTH_TIMEOUT
  }

  /** The session runs on through all of these steps. */
  predicate Unended(steps: seq<Step>) {
    forall i :: 0 <= i < |steps| ==> !steps[i].Ended?
  }

  /** Time is monotone and checks are at most half a second apart. */
  predicate Ticking(start: nat, steps: seq<Step>) {
    forall i :: 0 <= i < |steps| ==>
      && steps[i].at >= LastPong(start, steps[..i])
      && steps[i].at - LastTick(start, steps[..i]) <= PONG_HEALTH_TICK
  }

  lemma Prefixes(start: nat, steps: seq<Step>)
    requires steps != []
    ensures var n := |steps| - 1;
            && (Unended(steps) ==> Unended(steps[..n]))
            && (Ticking(start, steps) ==> Ticking(start, steps[..n]))
            && (forall i :: 0 <= i < n ==> Overdue(start, steps[..n], i) == Overdue(start, steps, i))
  {
    var n := |steps| - 1;
    assert forall i | 0 <= i < n :: steps[..n][..i] == steps[..i];
  }

  // ----- runs -----

  predicate EverOverdue(start: nat, steps: seq<Step>) {
    exists i :: 0 <= i < |steps| && Overdue(start, steps, i)
  }

  /** The watchdog fires exactly when some check finds the latest Pong more
      than 3.5 s old, and it fires once: so never while Pongs come in time. */
  lemma {:induction false} FiresExactly(h: Handle, start: nat, steps: seq<Step>)
    requires Unended(steps)
    ensures var s := Execute(Initial(h, start), steps);
            && s.handle == h && s.lastPongAt == LastPong(start, steps)
            && s.lost == (if EverOverdue(start, steps) then [h] else [])
            && (s.watching <==> !EverOverdue(start, steps)) && (s.closed <==> EverOverdue(start, steps))
    decreases |steps|
  {
    if steps != [] {
      var n := |steps| - 1;
      FiresExactly(h, start, steps[..n]);
      Prefixes(start, steps);
      if EverOverdue(start, steps) {
        var i :| 0 <= i < |steps| && Overdue(start, steps, i);
        assert i < n ==> Overdue(start, steps[..n], i);
      }
      if i :| 0 <= i < n && Overdue(start, steps[..n], i) {
        assert Overdue(start, steps, i);
      }
      assert Overdue(start, steps, n) ==> EverOverdue(start, steps);
    }
  }

  /** An ended session sends nothing more; over any run at most one signal. */
  lemma {:induction false} FiresAtMostOnce(h: Handle, start: nat, steps: seq<Step>)
    ensures var s := Execute(Initial(h, start), steps);
            s.handle == h && (s.lost == [] || (s.lost == [h] && !s.watching))
    decreases |steps|
  {
    if steps != [] {
      FiresAtMostOnce(h, start, steps[..|steps| - 1]);
    }
  }

  lemma {:induction false} LatestTickInTime(start: nat, steps: seq<Step>)
    requires Ticking(start, steps) && !EverOverdue(start, steps)
    ensures LastTick(start, steps) - LastPong(start, steps) <= PONG_HEALTH_TIMEOUT
    decreases |steps|
  {
    if steps != [] {
      var n := |steps| - 1;
      Prefixes(start, steps);
      assert !Overdue(start, steps, n);
      LatestTickInTime(start, steps[..n]);
    }
  }

  /** A silent peer is declared lost in time: with checks at most half a second
      apart, a session that still watches heard a Pong at most 4 s ago. */
  lemma SilenceIsNoticed(h: Handle, start: nat, steps: seq<Step>, now: nat)
    requires Unended(steps) && Ticking(start, steps) && now - LastTick(start, steps) <= PONG_HEALTH_TICK
    requires Execute(Initial(h, start), steps).lost == []
    ensures now - LastPong(start, steps) <= PONG_HEALTH_TIMEOUT + PONG_HEALTH_TICK
  {
    FiresExactly(h, start, steps);
    LatestTickInTime(start, steps);
  }

  /** And not before it is overdue: the step that sends the signal is a check
      between 3.5 s and 4 s after the latest Pong. */
  lemma FiresInTime(h: Handle, start: nat, steps: seq<Step>)
    requires steps != [] && Unended(steps) && Ticking(start, steps)
    requires Execute(Initial(h, start), steps[..|steps| - 1]).lost == [] && Execute(Initial(h, start), steps).lost != []
    ensures var n := |steps| - 1;
            && steps[n].Tick?
            && PONG_HEALTH_TIMEOUT < steps[n].at - LastPong(start, steps) <= PONG_HEALTH_TIMEOUT + PONG_HEALTH_TICK
  {
    var n := |steps| - 1;
    Prefixes(start, steps);
    FiresExactly(h, start, steps[..n]);
    LatestTickInTime(start, steps[..n]);
  }

  lemma LossFreesPointer(t: Capture.Task, h: Handle, env: Capture.Env)
    requires t.active == Some(h)
    ensures var out := Capture.Arm(t, Capture.PeerLost(Some(h)), env);
            out.task.state == Capture.Idle && Release in out.calls
  {
    CaptureRuns.PeerLossReleases(t, h, env);
  }

  /** From the last Pong to a free pointer: the signal names the peer, comes
      within 4 s of its last Pong, and once processed for the active client
      leaves the capture task idle with the backend told to release. */
  lemma PeerDeathEndToEnd(h: Handle, start: nat, steps: seq<Step>, t: Capture.Task, env: Capture.Env)
    requires steps != [] && Unended(steps) && Ticking(start, steps)
    requires Execute(Initial(h, start), steps[..|steps| - 1]).lost == [] && Execute(Initial(h, start), steps).lost != []
    requires t.active == Some(h)
    ensures var lost := Execute(Initial(h, start), steps).lost;
            && lost == [h]
            && steps[|steps| - 1].at - LastPong(start, steps) <= 4000
            && var out := Capture.Arm(t, Capture.PeerLost(Some(lost[0])), env);
               out.task.state == Capture.Idle && Release in out.calls
  {
    FiresInTime(h, start, steps);
    FiresAtMostOnce(h, start, steps);
    LossFreesPointer(t, h, env);
  }
}
