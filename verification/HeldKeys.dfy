/** Which keys count as held: what passed since the backend was last told to let
    go, for the task alone and for the whole system. */
module HeldKeys {
  import opened Types
  import opened Subscriptions
  import opened Capture
  import opened CaptureRuns
  import opened Handshake
  import GrabSafety
  import GrabBound

  /** The latest event for `k` was a press, and neither a release of the backend
      nor a new session came after it. */
  predicate Pressed(start: Run, turns: seq<Turn>, k: Scancode) {
    turns != [] &&
    var n := |turns| - 1;
    match turns[n]
    case Passing(e) =>
      if e.Input? && e.event.Key? && e.event.key == k && IsScancode(k) then e.event.state == 1
      else Pressed(start, turns[..n], k)
    case InSession(s, env) => Release !in Arm(Execute(start, turns[..n]).task, s, env).calls && Pressed(start, turns[..n], k)
    case WhileDown(_) => Pressed(start, turns[..n], k)
    case Restart => false
  }

  /** An arm forgets the held keys exactly when it makes the backend let go. */
  lemma EventClears(t: Task, h: Handle, e: CaptureEvent, env: Env)
    ensures var out := HandleCaptureEvent(t, h, e, env);
            out.task.held == if Release in out.calls then {} else t.held
  {
  }

  lemma ArmClears(t: Task, s: Stimulus, env: Env)
    ensures var out := Arm(t, s, env);
            out.task.held == if Release in out.calls then {} else t.held
  {
    if s.Captured? { EventClears(t, s.handle, s.event, env); }
  }

  /** In every run of the task a key is held exactly when its latest event since
      then was a press. */
  lemma {:induction false} HeldExactly(bind: seq<Scancode>, cfg: Config, now: nat, turns: seq<Turn>, k: Scancode)
    ensures k in Execute(Start(bind, cfg, now), turns).task.held <==> Pressed(Start(bind, cfg, now), turns, k)
    decreases |turns|
  {
    if turns != [] {
      var n, start := |turns| - 1, Start(bind, cfg, now);
      HeldExactly(bind, cfg, now, turns[..n], k);
      var r := Execute(start, turns[..n]);
      match turns[n]
      case InSession(s, env) => ArmClears(r.task, s, env);
      case _ =>
    }
  }

  /** In every run of the whole system too; so the release bind counts as held
      exactly when the latest event of each of its keys was a press. */
  lemma ChordExactly(bind: seq<Scancode>, cfg: Config, now: nat, moves: seq<Move>)
    ensures var s, turns := GrabSafety.After(Boot(bind, cfg, now), moves), GrabBound.Follow(Boot(bind, cfg, now), moves);
            && (forall k :: k in s.task.held <==> Pressed(Start(bind, cfg, now), turns, k))
            && (ChordHeld(s.task) <==> forall k :: k in s.task.bind ==> Pressed(Start(bind, cfg, now), turns, k))
  {
    var turns := GrabBound.Follow(Boot(bind, cfg, now), moves);
    GrabBound.SystemMirrorsTask(bind, cfg, now, moves);
    forall k ensures k in Execute(Start(bind, cfg, now), turns).task.held <==> Pressed(Start(bind, cfg, now), turns, k) {
      HeldExactly(bind, cfg, now, turns, k);
    }
  }
}
