/** What is sent, and why: every message of every run answers to what the task
    was given, and what the task is given is sent. */
module Messages {
  import opened Types
  import opened Subscriptions
  import opened Capture
  import opened CaptureRuns
  import opened Handshake
  import GrabSafety
  import GrabBound

  predicate Faces(pos: Position, side: Position) {
    || (pos == Left && side == Right) || (pos == Right && side == Left)
    || (pos == Top && side == Bottom) || (pos == Bottom && side == Top)
  }

  /** A client is entered from the side that faces its barrier. */
  predicate Welcomes(c: Entry, m: Sent) {
    m.Enter? && m.to == c.handle && Faces(c.key.pos, m.side)
  }

  /** What may be sent in answer to a stimulus: an Enter to a registered client
      whose barrier was crossed, the very input that was delivered for it, or
      part of a farewell to the active client, with key-ups of held keys only. */
  predicate Justified(t: Task, s: Stimulus, m: Sent) {
    match m
    case Enter(h, side) =>
      && (s == Captured(h, BeginPending) || s == Captured(h, Begin))
      && exists c :: c in t.captures && c.kind == Default && Welcomes(c, m)
    case Forward(h, event) =>
      || (s == Captured(h, Input(event)) && t.state.Sending? && !ChordHeld(t))
      || (t.active == Some(h) && (event == Modifiers(0, 0, 0, 0) || exists k :: k in t.held && event == Key(k, 0)))
    case Leave(h) => t.active == Some(h)
  }

  lemma FarewellIsJustified(t: Task, s: Stimulus, order: seq<Scancode>)
    requires Lists(order, t.held)
    ensures forall m :: m in Farewell(t.active, order) ==> Justified(t, s, m)
  {
    if t.active.Some? {
      var h, ups := t.active.value, KeyUps(t.active.value, order);
      forall m | m in ups ensures Justified(t, s, m) {
        var i :| 0 <= i < |ups| && ups[i] == m;
        assert order[i] in order;
      }
    }
  }

  lemma ReleaseIsJustified(t: Task, s: Stimulus, env: Env)
    requires Lists(env.order, t.held)
    ensures forall m :: m in ReleaseCapture(t, env).sent ==> Justified(t, s, m)
  {
    FarewellIsJustified(t, s, env.order);
  }

  /** What a client's event has sent, without the bind held. */
  lemma ClientEventSends(t: Task, c: Entry, e: CaptureEvent, env: Env)
    requires !ChordHeld(t) && Lookup(t.captures, c.handle) == Some(c) && c.kind == Default
    ensures var sent := HandleCaptureEvent(t, c.handle, e, env).sent;
            match e
            case BeginPending => |sent| == 1 && Welcomes(c, sent[0])
            case Begin => if t.state.Pending? && t.state.handle == c.handle then sent == [] else |sent| == 1 && Welcomes(c, sent[0])
            case CancelPending => sent == []
            case Input(event) => if t.state.Sending? then sent == [Forward(c.handle, event)] else sent == []
  {
  }

  lemma EventIsJustified(t: Task, h: Handle, e: CaptureEvent, env: Env)
    requires Lists(env.order, t.held)
    ensures forall m :: m in HandleCaptureEvent(t, h, e, env).sent ==> Justified(t, Captured(h, e), m)
  {
    if ChordHeld(t) {
      ReleaseIsJustified(t, Captured(h, e), env);
    } else if Lookup(t.captures, h).Some? && Lookup(t.captures, h).value.kind == Default {
      ClientEventSends(t, Lookup(t.captures, h).value, e, env);
    }
  }

  /** The other arms send nothing, or release. */
  lemma OtherArmsSend(t: Task, s: Stimulus, env: Env)
    requires !s.Captured?
    ensures Arm(t, s, env).sent == [] || Arm(t, s, env).sent == Farewell(t.active, env.order)
  {
  }

  lemma ArmIsJustified(t: Task, s: Stimulus, env: Env)
    requires Lists(env.order, t.held)
    ensures forall m :: m in Arm(t, s, env).sent ==> Justified(t, s, m)
  {
    if s.Captured? {
      EventIsJustified(t, s.handle, s.event, env);
    } else {
      OtherArmsSend(t, s, env);
      FarewellIsJustified(t, s, env.order);
    }
  }

  /** This turn appended the message at this place of the log, with reason. */
  ghost predicate SentAt(start: Run, turns: seq<Turn>, i: int, j: nat, m: Sent) {
    && 0 <= i < |turns| && turns[i].InSession?
    && |Execute(start, turns[..i]).log| <= j < |Execute(start, turns[..i + 1]).log|
    && Justified(Execute(start, turns[..i]).task, turns[i].stimulus, m)
  }

  lemma SentBefore(start: Run, turns: seq<Turn>, n: nat, i: int, j: nat, m: Sent)
    requires n <= |turns| && SentAt(start, turns[..n], i, j, m)
    ensures SentAt(start, turns, i, j, m)
  {
    assert turns[..n][..i] == turns[..i] && turns[..n][..i + 1] == turns[..i + 1];
  }

  lemma AdvanceJustified(r: Run, turn: Turn, j: nat)
    requires Possible(r, turn) && |r.log| <= j < |Take(r, turn).log|
    ensures turn.InSession? && Justified(r.task, turn.stimulus, Take(r, turn).log[j])
  {
    if turn.InSession? {
      var sent := Arm(r.task, turn.stimulus, turn.env).sent;
      ArmIsJustified(r.task, turn.stimulus, turn.env);
      assert Take(r, turn).log == r.log + sent;
      assert sent[j - |r.log|] in sent;
    }
  }

  lemma SentLast(start: Run, turns: seq<Turn>, j: nat)
    requires turns != [] && Possible(Execute(start, turns[..|turns| - 1]), turns[|turns| - 1])
    requires |Execute(start, turns[..|turns| - 1]).log| <= j < |Execute(start, turns).log|
    ensures SentAt(start, turns, |turns| - 1, j, Execute(start, turns).log[j])
  {
    assert turns[..|turns| - 1 + 1] == turns;
    AdvanceJustified(Execute(start, turns[..|turns| - 1]), turns[|turns| - 1], j);
  }

  lemma TakeAppends(r: Run, turn: Turn)
    ensures r.log <= Take(r, turn).log
  {
  }

  /** In every run, each message was sent with reason: each Enter from the side
      that faces a barrier its client had then, each input as it was delivered. */
  lemma {:induction false} EverySendIsJustified(start: Run, turns: seq<Turn>, j: nat)
    requires Legal(start, turns) && |start.log| <= j < |Execute(start, turns).log|
    ensures exists i :: SentAt(start, turns, i, j, Execute(start, turns).log[j])
    decreases |turns|
  {
    var n := |turns| - 1;
    LegalPrefix(start, turns);
    if j < |Execute(start, turns[..n]).log| {
      EverySendIsJustified(start, turns[..n], j);
      TakeAppends(Execute(start, turns[..n]), turns[n]);
      var i :| SentAt(start, turns[..n], i, j, Execute(start, turns[..n]).log[j]);
      SentBefore(start, turns, n, i, j, Execute(start, turns[..n]).log[j]);
    } else {
      SentLast(start, turns, j);
    }
  }

  /** So it is for every message of the whole system. */
  lemma SystemSendsAreJustified(bind: seq<Scancode>, cfg: Config, now: nat, moves: seq<Move>, j: nat)
    requires Legal(Start(bind, cfg, now), GrabBound.Follow(Boot(bind, cfg, now), moves))
    requires j < |GrabSafety.After(Boot(bind, cfg, now), moves).log|
    ensures exists i :: SentAt(Start(bind, cfg, now), GrabBound.Follow(Boot(bind, cfg, now), moves), i, j,
                               GrabSafety.After(Boot(bind, cfg, now), moves).log[j])
  {
    GrabBound.SystemMirrorsTask(bind, cfg, now, moves);
    EverySendIsJustified(Start(bind, cfg, now), GrabBound.Follow(Boot(bind, cfg, now), moves), j);
  }
}
