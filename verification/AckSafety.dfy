/** No grab without an answer: the pointer is only grabbed on a barrier whose
    client was entered and acknowledged it. */
module AckSafety {
  import opened Types
  import opened Subscriptions
  import opened Capture
  import opened CaptureRuns
  import opened MacBackend
  import opened Handshake
  import opened GrabSafety
  import opened GrabBound

  // ----- one message -----

  /** An Ack promotes exactly the barrier of the pending client it comes from,
      and only while nobody else is active. */
  lemma AckExactly(t: Task, h: Handle, env: Env)
    ensures var out := OnMessage(t, h, Ack, env);
            && out.sent == []
            && (forall k :: StartCapture(k) in out.calls <==>
                  env.startOk && t.state.Pending? && t.state.handle == h && t.state.key == k && (t.active.None? || t.active == Some(h)))
            && (out.task.state.Sending? && !t.state.Sending? <==> t.state.Idle? && t.active == Some(h))
  {
  }

  /** Anybody else's leaves the task and the backend as they were. */
  lemma OthersAckIsIgnored(t: Task, h: Handle, env: Env)
    requires t.active != Some(h) && (t.state.Pending? ==> t.state.handle != h)
    ensures var out := OnMessage(t, h, Ack, env);
            out.calls == [] && out.sent == [] && out.task.(dog := t.dog) == t
  {
  }

  /** And nothing but an Ack promotes. */
  lemma OnlyAcksPromote(t: Task, s: Stimulus, env: Env, k: BarrierKey)
    requires StartCapture(k) in Arm(t, s, env).calls
    ensures s.FromPeer? && s.message == Ack && t.state.Pending? && t.state.handle == s.peer && t.state.key == k
  {
  }

  // ----- who was entered last, and answered -----

  function BarrierOf(captures: seq<Entry>, h: Handle): Option<BarrierKey> {
    match Lookup(captures, h)
    case None => None
    case Some(c) => Some(c.key)
  }

  /** Whom this turn enters, and for which barrier. */
  function Entering(r: Run, turn: Turn): Option<(Handle, Option<BarrierKey>)> {
    if !turn.InSession? then None
    else
      var sent := Arm(r.task, turn.stimulus, turn.env).sent;
      if |sent| == 1 && sent[0].Enter? then Some((sent[0].to, BarrierOf(r.task.captures, sent[0].to))) else None
  }

  function LastEnter(start: Run, turns: seq<Turn>): Option<(Handle, Option<BarrierKey>)> {
    if turns == [] then None
    else
      var n := |turns| - 1;
      var entering := Entering(Execute(start, turns[..n]), turns[n]);
      if entering.Some? then entering else LastEnter(start, turns[..n])
  }

  predicate Acks(turn: Turn, h: Handle) {
    turn.InSession? && turn.stimulus == FromPeer(h, Ack)
  }

  /** The latest Enter of all was for the barrier `k`, and the client it went to
      has acknowledged since. */
  predicate Answered(start: Run, turns: seq<Turn>, k: BarrierKey) {
    turns != [] &&
    var n := |turns| - 1;
    if Entering(Execute(start, turns[..n]), turns[n]).Some? then false
    else
      || (LastEnter(start, turns[..n]).Some?
          && LastEnter(start, turns[..n]).value.1 == Some(k) && Acks(turns[n], LastEnter(start, turns[..n]).value.0))
      || Answered(start, turns[..n], k)
  }

  /** At some point of the run it was so. */
  ghost predicate Vouched(start: Run, turns: seq<Turn>, k: BarrierKey) {
    exists j :: 0 <= j <= |turns| && Answered(start, turns[..j], k)
  }

  /** Whoever is waited for was entered last, for the barrier in question. */
  predicate Awaited(t: Task, last: Option<(Handle, Option<BarrierKey>)>) {
    t.state.Pending? ==> last == Some((t.state.handle, Some(t.state.key)))
  }

  lemma EventAwaits(t: Task, h: Handle, e: CaptureEvent, env: Env)
    ensures var out := HandleCaptureEvent(t, h, e, env);
            out.task.state.Pending? ==>
              if |out.sent| == 1 && out.sent[0].Enter? then
                BarrierOf(t.captures, out.sent[0].to) == Some(out.task.state.key) && out.task.state.handle == out.sent[0].to
              else out.task.state == t.state
  {
  }

  lemma TurnAwaits(r: Run, turn: Turn)
    ensures var t, t' := r.task, Take(r, turn).task;
            t'.state.Pending? ==>
              if Entering(r, turn).Some? then Entering(r, turn) == Some((t'.state.handle, Some(t'.state.key)))
              else t'.state == t.state
  {
    if turn.InSession? && turn.stimulus.Captured? {
      EventAwaits(r.task, turn.stimulus.handle, turn.stimulus.event, turn.env);
    }
  }

  lemma {:induction false} AwaitedEver(start: Run, turns: seq<Turn>)
    requires !start.task.state.Pending?
    ensures Awaited(Execute(start, turns).task, LastEnter(start, turns))
    decreases |turns|
  {
    if turns != [] {
      AwaitedEver(start, turns[..|turns| - 1]);
      TurnAwaits(Execute(start, turns[..|turns| - 1]), turns[|turns| - 1]);
    }
  }

  lemma AnsweredSnoc(start: Run, turns: seq<Turn>, turn: Turn, k: BarrierKey)
    ensures Answered(start, turns + [turn], k) <==>
            Entering(Execute(start, turns), turn).None?
            && (|| (LastEnter(start, turns).Some?
                    && LastEnter(start, turns).value.1 == Some(k) && Acks(turn, LastEnter(start, turns).value.0))
                || Answered(start, turns, k))
  {
    assert (turns + [turn])[..|turns|] == turns;
  }

  lemma VouchedMore(start: Run, turns: seq<Turn>, more: seq<Turn>, k: BarrierKey)
    requires Vouched(start, turns, k)
    ensures Vouched(start, turns + more, k)
  {
    var j :| 0 <= j <= |turns| && Answered(start, turns[..j], k);
    assert (turns + more)[..j] == turns[..j];
  }

  lemma AnsweredIsVouched(start: Run, turns: seq<Turn>, k: BarrierKey)
    requires Answered(start, turns, k)
    ensures Vouched(start, turns, k)
  {
    assert turns[..|turns|] == turns;
  }

  /** Whoever the task asks to promote has just answered. */
  lemma PromotionIsAnswered(start: Run, turns: seq<Turn>, s: Stimulus, env: Env, k: BarrierKey)
    requires !start.task.state.Pending? && StartCapture(k) in Arm(Execute(start, turns).task, s, env).calls
    ensures Answered(start, turns + [InSession(s, env)], k)
  {
    var t := Execute(start, turns).task;
    AwaitedEver(start, turns);
    OnlyAcksPromote(t, s, env, k);
    AckExactly(t, s.peer, env);
    AnsweredSnoc(start, turns, InSession(s, env), k);
  }

  // ----- the whole system -----

  /** The pointer is grabbed on `k`, or its grab is on the way or being
      announced. */
  predicate Wanted(s: System, k: BarrierKey) {
    || StartCapture(k) in s.notify
    || s.back.current == Some(k)
    || (k, Begin) in s.events
    || (s.polled == Some((k, Begin)) && exists d :: d in s.queue && d.1 == Begin)
  }

  predicate NoGrab(s: System) {
    forall p :: p in s.notify ==> !p.Grab?
  }

  lemma TapWants(s: System, e: TapEvent, k: BarrierKey)
    requires Wanted(Perform(s, TapMove(e)), k)
    ensures Wanted(s, k)
  {
    var (b, out, posted) := Tap(s.back, e);
    assert forall x :: x in out ==> x.1 != Begin;
  }

  lemma ProduceWants(s: System, os: Os, k: BarrierKey)
    requires NoGrab(s) && Wanted(Perform(s, ProduceMove(os)), k)
    ensures Wanted(s, k)
  {
    if s.notify != [] {
      var p := s.notify[0];
      assert p in s.notify && s.notify == [p] + s.notify[1..];
      var (b, out) := HandleProducer(s.back, p, os);
      assert forall x :: x in out && x.1 == Begin ==> p == StartCapture(x.0);
    }
  }

  lemma PolledWants(s: System, k: BarrierKey)
    requires Wanted(Polled(s), k)
    ensures Wanted(s, k)
  {
    if s.queue == [] && s.events != [] {
      assert s.events == [s.events[0]] + s.events[1..];
      assert forall d :: d in Polled(s).queue ==> d.1 == s.events[0].1;
    }
  }

  /** Handling an event wants nothing more. */
  lemma EventPromotesNothing(t: Task, h: Handle, e: CaptureEvent, env: Env, k: BarrierKey)
    ensures StartCapture(k) !in HandleCaptureEvent(t, h, e, env).calls
  {
    if StartCapture(k) in HandleCaptureEvent(t, h, e, env).calls { OnlyAcksPromote(t, Captured(h, e), env, k); }
  }

  lemma DeliverWants(s: System, env: Env, k: BarrierKey)
    ensures Wanted(Deliver(s, env), k) <==> Wanted(WithoutDelivery(s), k)
    ensures Wanted(WithoutDelivery(s), k) ==> Wanted(s, k)
  {
    var p := Polled(s);
    if p.queue != [] {
      EventPromotesNothing(p.task, p.queue[0].0, p.queue[0].1, env, k);
      assert p.queue == [p.queue[0]] + p.queue[1..];
    }
    if Wanted(WithoutDelivery(s), k) {
      assert Wanted(p, k);
      PolledWants(s, k);
    }
  }

  lemma TaskWants(s: System, stimulus: Stimulus, env: Env, k: BarrierKey)
    ensures Wanted(Perform(s, TaskMove(stimulus, env)), k) <==> Wanted(s, k) || StartCapture(k) in Arm(s.task, stimulus, env).calls
  {
  }

  /** Only an Ack adds to what is wanted. */
  lemma MoveWants(s: System, m: Move, k: BarrierKey)
    requires NoGrab(s) && Wanted(Perform(s, m), k)
    ensures Wanted(s, k) || (m.TaskMove? && StartCapture(k) in Arm(s.task, m.stimulus, m.env).calls)
  {
    match m
    case TapMove(e) => TapWants(s, e, k);
    case ProduceMove(os) => ProduceWants(s, os, k);
    case DeliverMove(env) => DeliverWants(s, env, k);
    case TaskMove(stimulus, env) => TaskWants(s, stimulus, env, k);
    case Reenable(ds) => CreatesOnlyCreate(s.task.captures);
    case _ =>
  }

  lemma ArmGrabsNothing(t: Task, s: Stimulus, env: Env)
    ensures forall c :: c in Arm(t, s, env).calls ==> !c.Grab?
  {
  }

  lemma MoveKeepsNoGrab(s: System, m: Move)
    requires NoGrab(s)
    ensures NoGrab(Perform(s, m))
  {
    match m
    case DeliverMove(env) =>
      var p := Polled(s);
      if p.queue != [] { ArmGrabsNothing(p.task, Captured(p.queue[0].0, p.queue[0].1), env); }
    case TaskMove(stimulus, env) => ArmGrabsNothing(s.task, stimulus, env);
    case Reenable(ds) => CreatesOnlyCreate(s.task.captures);
    case _ =>
  }

  lemma MovePromotes(start: Run, turns: seq<Turn>, s: System, m: Move, k: BarrierKey)
    requires !start.task.state.Pending? && Mirrors(Execute(start, turns), s)
    requires m.TaskMove? && StartCapture(k) in Arm(s.task, m.stimulus, m.env).calls
    ensures Answered(start, turns + Turning(s, m), k)
  {
    PromotionIsAnswered(start, turns, m.stimulus, m.env, k);
  }

  /** In every run of the whole system, whatever happens: when a grab is asked
      for, held or being announced on a barrier, then, at some point before, the
      latest Enter of all was for that barrier and its client had answered. */
  lemma {:induction false} NoGrabWithoutAck(bind: seq<Scancode>, cfg: Config, now: nat, moves: seq<Move>)
    ensures var s := After(Boot(bind, cfg, now), moves);
            && NoGrab(s)
            && forall k :: Wanted(s, k) ==> Vouched(Start(bind, cfg, now), Follow(Boot(bind, cfg, now), moves), k)
    decreases |moves|
  {
    if moves != [] {
      var n, start, boot := |moves| - 1, Start(bind, cfg, now), Boot(bind, cfg, now);
      NoGrabWithoutAck(bind, cfg, now, moves[..n]);
      SystemMirrorsTask(bind, cfg, now, moves[..n]);
      var s, turns := After(boot, moves[..n]), Follow(boot, moves[..n]);
      MoveKeepsNoGrab(s, moves[n]);
      forall k | Wanted(Perform(s, moves[n]), k) ensures Vouched(start, turns + Turning(s, moves[n]), k) {
        StepVouches(start, turns, s, moves[n], k);
      }
    }
  }

  lemma StepVouches(start: Run, turns: seq<Turn>, s: System, m: Move, k: BarrierKey)
    requires !start.task.state.Pending? && Mirrors(Execute(start, turns), s) && NoGrab(s)
    requires Wanted(s, k) ==> Vouched(start, turns, k)
    requires Wanted(Perform(s, m), k)
    ensures Vouched(start, turns + Turning(s, m), k)
  {
    MoveWants(s, m, k);
    if Wanted(s, k) {
      VouchedMore(start, turns, Turning(s, m), k);
    } else {
      MovePromotes(start, turns, s, m, k);
      AnsweredIsVouched(start, turns + Turning(s, m), k);
    }
  }

  // ----- when the answer is to the latest Enter -----

  /** The delivery at the head of the queue has its client entered. */
  predicate Enters(p: System) {
    && p.queue != [] && !ChordHeld(p.task)
    && Lookup(p.task.captures, p.queue[0].0).Some? && Lookup(p.task.captures, p.queue[0].0).value.kind == Default
    && (|| p.queue[0].1 == BeginPending
        || (p.queue[0].1 == Begin && !(p.task.state.Pending? && p.task.state.handle == p.queue[0].0)))
  }

  /** The barrier for which this client was entered last. */
  function EnteredFor(start: Run, turns: seq<Turn>, h: Handle): Option<BarrierKey> {
    if turns == [] then None
    else
      var n := |turns| - 1;
      var entering := Entering(Execute(start, turns[..n]), turns[n]);
      if entering.Some? && entering.value.0 == h then entering.value.1 else EnteredFor(start, turns[..n], h)
  }

  /** The latest Enter sent to this client was for the barrier `k`, and the client
      has acknowledged since. */
  predicate AnsweredBy(start: Run, turns: seq<Turn>, k: BarrierKey, h: Handle) {
    turns != [] &&
    var n := |turns| - 1;
    var entering := Entering(Execute(start, turns[..n]), turns[n]);
    && !(entering.Some? && entering.value.0 == h)
    && ((EnteredFor(start, turns[..n], h) == Some(k) && Acks(turns[n], h)) || AnsweredBy(start, turns[..n], k, h))
  }

  ghost predicate Confirmed(start: Run, turns: seq<Turn>, k: BarrierKey) {
    exists h :: AnsweredBy(start, turns, k, h)
  }

  /** Every grab under way has the answer to a client's latest Enter. */
  ghost predicate Prompt(start: Run, turns: seq<Turn>, s: System) {
    forall k :: Wanted(s, k) ==> Confirmed(start, turns, k)
  }

  lemma EntersExactly(r: Run, p: System, env: Env)
    requires Mirrors(r, p) && p.queue != []
    ensures Entering(r, Handling(p, env)[0]).Some? <==> Enters(p)
    ensures Enters(p) ==> Entering(r, Handling(p, env)[0]) == Some((p.queue[0].0, BarrierOf(p.task.captures, p.queue[0].0)))
  {
  }

  /** Other arms enter nobody. */
  lemma OthersEnterNobody(r: Run, s: Stimulus, env: Env)
    requires !s.Captured?
    ensures Entering(r, InSession(s, env)).None?
  {
  }

  lemma AnsweredBySnoc(start: Run, turns: seq<Turn>, turn: Turn, k: BarrierKey, h: Handle)
    ensures var entering := Entering(Execute(start, turns), turn);
            AnsweredBy(start, turns + [turn], k, h) <==>
              && !(entering.Some? && entering.value.0 == h)
              && ((EnteredFor(start, turns, h) == Some(k) && Acks(turn, h)) || AnsweredBy(start, turns, k, h))
  {
    assert (turns + [turn])[..|turns|] == turns;
  }

  lemma {:induction false} LastEnteredFor(start: Run, turns: seq<Turn>)
    requires LastEnter(start, turns).Some?
    ensures EnteredFor(start, turns, LastEnter(start, turns).value.0) == LastEnter(start, turns).value.1
    decreases |turns|
  {
    if Entering(Execute(start, turns[..|turns| - 1]), turns[|turns| - 1]).None? {
      LastEnteredFor(start, turns[..|turns| - 1]);
    }
  }

  /** The client whose Ack asks for the promotion answers its latest Enter. */
  lemma PromoterAnswers(start: Run, turns: seq<Turn>, s: Stimulus, env: Env, k: BarrierKey)
    requires !start.task.state.Pending? && StartCapture(k) in Arm(Execute(start, turns).task, s, env).calls
    ensures s.FromPeer? && AnsweredBy(start, turns + [InSession(s, env)], k, s.peer)
  {
    AwaitedEver(start, turns);
    OnlyAcksPromote(Execute(start, turns).task, s, env, k);
    LastEnteredFor(start, turns);
    OthersEnterNobody(Execute(start, turns), s, env);
    AnsweredBySnoc(start, turns, InSession(s, env), k, s.peer);
  }

  /** A turn that enters nobody takes no answer back. */
  lemma QuietTurnAnswers(start: Run, turns: seq<Turn>, more: seq<Turn>, k: BarrierKey, h: Handle)
    requires |more| <= 1 && (more != [] ==> Entering(Execute(start, turns), more[0]).None?)
    ensures AnsweredBy(start, turns, k, h) ==> AnsweredBy(start, turns + more, k, h)
    ensures (more != [] ==> !Acks(more[0], h)) && AnsweredBy(start, turns + more, k, h) ==> AnsweredBy(start, turns, k, h)
  {
    if more == [] {
      assert turns + more == turns;
    } else {
      assert more == [more[0]];
      AnsweredBySnoc(start, turns, more[0], k, h);
    }
  }

  lemma HandlingAnswers(start: Run, turns: seq<Turn>, p: System, env: Env, k: BarrierKey, h: Handle)
    requires Mirrors(Execute(start, turns), p) && p.queue != []
    ensures AnsweredBy(start, turns + Handling(p, env), k, h) <==> AnsweredBy(start, turns, k, h) && !(Enters(p) && p.queue[0].0 == h)
  {
    EntersExactly(Execute(start, turns), p, env);
    AnsweredBySnoc(start, turns, Handling(p, env)[0], k, h);
    assert Handling(p, env) == [Handling(p, env)[0]];
  }

  /** A delivery takes back the answer of the client it enters, and no other. */
  lemma DeliverAnswers(start: Run, turns: seq<Turn>, s: System, env: Env, k: BarrierKey, h: Handle)
    requires Mirrors(Execute(start, turns), s)
    ensures AnsweredBy(start, turns + Turning(s, DeliverMove(env)), k, h) <==>
            AnsweredBy(start, turns, k, h) && !(Enters(Polled(s)) && Polled(s).queue[0].0 == h)
  {
    var p, polled := Polled(s), turns + Polling(s);
    AfterPolling(start, turns, s);
    QuietTurnAnswers(start, turns, Polling(s), k, h);
    assert turns + Turning(s, DeliverMove(env)) == polled + Handling(p, env);
    if p.queue != [] {
      HandlingAnswers(start, polled, p, env, k, h);
    } else {
      assert polled + Handling(p, env) == polled;
    }
  }

  /** Nobody else has answered. */
  ghost predicate Sole(start: Run, turns: seq<Turn>, k: BarrierKey, h: Handle) {
    forall x :: AnsweredBy(start, turns, k, x) ==> x == h
  }

  /** The move enters once more the only client that has answered for a grab that
      is under way. */
  ghost predicate Outruns(start: Run, turns: seq<Turn>, s: System, m: Move, k: BarrierKey) {
    && m.DeliverMove? && Enters(Polled(s)) && Wanted(WithoutDelivery(s), k)
    && Sole(start, turns, k, Polled(s).queue[0].0)
  }

  lemma DeliveryConfirms(start: Run, turns: seq<Turn>, s: System, env: Env, k: BarrierKey)
    requires Mirrors(Execute(start, turns), s)
    ensures Enters(Polled(s)) ==>
              (Confirmed(start, turns + Turning(s, DeliverMove(env)), k) <==> !Sole(start, turns, k, Polled(s).queue[0].0))
    ensures !Enters(Polled(s)) ==>
              (Confirmed(start, turns + Turning(s, DeliverMove(env)), k) <==> Confirmed(start, turns, k))
  {
    var turns' := turns + Turning(s, DeliverMove(env));
    if h :| AnsweredBy(start, turns', k, h) {
      DeliverAnswers(start, turns, s, env, k, h);
    }
    if h :| AnsweredBy(start, turns, k, h) && !(Enters(Polled(s)) && Polled(s).queue[0].0 == h) {
      DeliverAnswers(start, turns, s, env, k, h);
    }
  }

  lemma DeliveryOutruns(start: Run, turns: seq<Turn>, s: System, env: Env, k: BarrierKey)
    requires Mirrors(Execute(start, turns), s) && (Wanted(s, k) ==> Confirmed(start, turns, k))
    ensures (Wanted(Deliver(s, env), k) ==> Confirmed(start, turns + Turning(s, DeliverMove(env)), k)) <==>
            !Outruns(start, turns, s, DeliverMove(env), k)
  {
    DeliverWants(s, env, k);
    DeliveryConfirms(start, turns, s, env, k);
  }

  lemma QuietMoveConfirms(start: Run, turns: seq<Turn>, s: System, m: Move, k: BarrierKey)
    requires Offered(s, m) && !m.DeliverMove? && Confirmed(start, turns, k)
    ensures Confirmed(start, turns + Turning(s, m), k)
  {
    var h :| AnsweredBy(start, turns, k, h);
    if m.TaskMove? { OthersEnterNobody(Execute(start, turns), m.stimulus, m.env); }
    QuietTurnAnswers(start, turns, Turning(s, m), k, h);
  }

  lemma OtherMovesStayPrompt(start: Run, turns: seq<Turn>, s: System, m: Move, k: BarrierKey)
    requires !start.task.state.Pending? && Mirrors(Execute(start, turns), s) && NoGrab(s) && Offered(s, m) && !m.DeliverMove?
    requires Wanted(s, k) ==> Confirmed(start, turns, k)
    requires Wanted(Perform(s, m), k)
    ensures Confirmed(start, turns + Turning(s, m), k)
  {
    MoveWants(s, m, k);
    if Wanted(s, k) {
      QuietMoveConfirms(start, turns, s, m, k);
    } else {
      PromoterAnswers(start, turns, m.stimulus, m.env, k);
    }
  }

  /** A grab has an Ack that came after the latest Enter sent to its client,
      exactly until that client, with nobody else having answered, is entered once
      more while the grab is under way. */
  lemma PromptExactly(start: Run, turns: seq<Turn>, s: System, m: Move)
    requires !start.task.state.Pending? && Mirrors(Execute(start, turns), s) && NoGrab(s)
    requires Prompt(start, turns, s) && Offered(s, m)
    ensures Prompt(start, turns + Turning(s, m), Perform(s, m)) <==> forall k :: !Outruns(start, turns, s, m, k)
  {
    forall k
      ensures (Wanted(Perform(s, m), k) ==> Confirmed(start, turns + Turning(s, m), k)) <==> !Outruns(start, turns, s, m, k)
    {
      if m.DeliverMove? {
        DeliveryOutruns(start, turns, s, m.env, k);
      } else if Wanted(Perform(s, m), k) {
        OtherMovesStayPrompt(start, turns, s, m, k);
      }
    }
  }

  lemma EnteringIsSent(r: Run, turn: Turn)
    requires Entering(r, turn).Some?
    ensures exists m :: m in Take(r, turn).log && m.Enter? && m.to == Entering(r, turn).value.0
  {
    var sent := Arm(r.task, turn.stimulus, turn.env).sent;
    assert sent[0] in sent && Take(r, turn).log == r.log + sent;
  }

  lemma TakeKeepsLog(r: Run, turn: Turn)
    ensures forall m :: m in r.log ==> m in Take(r, turn).log
  {
  }

  /** Only a client that was sent an Enter can have answered one. */
  lemma {:induction false} AnswersWereEntered(start: Run, turns: seq<Turn>, k: BarrierKey, h: Handle)
    requires EnteredFor(start, turns, h).Some? || AnsweredBy(start, turns, k, h)
    ensures exists m :: m in Execute(start, turns).log && m.Enter? && m.to == h
    decreases |turns|
  {
    var n := |turns| - 1;
    var r := Execute(start, turns[..n]);
    if Entering(r, turns[n]).Some? && Entering(r, turns[n]).value.0 == h {
      EnteringIsSent(r, turns[n]);
    } else {
      AnswersWereEntered(start, turns[..n], k, h);
      TakeKeepsLog(r, turns[n]);
    }
  }
}
