/** The capture task never looks up a capture that is gone or creates one that is
    there, as long as nobody destroys a capture that still has deliveries queued
    or asks for what is already so. */
module PanicSafety {
  import opened Types
  import opened Subscriptions
  import opened Capture
  import opened MacBackend
  import opened Handshake
  import GrabSafety

  /** Every queued delivery is for a registered handle. */
  predicate QueueKnown(s: System) {
    forall d :: d in s.queue ==> Lookup(s.task.captures, d.0).Some?
  }

  /** Between sessions nothing is queued. */
  predicate Tidy(s: System) {
    !s.up ==> s.queue == []
  }

  predicate InQueue(queue: seq<Delivery>, h: Handle) {
    exists d :: d in queue && d.0 == h
  }

  /** The move destroys a capture that has a delivery queued. */
  predicate DestroysQueued(s: System, m: Move) {
    m.TaskMove? && m.stimulus.Requested? && m.stimulus.request.DestroyRequest? && InQueue(s.queue, m.stimulus.request.handle)
  }

  // ----- lookups -----

  lemma RegisteredIsFound(captures: seq<Entry>, h: Handle, k: BarrierKey)
    requires Registration(h, k) in Regs(captures)
    ensures Lookup(captures, h).Some?
  {
    var i :| 0 <= i < |captures| && Regs(captures)[i] == Registration(h, k);
    assert captures[i] in captures;
  }

  /** A taken event is queued for registered handles only. */
  lemma TakingIsKnown(s: System)
    requires s.queue == [] && s.events != []
    ensures QueueKnown(Taking(s))
  {
    var (k, e) := s.events[0];
    var regs := Regs(s.task.captures);
    var subs := Subscribers(regs, k);
    SubscribersMembers(regs, k);
    forall d | d in Taking(s).queue ensures Lookup(s.task.captures, d.0).Some? {
      var i :| 0 <= i < |subs| && d == FanOut(subs, e)[i];
      assert subs[i] in subs;
      RegisteredIsFound(s.task.captures, d.0, k);
    }
  }

  lemma FoundAfterCreate(captures: seq<Entry>, e: Entry, h: Handle)
    requires Lookup(captures, h).Some?
    ensures Lookup(captures + [e], h).Some?
  {
    assert Lookup(captures, h).value in captures + [e];
  }

  lemma {:induction false} RemovedExactly(captures: seq<Entry>, x: Handle, c: Entry)
    ensures c in RemoveCapture(captures, x) <==> c in captures && c.handle != x
  {
    if captures != [] {
      var n := |captures| - 1;
      RemovedExactly(captures[..n], x, c);
      assert captures == captures[..n] + [captures[n]];
    }
  }

  lemma FoundAfterDestroy(captures: seq<Entry>, x: Handle, h: Handle)
    requires Lookup(captures, h).Some?
    ensures Lookup(RemoveCapture(captures, x), h).Some? <==> h != x
  {
    var e := Lookup(captures, h).value;
    RemovedExactly(captures, x, e);
    if Lookup(RemoveCapture(captures, x), h).Some? {
      RemovedExactly(captures, x, Lookup(RemoveCapture(captures, x), h).value);
    }
  }

  // ----- what an arm does to the captures -----

  /** Only requests to create and destroy change them. */
  lemma EventKeepsCaptures(t: Task, h: Handle, e: CaptureEvent, env: Env)
    ensures HandleCaptureEvent(t, h, e, env).task.captures == t.captures
  {
  }

  lemma ArmKeepsCaptures(t: Task, s: Stimulus, env: Env)
    requires !s.Captured? && !(s.Requested? && (s.request.CreateRequest? || s.request.DestroyRequest?))
    ensures Arm(t, s, env).task.captures == t.captures
  {
  }

  lemma RequestChangesCaptures(t: Task, r: Request, env: Env)
    requires OnRequest(t, r, env).outcome != Panicked
    ensures r.CreateRequest? ==> OnRequest(t, r, env).task.captures == t.captures + [Entry(r.handle, r.key, r.kind)]
    ensures r.DestroyRequest? ==> OnRequest(t, r, env).task.captures == RemoveCapture(t.captures, r.handle)
  {
  }

  // ----- one move -----

  lemma DeliverKeepsKnown(s: System, env: Env)
    requires QueueKnown(s)
    ensures QueueKnown(Deliver(s, env))
  {
    var p := Polled(s);
    if s.queue == [] && s.events != [] { TakingIsKnown(s); }
    if p.queue != [] {
      EventKeepsCaptures(p.task, p.queue[0].0, p.queue[0].1, env);
      assert p.queue == [p.queue[0]] + p.queue[1..];
    }
  }

  lemma RequestKeepsKnown(s: System, r: Request, env: Env)
    requires QueueKnown(s) && OnRequest(s.task, r, env).outcome != Panicked && (r.CreateRequest? || r.DestroyRequest?)
    ensures QueueKnown(Commit(s, OnRequest(s.task, r, env))) <==> !(r.DestroyRequest? && InQueue(s.queue, r.handle))
  {
    RequestChangesCaptures(s.task, r, env);
    forall d | d in s.queue
      ensures r.CreateRequest? ==> Lookup(OnRequest(s.task, r, env).task.captures, d.0).Some?
      ensures r.DestroyRequest? ==> (Lookup(OnRequest(s.task, r, env).task.captures, d.0).Some? <==> d.0 != r.handle)
    {
      if r.CreateRequest? {
        FoundAfterCreate(s.task.captures, Entry(r.handle, r.key, r.kind), d.0);
      } else {
        FoundAfterDestroy(s.task.captures, r.handle, d.0);
      }
    }
  }

  /** A move keeps every queued delivery answerable exactly when it does not
      destroy a capture with a delivery queued. */
  lemma KnownExactly(s: System, m: Move)
    requires QueueKnown(s) && Tidy(s) && Allowed(s, m)
    ensures QueueKnown(Perform(s, m)) <==> !DestroysQueued(s, m)
    ensures Tidy(Perform(s, m))
  {
    match m
    case DeliverMove(env) => DeliverKeepsKnown(s, env);
    case TaskMove(stimulus, env) =>
      PanicsExactly(s, m);
      if stimulus.Requested? && (stimulus.request.CreateRequest? || stimulus.request.DestroyRequest?) {
        RequestKeepsKnown(s, stimulus.request, env);
      } else {
        ArmKeepsCaptures(s.task, stimulus, env);
      }
    case _ =>
  }

  // ----- handles listed twice -----

  /** Between sessions nothing checks whether a handle is on the list already. */
  predicate Doubles(s: System, m: Move) {
    m.DownMove? && m.request.CreateRequest? && Lookup(s.task.captures, m.request.handle).Some?
  }

  lemma {:induction false} RemoveKeepsDistinct(captures: seq<Entry>, h: Handle)
    requires Distinct(Regs(captures))
    ensures Distinct(Regs(RemoveCapture(captures, h)))
    decreases |captures|
  {
    if captures != [] {
      var n := |captures| - 1;
      assert captures == captures[..n] + [captures[n]];
      DistinctSnoc(captures[..n], captures[n]);
      RemoveKeepsDistinct(captures[..n], h);
      if captures[n].handle != h {
        DistinctSnoc(RemoveCapture(captures[..n], h), captures[n]);
        var found := Lookup(RemoveCapture(captures[..n], h), captures[n].handle);
        if found.Some? { RemovedExactly(captures[..n], h, found.value); }
      }
    }
  }

  lemma RequestKeepsDistinct(t: Task, r: Request, env: Env)
    requires Distinct(Regs(t.captures)) && !Mistaken(t.captures, r)
    ensures Distinct(Regs(OnRequest(t, r, env).task.captures))
  {
    if r.CreateRequest? {
      DistinctSnoc(t.captures, Entry(r.handle, r.key, r.kind));
    } else if r.DestroyRequest? {
      RemoveKeepsDistinct(t.captures, r.handle);
    }
  }

  /** A move leaves a handle listed twice exactly when it creates a listed one
      between sessions. */
  lemma DistinctExactly(s: System, m: Move)
    requires Distinct(Regs(s.task.captures)) && Allowed(s, m)
    ensures Distinct(Regs(Perform(s, m).task.captures)) <==> !Doubles(s, m)
  {
    match m
    case DeliverMove(env) =>
      var p := Polled(s);
      if p.queue != [] { EventKeepsCaptures(p.task, p.queue[0].0, p.queue[0].1, env); }
    case TaskMove(stimulus, env) =>
      if stimulus.Requested? {
        RequestKeepsDistinct(s.task, stimulus.request, env);
      } else {
        ArmKeepsCaptures(s.task, stimulus, env);
      }
    case DownMove(r) =>
      if r.CreateRequest? {
        DistinctSnoc(s.task.captures, Entry(r.handle, r.key, r.kind));
      } else if r.DestroyRequest? {
        RemoveKeepsDistinct(s.task.captures, r.handle);
      }
    case _ =>
  }

  // ----- whole runs -----

  /** What callers can see to: a capture is destroyed only while it is registered
      and has nothing queued, and created only while it is not listed. */
  predicate Considerate(s: System, m: Move) {
    && !DestroysQueued(s, m)
    && !Doubles(s, m)
    && (m.TaskMove? && m.stimulus.Requested? ==> !Mistaken(s.task.captures, m.stimulus.request))
  }

  predicate AllConsiderate(start: System, moves: seq<Move>) {
    forall i :: 0 <= i < |moves| ==>
      Offered(GrabSafety.After(start, moves[..i]), moves[i]) && Considerate(GrabSafety.After(start, moves[..i]), moves[i])
  }

  ghost predicate Safe(s: System) {
    QueueKnown(s) && Tidy(s) && Distinct(Regs(s.task.captures))
  }

  lemma SafeDoesNotPanic(s: System, m: Move)
    requires Safe(s) && Offered(s, m) && Considerate(s, m)
    ensures !Panics(s, m)
  {
    if m.DeliverMove? {
      var p := Polled(s);
      if s.queue == [] && s.events != [] { TakingIsKnown(s); }
      if p.queue != [] { assert p.queue[0] in p.queue; }
    }
  }

  lemma {:induction false} SafeEver(bind: seq<Scancode>, cfg: Config, now: nat, moves: seq<Move>)
    requires AllConsiderate(Boot(bind, cfg, now), moves)
    ensures Safe(GrabSafety.After(Boot(bind, cfg, now), moves))
    decreases |moves|
  {
    if moves != [] {
      var n := |moves| - 1;
      var s := GrabSafety.After(Boot(bind, cfg, now), moves[..n]);
      assert forall i | 0 <= i < n :: moves[..n][..i] == moves[..i];
      SafeEver(bind, cfg, now, moves[..n]);
      SafeDoesNotPanic(s, moves[n]);
      KnownExactly(s, moves[n]);
      DistinctExactly(s, moves[n]);
    }
  }

  /** No panic ever: in every run in which captures are created and destroyed with
      that much care, each move is one of the running program. */
  lemma NoPanicEver(bind: seq<Scancode>, cfg: Config, now: nat, moves: seq<Move>, i: nat)
    requires AllConsiderate(Boot(bind, cfg, now), moves) && i < |moves|
    ensures var s := GrabSafety.After(Boot(bind, cfg, now), moves[..i]);
            Outcomes(s, moves[i]) != Panicked && Allowed(s, moves[i])
  {
    assert forall j | 0 <= j < i :: moves[..i][..j] == moves[..j];
    SafeEver(bind, cfg, now, moves[..i]);
    var s := GrabSafety.After(Boot(bind, cfg, now), moves[..i]);
    SafeDoesNotPanic(s, moves[i]);
    PanicsExactly(s, moves[i]);
  }
}
