/** No orphaned grab: whenever the backend holds the cursor, the capture task
    knows, is about to be told, or has already asked for the release. */
module GrabSafety {
  import opened Types
  import opened Subscriptions
  import opened Capture
  import opened MacBackend
  import opened Handshake
  import CaptureRuns

  // ----- what registration means at both ends -----

  function Applied(calls: seq<ProducerEvent>, clients: set<BarrierKey>): set<BarrierKey> {
    if calls == [] then clients
    else
      match calls[|calls| - 1]
      case Create(k) => Applied(calls[..|calls| - 1], clients) + {k}
      case Destroy(k) => Applied(calls[..|calls| - 1], clients) - {k}
      case _ => Applied(calls[..|calls| - 1], clients)
  }

  /** With the queued calls handled, the backend knows the subscribed barriers. */
  ghost predicate InStep(captures: seq<Entry>, notify: seq<ProducerEvent>, clients: set<BarrierKey>) {
    forall k :: k in Applied(notify, clients) <==> Subscribers(Regs(captures), k) != []
  }

  predicate Kinded(captures: seq<Entry>) {
    forall c :: c in captures ==> c.kind == KindOf(c.handle)
  }

  predicate WellKinded(captures: seq<Entry>) {
    Distinct(Regs(captures)) && Kinded(captures)
  }

  lemma {:induction false} AppliedAppend(a: seq<ProducerEvent>, b: seq<ProducerEvent>, clients: set<BarrierKey>)
    ensures Applied(a + b, clients) == Applied(b, Applied(a, clients))
    decreases |b|
  {
    if b == [] {
      assert a + b == a;
    } else {
      assert (a + b)[..|a + b| - 1] == a + b[..|b| - 1];
      AppliedAppend(a, b[..|b| - 1], clients);
    }
  }

  lemma {:induction false} AppliedCons(calls: seq<ProducerEvent>, clients: set<BarrierKey>)
    requires calls != []
    ensures Applied(calls, clients) == Applied(calls[1..], Applied([calls[0]], clients))
  {
    assert calls == [calls[0]] + calls[1..];
    AppliedAppend([calls[0]], calls[1..], clients);
  }

  predicate Registers(call: ProducerEvent) { call.Create? || call.Destroy? }

  lemma {:induction false} AppliedIdle(calls: seq<ProducerEvent>, clients: set<BarrierKey>)
    requires forall c :: c in calls ==> !Registers(c)
    ensures Applied(calls, clients) == clients
  {
    if calls != [] {
      assert calls[|calls| - 1] in calls;
      AppliedIdle(calls[..|calls| - 1], clients);
    }
  }

  /** A barrier the backend still knows, but nobody subscribes to any more, has
      its Destroy queued. */
  lemma {:induction false} ForgottenIsDestroyed(calls: seq<ProducerEvent>, clients: set<BarrierKey>, k: BarrierKey)
    requires k in clients && k !in Applied(calls, clients)
    ensures Destroy(k) in calls
  {
    if calls != [] && k !in Applied(calls[..|calls| - 1], clients) {
      ForgottenIsDestroyed(calls[..|calls| - 1], clients, k);
    }
  }

  lemma CreateKeepsInStep(captures: seq<Entry>, e: Entry, notify: seq<ProducerEvent>, clients: set<BarrierKey>)
    requires InStep(captures, notify, clients)
    ensures InStep(captures + [e], notify + CreateCalls(Regs(captures), e.key), clients)
  {
    var regs, r := Regs(captures), Registration(e.handle, e.key);
    assert Regs(captures + [e]) == regs + [r];
    AppliedAppend(notify, CreateCalls(regs, e.key), clients);
    forall k ensures k in Applied(notify + CreateCalls(regs, e.key), clients) <==> Subscribers(regs + [r], k) != [] {
      SubscribersAppend(regs, r, k);
    }
  }

  /** Unregistering `h` changes who subscribes to its own barrier only. */
  lemma OthersKeepSubscribers(regs: seq<Registration>, h: Handle, key: BarrierKey, k: BarrierKey)
    requires Distinct(regs) && Registration(h, key) in regs
    ensures Subscribers(regs, key) != []
    ensures k != key ==> Subscribers(Without(regs, h), k) == Subscribers(regs, k)
  {
    SubscribersMembers(regs, key);
    assert h in Subscribers(regs, key);
    if k != key {
      assert Registration(h, k) !in regs;
      SubscribersRemove(regs, h, k);
    }
  }

  lemma DestroyKeepsInStep(captures: seq<Entry>, e: Entry, notify: seq<ProducerEvent>, clients: set<BarrierKey>)
    requires InStep(captures, notify, clients) && Distinct(Regs(captures)) && e in captures
    ensures InStep(RemoveCapture(captures, e.handle), notify + DestroyCalls(Regs(captures), e.handle, e.key), clients)
    ensures Distinct(Regs(RemoveCapture(captures, e.handle)))
  {
    var regs, h := Regs(captures), e.handle;
    var calls, before := DestroyCalls(regs, h, e.key), Applied(notify, clients);
    CaptureRuns.ListFollowsIndex(captures, h);
    WithoutMembers(regs, h);
    AppliedAppend(notify, calls, clients);
    assert Applied(calls, before) == if calls == [] then before else before - {e.key};
    var i :| 0 <= i < |captures| && captures[i] == e;
    assert regs[i] == Registration(h, e.key);
    forall k ensures k in Applied(calls, before) <==> Subscribers(Without(regs, h), k) != [] {
      OthersKeepSubscribers(regs, h, e.key, k);
    }
  }

  lemma {:induction false} CreatesReplay(captures: seq<Entry>)
    ensures InStep(captures, Creates(captures), {})
  {
    if captures != [] {
      var n := |captures| - 1;
      CreatesReplay(captures[..n]);
      CreateKeepsInStep(captures[..n], captures[n], Creates(captures[..n]), {});
      assert captures == captures[..n] + [captures[n]];
    } else {
      assert forall k :: Subscribers(Regs(captures), k) == [];
    }
  }

  lemma {:induction false} RemoveKeepsKinds(captures: seq<Entry>, h: Handle)
    ensures forall c :: c in RemoveCapture(captures, h) ==> c in captures
  {
    if captures != [] {
      RemoveKeepsKinds(captures[..|captures| - 1], h);
    }
  }

  // ----- the invariant -----

  /** Copies of a Begin still queued for a client, as opposed to a trigger. */
  predicate BeginQueued(queue: seq<Delivery>) {
    exists d :: d in queue && d.1 == Begin && KindOf(d.0) == Default
  }

  /** Someone will deal with the grab on `k`. */
  predicate Attended(s: System, k: BarrierKey) {
    || (k, Begin) in s.events
    || BeginQueued(s.queue)
    || s.task.state.Sending?
    || Release in s.notify
    || Destroy(k) in s.notify
  }

  predicate NoOrphanedGrab(s: System) {
    s.back.current.Some? ==> Attended(s, s.back.current.value)
  }

  /** Queued deliveries are copies of the last event taken, which, with the
      events still to be taken, tells what the backend is doing. */
  predicate Informed(s: System) {
    && (s.queue != [] ==>
          && s.polled.Some?
          && (forall d :: d in s.queue ==> d.1 == s.polled.value.1)
          && s.lastControl == if s.polled.value.1.Input? then Some((s.polled.value.0, Begin)) else s.polled)
    && Grammatical(s.lastControl, s.events)
    && Announced(s.back, LastControl(s.lastControl, s.events))
  }

  /** What ties the queues to what the backend is doing. */
  ghost predicate Coupled(s: System) {
    && Coherent(s.back)
    && Kinded(s.task.captures)
    && (forall p :: p in s.notify ==> !p.Grab?)
    && Informed(s)
    && (s.up ==> Distinct(Regs(s.task.captures)))
    && (!s.up ==> s.back == Fresh([]) && s.queue == [] && s.notify == [] && s.events == [])
  }

  /** And the backend's barriers to the captures. */
  ghost predicate Sound(s: System) {
    Coupled(s) && (s.up ==> InStep(s.task.captures, s.notify, s.back.clients))
  }

  ghost predicate Invariant(s: System) {
    Sound(s) && NoOrphanedGrab(s)
  }

  // ----- the moves that can strand a grab -----

  /** A system call fails where its failure loses track of the grab: showing the
      cursor when the grab is to end, or warping it when one begins. */
  predicate OsFails(b: Backend, p: ProducerEvent, os: Os) {
    || (!os.show && b.current.Some? && (p.Release? || p.EventTapDisabled? || p == Destroy(b.current.value)))
    || WarpFails(b, Producer(p, os))
  }

  /** A Begin reaches the task while the release bind counts as held and the
      task has nothing to release: the release is skipped, the Begin is lost. */
  predicate Swallows(s: System) {
    var p := Polled(s);
    p.queue != [] && p.queue[0].1 == Begin && ChordHeld(p.task) && SkipsRelease(p.task)
  }

  /** What remains to attend to a grab once the head of the calls is gone. */
  function WithoutCall(s: System): System
    requires s.notify != []
  {
    s.(notify := s.notify[1..])
  }

  function WithoutDelivery(s: System): System {
    var p := Polled(s);
    if p.queue == [] then p else p.(queue := p.queue[1..])
  }

  /** One of the two failures hits a grab that nothing else attends to. */
  predicate Strands(s: System, m: Move) {
    match m
    case ProduceMove(os) =>
      && s.notify != [] && OsFails(s.back, s.notify[0], os)
      && !Attended(WithoutCall(s), if s.back.current.Some? then s.back.current.value else s.notify[0].key)
    case DeliverMove(_) =>
      Swallows(s) && s.back.current.Some? && !Attended(WithoutDelivery(s), s.back.current.value)
    case _ => false
  }

  /** No promotion fails to warp the cursor. */
  predicate Smooth(s: System, m: Move) {
    m.ProduceMove? && s.notify != [] ==> !WarpFails(s.back, Producer(s.notify[0], m.os))
  }

  /** The grabbed barrier is to go, and showing the cursor fails: the backend
      keeps a barrier that nobody subscribes to. */
  predicate Clings(b: Backend, p: ProducerEvent, os: Os) {
    !os.show && b.current.Some? && p == Destroy(b.current.value)
  }

  predicate Clinging(s: System, m: Move) {
    m.ProduceMove? && s.notify != [] && Clings(s.back, s.notify[0], m.os)
  }

  /** What runs are asked for: no stranding, and neither of the two failures that
      leave the backend out of step. */
  predicate Benign(s: System, m: Move) {
    !Strands(s, m) && Smooth(s, m) && !Clinging(s, m)
  }

  // ----- backend moves -----

  lemma TapKeepsCoupled(s: System, e: TapEvent)
    requires Coupled(s) && s.up
    ensures Coupled(Perform(s, TapMove(e)))
  {
    StepKeepsCoherent(s.back, Tapped(e));
    StepIsGrammatical(s.back, Tapped(e), s.lastControl, s.events);
  }

  lemma TapKeeps(s: System, e: TapEvent)
    requires Invariant(s) && s.up
    ensures Invariant(Perform(s, TapMove(e)))
  {
    TapKeepsCoupled(s, e);
    var posted := Tap(s.back, e).2;
    AppliedAppend(s.notify, posted, s.back.clients);
    AppliedIdle(posted, Applied(s.notify, s.back.clients));
  }

  lemma ProduceAppliesFirst(b: Backend, notify: seq<ProducerEvent>, os: Os)
    requires notify != [] && !notify[0].Grab? && !Clings(b, notify[0], os)
    ensures Applied(notify[1..], HandleProducer(b, notify[0], os).0.clients) == Applied(notify, b.clients)
  {
    AppliedCons(notify, b.clients);
    assert Applied([notify[0]], b.clients) == HandleProducer(b, notify[0], os).0.clients by {
      assert [notify[0]][..0] == [];
    }
  }

  lemma ProduceKeepsCoupled(s: System, os: Os)
    requires Coupled(s) && s.up && s.notify != [] && !WarpFails(s.back, Producer(s.notify[0], os))
    ensures Coupled(Perform(s, ProduceMove(os)))
  {
    var p := s.notify[0];
    assert s.notify == [p] + s.notify[1..];
    assert p in s.notify;
    StepKeepsCoherent(s.back, Producer(p, os));
    StepIsGrammatical(s.back, Producer(p, os), s.lastControl, s.events);
  }

  /** A producer event ends the grab, begins one and announces it, or leaves it. */
  lemma ProducerAndGrab(b: Backend, p: ProducerEvent, os: Os)
    requires !p.Grab? && !OsFails(b, p, os)
    ensures var (b', out) := HandleProducer(b, p, os);
            b'.current.Some? ==> (b'.current.value, Begin) in out
                                 || (b'.current == b.current && !p.Release? && p != Destroy(b'.current.value))
  {
    if p.StartCapture? && HandleProducer(b, p, os).0.current != b.current {
      assert (p.key, Begin) == HandleProducer(b, p, os).1[0];
    }
  }

  /** If it fails, the grab stays, or begins unannounced. */
  lemma FailedProducer(b: Backend, p: ProducerEvent, os: Os)
    requires Coherent(b) && OsFails(b, p, os)
    ensures var (b', out) := HandleProducer(b, p, os);
            out == [] && b'.current == Some(if b.current.Some? then b.current.value else p.key)
  {
  }

  lemma ProduceStrandsExactly(s: System, os: Os)
    requires Invariant(s) && s.up && s.notify != []
    ensures NoOrphanedGrab(Perform(s, ProduceMove(os))) <==> !Strands(s, ProduceMove(os))
  {
    var p := s.notify[0];
    assert p in s.notify;
    assert s.notify == [p] + s.notify[1..];
    if OsFails(s.back, p, os) {
      FailedProducer(s.back, p, os);
      assert s.events + [] == s.events;
    } else {
      ProducerAndGrab(s.back, p, os);
    }
  }

  /** A producer event keeps the invariant exactly when it strands no grab, as
      long as it is not one of the two that put the backend out of step. */
  lemma ProduceKeeps(s: System, os: Os)
    requires Invariant(s) && s.up && s.notify != [] && Smooth(s, ProduceMove(os)) && !Clinging(s, ProduceMove(os))
    ensures Invariant(Perform(s, ProduceMove(os))) <==> !Strands(s, ProduceMove(os))
  {
    assert s.notify[0] in s.notify;
    ProduceKeepsCoupled(s, os);
    ProduceAppliesFirst(s.back, s.notify, os);
    ProduceStrandsExactly(s, os);
  }

  // ----- task moves -----

  /** An arm either leaves the captures alone and registers nothing, or adds or
      removes one capture and tells the backend if its barrier changed. */
  ghost predicate Registering(t: Task, out: Out) {
    || (out.task.captures == t.captures && forall c :: c in out.calls ==> !Registers(c))
    || (exists e :: out.task.captures == t.captures + [e] && out.calls == CreateCalls(Regs(t.captures), e.key)
                    && Lookup(t.captures, e.handle).None? && e.kind == KindOf(e.handle))
    || (exists e :: e in t.captures && out.task.captures == RemoveCapture(t.captures, e.handle)
                    && out.calls == DestroyCalls(Regs(t.captures), e.handle, e.key))
  }

  /** So the captures stay well kinded. */
  lemma RegisteringKeepsKinds(t: Task, out: Out)
    requires WellKinded(t.captures) && Registering(t, out)
    ensures WellKinded(out.task.captures)
  {
    if out.task.captures == t.captures && forall c :: c in out.calls ==> !Registers(c) {
    } else if e :| out.task.captures == t.captures + [e] && out.calls == CreateCalls(Regs(t.captures), e.key)
                   && Lookup(t.captures, e.handle).None? && e.kind == KindOf(e.handle) {
      DistinctSnoc(t.captures, e);
    } else {
      var e :| e in t.captures && out.task.captures == RemoveCapture(t.captures, e.handle)
               && out.calls == DestroyCalls(Regs(t.captures), e.handle, e.key);
      CaptureRuns.ListFollowsIndex(t.captures, e.handle);
      WithoutMembers(Regs(t.captures), e.handle);
      RemoveKeepsKinds(t.captures, e.handle);
    }
  }

  lemma CommitKeepsCoupled(s: System, out: Out)
    requires Coupled(s) && s.up && Registering(s.task, out) && forall c :: c in out.calls ==> !c.Grab?
    ensures Coupled(Commit(s, out))
  {
    RegisteringKeepsKinds(s.task, out);
  }

  lemma CommitKeepsInStep(s: System, out: Out)
    requires Sound(s) && s.up && Registering(s.task, out)
    ensures InStep(out.task.captures, s.notify + out.calls, s.back.clients)
  {
    var t := s.task;
    if out.task.captures == t.captures && forall c :: c in out.calls ==> !Registers(c) {
      AppliedAppend(s.notify, out.calls, s.back.clients);
      AppliedIdle(out.calls, Applied(s.notify, s.back.clients));
    } else if e :| out.task.captures == t.captures + [e] && out.calls == CreateCalls(Regs(t.captures), e.key)
                   && Lookup(t.captures, e.handle).None? && e.kind == KindOf(e.handle) {
      CreateKeepsInStep(t.captures, e, s.notify, s.back.clients);
    } else {
      var e :| e in t.captures && out.task.captures == RemoveCapture(t.captures, e.handle)
               && out.calls == DestroyCalls(Regs(t.captures), e.handle, e.key);
      DestroyKeepsInStep(t.captures, e, s.notify, s.back.clients);
    }
  }

  lemma CommitKeepsSound(s: System, out: Out)
    requires Sound(s) && s.up && Registering(s.task, out) && forall c :: c in out.calls ==> !c.Grab?
    ensures Sound(Commit(s, out))
  {
    CommitKeepsCoupled(s, out);
    CommitKeepsInStep(s, out);
  }

  lemma CreateRegisters(t: Task, r: Request, env: Env)
    requires r.CreateRequest? && Proper(r) && Lookup(t.captures, r.handle).None?
    ensures Registering(t, OnRequest(t, r, env))
  {
    var e := Entry(r.handle, r.key, r.kind);
    assert OnRequest(t, r, env).task.captures == t.captures + [e];
  }

  lemma RequestRegisters(t: Task, r: Request, env: Env)
    requires Proper(r) && !Mistaken(t.captures, r)
    ensures Registering(t, OnRequest(t, r, env))
    ensures forall c :: c in OnRequest(t, r, env).calls ==> !c.Grab?
    ensures t.state.Sending? && !OnRequest(t, r, env).task.state.Sending? ==> Release in OnRequest(t, r, env).calls
  {
    if r.CreateRequest? { CreateRegisters(t, r, env); }
  }

  lemma MessageRegisters(t: Task, h: Handle, m: Message, env: Env)
    ensures var out := OnMessage(t, h, m, env);
            && Registering(t, out) && (forall c :: c in out.calls ==> !c.Grab?)
            && (t.state.Sending? && !out.task.state.Sending? ==> Release in out.calls)
  {
  }

  /** Outside capture events, Sending is only left by asking for the release. */
  lemma ArmRegisters(t: Task, stimulus: Stimulus, env: Env)
    requires !stimulus.Captured?
    requires stimulus.Requested? ==> Proper(stimulus.request) && !Mistaken(t.captures, stimulus.request)
    ensures Registering(t, Arm(t, stimulus, env))
    ensures forall c :: c in Arm(t, stimulus, env).calls ==> !c.Grab?
    ensures t.state.Sending? && !Arm(t, stimulus, env).task.state.Sending? ==> Release in Arm(t, stimulus, env).calls
  {
    match stimulus
    case Requested(r) => RequestRegisters(t, r, env);
    case FromPeer(h, m) => MessageRegisters(t, h, m, env);
    case _ =>
  }

  lemma TaskKeeps(s: System, stimulus: Stimulus, env: Env)
    requires Invariant(s) && Allowed(s, TaskMove(stimulus, env))
    ensures Invariant(Perform(s, TaskMove(stimulus, env)))
  {
    ArmRegisters(s.task, stimulus, env);
    CommitKeepsSound(s, Arm(s.task, stimulus, env));
  }

  // ----- deliveries -----

  lemma TakingKeepsCoupled(s: System)
    requires Coupled(s) && s.up && s.queue == [] && s.events != []
    ensures Coupled(Taking(s))
  {
    LastControlCons(s.lastControl, s.events);
    GrammaticalTail(s.lastControl, s.events);
    assert s.events[..0] == [];
    assert Follows(s.lastControl, s.events[0]);
  }

  /** The grab was announced to nobody but triggers, and they are next. */
  predicate TriggersOnly(s: System, k: BarrierKey) {
    && s.polled == Some((k, Begin))
    && s.queue == FanOut(Subscribers(Regs(s.task.captures), k), Begin)
    && s.queue != []
    && !DefaultAt(s.task.captures, k)
  }

  lemma TakingAttends(s: System, k: BarrierKey)
    requires Invariant(s) && s.up && s.queue == [] && s.events != [] && s.back.current == Some(k)
    ensures Attended(Taking(s), k) || TriggersOnly(Taking(s), k)
  {
    var p := Taking(s);
    var regs := Regs(s.task.captures);
    assert s.events == [s.events[0]] + p.events;
    if s.events[0] == (k, Begin) {
      if Subscribers(regs, k) == [] {
        ForgottenIsDestroyed(s.notify, s.back.clients, k);
      } else if DefaultAt(s.task.captures, k) {
        var c :| c in s.task.captures && c.key == k && c.kind == Default;
        var i :| 0 <= i < |s.task.captures| && s.task.captures[i] == c;
        assert regs[i] == Registration(c.handle, k);
        SubscribersMembers(regs, k);
        var j :| 0 <= j < |Subscribers(regs, k)| && Subscribers(regs, k)[j] == c.handle;
        assert p.queue[j] == (c.handle, Begin);
        assert p.queue[j] in p.queue;
      }
    }
  }

  /** Unless it takes the client to Pending, a capture event only ends Sending
      by asking for the release. */
  lemma EventEffects(t: Task, h: Handle, e: CaptureEvent, env: Env)
    requires HandleCaptureEvent(t, h, e, env).outcome != Panicked
    ensures Registering(t, HandleCaptureEvent(t, h, e, env))
    ensures forall c :: c in HandleCaptureEvent(t, h, e, env).calls ==> !c.Grab?
    ensures t.state.Sending? && !HandleCaptureEvent(t, h, e, env).task.state.Sending? && e != BeginPending ==>
              Release in HandleCaptureEvent(t, h, e, env).calls
  {
  }

  /** A Begin that is not swallowed is attended to. */
  lemma BeginEffects(t: Task, h: Handle, env: Env)
    requires HandleCaptureEvent(t, h, Begin, env).outcome != Panicked && !(ChordHeld(t) && SkipsRelease(t))
    requires WellKinded(t.captures)
    ensures var out := HandleCaptureEvent(t, h, Begin, env);
            KindOf(h) == Default ==> out.task.state.Sending? || Release in out.calls
    ensures var out := HandleCaptureEvent(t, h, Begin, env);
            Lookup(t.captures, h).Some? && KindOf(h) == EnterOnly && !DefaultAt(t.captures, Lookup(t.captures, h).value.key) ==>
              Release in out.calls
  {
  }

  lemma FirstTrigger(captures: seq<Entry>, k: BarrierKey)
    requires WellKinded(captures) && Subscribers(Regs(captures), k) != [] && !DefaultAt(captures, k)
    ensures var h := Subscribers(Regs(captures), k)[0];
            Lookup(captures, h).Some? && Lookup(captures, h).value.key == k && KindOf(h) == EnterOnly
  {
    var regs := Regs(captures);
    var h := Subscribers(regs, k)[0];
    SubscribersMembers(regs, k);
    assert h in Subscribers(regs, k);
    var i :| 0 <= i < |regs| && regs[i] == Registration(h, k);
    assert captures[i] in captures && captures[i].handle == h && captures[i].key == k;
    var e := Lookup(captures, h).value;
    var j :| 0 <= j < |captures| && captures[j] == e;
    assert regs[j].handle == regs[i].handle;
  }

  /** Handling the head of the queue keeps the grab attended. */
  lemma HandlingAttends(p: System, k: BarrierKey, env: Env)
    requires Sound(p) && p.up && p.queue != [] && p.back.current == Some(k)
    requires Attended(p, k) || TriggersOnly(p, k)
    requires HandleCaptureEvent(p.task, p.queue[0].0, p.queue[0].1, env).outcome != Panicked
    requires !(p.queue[0].1 == Begin && ChordHeld(p.task) && SkipsRelease(p.task))
    ensures Attended(Commit(p.(queue := p.queue[1..]), HandleCaptureEvent(p.task, p.queue[0].0, p.queue[0].1, env)), k)
  {
    var (h, e) := p.queue[0];
    var out := HandleCaptureEvent(p.task, h, e, env);
    var s' := Commit(p.(queue := p.queue[1..]), out);
    EventEffects(p.task, h, e, env);
    assert p.queue[0] in p.queue;
    assert p.queue == [p.queue[0]] + p.queue[1..];
    LastControlIsLogged(p.lastControl, p.events);
    if e == Begin {
      BeginEffects(p.task, h, env);
      if TriggersOnly(p, k) {
        FirstTrigger(p.task.captures, k);
      }
    }
  }

  lemma HandlingKeepsCoupled(p: System, env: Env)
    requires Coupled(p) && p.up && p.queue != [] && HandleCaptureEvent(p.task, p.queue[0].0, p.queue[0].1, env).outcome != Panicked
    ensures Coupled(Commit(p.(queue := p.queue[1..]), HandleCaptureEvent(p.task, p.queue[0].0, p.queue[0].1, env)))
  {
    EventEffects(p.task, p.queue[0].0, p.queue[0].1, env);
    assert p.queue == [p.queue[0]] + p.queue[1..];
    CommitKeepsCoupled(p.(queue := p.queue[1..]), HandleCaptureEvent(p.task, p.queue[0].0, p.queue[0].1, env));
  }

  lemma DeliverKeepsCoupled(s: System, env: Env)
    requires Coupled(s) && Allowed(s, DeliverMove(env))
    ensures Coupled(Perform(s, DeliverMove(env)))
  {
    var p := Polled(s);
    if s.queue == [] && s.events != [] { TakingKeepsCoupled(s); }
    if p.queue != [] {
      EventPanicsExactly(p.task, p.queue[0].0, p.queue[0].1, env);
      HandlingKeepsCoupled(p, env);
    }
  }

  lemma DeliverKeepsSound(s: System, env: Env)
    requires Sound(s) && Allowed(s, DeliverMove(env))
    ensures Sound(Perform(s, DeliverMove(env)))
  {
    DeliverKeepsCoupled(s, env);
    var p := Polled(s);
    if s.queue == [] && s.events != [] { TakingKeepsCoupled(s); }
    if p.queue != [] {
      EventPanicsExactly(p.task, p.queue[0].0, p.queue[0].1, env);
      EventEffects(p.task, p.queue[0].0, p.queue[0].1, env);
      CommitKeepsInStep(p, HandleCaptureEvent(p.task, p.queue[0].0, p.queue[0].1, env));
    }
  }

  lemma DeliverAttends(s: System, env: Env)
    requires Invariant(s) && Allowed(s, DeliverMove(env)) && !Swallows(s)
    ensures NoOrphanedGrab(Perform(s, DeliverMove(env)))
  {
    var p := Polled(s);
    if s.queue == [] && s.events != [] {
      TakingKeepsCoupled(s);
      if s.back.current.Some? { TakingAttends(s, s.back.current.value); }
    }
    if p.queue != [] {
      EventPanicsExactly(p.task, p.queue[0].0, p.queue[0].1, env);
      if p.back.current.Some? { HandlingAttends(p, p.back.current.value, env); }
    }
  }

  lemma SwallowChangesNothing(s: System, env: Env)
    requires Swallows(s)
    ensures var s', w := Deliver(s, env), WithoutDelivery(s);
            s'.back == s.back && s'.events == w.events && s'.queue == w.queue && s'.notify == w.notify && s'.task.state == w.task.state
  {
    var p := Polled(s);
    assert ReleaseCapture(p.task, env).calls == [];
    assert p.notify + [] == p.notify;
  }

  /** A delivery keeps the invariant exactly when it strands no grab. */
  lemma DeliverKeeps(s: System, env: Env)
    requires Invariant(s) && Allowed(s, DeliverMove(env))
    ensures Invariant(Perform(s, DeliverMove(env))) <==> !Strands(s, DeliverMove(env))
  {
    DeliverKeepsSound(s, env);
    if Swallows(s) {
      SwallowChangesNothing(s, env);
    } else {
      DeliverAttends(s, env);
    }
  }

  // ----- between sessions -----

  lemma DownKeepsKinds(captures: seq<Entry>, r: Request, t: Task)
    requires Kinded(captures) && Proper(r) && t.captures == captures
    ensures Kinded(OnRequestWhileDown(t, r).captures)
  {
    if r.DestroyRequest? { RemoveKeepsKinds(captures, r.handle); }
  }

  lemma {:induction false} CreatesOnlyCreate(captures: seq<Entry>)
    ensures forall p :: p in Creates(captures) ==> p.Create?
  {
    if captures != [] { CreatesOnlyCreate(captures[..|captures| - 1]); }
  }

  lemma ReenableKeeps(s: System, ds: seq<Display>)
    requires Invariant(s) && Allowed(s, Reenable(ds))
    ensures Invariant(Perform(s, Reenable(ds)))
  {
    CreatesReplay(s.task.captures);
    CreatesOnlyCreate(s.task.captures);
  }

  lemma ReconfigureKeeps(s: System, ds: seq<Display>)
    requires Invariant(s) && s.up
    ensures Invariant(Perform(s, ReconfigureMove(ds)))
  {
    AppliedAppend(s.notify, [DisplayReconfigured(ds)], s.back.clients);
    AppliedIdle([DisplayReconfigured(ds)], Applied(s.notify, s.back.clients));
  }

  // ----- whole runs -----

  /** The queues stay tied to the backend as long as no promotion fails to warp,
      whatever else fails. */
  lemma MoveKeepsCoupled(s: System, m: Move)
    requires Coupled(s) && Allowed(s, m) && Smooth(s, m)
    ensures Coupled(Perform(s, m))
  {
    match m
    case TapMove(e) => TapKeepsCoupled(s, e);
    case ProduceMove(os) => ProduceKeepsCoupled(s, os);
    case DeliverMove(env) => DeliverKeepsCoupled(s, env);
    case TaskMove(stimulus, env) =>
      ArmRegisters(s.task, stimulus, env);
      CommitKeepsCoupled(s, Arm(s.task, stimulus, env));
    case EndSession =>
    case DownMove(r) => DownKeepsKinds(s.task.captures, r, s.task);
    case Reenable(ds) => CreatesOnlyCreate(s.task.captures);
    case ReconfigureMove(ds) =>
  }

  lemma MoveKeeps(s: System, m: Move)
    requires Invariant(s) && Allowed(s, m) && Smooth(s, m) && !Clinging(s, m)
    ensures Invariant(Perform(s, m)) <==> !Strands(s, m)
  {
    match m
    case TapMove(e) => TapKeeps(s, e);
    case ProduceMove(os) => ProduceKeeps(s, os);
    case DeliverMove(env) => DeliverKeeps(s, env);
    case TaskMove(stimulus, env) => TaskKeeps(s, stimulus, env);
    case EndSession =>
    case DownMove(r) => DownKeepsKinds(s.task.captures, r, s.task);
    case Reenable(ds) => ReenableKeeps(s, ds);
    case ReconfigureMove(ds) => ReconfigureKeeps(s, ds);
  }

  function After(start: System, moves: seq<Move>): System {
    if moves == [] then start
    else Perform(After(start, moves[..|moves| - 1]), moves[|moves| - 1])
  }

  predicate AllAllowed(start: System, moves: seq<Move>) {
    forall i :: 0 <= i < |moves| ==> Allowed(After(start, moves[..i]), moves[i])
  }

  predicate Happens(start: System, moves: seq<Move>) {
    forall i :: 0 <= i < |moves| ==>
      Allowed(After(start, moves[..i]), moves[i]) && Benign(After(start, moves[..i]), moves[i])
  }

  lemma HappensPrefix(start: System, moves: seq<Move>)
    requires moves != [] && Happens(start, moves)
    ensures Happens(start, moves[..|moves| - 1])
    ensures var s := After(start, moves[..|moves| - 1]);
            Allowed(s, moves[|moves| - 1]) && Benign(s, moves[|moves| - 1])
  {
    var n := |moves| - 1;
    forall i | 0 <= i < n
      ensures Allowed(After(start, moves[..n][..i]), moves[..n][i]) && Benign(After(start, moves[..n][..i]), moves[..n][i])
    {
      assert moves[..n][..i] == moves[..i];
    }
  }

  lemma {:induction false} InvariantEver(start: System, moves: seq<Move>)
    requires Invariant(start) && Happens(start, moves)
    ensures Invariant(After(start, moves))
    decreases |moves|
  {
    if moves != [] {
      HappensPrefix(start, moves);
      InvariantEver(start, moves[..|moves| - 1]);
      MoveKeeps(After(start, moves[..|moves| - 1]), moves[|moves| - 1]);
    }
  }

  lemma BootIsSound(bind: seq<Scancode>, cfg: Config, now: nat)
    ensures Invariant(Boot(bind, cfg, now))
  {
  }

  /** In every reachable state of the task, both queues and the backend, across
      session restarts, a grab is attended to. */
  lemma NoOrphanedGrabEver(bind: seq<Scancode>, cfg: Config, now: nat, moves: seq<Move>)
    requires Happens(Boot(bind, cfg, now), moves)
    ensures NoOrphanedGrab(After(Boot(bind, cfg, now), moves))
  {
    BootIsSound(bind, cfg, now);
    InvariantEver(Boot(bind, cfg, now), moves);
  }

  // ----- exactly when a grab is stranded -----

  /** From any state of the invariant, a move strands a grab exactly when a
      system call fails at the wrong moment or a skipped release swallows the
      Begin, with nothing else on its way. */
  lemma StrandsExactly(s: System, m: Move)
    requires Invariant(s) && Allowed(s, m)
    ensures NoOrphanedGrab(Perform(s, m)) <==> !Strands(s, m)
  {
    if m.ProduceMove? {
      ProduceStrandsExactly(s, m.os);
    } else {
      MoveKeeps(s, m);
      if m.DeliverMove? { DeliverKeepsSound(s, m.env); }
    }
  }
}
