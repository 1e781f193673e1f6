/** No phantom keys: a key stays down on the controlled machine only for a peer
    that was heard from recently, across sessions, disables and re-enables and
    any loss, duplication or reordering of messages. */
module PhantomKeys {
  import opened Types
  import opened Emulation
  import opened EmulationRuns
  import opened EmulationService

  datatype Turn =
    | Message(addr: Addr, message: PeerMessage, at: nat)
    | Disconnected(addr: Addr)
    | Tick(silent: seq<Addr>, at: nat)
    | Notice
    | Request(request: ProxyRequest)
    | Take(ok: bool, order: seq<nat>, accepted: nat, closing: seq<Op>)
    | Created(handles: set<Handle>)
    | CreateFailed

  function Advance(s: Service, t: Turn): Service {
    match t
    case Message(a, m, at) => OnMessage(s, a, m, at)
    case Disconnected(a) => OnDisconnected(s, a)
    case Tick(silent, at) => OnTick(s, silent, at)
    case Notice => OnNotice(s)
    case Request(r) => s.(requests := s.requests + [r])
    case Take(ok, order, accepted, closing) => if s.requests == [] then s else TakeRequest(s, ok, order, accepted, closing)
    case Created(hs) => if s.phase.Creating? then OnCreated(s, hs) else s
    case CreateFailed => if s.phase.Creating? then s.(phase := Waiting) else s
  }

  // ----- what the outside may do -----

  /** A closing sequence closes every handle and loses no key. */
  ghost predicate Closes(os: EmulationRuns.State, closing: seq<Op>) {
    && (forall i :: 0 <= i < |closing| ==> closing[i].Close? && !Loses(RunOps(os, closing[..i]), closing[i])
                                           && Possible(RunOps(os, closing[..i]).emulator, closing[i]))
    && RunOps(os, closing).emulator.handles == {}
  }

  /** Time does not run backwards, sets drain their own elements, and the backend
      rejects no key release that matters: see `Loses`. The service itself only
      asks for re-enable and terminate. */
  ghost predicate Feasible(s: Service, t: Turn) {
    match t
    case Message(_, _, at) => s.now <= at
    case Tick(silent, at) => s.now <= at && Lists(silent, Silent(s.lastResponse, at))
    case Request(r) => r.ReenableRequest? || r.TerminateRequest?
    case Take(ok, order, accepted, closing) =>
      s.requests != [] && s.phase.Running? ==> (
        match s.requests[0]
        case InputRequest(event, addr) =>
          var u := s.(requests := s.requests[1..]);
          && (addr in s.handles ==> !Loses(s.os, Play(s.handles[addr], event, ok)))
          && (PlayFails(u, event, addr, ok) ==> Closes(PlayInput(u, event, addr, ok).os, closing))
        case RemoveRequest(addr) =>
          addr in s.handles ==> Lists(order, KeysOf(s.os.emulator, s.handles[addr])) && !Loses(s.os, Close(s.handles[addr], order, accepted))
        case TerminateRequest => Closes(s.os, closing)
        case ReenableRequest => true)
    case Created(hs) => hs <= s.handles.Values
    case _ => true
  }

  // ----- the invariant -----

  predicate Owed(s: Service, addr: Addr) {
    addr in s.lastResponse || RemoveRequest(addr) in s.requests
  }

  /** An input still queued for a peer that is gone has a removal behind it. */
  predicate InputsCovered(lastResponse: map<Addr, nat>, requests: seq<ProxyRequest>) {
    forall i :: 0 <= i < |requests| && requests[i].InputRequest? ==>
      requests[i].addr in lastResponse || RemoveRequest(requests[i].addr) in requests[i + 1..]
  }

  predicate Bookkept(s: Service) {
    && Tidy(s.os.emulator)
    && (!s.phase.Running? ==> s.os.emulator.handles == {})
    && s.os.emulator.handles <= s.handles.Values
    && (forall a, b :: a in s.handles && b in s.handles && s.handles[a] == s.handles[b] ==> a == b)
    && (forall a :: a in s.handles ==> s.handles[a] < s.nextId)
    && (forall a :: a in s.handles && KeysOf(s.os.emulator, s.handles[a]) != {} ==> Owed(s, a))
    && InputsCovered(s.lastResponse, s.requests)
  }

  /** At the last tick nobody had been silent for longer than the limit. */
  predicate Recent(s: Service) {
    && s.lastTick <= s.now
    && forall a :: a in s.lastResponse ==> s.lastResponse[a] <= s.now && s.lastTick - s.lastResponse[a] <= SILENCE_LIMIT
  }

  ghost predicate Invariant(s: Service) {
    Tracked(s.os.emulator, s.os.log) && Bookkept(s) && Recent(s)
  }

  // ----- the listener keeps it -----

  lemma CoveredAppend(lastResponse: map<Addr, nat>, requests: seq<ProxyRequest>, more: seq<ProxyRequest>, lastResponse': map<Addr, nat>)
    requires InputsCovered(lastResponse, requests)
    requires forall r :: r in more && r.InputRequest? ==> r.addr in lastResponse'
    requires forall a :: a in lastResponse ==> a in lastResponse' || RemoveRequest(a) in more
    ensures InputsCovered(lastResponse', requests + more)
  {
    var all := requests + more;
    forall i | 0 <= i < |all| && all[i].InputRequest?
      ensures all[i].addr in lastResponse' || RemoveRequest(all[i].addr) in all[i + 1..]
    {
      if i < |requests| {
        assert all[i + 1..] == requests[i + 1..] + more;
      } else {
        assert all[i] in more;
      }
    }
  }

  lemma MessageKeeps(s: Service, a: Addr, m: PeerMessage, at: nat)
    requires Invariant(s) && s.now <= at
    ensures Invariant(OnMessage(s, a, m, at))
  {
    var s' := OnMessage(s, a, m, at);
    var more := match m
      case InputMessage(event) => if s.active then [InputRequest(event, a)] else []
      case LeaveMessage => [RemoveRequest(a)]
      case OtherMessage => [];
    assert s'.requests == s.requests + more;
    CoveredAppend(s.lastResponse, s.requests, more, s'.lastResponse);
  }

  lemma DisconnectKeeps(s: Service, a: Addr)
    requires Invariant(s)
    ensures Invariant(OnDisconnected(s, a))
  {
    CoveredAppend(s.lastResponse, s.requests, [RemoveRequest(a)], s.lastResponse - {a});
  }

  lemma TickKeeps(s: Service, silent: seq<Addr>, at: nat)
    requires Invariant(s) && s.now <= at && Lists(silent, Silent(s.lastResponse, at))
    ensures Invariant(OnTick(s, silent, at))
  {
    var s' := OnTick(s, silent, at);
    var more := Removes(silent);
    forall a | a in s.lastResponse && a !in s'.lastResponse ensures RemoveRequest(a) in more {
      assert a in silent;
      var i :| 0 <= i < |silent| && silent[i] == a;
      assert more[i] == RemoveRequest(a);
    }
    CoveredAppend(s.lastResponse, s.requests, more, s'.lastResponse);
  }

  // ----- the task keeps it -----

  lemma PopKeeps(s: Service)
    requires Bookkept(s) && s.requests != []
    requires !s.requests[0].RemoveRequest? || s.os.emulator.handles == {}
    ensures Bookkept(s.(requests := s.requests[1..]))
  {
    var rest := s.requests[1..];
    assert s.requests == [s.requests[0]] + rest;
    CoveredTail(s.lastResponse, s.requests);
    forall a | a in s.handles && KeysOf(s.os.emulator, s.handles[a]) != {} ensures Owed(s.(requests := rest), a) {
      assert s.handles[a] in s.os.emulator.pressed.Keys;
      assert Owed(s, a);
    }
  }

  lemma CoveredTail(lastResponse: map<Addr, nat>, requests: seq<ProxyRequest>)
    requires requests != [] && InputsCovered(lastResponse, requests)
    ensures InputsCovered(lastResponse, requests[1..])
  {
    var rest := requests[1..];
    forall i | 0 <= i < |rest| && rest[i].InputRequest?
      ensures rest[i].addr in lastResponse || RemoveRequest(rest[i].addr) in rest[i + 1..]
    {
      assert rest[i] == requests[i + 1] && rest[i + 1..] == requests[i + 2..];
    }
  }

  /** The emulator's tables after an event on one of its peers' handles. */
  lemma ConsumeKeeps(m: Emulator, h: Handle, event: Event, ok: bool)
    ensures Consume(m, h, event, ok).0.handles == m.handles
    ensures forall x :: x != h ==> KeysOf(Consume(m, h, event, ok).0, x) == KeysOf(m, x)
  {
  }

  lemma PlayKeeps(s: Service, event: Event, addr: Addr, ok: bool)
    requires Tracked(s.os.emulator, s.os.log) && Bookkept(s) && s.phase.Running? && Owed(s, addr) && addr in s.handles
    requires !Loses(s.os, Play(s.handles[addr], event, ok))
    ensures var s' := s.(os := Step(s.os, Play(s.handles[addr], event, ok)));
            Tracked(s'.os.emulator, s'.os.log) && Bookkept(s')
  {
    var h := s.handles[addr];
    var os := Step(s.os, Play(h, event, ok));
    StepKeepsHeld(s.os, Play(h, event, ok));
    ConsumeKeeps(s.os.emulator, h, event, ok);
    BookkeptBut(s, addr, os);
  }

  /** Only what `addr` holds may differ. */
  lemma BookkeptBut(s: Service, addr: Addr, os: EmulationRuns.State)
    requires Bookkept(s) && addr in s.handles && Owed(s, addr) && Tidy(os.emulator)
    requires os.emulator.handles == s.os.emulator.handles
    requires forall x :: x != s.handles[addr] ==> KeysOf(os.emulator, x) == KeysOf(s.os.emulator, x)
    ensures Bookkept(s.(os := os))
  {
    var s' := s.(os := os);
    forall a | a in s'.handles && KeysOf(s'.os.emulator, s'.handles[a]) != {} ensures Owed(s', a) {
      assert a == addr || Owed(s, a);
    }
  }

  function Opened(s: Service, addr: Addr): Service {
    s.(handles := s.handles[addr := s.nextId], nextId := s.nextId + 1, os := Step(s.os, Open(s.nextId)))
  }

  /** A fresh handle for a new peer keeps the table injective and covering. */
  lemma OpenKeepsTable(s: Service, addr: Addr)
    requires Bookkept(s) && addr !in s.handles
    ensures s.os.emulator.handles + {s.nextId} <= s.handles[addr := s.nextId].Values
    ensures s.nextId !in s.os.emulator.handles
  {
    var handles' := s.handles[addr := s.nextId];
    assert handles'[addr] == s.nextId;
    forall h | h in s.os.emulator.handles + {s.nextId} ensures h in handles'.Values {
      if h != s.nextId {
        var a :| a in s.handles && s.handles[a] == h;
        assert handles'[a] == h;
      }
    }
  }

  lemma OpenKeeps(s: Service, addr: Addr)
    requires Tracked(s.os.emulator, s.os.log) && Bookkept(s) && s.phase.Running? && addr !in s.handles
    ensures var t := Opened(s, addr); Tracked(t.os.emulator, t.os.log) && Bookkept(t)
  {
    var t := Opened(s, addr);
    StepKeepsHeld(s.os, Open(s.nextId));
    OpenKeepsTable(s, addr);
    assert forall x :: KeysOf(t.os.emulator, x) == KeysOf(s.os.emulator, x);
    forall a | a in t.handles && KeysOf(t.os.emulator, t.handles[a]) != {} ensures Owed(t, a) {
      assert a != addr;
      assert Owed(s, a);
    }
  }

  lemma RemoveKeepsTable(s: Service, addr: Addr)
    requires Bookkept(s) && addr in s.handles
    ensures s.os.emulator.handles - {s.handles[addr]} <= (s.handles - {addr}).Values
  {
    var handles' := s.handles - {addr};
    forall x | x in s.os.emulator.handles - {s.handles[addr]} ensures x in handles'.Values {
      var a :| a in s.handles && s.handles[a] == x;
      assert a in handles' && handles'[a] == x;
    }
  }

  lemma RemoveKeeps(s: Service, addr: Addr, order: seq<nat>, accepted: nat)
    requires Tracked(s.os.emulator, s.os.log) && Bookkept(s) && s.phase.Running?
    requires s.requests != [] && s.requests[0] == RemoveRequest(addr)
    requires addr in s.handles ==> Lists(order, KeysOf(s.os.emulator, s.handles[addr])) && !Loses(s.os, Close(s.handles[addr], order, accepted))
    ensures var s' := RemovePeer(s.(requests := s.requests[1..]), addr, order, accepted);
            Tracked(s'.os.emulator, s'.os.log) && Bookkept(s')
  {
    var s' := RemovePeer(s.(requests := s.requests[1..]), addr, order, accepted);
    assert s.requests == [RemoveRequest(addr)] + s.requests[1..];
    CoveredTail(s.lastResponse, s.requests);
    if addr in s.handles {
      var h := s.handles[addr];
      StepKeepsHeld(s.os, Close(h, order, accepted));
      RemoveKeepsTable(s, addr);
      RemovedKeepsOthers(s.os.emulator, h);
    }
    forall a | a in s'.handles && KeysOf(s'.os.emulator, s'.handles[a]) != {} ensures Owed(s', a) {
      assert a != addr && KeysOf(s.os.emulator, s.handles[a]) != {};
      assert Owed(s, a);
    }
  }

  lemma RemovedKeepsOthers(m: Emulator, h: Handle)
    requires Tidy(m)
    ensures Removed(m, h).handles == m.handles - {h}
    ensures forall x :: x != h ==> KeysOf(Removed(m, h), x) == KeysOf(m, x)
  {
  }

  lemma RunOpsSnoc(os: EmulationRuns.State, ops: seq<Op>, n: nat)
    requires n < |ops|
    ensures RunOps(os, ops[..n + 1]) == Step(RunOps(os, ops[..n]), ops[n])
  {
    assert ops[..n + 1][..n] == ops[..n];
  }

  lemma {:induction false} ClosingKeepsTracked(os: EmulationRuns.State, closing: seq<Op>, n: nat)
    requires Tracked(os.emulator, os.log) && Tidy(os.emulator) && Closes(os, closing) && n <= |closing|
    ensures var os' := RunOps(os, closing[..n]); Tracked(os'.emulator, os'.log) && Tidy(os'.emulator)
  {
    if n > 0 {
      ClosingKeepsTracked(os, closing, n - 1);
      RunOpsSnoc(os, closing, n - 1);
      StepKeepsHeld(RunOps(os, closing[..n - 1]), closing[n - 1]);
    }
  }

  lemma EndKeeps(s: Service, closing: seq<Op>, phase: Phase)
    requires Tracked(s.os.emulator, s.os.log) && Bookkept(s) && Closes(s.os, closing) && !phase.Running?
    ensures var s' := EndSession(s, closing, phase);
            Tracked(s'.os.emulator, s'.os.log) && Bookkept(s')
  {
    ClosingKeepsTracked(s.os, closing, |closing|);
    assert closing[..|closing|] == closing;
  }

  lemma TakeInputKeeps(s: Service, event: Event, addr: Addr, ok: bool)
    requires Tracked(s.os.emulator, s.os.log) && Bookkept(s) && s.phase.Running? && Owed(s, addr)
    requires addr in s.handles ==> !Loses(s.os, Play(s.handles[addr], event, ok))
    ensures var s' := PlayInput(s, event, addr, ok);
            Tracked(s'.os.emulator, s'.os.log) && Bookkept(s')
  {
    if addr in s.handles {
      PlayKeeps(s, event, addr, ok);
    } else {
      OpenKeeps(s, addr);
      assert !Down(s.os.log, s.nextId, if event.Key? then event.key else 0);
      PlayKeeps(Opened(s, addr), event, addr, ok);
    }
  }

  lemma TakeRunningKeeps(s: Service, t: Turn)
    requires Tracked(s.os.emulator, s.os.log) && Bookkept(s) && s.phase.Running?
    requires t.Take? && Feasible(s, t) && s.requests != []
    ensures var s' := TakeRequest(s, t.ok, t.order, t.accepted, t.closing);
            Tracked(s'.os.emulator, s'.os.log) && Bookkept(s')
  {
    var r, u := s.requests[0], s.(requests := s.requests[1..]);
    if r.RemoveRequest? {
      RemoveKeeps(s, r.addr, t.order, t.accepted);
    } else {
      PopKeeps(s);
      if r.TerminateRequest? {
        EndKeeps(u, t.closing, Exited);
      } else if r.InputRequest? {
        assert Owed(u, r.addr);
        TakeInputKeeps(u, r.event, r.addr, t.ok);
        if PlayFails(u, r.event, r.addr, t.ok) {
          EndKeeps(PlayInput(u, r.event, r.addr, t.ok), t.closing, Waiting);
        }
      }
    }
  }

  /** Outside a session a request is dropped, or changes the phase. */
  lemma TakeIdleShape(s: Service, t: Turn) returns (phase: Phase)
    requires !s.phase.Running? && t.Take? && s.requests != []
    ensures !phase.Running?
    ensures var s' := TakeRequest(s, t.ok, t.order, t.accepted, t.closing);
            s' == s || s' == s.(requests := s.requests[1..], phase := phase)
  {
    var r := s.requests[0];
    phase := if r.TerminateRequest? then Exited
             else if r.ReenableRequest? then Creating
             else s.phase;
  }

  lemma TakeIdleKeeps(s: Service, t: Turn)
    requires Tracked(s.os.emulator, s.os.log) && Bookkept(s) && !s.phase.Running? && t.Take? && s.requests != []
    ensures var s' := TakeRequest(s, t.ok, t.order, t.accepted, t.closing);
            Tracked(s'.os.emulator, s'.os.log) && Bookkept(s')
  {
    var phase := TakeIdleShape(s, t);
    PopKeeps(s);
  }

  lemma TakeLeavesListener(s: Service, t: Turn)
    requires t.Take? && s.requests != []
    ensures var s' := TakeRequest(s, t.ok, t.order, t.accepted, t.closing);
            s'.lastResponse == s.lastResponse && s'.lastTick == s.lastTick && s'.now == s.now
  {
  }

  lemma TakeKeeps(s: Service, t: Turn)
    requires Invariant(s) && t.Take? && Feasible(s, t) && s.requests != []
    ensures Invariant(TakeRequest(s, t.ok, t.order, t.accepted, t.closing))
  {
    TakeLeavesListener(s, t);
    if s.phase.Running? {
      TakeRunningKeeps(s, t);
    } else {
      TakeIdleKeeps(s, t);
    }
  }

  lemma CreatedKeeps(s: Service, hs: set<Handle>)
    requires Invariant(s) && s.phase.Creating? && hs <= s.handles.Values
    ensures Invariant(OnCreated(s, hs))
  {
    var s' := OnCreated(s, hs);
    assert forall h :: KeysOf(s'.os.emulator, h) == {};
    forall h, k ensures !Down(s.os.log, h, k) {
      assert h !in s.os.emulator.pressed;
    }
  }

  // ----- whole runs -----

  lemma TurnKeeps(s: Service, t: Turn)
    requires Invariant(s) && Feasible(s, t)
    ensures Invariant(Advance(s, t))
  {
    match t
    case Message(a, m, at) => MessageKeeps(s, a, m, at);
    case Disconnected(a) => DisconnectKeeps(s, a);
    case Tick(silent, at) => TickKeeps(s, silent, at);
    case Notice =>
    case Request(r) => CoveredAppend(s.lastResponse, s.requests, [r], s.lastResponse);
    case Take(_, _, _, _) => if s.requests != [] { TakeKeeps(s, t); }
    case Created(hs) => if s.phase.Creating? { CreatedKeeps(s, hs); }
    case CreateFailed =>
  }

  function Execute(start: Service, turns: seq<Turn>): Service {
    if turns == [] then start else Advance(Execute(start, turns[..|turns| - 1]), turns[|turns| - 1])
  }

  ghost predicate Legal(start: Service, turns: seq<Turn>) {
    forall i :: 0 <= i < |turns| ==> Feasible(Execute(start, turns[..i]), turns[i])
  }

  lemma LegalPrefix(start: Service, turns: seq<Turn>)
    requires turns != [] && Legal(start, turns)
    ensures Legal(start, turns[..|turns| - 1]) && Feasible(Execute(start, turns[..|turns| - 1]), turns[|turns| - 1])
  {
    var n := |turns| - 1;
    forall i | 0 <= i < n ensures Feasible(Execute(start, turns[..n][..i]), turns[..n][i]) {
      assert turns[..n][..i] == turns[..i];
    }
  }

  lemma {:induction false} InvariantEver(start: Service, turns: seq<Turn>)
    requires Invariant(start) && Legal(start, turns)
    ensures Invariant(Execute(start, turns))
    decreases |turns|
  {
    if turns != [] {
      LegalPrefix(start, turns);
      InvariantEver(start, turns[..|turns| - 1]);
      TurnKeeps(Execute(start, turns[..|turns| - 1]), turns[|turns| - 1]);
    }
  }

  lemma InvariantFromStart(now: nat, turns: seq<Turn>)
    requires Legal(Initial(now), turns)
    ensures Invariant(Execute(Initial(now), turns))
  {
    assert Invariant(Initial(now));
    InvariantEver(Initial(now), turns);
  }

  /** Every key that is down belongs to a peer that is known, and that peer is
      still responding or its removal is on its way; if it is not on its way and
      the latest tick is at most 5 s old, the peer was heard from at most 6 s
      ago. */
  lemma NoPhantomKeys(now: nat, turns: seq<Turn>, h: Handle, k: nat, at: nat)
    requires Legal(Initial(now), turns) && Down(Execute(Initial(now), turns).os.log, h, k)
    ensures var s := Execute(Initial(now), turns);
            exists addr :: addr in s.handles && s.handles[addr] == h && Owed(s, addr)
                           && (RemoveRequest(addr) !in s.requests && s.now <= at <= s.lastTick + TICK_INTERVAL ==>
                                 at - s.lastResponse[addr] <= TICK_INTERVAL + SILENCE_LIMIT)
  {
    InvariantFromStart(now, turns);
    var s := Execute(Initial(now), turns);
    assert k in KeysOf(s.os.emulator, h);
    var addr :| addr in s.handles && s.handles[addr] == h;
    assert Owed(s, addr);
  }

  // ----- removals -----

  /** Only keys of the handles the task knows are down, and none outside a
      session. */
  lemma DownIsKnown(s: Service, h: Handle, k: nat)
    requires Invariant(s) && (h !in s.handles.Values || !s.phase.Running?)
    ensures !Down(s.os.log, h, k)
  {
    assert Down(s.os.log, h, k) ==> k in KeysOf(s.os.emulator, h);
  }

  /** Between sessions nothing is down, for any peer. */
  lemma NothingDownBetweenSessions(now: nat, turns: seq<Turn>, h: Handle, k: nat)
    requires Legal(Initial(now), turns) && !Execute(Initial(now), turns).phase.Running?
    ensures !Down(Execute(Initial(now), turns).os.log, h, k)
  {
    InvariantFromStart(now, turns);
    DownIsKnown(Execute(Initial(now), turns), h, k);
  }

  /** Once the task has caught up with its requests, nothing is down for a peer
      that is not responding. */
  lemma CaughtUpIsClean(now: nat, turns: seq<Turn>, addr: Addr, k: nat)
    requires Legal(Initial(now), turns)
    requires var s := Execute(Initial(now), turns);
             addr in s.handles && s.requests == [] && addr !in s.lastResponse
    ensures var s := Execute(Initial(now), turns);
            !Down(s.os.log, s.handles[addr], k)
  {
    InvariantFromStart(now, turns);
    var s := Execute(Initial(now), turns);
    assert KeysOf(s.os.emulator, s.handles[addr]) == {};
  }

  /** The task is about to take the removal of this peer. */
  predicate Removing(s: Service, t: Turn, addr: Addr) {
    t.Take? && s.requests != [] && s.requests[0] == RemoveRequest(addr)
  }

  /** In a session that forgets the peer's handle, and nobody else has it. */
  lemma RemovalForgets(s: Service, t: Turn, addr: Addr)
    requires Bookkept(s) && s.phase.Running? && Removing(s, t, addr) && addr in s.handles
    ensures Gone(Advance(s, t), s.handles[addr])
  {
    assert Advance(s, t).handles == s.handles - {addr};
  }

  /** As soon as a removal is taken, in whatever phase, nothing is down for its
      peer: a Leave, a disconnect and a silence each queue one. */
  lemma RemovalLifts(now: nat, turns: seq<Turn>, t: Turn, addr: Addr, k: nat)
    requires Legal(Initial(now), turns)
    requires var s := Execute(Initial(now), turns);
             Feasible(s, t) && Removing(s, t, addr) && addr in s.handles
    ensures var s := Execute(Initial(now), turns);
            !Down(Advance(s, t).os.log, s.handles[addr], k)
  {
    InvariantFromStart(now, turns);
    var s := Execute(Initial(now), turns);
    TakeKeeps(s, t);
    if s.phase.Running? {
      RemovalForgets(s, t, addr);
    } else {
      var phase := TakeIdleShape(s, t);
    }
    DownIsKnown(Advance(s, t), s.handles[addr], k);
  }

  /** A handle that was given out and belongs to nobody any more. */
  predicate Gone(s: Service, h: Handle) {
    h < s.nextId && h !in s.handles.Values
  }

  lemma TakeKeepsGone(s: Service, t: Turn, h: Handle)
    requires Gone(s, h) && t.Take? && s.requests != []
    ensures Gone(TakeRequest(s, t.ok, t.order, t.accepted, t.closing), h)
  {
    var s' := TakeRequest(s, t.ok, t.order, t.accepted, t.closing);
    assert forall a :: a in s'.handles ==> s'.handles[a] == s.nextId || (a in s.handles && s'.handles[a] == s.handles[a]);
  }

  /** Handles are never given out again. */
  lemma {:induction false} GoneForever(start: Service, turns: seq<Turn>, n: nat, h: Handle)
    requires n <= |turns| && Gone(Execute(start, turns[..n]), h)
    ensures Gone(Execute(start, turns), h)
    decreases |turns|
  {
    if n == |turns| {
      assert turns[..n] == turns;
    } else {
      var m := |turns| - 1;
      assert turns[..m][..n] == turns[..n];
      GoneForever(start, turns[..m], n, h);
      if turns[m].Take? && Execute(start, turns[..m]).requests != [] {
        TakeKeepsGone(Execute(start, turns[..m]), turns[m], h);
      }
    }
  }

  /** A removal taken in a session is final: nothing is ever down again on the
      handle the peer had, whatever arrives late, and even if the peer returns. */
  lemma RemovalIsFinal(now: nat, turns: seq<Turn>, n: nat, addr: Addr, k: nat)
    requires Legal(Initial(now), turns) && n < |turns|
    requires var s := Execute(Initial(now), turns[..n]);
             s.phase.Running? && Removing(s, turns[n], addr) && addr in s.handles
    ensures var h := Execute(Initial(now), turns[..n]).handles[addr];
            Gone(Execute(Initial(now), turns), h) && !Down(Execute(Initial(now), turns).os.log, h, k)
  {
    var s := Execute(Initial(now), turns[..n]);
    assert forall i | 0 <= i < n :: turns[..n][..i] == turns[..i];
    InvariantFromStart(now, turns[..n]);
    RemovalForgets(s, turns[n], addr);
    assert turns[..n + 1][..n] == turns[..n];
    GoneForever(Initial(now), turns, n + 1, s.handles[addr]);
    InvariantFromStart(now, turns);
    DownIsKnown(Execute(Initial(now), turns), s.handles[addr], k);
  }

  // ----- when inputs are accepted at all -----

  /** What the listener will believe once it has read every notice. */
  function Believed(s: Service): bool {
    if s.notices == [] then s.active else s.notices[|s.notices| - 1]
  }

  /** What a request changes of phase and notices. */
  lemma TakeNotifies(s: Service, t: Turn)
    requires t.Take? && s.requests != []
    ensures var s' := TakeRequest(s, t.ok, t.order, t.accepted, t.closing);
            && s'.active == s.active
            && (|| (s'.notices == s.notices && s'.phase.Running? == s.phase.Running?)
                || (s'.notices == s.notices + [false] && !s'.phase.Running?))
  {
    if !s.phase.Running? {
      var _ := TakeIdleShape(s, t);
    }
  }

  lemma TurnKeepsBelief(s: Service, t: Turn)
    requires Believed(s) == s.phase.Running?
    ensures Believed(Advance(s, t)) == Advance(s, t).phase.Running?
  {
    if t.Take? && s.requests != [] {
      TakeNotifies(s, t);
    }
  }

  /** Once its notices are read, the listener passes inputs on exactly while a
      session runs. */
  lemma {:induction false} ActiveFollowsSession(now: nat, turns: seq<Turn>)
    ensures var s := Execute(Initial(now), turns);
            Believed(s) == s.phase.Running? && (s.notices == [] ==> s.active == s.phase.Running?)
    decreases |turns|
  {
    if turns != [] {
      ActiveFollowsSession(now, turns[..|turns| - 1]);
      TurnKeepsBelief(Execute(Initial(now), turns[..|turns| - 1]), turns[|turns| - 1]);
    }
  }

  lemma RejectionCloses(s: Service, t: Turn)
    requires t.Take? && s.phase.Running? && s.requests != [] && s.requests[0].InputRequest?
    requires PlayFails(s.(requests := s.requests[1..]), s.requests[0].event, s.requests[0].addr, t.ok)
    ensures var s' := TakeRequest(s, t.ok, t.order, t.accepted, t.closing);
            s'.phase == Waiting && !Believed(s')
  {
  }

  /** An input that the backend rejects ends the session, and with it everything
      that was down. */
  lemma RejectionEndsSession(s: Service, t: Turn, h: Handle, k: nat)
    requires Invariant(s) && t.Take? && Feasible(s, t) && s.phase.Running?
    requires s.requests != [] && s.requests[0].InputRequest?
    requires PlayFails(s.(requests := s.requests[1..]), s.requests[0].event, s.requests[0].addr, t.ok)
    ensures var s' := Advance(s, t);
            s'.phase == Waiting && s'.os.emulator.handles == {} && !Believed(s') && !Down(s'.os.log, h, k)
  {
    TakeKeeps(s, t);
    RejectionCloses(s, t);
    DownIsKnown(Advance(s, t), h, k);
  }
}
