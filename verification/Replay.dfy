/** What the controlled side does do: every input of a responding peer is queued,
    taken and replayed, once and in order. */
module Replay {
  import opened Types
  import opened Emulation
  import ER = EmulationRuns
  import opened EmulationService
  import opened PhantomKeys

  // ----- one event -----

  /** Every tracked key is down. */
  ghost predicate Played(m: Emulator, log: seq<OsEvent>) {
    forall h, k :: k in KeysOf(m, h) ==> Down(log, h, k)
  }

  /** The event was accepted, or there was nothing to pass on. */
  predicate Accepted(m: Emulator, h: Handle, event: Event, ok: bool) {
    ok || !Attempted(m, h, event)
  }

  /** On an open handle, a key event leaves its key down exactly if it is a press,
      and every other key as it was. */
  lemma KeyIsReplayed(m: Emulator, log: seq<OsEvent>, h: Handle, key: nat, state: nat, ok: bool)
    requires Tracked(m, log) && Played(m, log) && h in m.pressed && Accepted(m, h, Key(key, state), ok)
    ensures var (m', out) := Consume(m, h, Key(key, state), ok);
            && |out| <= 1
            && (forall x, k :: Down(log + out, x, k) <==> if x == h && k == key then state != 0 else Down(log, x, k))
            && (forall x, k :: k in KeysOf(m', x) <==> if x == h && k == key then state != 0 else k in KeysOf(m, x))
  {
    var (m', out) := Consume(m, h, Key(key, state), ok);
    forall x, k ensures Down(log + out, x, k) <==> if x == h && k == key then state != 0 else Down(log, x, k) {
      if out == [] {
        assert log + out == log;
        assert Down(log, h, key) <==> key in KeysOf(m, h);
      } else {
        assert out == [OsKey(h, key, state != 0)];
        DownSnoc(log, out[0], x, k);
      }
    }
  }

  function HandleFor(s: Service, addr: Addr): Handle {
    if addr in s.handles then s.handles[addr] else s.nextId
  }

  /** The peer's handle is known to the backend, or about to be made. */
  predicate Ready(s: Service, addr: Addr) {
    addr in s.handles ==> s.handles[addr] in s.os.emulator.handles
  }

  lemma OpenedIsReady(s: Service, addr: Addr)
    requires Bookkept(s) && addr !in s.handles
    ensures var t := Opened(s, addr);
            && s.nextId in t.os.emulator.pressed && t.os.log == s.os.log
            && (forall x :: KeysOf(t.os.emulator, x) == KeysOf(s.os.emulator, x))
  {
    OpenKeepsTable(s, addr);
  }

  lemma EventIsReplayed(s: Service, event: Event, addr: Addr, ok: bool)
    requires Tracked(s.os.emulator, s.os.log) && Played(s.os.emulator, s.os.log) && addr in s.handles
    requires s.handles[addr] in s.os.emulator.pressed && Accepted(s.os.emulator, s.handles[addr], event, ok)
    ensures var s', h := PlayInput(s, event, addr, ok), s.handles[addr];
            && s'.handles == s.handles && Replays(s.os.log, s'.os.log, h, event)
            && (forall x, k :: k in KeysOf(s'.os.emulator, x) <==>
                  if event.Key? && x == h && k == event.key then event.state != 0 else k in KeysOf(s.os.emulator, x))
  {
    if event.Key? { KeyIsReplayed(s.os.emulator, s.os.log, s.handles[addr], event.key, event.state, ok); }
  }

  /** What replaying an event does to the system: a key event sets its key, if it
      is not so already; any other reaches it unchanged. */
  ghost predicate Replays(log: seq<OsEvent>, log': seq<OsEvent>, h: Handle, event: Event) {
    if event.Key? then
      && log <= log' && |log'| <= |log| + 1
      && forall x, k :: Down(log', x, k) <==> if x == h && k == event.key then event.state != 0 else Down(log, x, k)
    else log' == log + [Rest(h, event)]
  }

  /** Taking an input in a running session with a backend that accepts it replays
      it on the peer's handle, made for it if need be. */
  lemma InputIsReplayed(s: Service, event: Event, addr: Addr, ok: bool)
    requires Tracked(s.os.emulator, s.os.log) && Played(s.os.emulator, s.os.log) && Bookkept(s) && Ready(s, addr)
    requires !PlayFails(s, event, addr, ok)
    ensures var s', h := PlayInput(s, event, addr, ok), HandleFor(s, addr);
            && s'.handles == s.handles[addr := h] && Replays(s.os.log, s'.os.log, h, event)
            && (forall x, k :: k in KeysOf(s'.os.emulator, x) <==>
                  if event.Key? && x == h && k == event.key then event.state != 0 else k in KeysOf(s.os.emulator, x))
  {
    if addr in s.handles {
      EventIsReplayed(s, event, addr, ok);
      assert s.handles[addr := s.handles[addr]] == s.handles;
    } else {
      OpenedIsReady(s, addr);
      EventIsReplayed(Opened(s, addr), event, addr, ok);
      assert PlayInput(s, event, addr, ok) == PlayInput(Opened(s, addr), event, addr, ok);
    }
  }

  // ----- tracked keys are down while a session runs -----

  ghost predicate Faithful(s: Service) {
    s.phase.Running? ==> Played(s.os.emulator, s.os.log)
  }

  /** An event for a handle the backend does not know is dropped, if it is a key. */
  lemma UnreadyKeepsPlayed(s: Service, event: Event, addr: Addr, ok: bool)
    requires Played(s.os.emulator, s.os.log) && Bookkept(s) && !Ready(s, addr)
    ensures var s' := PlayInput(s, event, addr, ok);
            Played(s'.os.emulator, s'.os.log) && s'.handles == s.handles && s'.os.emulator == s.os.emulator
  {
    var m, log, h := s.os.emulator, s.os.log, s.handles[addr];
    var (m', out) := Consume(m, h, event, ok);
    assert m' == m;
    forall x, k | k in KeysOf(m, x) ensures Down(log + out, x, k) {
      if out == [] { assert log + out == log; } else { DownSnoc(log, out[0], x, k); assert log + out == log + [out[0]]; }
    }
  }

  lemma InputKeepsPlayed(s: Service, event: Event, addr: Addr, ok: bool)
    requires Tracked(s.os.emulator, s.os.log) && Played(s.os.emulator, s.os.log) && Bookkept(s)
    requires !PlayFails(s, event, addr, ok)
    ensures var s' := PlayInput(s, event, addr, ok); Played(s'.os.emulator, s'.os.log)
  {
    if Ready(s, addr) {
      InputIsReplayed(s, event, addr, ok);
      var s' := PlayInput(s, event, addr, ok);
      if !event.Key? {
        forall x, k | k in KeysOf(s'.os.emulator, x) ensures Down(s'.os.log, x, k) {
          DownSnoc(s.os.log, Rest(HandleFor(s, addr), event), x, k);
        }
      }
    } else {
      UnreadyKeepsPlayed(s, event, addr, ok);
    }
  }

  /** Closing a handle leaves the keys of the others down. */
  lemma CloseKeepsPlayed(m: Emulator, log: seq<OsEvent>, h: Handle, order: seq<nat>, accepted: nat)
    requires Played(m, log) && ER.Tidy(m)
    ensures Played(Removed(m, h), log + ReleaseEvents(h, order, accepted))
  {
    forall x, k | k in KeysOf(Removed(m, h), x) ensures Down(log + ReleaseEvents(h, order, accepted), x, k) {
      assert x != h && k in KeysOf(m, x);
      if accepted < |order| { ER.CutReleaseLifts(log, h, order, accepted, x, k); } else { ReleaseLifts(log, h, order, accepted); }
    }
  }

  lemma TakeKeepsFaithful(s: Service, t: Turn)
    requires Invariant(s) && Faithful(s) && t.Take? && s.requests != []
    ensures Faithful(TakeRequest(s, t.ok, t.order, t.accepted, t.closing))
  {
    if s.phase.Running? {
      var r, u := s.requests[0], s.(requests := s.requests[1..]);
      if r.InputRequest? && !PlayFails(u, r.event, r.addr, t.ok) {
        PopKeeps(s);
        InputKeepsPlayed(u, r.event, r.addr, t.ok);
      } else if r.RemoveRequest? && r.addr in s.handles {
        CloseKeepsPlayed(s.os.emulator, s.os.log, s.handles[r.addr], t.order, t.accepted);
      }
    } else {
      var _ := TakeIdleShape(s, t);
    }
  }

  lemma TurnKeepsFaithful(s: Service, t: Turn)
    requires Invariant(s) && Faithful(s)
    ensures Faithful(Advance(s, t))
  {
    if t.Take? && s.requests != [] { TakeKeepsFaithful(s, t); }
  }

  lemma {:induction false} FaithfulEver(now: nat, turns: seq<Turn>)
    requires Legal(Initial(now), turns)
    ensures Faithful(Execute(Initial(now), turns))
    decreases |turns|
  {
    if turns != [] {
      LegalPrefix(Initial(now), turns);
      FaithfulEver(now, turns[..|turns| - 1]);
      InvariantFromStart(now, turns[..|turns| - 1]);
      TurnKeepsFaithful(Execute(Initial(now), turns[..|turns| - 1]), turns[|turns| - 1]);
    }
  }

  // ----- the latest key event decides -----

  /** The request this turn carries out in a running session. */
  function Carries(s: Service, t: Turn): Option<ProxyRequest> {
    if t.Take? && s.phase.Running? && s.requests != [] then Some(s.requests[0]) else None
  }

  /** Whether the peer holds the key after this turn, if it did so before or not. */
  predicate HoldsNext(s: Service, t: Turn, addr: Addr, k: nat, before: bool) {
    if t.Created? && s.phase.Creating? then false
    else
      match Carries(s, t)
      case Some(InputRequest(event, a)) => if a == addr && event.Key? && event.key == k then event.state != 0 else before
      case Some(RemoveRequest(a)) => a != addr && before
      case _ => before
  }

  /** The latest of the peer's key events for `k`, taken since this session began
      and since the peer was last removed, is a press. */
  predicate Holds(start: Service, turns: seq<Turn>, addr: Addr, k: nat) {
    turns != [] &&
    var n := |turns| - 1;
    HoldsNext(Execute(start, turns[..n]), turns[n], addr, k, Holds(start, turns[..n], addr, k))
  }

  /** What is tracked for the peer is what it holds. */
  predicate Agrees(s: Service, addr: Addr, k: nat, holds: bool) {
    s.phase.Running? ==>
      if addr !in s.handles then !holds
      else Ready(s, addr) ==> (holds <==> k in KeysOf(s.os.emulator, s.handles[addr]))
  }

  lemma InputAgrees(s: Service, event: Event, addr: Addr, ok: bool, a: Addr, k: nat, holds: bool)
    requires Tracked(s.os.emulator, s.os.log) && Played(s.os.emulator, s.os.log) && Bookkept(s) && s.phase.Running?
    requires !PlayFails(s, event, addr, ok) && Agrees(s, a, k, holds)
    ensures Agrees(PlayInput(s, event, addr, ok), a, k, if a == addr && event.Key? && event.key == k then event.state != 0 else holds)
  {
    if Ready(s, addr) {
      InputIsReplayed(s, event, addr, ok);
      InputKeepsHandles(s, event, addr, ok);
      if a == addr && addr !in s.handles {
        assert s.nextId !in s.os.emulator.pressed by { OpenKeepsTable(s, addr); }
      }
    } else {
      UnreadyKeepsPlayed(s, event, addr, ok);
    }
  }

  lemma InputKeepsHandles(s: Service, event: Event, addr: Addr, ok: bool)
    requires Bookkept(s)
    ensures var s' := PlayInput(s, event, addr, ok);
            s'.phase == s.phase && s'.os.emulator.handles == s.os.emulator.handles + (if addr in s.handles then {} else {s.nextId})
  {
    if addr !in s.handles { OpenKeepsTable(s, addr); }
  }

  lemma RemoveAgrees(s: Service, rest: seq<ProxyRequest>, addr: Addr, order: seq<nat>, accepted: nat, a: Addr, k: nat, holds: bool)
    requires Bookkept(s) && Agrees(s, a, k, holds)
    ensures Agrees(RemovePeer(s.(requests := rest), addr, order, accepted), a, k, a != addr && holds)
  {
    if addr in s.handles { RemovedKeepsOthers(s.os.emulator, s.handles[addr]); }
  }

  lemma RunningAgrees(s: Service, t: Turn, a: Addr, k: nat, holds: bool)
    requires Invariant(s) && Faithful(s) && t.Take? && s.requests != [] && s.phase.Running? && Agrees(s, a, k, holds)
    ensures Agrees(TakeRequest(s, t.ok, t.order, t.accepted, t.closing), a, k, HoldsNext(s, t, a, k, holds))
  {
    var r, u := s.requests[0], s.(requests := s.requests[1..]);
    match r
    case InputRequest(event, addr) =>
      if !PlayFails(u, event, addr, t.ok) {
        PopKeeps(s);
        InputAgrees(u, event, addr, t.ok, a, k, holds);
      }
    case RemoveRequest(addr) => RemoveAgrees(s, u.requests, addr, t.order, t.accepted, a, k, holds);
    case _ =>
  }

  lemma TakeAgrees(s: Service, t: Turn, a: Addr, k: nat, holds: bool)
    requires Invariant(s) && Faithful(s) && t.Take? && s.requests != [] && Agrees(s, a, k, holds)
    ensures Agrees(TakeRequest(s, t.ok, t.order, t.accepted, t.closing), a, k, HoldsNext(s, t, a, k, holds))
  {
    if s.phase.Running? {
      RunningAgrees(s, t, a, k, holds);
    } else {
      var _ := TakeIdleShape(s, t);
    }
  }

  lemma TurnAgrees(s: Service, t: Turn, a: Addr, k: nat, holds: bool)
    requires Invariant(s) && Faithful(s) && Feasible(s, t) && Agrees(s, a, k, holds)
    ensures Agrees(Advance(s, t), a, k, HoldsNext(s, t, a, k, holds))
  {
    if t.Take? && s.requests != [] { TakeAgrees(s, t, a, k, holds); }
  }

  lemma {:induction false} AgreesEver(now: nat, turns: seq<Turn>, a: Addr, k: nat)
    requires Legal(Initial(now), turns)
    ensures Agrees(Execute(Initial(now), turns), a, k, Holds(Initial(now), turns, a, k))
    decreases |turns|
  {
    if turns != [] {
      var n := |turns| - 1;
      LegalPrefix(Initial(now), turns);
      AgreesEver(now, turns[..n], a, k);
      FaithfulEver(now, turns[..n]);
      InvariantFromStart(now, turns[..n]);
      TurnAgrees(Execute(Initial(now), turns[..n]), turns[n], a, k, Holds(Initial(now), turns[..n], a, k));
    }
  }

  /** In every run, while a session runs and the backend knows the peer's handle,
      a key is down for the peer exactly when the latest of its events is a
      press. */
  lemma KeysFollowPeer(now: nat, turns: seq<Turn>, addr: Addr, k: nat)
    requires Legal(Initial(now), turns)
    requires var s := Execute(Initial(now), turns);
             s.phase.Running? && addr in s.handles && s.handles[addr] in s.os.emulator.handles
    ensures var s := Execute(Initial(now), turns);
            Down(s.os.log, s.handles[addr], k) <==> Holds(Initial(now), turns, addr, k)
  {
    AgreesEver(now, turns, addr, k);
    FaithfulEver(now, turns);
    InvariantFromStart(now, turns);
  }

  // ----- nothing is lost on the way -----

  /** What this turn queues for the task. */
  function Queues(s: Service, t: Turn): seq<ProxyRequest> {
    match t
    case Message(a, InputMessage(event), _) => if s.active then [InputRequest(event, a)] else []
    case Message(a, LeaveMessage, _) => [RemoveRequest(a)]
    case Disconnected(a) => [RemoveRequest(a)]
    case Tick(silent, _) => Removes(silent)
    case Request(r) => [r]
    case _ => []
  }

  /** What it takes off the queue; a task that has ended takes nothing. */
  function Takes(s: Service, t: Turn): seq<ProxyRequest> {
    if t.Take? && s.requests != [] && !s.phase.Exited? then [s.requests[0]] else []
  }

  function Queued(start: Service, turns: seq<Turn>): seq<ProxyRequest> {
    if turns == [] then []
    else Queued(start, turns[..|turns| - 1]) + Queues(Execute(start, turns[..|turns| - 1]), turns[|turns| - 1])
  }

  function Taken(start: Service, turns: seq<Turn>): seq<ProxyRequest> {
    if turns == [] then []
    else Taken(start, turns[..|turns| - 1]) + Takes(Execute(start, turns[..|turns| - 1]), turns[|turns| - 1])
  }

  lemma TakePops(s: Service, t: Turn)
    requires t.Take? && s.requests != []
    ensures TakeRequest(s, t.ok, t.order, t.accepted, t.closing).requests == if s.phase.Exited? then s.requests else s.requests[1..]
  {
  }

  lemma TurnConserves(s: Service, t: Turn)
    ensures Takes(s, t) + Advance(s, t).requests == s.requests + Queues(s, t)
  {
    if t.Take? && s.requests != [] {
      TakePops(s, t);
      assert s.requests == [s.requests[0]] + s.requests[1..];
    }
  }

  lemma Passed(taken: seq<ProxyRequest>, queue: seq<ProxyRequest>, takes: seq<ProxyRequest>, queue': seq<ProxyRequest>, queues: seq<ProxyRequest>)
    requires takes + queue' == queue + queues
    ensures taken + takes + queue' == taken + queue + queues
  {
    assert taken + takes + queue' == taken + (takes + queue');
  }

  /** In every run, what the task took followed by what is queued is everything
      that was asked of it, in order: each input heard while emulation is active
      once, with its event and its sender. */
  lemma {:induction false} NothingIsLost(now: nat, turns: seq<Turn>)
    ensures Taken(Initial(now), turns) + Execute(Initial(now), turns).requests == Queued(Initial(now), turns)
    decreases |turns|
  {
    if turns != [] {
      var n, start := |turns| - 1, Initial(now);
      NothingIsLost(now, turns[..n]);
      var s, taken := Execute(start, turns[..n]), Taken(start, turns[..n]);
      TurnConserves(s, turns[n]);
      Passed(taken, s.requests, Takes(s, turns[n]), Advance(s, turns[n]).requests, Queues(s, turns[n]));
    }
  }

  // ----- who counts as responding -----

  /** When the peer was last heard from, as far as this turn lets it be known. */
  function HeardNext(t: Turn, addr: Addr, before: Option<nat>): Option<nat> {
    match t
    case Message(a, _, at) => if a == addr then Some(at) else before
    case Disconnected(a) => if a == addr then None else before
    case Tick(_, at) => if before.Some? && at - before.value > 1000 then None else before
    case _ => before
  }

  function LastHeard(turns: seq<Turn>, addr: Addr): Option<nat> {
    if turns == [] then None else HeardNext(turns[|turns| - 1], addr, LastHeard(turns[..|turns| - 1], addr))
  }

  lemma TurnHears(s: Service, t: Turn, addr: Addr)
    ensures var last := if addr in s.lastResponse then Some(s.lastResponse[addr]) else None;
            var s' := Advance(s, t);
            HeardNext(t, addr, last) == if addr in s'.lastResponse then Some(s'.lastResponse[addr]) else None
  {
    if t.Take? && s.requests != [] { TakeLeavesListener(s, t); }
  }

  /** In every run, a peer counts as responding exactly from a message on, until
      it disconnects or a tick finds that message more than a second old. */
  lemma {:induction false} RespondingExactly(now: nat, turns: seq<Turn>, addr: Addr)
    ensures var s := Execute(Initial(now), turns);
            LastHeard(turns, addr) == if addr in s.lastResponse then Some(s.lastResponse[addr]) else None
    decreases |turns|
  {
    if turns != [] {
      RespondingExactly(now, turns[..|turns| - 1], addr);
      TurnHears(Execute(Initial(now), turns[..|turns| - 1]), turns[|turns| - 1], addr);
    }
  }

  // ----- sessions -----

  /** When sessions begin and end: a re-enable while waiting has the backend made
      anew, a terminate ends the task for good, a backend that comes up starts a
      session, and a rejected input ends it. */
  lemma PhaseExactly(s: Service, t: Turn)
    ensures var p, p' := s.phase, Advance(s, t).phase;
            var r := if t.Take? && s.requests != [] then Some(s.requests[0]) else None;
            && (p'.Creating? && !p.Creating? <==> p.Waiting? && r == Some(ReenableRequest))
            && (p'.Exited? && !p.Exited? <==> !p.Exited? && r == Some(TerminateRequest))
            && (p'.Running? && !p.Running? <==> p.Creating? && t.Created?)
            && (p'.Waiting? && !p.Waiting? <==>
                  || (p.Creating? && t.CreateFailed?)
                  || (p.Running? && r.Some? && r.value.InputRequest?
                      && PlayFails(s.(requests := s.requests[1..]), r.value.event, r.value.addr, t.ok)))
  {
  }
}
