/** The controlled side: a listener that tracks which peers respond, and a task
    that replays their input in sessions that can end and be enabled again. */
module EmulationService {
  import opened Types
  import opened Emulation
  import opened EmulationRuns

  type Addr = nat

  // Milliseconds.
  const TICK_INTERVAL: nat := 5000
  const SILENCE_LIMIT: nat := 1000

  datatype ProxyRequest = InputRequest(event: Event, addr: Addr) | RemoveRequest(addr: Addr) | TerminateRequest | ReenableRequest

  datatype PeerMessage = InputMessage(event: Event) | LeaveMessage | OtherMessage

  /** `Waiting`: no session until a re-enable. `Creating`: the emulation backend
      is being set up. */
  datatype Phase = Waiting | Creating | Running | Exited

  /** The listener's and the task's fields, the two channels between them, and
      the operating system. `notices` are EmulationEnabled and -Disabled. */
  datatype Service = Service(
    lastResponse: map<Addr, nat>,
    active: bool,
    requests: seq<ProxyRequest>,
    notices: seq<bool>,
    phase: Phase,
    handles: map<Addr, Handle>,
    nextId: Handle,
    os: EmulationRuns.State,
    lastTick: nat,
    now: nat)

  function Initial(now: nat): Service {
    Service(map[], false, [], [], Creating, map[], 0, EmulationRuns.State(EMPTY, []), now, now)
  }

  // ----- the listener -----

  function OnMessage(s: Service, addr: Addr, m: PeerMessage, now: nat): Service {
    var s' := s.(lastResponse := s.lastResponse[addr := now], now := now);
    match m
    case InputMessage(event) => if s.active then s'.(requests := s.requests + [InputRequest(event, addr)]) else s'
    case LeaveMessage => s'.(requests := s.requests + [RemoveRequest(addr)])
    case OtherMessage => s'
  }

  function OnDisconnected(s: Service, addr: Addr): Service {
    s.(lastResponse := s.lastResponse - {addr}, requests := s.requests + [RemoveRequest(addr)])
  }

  function Silent(lastResponse: map<Addr, nat>, now: nat): set<Addr> {
    set a | a in lastResponse && now - lastResponse[a] > SILENCE_LIMIT
  }

  function Removes(addrs: seq<Addr>): (rs: seq<ProxyRequest>)
    ensures |rs| == |addrs|
    ensures forall i :: 0 <= i < |rs| ==> rs[i] == RemoveRequest(addrs[i])
  {
    seq(|addrs|, i requires 0 <= i < |addrs| => RemoveRequest(addrs[i]))
  }

  /** `order` is the order in which the map yields its silent peers. */
  function OnTick(s: Service, order: seq<Addr>, now: nat): Service {
    s.(lastResponse := s.lastResponse - Silent(s.lastResponse, now),
       requests := s.requests + Removes(order), lastTick := now, now := now)
  }

  function OnNotice(s: Service): Service {
    if s.notices == [] then s else s.(active := s.notices[0], notices := s.notices[1..])
  }

  // ----- the emulation task -----

  function RunOps(os: EmulationRuns.State, ops: seq<Op>): EmulationRuns.State {
    if ops == [] then os else Step(RunOps(os, ops[..|ops| - 1]), ops[|ops| - 1])
  }

  /** The session ends: every handle is closed, one after the other. */
  function EndSession(s: Service, closing: seq<Op>, phase: Phase): Service {
    s.(os := RunOps(s.os, closing), phase := phase, notices := s.notices + [false])
  }

  /** The event is handed to the backend at all. */
  predicate Attempted(m: Emulator, h: Handle, event: Event) {
    event.Key? ==> UpdatePressedKeys(m, h, event.key, event.state).1
  }

  /** An input in a running session, on the peer's handle or a new one. */
  function PlayInput(s: Service, event: Event, addr: Addr, ok: bool): Service {
    var t := if addr in s.handles then s
             else s.(handles := s.handles[addr := s.nextId], nextId := s.nextId + 1, os := Step(s.os, Open(s.nextId)));
    t.(os := Step(t.os, Play(t.handles[addr], event, ok)))
  }

  function PlayFails(s: Service, event: Event, addr: Addr, ok: bool): bool {
    !ok && Attempted(if addr in s.handles then s.os.emulator else Added(s.os.emulator, s.nextId),
                     if addr in s.handles then s.handles[addr] else s.nextId, event)
  }

  function RemovePeer(s: Service, addr: Addr, order: seq<nat>, accepted: nat): Service {
    if addr in s.handles then
      s.(handles := s.handles - {addr}, os := Step(s.os, Close(s.handles[addr], order, accepted)))
    else s
  }

  /** The task takes its next request. */
  function TakeRequest(s: Service, ok: bool, order: seq<nat>, accepted: nat, closing: seq<Op>): Service
    requires s.requests != []
  {
    var r, t := s.requests[0], s.(requests := s.requests[1..]);
    match s.phase
    case Exited => s
    case Waiting =>
      if r.ReenableRequest? then t.(phase := Creating)
      else if r.TerminateRequest? then t.(phase := Exited)
      else t
    case Creating => if r.TerminateRequest? then t.(phase := Exited) else t
    case Running =>
      match r
      case InputRequest(event, addr) =>
        var p := PlayInput(t, event, addr, ok);
        if PlayFails(t, event, addr, ok) then EndSession(p, closing, Waiting) else p
      case RemoveRequest(addr) => RemovePeer(t, addr, order, accepted)
      case TerminateRequest => EndSession(t, closing, Exited)
      case ReenableRequest => t
  }

  /** The backend came up; the handles in `created` were opened on it. */
  function OnCreated(s: Service, created: set<Handle>): Service {
    s.(phase := Running, notices := s.notices + [true],
       os := s.os.(emulator := Emulator(created, map h | h in created :: {})))
  }

  // ----- the listener's tick as the loop it is -----

  class Listener {
    var lastResponse: map<Addr, nat>
    var requests: seq<ProxyRequest>
    var active: bool

    constructor ()
      ensures lastResponse == map[] && requests == [] && !active
    {
      lastResponse, requests, active := map[], [], false;
    }

    method Receive(addr: Addr, m: PeerMessage, now: nat)
      modifies this
      ensures forall s: Service ::
                s.lastResponse == old(lastResponse) && s.requests == old(requests) && s.active == old(active) ==>
                  var s' := OnMessage(s, addr, m, now);
                  s'.lastResponse == lastResponse && s'.requests == requests && s'.active == active
      ensures addr in lastResponse && lastResponse[addr] == now && active == old(active)
      ensures forall a :: a != addr ==> (a in lastResponse <==> a in old(lastResponse)) && (a in lastResponse ==> lastResponse[a] == old(lastResponse)[a])
      ensures requests == old(requests) + (if m.InputMessage? && active then [InputRequest(m.event, addr)]
                                           else if m.LeaveMessage? then [RemoveRequest(addr)] else [])
    {
      lastResponse := lastResponse[addr := now];
      match m
      case InputMessage(event) =>
        if active { requests := requests + [InputRequest(event, addr)]; }
      case LeaveMessage =>
        requests := requests + [RemoveRequest(addr)];
      case OtherMessage =>
    }

    /** Drops the peers that fell silent and asks for their removal. */
    method Tick(now: nat) returns (order: seq<Addr>)
      modifies this
      ensures Lists(order, Silent(old(lastResponse), now))
      ensures lastResponse == old(lastResponse) - Silent(old(lastResponse), now)
      ensures requests == old(requests) + Removes(order)
      ensures active == old(active)
    {
      order := [];
      var rest := lastResponse.Keys;
      while rest != {}
        modifies this`lastResponse, this`requests
        invariant rest <= old(lastResponse).Keys
        invariant Lists(order, Silent(old(lastResponse), now) - rest)
        invariant lastResponse == old(lastResponse) - (Silent(old(lastResponse), now) - rest)
        invariant requests == old(requests) + Removes(order)
        decreases rest
      {
        var addr :| addr in rest;
        rest := rest - {addr};
        if now - lastResponse[addr] > SILENCE_LIMIT {
          requests := requests + [RemoveRequest(addr)];
          lastResponse := lastResponse - {addr};
          order := order + [addr];
        }
      }
    }
  }
}
