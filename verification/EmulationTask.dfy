/** The task that owns the emulation, as it updates its tables. Each method is
    tied to the step of the service that it carries out. */
module EmulationTask {
  import opened Types
  import opened Emulation
  import EmulationRuns
  import opened EmulationService

  class Task {
    var handles: map<Addr, Handle>
    var nextId: Handle
    const emulation: InputEmulation

    constructor (emulation: InputEmulation)
      ensures handles == map[] && nextId == 0 && this.emulation == emulation
    {
      handles, nextId, this.emulation := map[], 0, emulation;
    }

    ghost predicate Matches(s: Service)
      reads this, emulation
    {
      s.handles == handles && s.nextId == nextId && s.os == EmulationRuns.State(emulation.View(), emulation.log)
    }

    method OnInput(event: Event, addr: Addr, ghost s: Service) returns (ok: bool)
      requires emulation.Valid() && Matches(s)
      modifies this, emulation
      ensures emulation.Valid() && Matches(PlayInput(s, event, addr, ok))
      ensures !ok <==> PlayFails(s, event, addr, ok)
    {
      var h;
      if addr in handles {
        h := handles[addr];
      } else {
        h := nextId;
        nextId := nextId + 1;
        var isNew := emulation.CreateHandle(h);
        handles := handles[addr := h];
      }
      ok := emulation.ConsumeEvent(event, h);
    }

    method OnRemove(addr: Addr, ghost s: Service) returns (order: seq<nat>, accepted: nat)
      requires emulation.Valid() && Matches(s)
      modifies this, emulation
      ensures emulation.Valid() && Matches(RemovePeer(s, addr, order, accepted))
      ensures addr in s.handles ==> Lists(order, KeysOf(s.os.emulator, s.handles[addr]))
    {
      order, accepted := [], 0;
      if addr in handles {
        var h := handles[addr];
        handles := handles - {addr};
        order, accepted := emulation.DestroyHandle(h);
      }
    }

    /** On a new backend, a handle for every peer known so far, no key down. */
    method CreateClients()
      requires emulation.Valid() && emulation.View() == EMPTY
      modifies emulation
      ensures emulation.Valid() && emulation.log == old(emulation.log)
      ensures emulation.View() == Emulator(handles.Values, map h | h in handles.Values :: {})
    {
      var rest := handles.Values;
      while rest != {}
        modifies emulation
        invariant emulation.Valid() && emulation.log == old(emulation.log) && rest <= handles.Values
        invariant emulation.View() == Emulator(handles.Values - rest, map h | h in handles.Values - rest :: {})
        decreases rest
      {
        var h :| h in rest;
        rest := rest - {h};
        var isNew := emulation.CreateHandle(h);
      }
    }
  }
}
