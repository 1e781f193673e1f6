/** `InputEmulation`: replays a peer's input and remembers, per handle, which
    keys it pressed. */
module Emulation {
  import opened Types

  /** An event the operating system accepted. `Rest` is anything but a key. */
  datatype OsEvent = OsKey(handle: Handle, key: nat, down: bool) | Rest(handle: Handle, event: Event)

  datatype Emulator = Emulator(handles: set<Handle>, pressed: map<Handle, set<nat>>)

  const EMPTY := Emulator({}, map[])

  const NO_MODIFIERS := Modifiers(0, 0, 0, 0)

  // ----- operations: the new emulator and what reached the system -----

  /** The tracked keys, and whether the event is to be passed on. */
  function UpdatePressedKeys(m: Emulator, h: Handle, key: nat, state: nat): (Emulator, bool) {
    if h !in m.pressed then (m, false)
    else if state == 0 then (m.(pressed := m.pressed[h := m.pressed[h] - {key}]), key in m.pressed[h])
    else (m.(pressed := m.pressed[h := m.pressed[h] + {key}]), key !in m.pressed[h])
  }

  function Consume(m: Emulator, h: Handle, event: Event, ok: bool): (Emulator, seq<OsEvent>) {
    match event
    case Key(key, state) =>
      var (m', pass) := UpdatePressedKeys(m, h, key, state);
      (m', if pass && ok then [OsKey(h, key, state != 0)] else [])
    case _ => (m, if ok then [Rest(h, event)] else [])
  }

  function Added(m: Emulator, h: Handle): Emulator {
    if h in m.handles then m else Emulator(m.handles + {h}, m.pressed[h := {}])
  }

  function Ups(h: Handle, order: seq<nat>): (ups: seq<OsEvent>)
    ensures |ups| == |order|
    ensures forall i :: 0 <= i < |ups| ==> ups[i] == OsKey(h, order[i], false)
  {
    seq(|order|, i requires 0 <= i < |order| => OsKey(h, order[i], false))
  }

  /** Key-ups in the order the set drains, then zero modifiers; the first
      rejection ends it. `accepted` is how many went through. */
  function ReleaseEvents(h: Handle, order: seq<nat>, accepted: nat): seq<OsEvent> {
    var all := Ups(h, order) + [Rest(h, NO_MODIFIERS)];
    if accepted < |all| then all[..accepted] else all
  }

  function ReleaseKeys(m: Emulator, h: Handle): Emulator {
    if h in m.pressed then m.(pressed := m.pressed[h := {}]) else m
  }

  function Removed(m: Emulator, h: Handle): Emulator {
    if h in m.handles then Emulator(m.handles - {h}, m.pressed - {h}) else ReleaseKeys(m, h)
  }

  function KeysOf(m: Emulator, h: Handle): set<nat> {
    if h in m.pressed then m.pressed[h] else {}
  }

  // ----- what the operating system holds down -----

  /** The latest event for this key was a press. */
  predicate Down(log: seq<OsEvent>, h: Handle, k: nat) {
    if log == [] then false
    else
      var e := log[|log| - 1];
      if e.OsKey? && e.handle == h && e.key == k then e.down else Down(log[..|log| - 1], h, k)
  }

  ghost predicate NothingDown(log: seq<OsEvent>, h: Handle) {
    forall k :: !Down(log, h, k)
  }

  /** Whatever is down is tracked, so a release of the handle will lift it. */
  ghost predicate Tracked(m: Emulator, log: seq<OsEvent>) {
    forall h, k :: Down(log, h, k) ==> k in KeysOf(m, h)
  }

  /** For each handle and key, presses and releases alternate, a press first. */
  predicate Alternates(log: seq<OsEvent>) {
    forall i :: 0 <= i < |log| && log[i].OsKey? ==> (log[i].down <==> !Down(log[..i], log[i].handle, log[i].key))
  }

  /** With a backend that accepts everything, tracked means down. */
  ghost predicate Exact(m: Emulator, log: seq<OsEvent>) {
    Alternates(log) && forall h, k :: Down(log, h, k) <==> k in KeysOf(m, h)
  }

  lemma DownSnoc(log: seq<OsEvent>, e: OsEvent, h: Handle, k: nat)
    ensures Down(log + [e], h, k) <==> if e.OsKey? && e.handle == h && e.key == k then e.down else Down(log, h, k)
  {
    assert (log + [e])[..|log|] == log;
  }

  lemma AlternatesSnoc(log: seq<OsEvent>, e: OsEvent)
    requires Alternates(log) && (e.OsKey? ==> (e.down <==> !Down(log, e.handle, e.key)))
    ensures Alternates(log + [e])
  {
    assert (log + [e])[..|log|] == log;
    assert forall i | 0 <= i < |log| :: (log + [e])[..i] == log[..i];
  }

  lemma UpsSnoc(log: seq<OsEvent>, h: Handle, order: seq<nat>)
    requires order != []
    ensures var n := |order| - 1;
            log + Ups(h, order) == log + Ups(h, order[..n]) + [OsKey(h, order[n], false)]
            && order == order[..n] + [order[n]]
  {
    var n := |order| - 1;
    assert Ups(h, order) == Ups(h, order[..n]) + [OsKey(h, order[n], false)];
  }

  /** A run of key-ups lifts exactly the keys it names. */
  lemma {:induction false} UpsLift(log: seq<OsEvent>, h: Handle, order: seq<nat>, x: Handle, k: nat)
    ensures Down(log + Ups(h, order), x, k) <==> Down(log, x, k) && !(x == h && k in order)
    decreases |order|
  {
    if order == [] {
      assert log + Ups(h, order) == log;
    } else {
      var n := |order| - 1;
      UpsLift(log, h, order[..n], x, k);
      UpsSnoc(log, h, order);
      DownSnoc(log + Ups(h, order[..n]), OsKey(h, order[n], false), x, k);
    }
  }

  /** It alternates if those keys were down and each is named once. */
  lemma {:induction false} UpsAlternate(log: seq<OsEvent>, h: Handle, order: seq<nat>)
    requires Alternates(log) && (forall k :: k in order ==> Down(log, h, k))
    requires forall i, j :: 0 <= i < j < |order| ==> order[i] != order[j]
    ensures Alternates(log + Ups(h, order))
    decreases |order|
  {
    if order == [] {
      assert log + Ups(h, order) == log;
    } else {
      var n := |order| - 1;
      UpsAlternate(log, h, order[..n]);
      UpsSnoc(log, h, order);
      UpsLift(log, h, order[..n], h, order[n]);
      assert order[n] in order;
      AlternatesSnoc(log + Ups(h, order[..n]), OsKey(h, order[n], false));
    }
  }

  /** Releasing a handle, with at least its key-ups accepted. */
  lemma ReleaseLifts(log: seq<OsEvent>, h: Handle, order: seq<nat>, accepted: nat)
    requires accepted >= |order|
    ensures forall x, k :: Down(log + ReleaseEvents(h, order, accepted), x, k) <==> Down(log, x, k) && !(x == h && k in order)
  {
    ReleaseShape(log, h, order, accepted);
    forall x, k ensures Down(log + ReleaseEvents(h, order, accepted), x, k) <==> Down(log, x, k) && !(x == h && k in order) {
      UpsLift(log, h, order, x, k);
      DownSnoc(log + Ups(h, order), Rest(h, NO_MODIFIERS), x, k);
    }
  }

  lemma ReleaseShape(log: seq<OsEvent>, h: Handle, order: seq<nat>, accepted: nat)
    requires accepted >= |order|
    ensures var ups := log + Ups(h, order);
            log + ReleaseEvents(h, order, accepted) == if accepted == |order| then ups else ups + [Rest(h, NO_MODIFIERS)]
  {
    if accepted == |order| {
      assert ReleaseEvents(h, order, accepted) == Ups(h, order);
    } else {
      assert log + ReleaseEvents(h, order, accepted) == log + Ups(h, order) + [Rest(h, NO_MODIFIERS)];
    }
  }

  // ----- the source's object -----

  class InputEmulation {
    var handles: set<Handle>
    var pressed: map<Handle, set<nat>>
    /** Whether the backend accepts the n-th event it is given. */
    const accepts: nat -> bool
    var attempts: nat
    ghost var log: seq<OsEvent>

    function View(): Emulator
      reads this
    {
      Emulator(handles, pressed)
    }

    ghost predicate Valid()
      reads this
    {
      pressed.Keys == handles
    }

    constructor (accepts: nat -> bool)
      ensures Valid() && View() == EMPTY && log == [] && this.accepts == accepts
    {
      handles, pressed, attempts, log, this.accepts := {}, map[], 0, [], accepts;
    }

    method Emit(e: OsEvent) returns (ok: bool)
      modifies this`attempts, this`log
      ensures ok == accepts(old(attempts)) && attempts == old(attempts) + 1
      ensures log == if ok then old(log) + [e] else old(log)
    {
      ok := accepts(attempts);
      attempts := attempts + 1;
      if ok { log := log + [e]; }
    }

    method ConsumeEvent(event: Event, h: Handle) returns (ok: bool)
      requires Valid()
      modifies this
      ensures Valid()
      ensures View() == Consume(old(View()), h, event, ok).0
      ensures log == old(log) + Consume(old(View()), h, event, ok).1
      ensures !ok && event.Key? ==> UpdatePressedKeys(old(View()), h, event.key, event.state).1
    {
      ok := true;
      match event
      case Key(key, state) =>
        var pass := UpdateKeys(h, key, state);
        if pass { ok := Emit(OsKey(h, key, state != 0)); }
      case _ =>
        ok := Emit(Rest(h, event));
    }

    method UpdateKeys(h: Handle, key: nat, state: nat) returns (pass: bool)
      modifies this`pressed
      ensures (View(), pass) == UpdatePressedKeys(old(View()), h, key, state)
      ensures pressed.Keys == old(pressed.Keys)
    {
      if h !in pressed { return false; }
      if state == 0 {
        pass := key in pressed[h];
        pressed := pressed[h := pressed[h] - {key}];
      } else {
        pass := key !in pressed[h];
        pressed := pressed[h := pressed[h] + {key}];
      }
    }

    method CreateHandle(h: Handle) returns (isNew: bool)
      requires Valid()
      modifies this
      ensures Valid() && View() == Added(old(View()), h) && log == old(log) && isNew == (h !in old(handles))
    {
      isNew := h !in handles;
      if isNew {
        handles := handles + {h};
        pressed := pressed[h := {}];
      }
    }

    /** Drains the handle's keys in an order of the set's choosing. */
    method Release(h: Handle) returns (ok: bool, order: seq<nat>, accepted: nat)
      requires Valid()
      modifies this`pressed, this`attempts, this`log
      ensures Valid() && View() == ReleaseKeys(old(View()), h)
      ensures Lists(order, KeysOf(old(View()), h))
      ensures log == old(log) + ReleaseEvents(h, order, accepted)
      ensures (forall n :: accepts(n)) ==> accepted > |order|
      ensures ok == (accepted > |order|)
    {
      order, accepted := [], 0;
      var live := true;
      if h in pressed {
        var keys := pressed[h];
        pressed := pressed[h := {}];
        while keys != {}
          modifies this`attempts, this`log
          invariant Lists(order, KeysOf(old(View()), h) - keys) && keys <= KeysOf(old(View()), h)
          invariant accepted <= |order| && (live <==> accepted == |order|)
          invariant log == old(log) + Ups(h, order)[..accepted]
          invariant (forall n :: accepts(n)) ==> live
        {
          var key :| key in keys;
          keys, order := keys - {key}, order + [key];
          if live {
            live := Emit(OsKey(h, key, false));
            if live { accepted := accepted + 1; }
          }
        }
      }
      assert Ups(h, order)[..|order|] == Ups(h, order);
      if live {
        live := Emit(Rest(h, NO_MODIFIERS));
        if live { accepted := accepted + 1; }
      }
      ok := live;
      assert (Ups(h, order) + [Rest(h, NO_MODIFIERS)])[..|order|] == Ups(h, order);
    }

    method DestroyHandle(h: Handle) returns (order: seq<nat>, accepted: nat)
      requires Valid()
      modifies this
      ensures Valid() && View() == Removed(old(View()), h)
      ensures Lists(order, KeysOf(old(View()), h))
      ensures log == old(log) + ReleaseEvents(h, order, accepted)
      ensures (forall n :: accepts(n)) ==> accepted > |order|
    {
      var ok;
      ok, order, accepted := Release(h);
      if h in handles {
        handles := handles - {h};
        pressed := pressed - {h};
      }
    }

    /** Nothing is tracked afterwards. If the backend accepts, what is still down
        was down before and untracked. */
    method Terminate()
      requires Valid()
      modifies this
      ensures Valid() && View() == EMPTY
      ensures (forall n :: accepts(n)) ==>
                forall h, k :: Down(log, h, k) <==> Down(old(log), h, k) && k !in KeysOf(old(View()), h)
    {
      var rest := handles;
      while rest != {}
        invariant Valid() && rest == handles
        invariant (forall n :: accepts(n)) ==> Lifted(old(View()), old(log), View(), log)
        decreases rest
      {
        var h :| h in rest;
        rest := rest - {h};
        ghost var before, m := log, View();
        var order, accepted := DestroyHandle(h);
        if forall n :: accepts(n) {
          LiftMore(old(View()), old(log), m, before, h, order, accepted);
        }
      }
    }
  }

  /** Of what was down, the keys tracked then and no longer tracked are up. */
  ghost predicate Lifted(m: Emulator, log: seq<OsEvent>, m': Emulator, log': seq<OsEvent>) {
    && (forall h, k :: Down(log', h, k) <==> Down(log, h, k) && (k in KeysOf(m, h) ==> k in KeysOf(m', h)))
    && (forall h :: h in m'.pressed ==> KeysOf(m', h) == KeysOf(m, h))
  }

  lemma LiftMore(m: Emulator, log: seq<OsEvent>, m': Emulator, log': seq<OsEvent>, h: Handle, order: seq<nat>, accepted: nat)
    requires Lifted(m, log, m', log') && h in m'.handles && m'.pressed.Keys == m'.handles
    requires Lists(order, KeysOf(m', h)) && accepted > |order|
    ensures Lifted(m, log, Removed(m', h), log' + ReleaseEvents(h, order, accepted))
  {
    var all := log' + ReleaseEvents(h, order, accepted);
    forall x, k ensures Down(all, x, k) <==> Down(log', x, k) && !(x == h && k in order) {
      UpsLift(log', h, order, x, k);
      DownSnoc(log' + Ups(h, order), Rest(h, NO_MODIFIERS), x, k);
      assert all == log' + Ups(h, order) + [Rest(h, NO_MODIFIERS)];
    }
  }
}
