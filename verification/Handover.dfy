/** A release across the two machines: what the controlling side sends, and what
    it does to the keys held on the controlled side. */
module Handover {
  import opened Types
  import opened Capture
  import Emulation
  import EmulationRuns

  /** The input events of a transcript, in order. */
  function Inputs(sent: seq<Sent>): seq<Event> {
    if sent == [] then []
    else
      var init := Inputs(sent[..|sent| - 1]);
      if sent[|sent| - 1].Forward? then init + [sent[|sent| - 1].event] else init
  }

  /** The controlled side after playing `events` for `peer`, all accepted. */
  function PlayAll(s: EmulationRuns.State, peer: Handle, events: seq<Event>): EmulationRuns.State {
    if events == [] then s
    else EmulationRuns.Step(PlayAll(s, peer, events[..|events| - 1]), EmulationRuns.Play(peer, events[|events| - 1], true))
  }

  function KeyUpEvents(order: seq<Scancode>): (events: seq<Event>)
    ensures |events| == |order|
    ensures forall i :: 0 <= i < |events| ==> events[i] == Key(order[i], 0)
  {
    seq(|order|, i requires 0 <= i < |order| => Key(order[i], 0))
  }

  lemma {:induction false} KeyUpInputs(h: Handle, order: seq<Scancode>)
    ensures Inputs(KeyUps(h, order)) == KeyUpEvents(order)
    decreases |order|
  {
    if order != [] {
      var n := |order| - 1;
      KeyUpInputs(h, order[..n]);
      assert KeyUps(h, order)[..n] == KeyUps(h, order[..n]);
      assert KeyUpEvents(order) == KeyUpEvents(order[..n]) + [Key(order[n], 0)];
    }
  }

  lemma FarewellInputs(h: Handle, order: seq<Scancode>)
    ensures Inputs(Farewell(Some(h), order)) == KeyUpEvents(order) + [NO_MODIFIERS]
  {
    var f, ups := Farewell(Some(h), order), KeyUps(h, order);
    KeyUpInputs(h, order);
    assert f[..|f| - 1] == ups + [Forward(h, NO_MODIFIERS)];
    assert (ups + [Forward(h, NO_MODIFIERS)])[..|ups|] == ups;
  }

  /** Key-ups untrack exactly the keys they name. */
  lemma {:induction false} KeyUpsUntrack(s: EmulationRuns.State, peer: Handle, order: seq<Scancode>)
    requires Emulation.Exact(s.emulator, s.log)
    ensures var s' := PlayAll(s, peer, KeyUpEvents(order));
            && Emulation.Exact(s'.emulator, s'.log)
            && (forall k :: k in Emulation.KeysOf(s'.emulator, peer) <==> k in Emulation.KeysOf(s.emulator, peer) && k !in order)
    decreases |order|
  {
    if order != [] {
      var n := |order| - 1;
      assert KeyUpEvents(order)[..n] == KeyUpEvents(order[..n]);
      KeyUpsUntrack(s, peer, order[..n]);
      var q := PlayAll(s, peer, KeyUpEvents(order[..n]));
      EmulationRuns.PlayKeepsExact(q.emulator, q.log, peer, Key(order[n], 0));
      assert order == order[..n] + [order[n]];
    }
  }

  /** Releasing an active client outside Pending tells that client one key-up per
      held key, then zero modifiers, then Leave, and forgets everything. */
  lemma ReleaseTranscript(t: Task, h: Handle, env: Env)
    requires t.active == Some(h) && !t.state.Pending? && Lists(env.order, t.held)
    ensures var out := ReleaseCapture(t, env);
            && (forall m :: m in out.sent ==> m.to == h)
            && (forall k :: multiset(out.sent)[Forward(h, Key(k, 0))] == if k in t.held then 1 else 0)
            && |out.sent| == |env.order| + 2
            && out.sent[|out.sent| - 2..] == [Forward(h, NO_MODIFIERS), Leave(h)]
            && out.calls == [Release]
            && out.task.state == Idle && out.task.active == None && out.task.held == {}
            && out.task.dog == Watchdog(0, [], env.now)
  {
    var sent, ups := ReleaseCapture(t, env).sent, KeyUps(h, env.order);
    assert sent == ups + [Forward(h, NO_MODIFIERS), Leave(h)];
    assert multiset(sent) == multiset(ups) + multiset([Forward(h, NO_MODIFIERS), Leave(h)]);
    forall k ensures multiset(ups)[Forward(h, Key(k, 0))] == if k in t.held then 1 else 0 {
      KeyUpCount(h, env.order, k);
      assert k in env.order <==> k in t.held;
    }
  }

  lemma {:induction false} KeyUpCount(h: Handle, order: seq<Scancode>, k: Scancode)
    requires forall i, j :: 0 <= i < j < |order| ==> order[i] != order[j]
    ensures multiset(KeyUps(h, order))[Forward(h, Key(k, 0))] == if k in order then 1 else 0
    decreases |order|
  {
    if order != [] {
      var n := |order| - 1;
      KeyUpCount(h, order[..n], k);
      assert KeyUps(h, order) == KeyUps(h, order[..n]) + [Forward(h, Key(order[n], 0))];
      assert order == order[..n] + [order[n]];
    }
  }

  /** Replayed on the controlled side, the transcript leaves nothing pressed for
      the peer exactly when every key pressed there was held here. */
  lemma TranscriptClearsReceiver(t: Task, h: Handle, env: Env, s: EmulationRuns.State, peer: Handle)
    requires t.active == Some(h) && !t.state.Pending? && Lists(env.order, t.held)
    requires Emulation.Exact(s.emulator, s.log)
    ensures var s' := PlayAll(s, peer, Inputs(ReleaseCapture(t, env).sent));
            Emulation.NothingDown(s'.log, peer) <==> Emulation.KeysOf(s.emulator, peer) <= t.held
  {
    var ups := KeyUpEvents(env.order);
    var events := ups + [NO_MODIFIERS];
    FarewellInputs(h, env.order);
    KeyUpsUntrack(s, peer, env.order);
    var q := PlayAll(s, peer, ups);
    assert events[..|ups|] == ups;
    EmulationRuns.PlayKeepsExact(q.emulator, q.log, peer, NO_MODIFIERS);
    var s' := PlayAll(s, peer, events);
    assert Inputs(ReleaseCapture(t, env).sent) == events;
    assert s'.emulator == q.emulator;
    assert forall k :: k in env.order <==> k in t.held;
    if k :| k in Emulation.KeysOf(s.emulator, peer) && k !in t.held {
      assert k in Emulation.KeysOf(q.emulator, peer);
      assert Emulation.Down(s'.log, peer, k);
      assert !Emulation.NothingDown(s'.log, peer);
      assert !(Emulation.KeysOf(s.emulator, peer) <= t.held);
    } else {
      assert forall k :: k !in Emulation.KeysOf(q.emulator, peer);
    }
  }
}
