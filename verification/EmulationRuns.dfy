/** Key events that are lost, duplicated or reordered on the way cannot confuse
    the emulation: what runs of `InputEmulation` guarantee. */
module EmulationRuns {
  import opened Types
  import opened Emulation

  /** `ok` and `accepted` are the backend's answers. */
  datatype Op = Open(handle: Handle) | Play(handle: Handle, event: Event, ok: bool) | Close(handle: Handle, order: seq<nat>, accepted: nat)

  datatype State = State(emulator: Emulator, log: seq<OsEvent>)

  function Step(s: State, op: Op): State {
    match op
    case Open(h) => s.(emulator := Added(s.emulator, h))
    case Play(h, event, ok) =>
      var (m, out) := Consume(s.emulator, h, event, ok);
      State(m, s.log + out)
    case Close(h, order, accepted) =>
      State(Removed(s.emulator, h), s.log + ReleaseEvents(h, order, accepted))
  }

  function Run(ops: seq<Op>): State {
    if ops == [] then State(EMPTY, []) else Step(Run(ops[..|ops| - 1]), ops[|ops| - 1])
  }

  /** A set drains its own elements. */
  ghost predicate Possible(m: Emulator, op: Op) {
    op.Close? ==> Lists(op.order, KeysOf(m, op.handle))
  }

  /** Every event is accepted. */
  predicate Accepting(op: Op) {
    (op.Play? ==> op.ok) && (op.Close? ==> op.accepted > |op.order|)
  }

  /** Key releases are accepted; anything else may fail. */
  predicate ReleasesAccepted(op: Op) {
    && (op.Play? && op.event.Key? && op.event.state == 0 ==> op.ok)
    && (op.Close? ==> op.accepted >= |op.order|)
  }

  ghost predicate Legal(ops: seq<Op>) {
    forall i :: 0 <= i < |ops| ==> Possible(Run(ops[..i]).emulator, ops[i])
  }

  lemma LegalPrefix(ops: seq<Op>)
    requires ops != [] && Legal(ops)
    ensures Legal(ops[..|ops| - 1]) && Possible(Run(ops[..|ops| - 1]).emulator, ops[|ops| - 1])
  {
    var n := |ops| - 1;
    forall i | 0 <= i < n ensures Possible(Run(ops[..n][..i]).emulator, ops[..n][i]) {
      assert ops[..n][..i] == ops[..i];
    }
  }

  predicate Tidy(m: Emulator) {
    m.pressed.Keys == m.handles
  }

  // ----- strict alternation -----

  lemma PlayKeepsExact(m: Emulator, log: seq<OsEvent>, h: Handle, event: Event)
    requires Exact(m, log)
    ensures Exact(Consume(m, h, event, true).0, log + Consume(m, h, event, true).1)
  {
    var (m', out) := Consume(m, h, event, true);
    if out == [] {
      assert log + out == log;
      assert forall x, k :: k in KeysOf(m', x) <==> k in KeysOf(m, x);
    } else {
      assert out == [out[0]];
      AlternatesSnoc(log, out[0]);
      forall x, k ensures Down(log + out, x, k) <==> k in KeysOf(m', x) {
        DownSnoc(log, out[0], x, k);
      }
    }
  }

  lemma CloseKeepsExact(m: Emulator, log: seq<OsEvent>, h: Handle, order: seq<nat>, accepted: nat)
    requires Exact(m, log) && Tidy(m) && Lists(order, KeysOf(m, h)) && accepted > |order|
    ensures Exact(Removed(m, h), log + ReleaseEvents(h, order, accepted))
  {
    ReleaseLifts(log, h, order, accepted);
    UpsAlternate(log, h, order);
    AlternatesSnoc(log + Ups(h, order), Rest(h, NO_MODIFIERS));
    ReleaseShape(log, h, order, accepted);
  }

  lemma StepKeepsExact(s: State, op: Op)
    requires Exact(s.emulator, s.log) && Tidy(s.emulator) && Possible(s.emulator, op) && Accepting(op)
    ensures Exact(Step(s, op).emulator, Step(s, op).log) && Tidy(Step(s, op).emulator)
  {
    match op
    case Open(h) => assert forall x :: KeysOf(Added(s.emulator, h), x) == KeysOf(s.emulator, x);
    case Play(h, event, ok) => PlayKeepsExact(s.emulator, s.log, h, event);
    case Close(h, order, accepted) => CloseKeepsExact(s.emulator, s.log, h, order, accepted);
  }

  /** Whatever events arrive, with an accepting backend the presses and releases
      of each key alternate, a press first, and a key is down iff tracked. */
  lemma {:induction false} KeyEventsAlternate(ops: seq<Op>)
    requires Legal(ops) && forall op :: op in ops ==> Accepting(op)
    ensures Exact(Run(ops).emulator, Run(ops).log) && Tidy(Run(ops).emulator)
    decreases |ops|
  {
    if ops != [] {
      LegalPrefix(ops);
      assert ops[|ops| - 1] in ops;
      KeyEventsAlternate(ops[..|ops| - 1]);
      StepKeepsExact(Run(ops[..|ops| - 1]), ops[|ops| - 1]);
    }
  }

  /** After a destroy nothing of the handle is down; after a terminate, which
      destroys every handle, nothing at all is. */
  lemma BalancedAfterDestroy(ops: seq<Op>, h: Handle, k: nat)
    requires Legal(ops) && forall op :: op in ops ==> Accepting(op)
    ensures ops != [] && ops[|ops| - 1].Close? && ops[|ops| - 1].handle == h ==> !Down(Run(ops).log, h, k)
    ensures Run(ops).emulator.handles == {} ==> !Down(Run(ops).log, h, k)
  {
    KeyEventsAlternate(ops);
  }

  // ----- no untracked key -----

  lemma PlayKeepsTracked(m: Emulator, log: seq<OsEvent>, h: Handle, event: Event, ok: bool)
    requires Tracked(m, log) && (event.Key? && event.state == 0 ==> ok)
    ensures Tracked(Consume(m, h, event, ok).0, log + Consume(m, h, event, ok).1)
  {
    var (m', out) := Consume(m, h, event, ok);
    forall x, k | Down(log + out, x, k) ensures k in KeysOf(m', x) {
      if out == [] {
        assert log + out == log;
      } else {
        DownSnoc(log, out[0], x, k);
        assert log + out == log + [out[0]];
      }
    }
  }

  lemma StepKeepsTracked(s: State, op: Op)
    requires Tracked(s.emulator, s.log) && Tidy(s.emulator) && Possible(s.emulator, op) && ReleasesAccepted(op)
    ensures Tracked(Step(s, op).emulator, Step(s, op).log) && Tidy(Step(s, op).emulator)
  {
    match op
    case Open(h) => assert forall x :: KeysOf(Added(s.emulator, h), x) == KeysOf(s.emulator, x);
    case Play(h, event, ok) => PlayKeepsTracked(s.emulator, s.log, h, event, ok);
    case Close(h, order, accepted) => ReleaseLifts(s.log, h, order, accepted);
  }

  /** A played event leaves an untracked key down exactly when the backend
      rejects the release of a key that is down. */
  lemma PhantomExactly(m: Emulator, log: seq<OsEvent>, h: Handle, event: Event, ok: bool)
    requires Tracked(m, log)
    ensures Tracked(Consume(m, h, event, ok).0, log + Consume(m, h, event, ok).1) <==>
            !(event.Key? && event.state == 0 && !ok && Down(log, h, event.key))
  {
    if event.Key? && event.state == 0 && !ok {
      var (m', out) := Consume(m, h, event, ok);
      assert log + out == log;
      if Down(log, h, event.key) {
        assert event.key !in KeysOf(m', h);
      }
    } else {
      PlayKeepsTracked(m, log, h, event, ok);
    }
  }

  /** Key-ups that are cut short lift only those sent. */
  lemma CutReleaseLifts(log: seq<OsEvent>, h: Handle, order: seq<nat>, accepted: nat, x: Handle, k: nat)
    requires accepted < |order|
    ensures Down(log + ReleaseEvents(h, order, accepted), x, k) <==> Down(log, x, k) && !(x == h && k in order[..accepted])
  {
    assert (Ups(h, order) + [Rest(h, NO_MODIFIERS)])[..accepted] == Ups(h, order[..accepted]);
    UpsLift(log, h, order[..accepted], x, k);
  }

  lemma CutCloseLoses(m: Emulator, log: seq<OsEvent>, h: Handle, order: seq<nat>, accepted: nat, i: nat)
    requires Lists(order, KeysOf(m, h)) && Tidy(m) && accepted <= i < |order| && Down(log, h, order[i])
    ensures !Tracked(Removed(m, h), log + ReleaseEvents(h, order, accepted))
  {
    assert order[i] !in order[..accepted];
    CutReleaseLifts(log, h, order, accepted, h, order[i]);
    assert order[i] !in KeysOf(Removed(m, h), h);
  }

  lemma CutCloseKeeps(m: Emulator, log: seq<OsEvent>, h: Handle, order: seq<nat>, accepted: nat, x: Handle, k: nat)
    requires Tracked(m, log) && Tidy(m) && Lists(order, KeysOf(m, h)) && accepted < |order|
    requires forall i :: accepted <= i < |order| ==> !Down(log, h, order[i])
    ensures Down(log + ReleaseEvents(h, order, accepted), x, k) ==> k in KeysOf(Removed(m, h), x)
  {
    CutReleaseLifts(log, h, order, accepted, x, k);
    if x == h && Down(log, h, k) {
      assert k in order;
      var i :| 0 <= i < |order| && order[i] == k;
      assert i < accepted && order[..accepted][i] == k;
    }
  }

  /** Closing a handle leaves an untracked key down exactly when a key that is
      down is at or behind the first rejected key-up: those behind it are not
      even tried. */
  lemma CloseExactly(m: Emulator, log: seq<OsEvent>, h: Handle, order: seq<nat>, accepted: nat)
    requires Tracked(m, log) && Tidy(m) && Lists(order, KeysOf(m, h))
    ensures Tracked(Removed(m, h), log + ReleaseEvents(h, order, accepted)) <==>
            forall i :: accepted <= i < |order| ==> !Down(log, h, order[i])
  {
    if accepted >= |order| {
      StepKeepsTracked(State(m, log), Close(h, order, accepted));
    } else if i :| accepted <= i < |order| && Down(log, h, order[i]) {
      CutCloseLoses(m, log, h, order, accepted, i);
    } else {
      forall x, k ensures Down(log + ReleaseEvents(h, order, accepted), x, k) ==> k in KeysOf(Removed(m, h), x) {
        CutCloseKeeps(m, log, h, order, accepted, x, k);
      }
    }
  }

  /** The one way, in any step, to lose track of a key that is down. */
  predicate Loses(s: State, op: Op) {
    match op
    case Open(_) => false
    case Play(h, event, ok) => event.Key? && event.state == 0 && !ok && Down(s.log, h, event.key)
    case Close(h, order, accepted) => exists i :: accepted <= i < |order| && Down(s.log, h, order[i])
  }

  /** A step leaves an untracked key down exactly when it loses one: the backend
      rejects the release of a key that is down, or, on closing, of one drained
      before it. */
  lemma LosesExactly(s: State, op: Op)
    requires Tracked(s.emulator, s.log) && Tidy(s.emulator) && Possible(s.emulator, op)
    ensures Tracked(Step(s, op).emulator, Step(s, op).log) <==> !Loses(s, op)
  {
    match op
    case Open(h) => StepKeepsTracked(s, op);
    case Play(h, event, ok) => PhantomExactly(s.emulator, s.log, h, event, ok);
    case Close(h, order, accepted) => CloseExactly(s.emulator, s.log, h, order, accepted);
  }

  lemma StepKeepsHeld(s: State, op: Op)
    requires Tracked(s.emulator, s.log) && Tidy(s.emulator) && Possible(s.emulator, op) && !Loses(s, op)
    ensures Tracked(Step(s, op).emulator, Step(s, op).log) && Tidy(Step(s, op).emulator)
  {
    LosesExactly(s, op);
    StepKeepsTidy(s, op);
  }

  /** As long as no step loses a key, every key that is down is tracked; so it
      is while key releases are accepted, whatever else the backend rejects. */
  lemma {:induction false} HeldIsTracked(ops: seq<Op>)
    requires Legal(ops) && forall i :: 0 <= i < |ops| ==> !Loses(Run(ops[..i]), ops[i]) || ReleasesAccepted(ops[i])
    ensures Tracked(Run(ops).emulator, Run(ops).log) && Tidy(Run(ops).emulator)
    decreases |ops|
  {
    if ops != [] {
      var n := |ops| - 1;
      LegalPrefix(ops);
      assert forall i | 0 <= i < n :: ops[..n][..i] == ops[..i];
      HeldIsTracked(ops[..n]);
      StepKeepsHeld(Run(ops[..n]), ops[n]);
    }
  }

  lemma StepKeepsTidy(s: State, op: Op)
    requires Tidy(s.emulator)
    ensures Tidy(Step(s, op).emulator)
  {
  }

  lemma RunSnoc(ops: seq<Op>, op: Op)
    ensures Run(ops + [op]) == Step(Run(ops), op)
    ensures Legal(ops) && Possible(Run(ops).emulator, op) ==> Legal(ops + [op])
  {
    assert (ops + [op])[..|ops|] == ops;
    assert forall i | 0 <= i < |ops| :: (ops + [op])[..i] == ops[..i];
  }

  function Pressing(h: Handle, a: nat, b: nat): seq<Op> {
    [Open(h)] + [Play(h, Key(a, 1), true)] + [Play(h, Key(b, 1), true)]
  }

  lemma PressingHolds(h: Handle, a: nat, b: nat)
    requires a != b
    ensures Legal(Pressing(h, a, b))
    ensures Run(Pressing(h, a, b)) == State(Emulator({h}, map[h := {a, b}]), [OsKey(h, a, true), OsKey(h, b, true)])
  {
    var none: set<nat> := {};
    assert none + {a} == {a} && {a} + {b} == {a, b};
    RunSnoc([], Open(h));
    assert [] + [Open(h)] == [Open(h)];
    RunSnoc([Open(h)], Play(h, Key(a, 1), true));
    RunSnoc([Open(h)] + [Play(h, Key(a, 1), true)], Play(h, Key(b, 1), true));
  }

  /** Two keys down, the first key-up rejected: the second stays down although its
      release was never tried, and nobody remembers either. */
  lemma RejectedReleaseAbandonsOthers(h: Handle, a: nat, b: nat)
    requires a != b
    ensures var ops := Pressing(h, a, b) + [Close(h, [a, b], 0)];
            && Legal(ops)
            && Down(Run(ops).log, h, a) && Down(Run(ops).log, h, b) && Run(ops).emulator == EMPTY
  {
    PressingHolds(h, a, b);
    RunSnoc(Pressing(h, a, b), Close(h, [a, b], 0));
    assert ReleaseEvents(h, [a, b], 0) == [];
    var log := [OsKey(h, a, true)];
    DownSnoc([], OsKey(h, a, true), h, a);
    DownSnoc(log, OsKey(h, b, true), h, a);
    DownSnoc(log, OsKey(h, b, true), h, b);
    assert [OsKey(h, a, true), OsKey(h, b, true)] + [] == log + [OsKey(h, b, true)];
  }
}
