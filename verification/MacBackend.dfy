/** The macOS capture backend: a state machine stepped by the event tap and by
    the producer task, which share one lock. */
module MacBackend {
  import opened Types
  import Geometry

  /** The backend's state as a value. */
  datatype Backend = Backend(
    clients: set<BarrierKey>,
    current: Option<BarrierKey>,
    pending: Option<BarrierKey>,
    enter: Option<Point>,
    displays: seq<Display>)

  /** Outcome of the operating-system calls made while one event is handled. */
  datatype Os = Os(show: bool, hide: bool, warp: bool)

  /** What the event tap is called with. `inputs` are the events a captured
      CGEvent translates to. */
  datatype TapEvent =
    | TimedOut
    | KilledByUser
    | Moved(location: Point, delta: Point, inputs: seq<Event>)
    | Other(inputs: seq<Event>)

  type Emission = (BarrierKey, CaptureEvent)

  function Fresh(displays: seq<Display>): Backend {
    Backend({}, None, None, None, displays)
  }

  // ----- the producer task -----

  /** The backend after a producer event, and the capture event it emits. */
  function HandleProducer(b: Backend, p: ProducerEvent, os: Os): (Backend, seq<Emission>) {
    match p
    case Release =>
      if b.current.Some? && !os.show then (b, []) else (b.(current := None, pending := None), [])
    case Grab(k) =>
      if b.current.None? && os.hide then (b.(current := Some(k)), []) else (b, [])
    case StartCapture(k) =>
      if b.pending != Some(k) then (b, [])
      else if b.current.Some? || !os.hide then (b.(pending := None), [])
      else (b.(pending := None, current := Some(k)), if os.warp then [(k, Begin)] else [])
    case CancelPendingRequest(k) =>
      if b.pending == Some(k) then (b.(pending := None), [(k, CancelPending)]) else (b, [])
    case Create(k) => (b.(clients := b.clients + {k}), [])
    case Destroy(k) =>
      if b.current == Some(k) && !os.show then (b, [])
      else (b.(clients := b.clients - {k},
               current := if b.current == Some(k) then None else b.current,
               pending := if b.pending == Some(k) then None else b.pending), [])
    case EventTapDisabled =>
      if b.current.Some? && !os.show then (b, []) else (b.(current := None, pending := None), [])
    case DisplayReconfigured(ds) => (b.(displays := ds), [])
  }

  // ----- the event tap -----

  function Stamp(k: BarrierKey, inputs: seq<Event>): (r: seq<Emission>)
    ensures |r| == |inputs|
    ensures forall i :: 0 <= i < |r| ==> r[i] == (k, Input(inputs[i]))
  {
    seq(|inputs|, i requires 0 <= i < |inputs| => (k, Input(inputs[i])))
  }

  /** The barrier that a cursor at `location` would cross with `delta`. macOS
      clamps the cursor to the displays, hence the predicted position. */
  function Crossing(b: Backend, location: Point, delta: Point): (k: Option<BarrierKey>)
    ensures k.Some? ==> k.value in b.clients
  {
    Geometry.Crossed(location, Point(location.x + delta.x, location.y + delta.y), b.displays, b.clients)
  }

  /** The backend after a tap callback, the capture events it emits and what it
      posts to the producer task. */
  function Tap(b: Backend, e: TapEvent): (Backend, seq<Emission>, seq<ProducerEvent>) {
    match e
    case TimedOut => (b, [], [])
    case KilledByUser => (b.(current := None), [], [EventTapDisabled])
    case Moved(location, delta, inputs) =>
      if b.current.Some? then (b, Stamp(b.current.value, inputs), [])
      else
        (match (b.pending, Crossing(b, location, delta))
         case (None, None) => (b, [], [])
         case (None, Some(k)) =>
           (b.(pending := Some(k), enter := Some(location)), [(k, BeginPending)], [])
         case (Some(p), None) => (b.(pending := None), [(p, CancelPending)], [])
         case (Some(p), Some(k)) =>
           if k == p then (b, [], [])
           else (b.(pending := Some(k), enter := Some(location)), [(p, CancelPending), (k, BeginPending)], []))
    case Other(inputs) =>
      if b.current.Some? then (b, Stamp(b.current.value, inputs), []) else (b, [], [])
  }

  // ----- the source's object -----

  /** `InputCaptureState`, updated in place by both threads. */
  class InputCaptureState {
    var clients: set<BarrierKey>
    var current: Option<BarrierKey>
    var pending: Option<BarrierKey>
    var enter: Option<Point>
    var displays: seq<Display>

    function View(): Backend
      reads this
    {
      Backend(clients, current, pending, enter, displays)
    }

    constructor (ds: seq<Display>)
      ensures View() == Fresh(ds)
    {
      clients, current, pending, enter, displays := {}, None, None, None, ds;
    }

    /** The first display that contains a point. */
    method DisplayContaining(p: Point) returns (i: Option<nat>)
      ensures i == Geometry.FirstContaining(displays, p)
    {
      var n := 0;
      while n < |displays| && !displays[n].rect.Contains(p)
        invariant n <= |displays|
        invariant Geometry.FirstContaining(displays, p)
                  == if Geometry.FirstContaining(displays[n..], p).None? then None
                     else Some(n + Geometry.FirstContaining(displays[n..], p).value)
      {
        n := n + 1;
      }
      i := if n < |displays| then Some(n) else None;
    }

    /** Promotion needs the recorded enter position: see `Coherent`. */
    method ResetCursor(pos: Position, os: Os) returns (ok: bool, warp: Point)
      requires enter.Some?
      ensures ok == os.warp && warp == Geometry.WarpTarget(displays, enter.value, pos)
    {
      var prev := enter.value;
      var on := DisplayContaining(prev);
      warp := prev;
      if on.Some? {
        var r := displays[on.value].rect;
        match pos
        case Left => warp := warp.(x := r.x + 1.0);
        case Right => warp := warp.(x := r.Right() - 1.0);
        case Top => warp := warp.(y := r.y + 1.0);
        case Bottom => warp := warp.(y := r.Bottom() - 1.0);
      } else {
        match pos
        case Left => warp := warp.(x := prev.x - 1.0);
        case Right => warp := warp.(x := prev.x + 1.0);
        case Top => warp := warp.(y := prev.y - 1.0);
        case Bottom => warp := warp.(y := prev.y + 1.0);
      }
      ok := os.warp;
    }

    method HandleProducerEvent(p: ProducerEvent, os: Os) returns (emitted: Option<Emission>, ok: bool)
      requires Coherent(View())
      modifies this
      ensures View() == HandleProducer(old(View()), p, os).0
      ensures (if emitted.Some? then [emitted.value] else []) == HandleProducer(old(View()), p, os).1
      ensures p.StartCapture? && !ok ==> old(pending) == Some(p.key) && pending.None? && emitted.None?
      ensures emitted.Some? ==> ok
    {
      emitted, ok := None, true;
      match p
      case Release =>
        if current.Some? {
          if !os.show { return None, false; }
          current := None;
        }
        if pending.Some? { pending := None; }
      case Grab(k) =>
        if current.None? {
          if !os.hide { return None, false; }
          current := Some(k);
        }
      case StartCapture(k) =>
        if pending != Some(k) { return None, true; }
        pending := None;
        if current.None? {
          if !os.hide { return None, false; }
          current := Some(k);
          var warped, target := ResetCursor(k.pos, os);
          if !warped { return None, false; }
          return Some((k, Begin)), true;
        }
      case CancelPendingRequest(k) =>
        if pending == Some(k) {
          pending := None;
          return Some((k, CancelPending)), true;
        }
      case Create(k) =>
        clients := clients + {k};
      case Destroy(k) =>
        if current == Some(k) {
          if !os.show { return None, false; }
          current := None;
        }
        if pending == Some(k) { pending := None; }
        clients := clients - {k};
      case EventTapDisabled =>
        if current.Some? {
          if !os.show { return None, false; }
          current := None;
        }
        if pending.Some? { pending := None; }
        ok := false;
      case DisplayReconfigured(ds) =>
        displays := ds;
    }

    method TapCallback(e: TapEvent, os: Os) returns (emitted: seq<Emission>, posted: seq<ProducerEvent>)
      requires Coherent(View())
      modifies this
      ensures View() == Tap(old(View()), e).0
      ensures emitted == Tap(old(View()), e).1
      ensures posted == Tap(old(View()), e).2
    {
      emitted, posted := [], [];
      if e.TimedOut? { return; }
      if e.KilledByUser? {
        if current.Some? { current := None; }
        posted := [EventTapDisabled];
        return;
      }
      if current.Some? {
        var k := current.value;
        for i := 0 to |e.inputs|
          invariant emitted == Stamp(k, e.inputs)[..i]
        {
          emitted := emitted + [(k, Input(e.inputs[i]))];
        }
        assert emitted == Stamp(k, e.inputs);
        if e.Moved? { var warped, target := ResetCursor(k.pos, os); }
      } else if e.Moved? {
        var crossed := Crossing(View(), e.location, e.delta);
        if pending.Some? {
          if crossed.None? {
            emitted := [(pending.value, CancelPending)];
            pending := None;
          } else if crossed.value != pending.value {
            emitted := [(pending.value, CancelPending)];
            pending, enter := crossed, Some(e.location);
            emitted := emitted + [(crossed.value, BeginPending)];
          }
        } else if crossed.Some? {
          pending, enter := crossed, Some(e.location);
          emitted := [(crossed.value, BeginPending)];
        }
      }
    }
  }

  // ----- what every step keeps -----

  /** Pending and current exclude each other, both are registered barriers, and
      either one comes with an enter position. */
  predicate Coherent(b: Backend) {
    && !(b.pending.Some? && b.current.Some?)
    && (b.pending.Some? ==> b.pending.value in b.clients)
    && (b.current.Some? ==> b.current.value in b.clients)
    && (b.pending.Some? || b.current.Some? ==> b.enter.Some?)
  }

  /** The latest event that is not an Input, in a log that continues one whose
      latest was `last`. */
  function LastControl(last: Option<Emission>, log: seq<Emission>): Option<Emission> {
    if log == [] then last
    else if log[|log| - 1].1.Input? then LastControl(last, log[..|log| - 1])
    else Some(log[|log| - 1])
  }

  /** The backend's keys are what its latest control event announced. */
  predicate Announced(b: Backend, last: Option<Emission>) {
    && (b.pending.Some? ==> last == Some((b.pending.value, BeginPending)))
    && (b.current.Some? ==> last == Some((b.current.value, Begin)))
  }

  /** Who may follow whom in the emitted log. */
  predicate Follows(last: Option<Emission>, e: Emission) {
    match e.1
    case Begin => last == Some((e.0, BeginPending))
    case CancelPending => last == Some((e.0, BeginPending))
    case Input(_) => last == Some((e.0, Begin))
    case BeginPending => true
  }

  predicate Grammatical(last: Option<Emission>, log: seq<Emission>) {
    forall i :: 0 <= i < |log| ==> Follows(LastControl(last, log[..i]), log[i])
  }

  datatype Step = Producer(p: ProducerEvent, os: Os) | Tapped(e: TapEvent)

  function Apply(b: Backend, s: Step): (Backend, seq<Emission>) {
    match s
    case Producer(p, os) => HandleProducer(b, p, os)
    case Tapped(e) => (Tap(b, e).0, Tap(b, e).1)
  }

  /** Steps the program takes: Grab is never posted. */
  predicate Posted(s: Step) {
    s.Producer? ==> !s.p.Grab?
  }

  /** The one operating-system failure that matters here: promoting a pending
      barrier without managing to warp the cursor. */
  predicate WarpFails(b: Backend, s: Step) {
    s.Producer? && s.p.StartCapture? && b.pending == Some(s.p.key) && s.os.hide && !s.os.warp
  }

  lemma GrammaticalSnoc(last: Option<Emission>, log: seq<Emission>, e: Emission)
    requires Grammatical(last, log) && Follows(LastControl(last, log), e)
    ensures Grammatical(last, log + [e])
    ensures LastControl(last, log + [e]) == if e.1.Input? then LastControl(last, log) else Some(e)
  {
    assert (log + [e])[..|log|] == log;
    forall i | 0 <= i < |log + [e]|
      ensures Follows(LastControl(last, (log + [e])[..i]), (log + [e])[i])
    {
      assert (log + [e])[..i] == log[..i];
    }
  }

  /** Captured inputs extend a log whose latest control event is their Begin. */
  lemma {:induction false} GrammaticalInputs(last: Option<Emission>, log: seq<Emission>, k: BarrierKey, inputs: seq<Event>)
    requires Grammatical(last, log) && LastControl(last, log) == Some((k, Begin))
    ensures Grammatical(last, log + Stamp(k, inputs))
    ensures LastControl(last, log + Stamp(k, inputs)) == LastControl(last, log)
    decreases |inputs|
  {
    if inputs == [] {
      assert log + Stamp(k, inputs) == log;
    } else {
      var n := |inputs| - 1;
      GrammaticalInputs(last, log, k, inputs[..n]);
      var init, e := log + Stamp(k, inputs[..n]), (k, Input(inputs[n]));
      assert log + Stamp(k, inputs) == init + [e] by {
        assert Stamp(k, inputs) == Stamp(k, inputs[..n]) + [e];
      }
      GrammaticalSnoc(last, init, e);
    }
  }

  /** Coherence survives every posted step, whatever the system calls return. */
  lemma StepKeepsCoherent(b: Backend, s: Step)
    requires Coherent(b) && Posted(s)
    ensures Coherent(Apply(b, s).0)
  {
  }

  /** What one step emits, told by the keys before and after. */
  ghost predicate Emits(b: Backend, b': Backend, out: seq<Emission>) {
    || (out == [] && (b'.pending.Some? ==> b'.pending == b.pending) && (b'.current.Some? ==> b'.current == b.current))
    || (b.current.Some? && b'.current == b.current && b'.pending == b.pending && exists inputs :: out == Stamp(b.current.value, inputs))
    || (b'.pending.Some? && b'.current.None? && out == [(b'.pending.value, BeginPending)])
    || (b.pending.Some? && b'.pending.None? && b'.current.None? && out == [(b.pending.value, CancelPending)])
    || (b.pending.Some? && b'.pending.Some? && b'.current.None? && out == [(b.pending.value, CancelPending), (b'.pending.value, BeginPending)])
    || (b.pending.Some? && b'.pending.None? && b'.current == b.pending && out == [(b.pending.value, Begin)])
  }

  lemma StepEmits(b: Backend, s: Step)
    requires Coherent(b) && Posted(s) && !WarpFails(b, s)
    ensures Emits(b, Apply(b, s).0, Apply(b, s).1)
  {
  }

  lemma InputsGrammatical(b: Backend, b': Backend, out: seq<Emission>, last: Option<Emission>, log: seq<Emission>)
    requires b.current.Some? && b'.current == b.current && b'.pending == b.pending && exists inputs :: out == Stamp(b.current.value, inputs)
    requires Announced(b, LastControl(last, log)) && Grammatical(last, log)
    ensures Grammatical(last, log + out)
    ensures Announced(b', LastControl(last, log + out))
  {
    var inputs :| out == Stamp(b.current.value, inputs);
    GrammaticalInputs(last, log, b.current.value, inputs);
  }

  lemma EmitsGrammatical(b: Backend, b': Backend, out: seq<Emission>, last: Option<Emission>, log: seq<Emission>)
    requires Emits(b, b', out) && Announced(b, LastControl(last, log)) && Grammatical(last, log)
    requires !(b'.pending.Some? && b'.current.Some?)
    ensures Grammatical(last, log + out)
    ensures Announced(b', LastControl(last, log + out))
  {
    if out == [] {
      assert log + out == log;
    } else if b.current.Some? && b'.current == b.current && b'.pending == b.pending && exists inputs :: out == Stamp(b.current.value, inputs) {
      InputsGrammatical(b, b', out, last, log);
    } else if |out| == 1 {
      assert out == [out[0]];
      GrammaticalSnoc(last, log, out[0]);
    } else {
      GrammaticalSnoc(last, log, out[0]);
      GrammaticalSnoc(last, log + [out[0]], out[1]);
      assert log + out == log + [out[0]] + [out[1]];
    }
  }

  /** One step extends a grammatical log by grammatical emissions. */
  lemma StepIsGrammatical(b: Backend, s: Step, last: Option<Emission>, log: seq<Emission>)
    requires Coherent(b) && Announced(b, LastControl(last, log)) && Grammatical(last, log)
    requires Posted(s) && !WarpFails(b, s)
    ensures Grammatical(last, log + Apply(b, s).1)
    ensures Announced(Apply(b, s).0, LastControl(last, log + Apply(b, s).1))
  {
    StepKeepsCoherent(b, s);
    StepEmits(b, s);
    EmitsGrammatical(b, Apply(b, s).0, Apply(b, s).1, last, log);
  }

  // ----- what each step does, exactly -----

  /** This barrier is the one the motion crosses. */
  predicate CrossesAt(b: Backend, location: Point, delta: Point, k: BarrierKey) {
    Geometry.Crosses(location, Point(location.x + delta.x, location.y + delta.y), b.displays, b.clients, k)
  }

  /** Without a grab, a motion leaves pending exactly the barrier it crosses; a
      change is announced, the old one first, and the position is recorded. */
  lemma MotionExactly(b: Backend, location: Point, delta: Point, inputs: seq<Event>)
    requires b.current.None?
    ensures var (b', out, posted) := Tap(b, Moved(location, delta, inputs));
            && (forall k :: b'.pending == Some(k) <==> CrossesAt(b, location, delta, k))
            && (forall k :: (k, BeginPending) in out <==> CrossesAt(b, location, delta, k) && b.pending != Some(k))
            && (forall k :: (k, CancelPending) in out <==> b.pending == Some(k) && !CrossesAt(b, location, delta, k))
            && (forall e :: e in out ==> e.1 == BeginPending || e.1 == CancelPending)
            && b'.enter == (if b'.pending.Some? && b'.pending != b.pending then Some(location) else b.enter)
            && b'.current.None? && b'.clients == b.clients && b'.displays == b.displays && posted == []
  {
    Geometry.CrossedExactly(location, Point(location.x + delta.x, location.y + delta.y), b.displays, b.clients);
    assert forall k :: Crossing(b, location, delta) == Some(k) <==> CrossesAt(b, location, delta, k);
  }

  /** With one, every input goes to the grabbed barrier, once and in order. */
  lemma GrabExactly(b: Backend, e: TapEvent, k: BarrierKey)
    requires b.current == Some(k) && (e.Moved? || e.Other?)
    ensures var (b', out, posted) := Tap(b, e);
            && b' == b && posted == [] && |out| == |e.inputs|
            && forall i :: 0 <= i < |out| ==> out[i] == (k, Input(e.inputs[i]))
  {
  }

  /** The rest of what the tap does: only a kill changes anything. */
  lemma TapRest(b: Backend, e: TapEvent)
    requires !e.Moved? && (e.Other? ==> b.current.None?)
    ensures var (b', out, posted) := Tap(b, e);
            out == [] && (e.KilledByUser? <==> posted == [EventTapDisabled]) && (posted == [] ==> b' == b)
            && (e.KilledByUser? ==> b' == b.(current := None))
  {
  }

  /** A grab begins exactly with the promotion of the pending barrier while none
      is grabbed and the cursor can be hidden; it is announced exactly if the
      cursor is warped, too. It ends exactly when the backend is told to let go,
      or to forget the barrier, and the cursor can be shown. */
  lemma ProducerExactly(b: Backend, p: ProducerEvent, os: Os)
    requires Coherent(b) && !p.Grab?
    ensures var (b', out) := HandleProducer(b, p, os);
            && (forall k :: b'.current == Some(k) && b.current != Some(k) <==> p == StartCapture(k) && b.pending == Some(k) && os.hide)
            && (forall k :: (k, Begin) in out <==> p == StartCapture(k) && b.pending == Some(k) && os.hide && os.warp)
            && (forall k :: b.current == Some(k) && b'.current != Some(k) <==>
                  b.current == Some(k) && os.show && (p.Release? || p.EventTapDisabled? || p == Destroy(k)))
            && (forall k :: b.pending == Some(k) && b'.pending != Some(k) <==>
                  b.pending == Some(k) && (p.Release? || p.EventTapDisabled? || p == Destroy(k) || p == StartCapture(k) || p == CancelPendingRequest(k)))
            && (b'.pending.Some? ==> b'.pending == b.pending)
            && (forall k :: (k, CancelPending) in out <==> p == CancelPendingRequest(k) && b.pending == Some(k))
            && |out| <= 1 && (forall e :: e in out ==> e.1 == Begin || e.1 == CancelPending)
            && b'.enter == b.enter && b'.displays == (if p.DisplayReconfigured? then p.displays else b.displays)
  {
  }

  // ----- whole runs -----

  /** The backend and its complete log after a run from a fresh start. */
  function Run(displays: seq<Display>, steps: seq<Step>): (Backend, seq<Emission>) {
    if steps == [] then (Fresh(displays), [])
    else
      var (b, log) := Run(displays, steps[..|steps| - 1]);
      var (b', out) := Apply(b, steps[|steps| - 1]);
      (b', log + out)
  }

  predicate WarpsSucceed(displays: seq<Display>, steps: seq<Step>) {
    forall i :: 0 <= i < |steps| ==> !WarpFails(Run(displays, steps[..i]).0, steps[i])
  }

  /** In every run, and whatever the system calls return: the enter position
      that a promotion or a captured motion needs has been recorded. */
  lemma {:induction false} AlwaysCoherent(displays: seq<Display>, steps: seq<Step>)
    requires forall s :: s in steps ==> Posted(s)
    ensures Coherent(Run(displays, steps).0)
    decreases |steps|
  {
    if steps != [] {
      AlwaysCoherent(displays, steps[..|steps| - 1]);
      StepKeepsCoherent(Run(displays, steps[..|steps| - 1]).0, steps[|steps| - 1]);
    }
  }

  /** The event grammar of every run: see `Announced` and `Follows`. */
  lemma {:induction false} EventGrammar(displays: seq<Display>, steps: seq<Step>)
    requires forall s :: s in steps ==> Posted(s)
    requires WarpsSucceed(displays, steps)
    ensures Grammatical(None, Run(displays, steps).1)
    ensures Announced(Run(displays, steps).0, LastControl(None, Run(displays, steps).1))
    decreases |steps|
  {
    if steps != [] {
      var n := |steps| - 1;
      forall i | 0 <= i < n ensures steps[..n][..i] == steps[..i] {}
      EventGrammar(displays, steps[..n]);
      AlwaysCoherent(displays, steps[..n]);
      StepIsGrammatical(Run(displays, steps[..n]).0, steps[n], None, Run(displays, steps[..n]).1);
    }
  }

  /** In every run, each BeginPending was emitted by a motion without a grab, and
      names the barrier that motion crossed: that of the display the cursor was
      on, if one was registered. */
  lemma {:induction false} PendingNamesDisplay(displays: seq<Display>, steps: seq<Step>, j: nat)
    requires j < |Run(displays, steps).1| && Run(displays, steps).1[j].1 == BeginPending
    ensures exists i :: && 0 <= i < |steps| && steps[i].Tapped? && steps[i].e.Moved?
                        && |Run(displays, steps[..i]).1| <= j < |Run(displays, steps[..i + 1]).1|
                        && Run(displays, steps[..i]).0.current.None?
                        && CrossesAt(Run(displays, steps[..i]).0, steps[i].e.location, steps[i].e.delta, Run(displays, steps).1[j].0)
    decreases |steps|
  {
    var n := |steps| - 1;
    var (b, log) := Run(displays, steps[..n]);
    assert steps[..n + 1] == steps;
    if j < |log| {
      PendingNamesDisplay(displays, steps[..n], j);
      var i :| && 0 <= i < n && steps[..n][i].Tapped? && steps[..n][i].e.Moved?
               && |Run(displays, steps[..n][..i]).1| <= j < |Run(displays, steps[..n][..i + 1]).1|
               && Run(displays, steps[..n][..i]).0.current.None?
               && CrossesAt(Run(displays, steps[..n][..i]).0, steps[..n][i].e.location, steps[..n][i].e.delta, log[j].0);
      assert steps[..n][..i] == steps[..i] && steps[..n][..i + 1] == steps[..i + 1];
    } else {
      EmitsPending(b, steps[n], j - |log|);
    }
  }

  lemma EmitsPending(b: Backend, s: Step, i: nat)
    requires i < |Apply(b, s).1| && Apply(b, s).1[i].1 == BeginPending
    ensures s.Tapped? && s.e.Moved? && b.current.None? && CrossesAt(b, s.e.location, s.e.delta, Apply(b, s).1[i].0)
  {
    if s.Tapped? && s.e.Moved? && b.current.None? {
      assert Apply(b, s).1[i] in Apply(b, s).1;
      MotionExactly(b, s.e.location, s.e.delta, s.e.inputs);
    }
  }

  /** Exactly when a single step breaks the announcement: a failed warp grabs
      the cursor without telling anyone. */
  lemma AnnouncedExactly(b: Backend, s: Step, last: Option<Emission>, log: seq<Emission>)
    requires Coherent(b) && Announced(b, LastControl(last, log)) && Grammatical(last, log) && Posted(s)
    ensures Announced(Apply(b, s).0, LastControl(last, log + Apply(b, s).1)) <==> !WarpFails(b, s)
  {
    if !WarpFails(b, s) {
      StepIsGrammatical(b, s, last, log);
    } else {
      assert log + Apply(b, s).1 == log;
    }
  }

  /** Reading a log from the front. */
  lemma {:induction false} LastControlCons(last: Option<Emission>, log: seq<Emission>)
    requires log != []
    ensures LastControl(last, log) == LastControl(if log[0].1.Input? then last else Some(log[0]), log[1..])
    decreases |log|
  {
    if |log| > 1 {
      var n := |log| - 1;
      LastControlCons(last, log[..n]);
      assert log[..n][1..] == log[1..][..n - 1];
    }
  }

  /** Consuming the head of a grammatical log leaves a grammatical log. */
  lemma GrammaticalTail(last: Option<Emission>, log: seq<Emission>)
    requires log != [] && Grammatical(last, log)
    ensures Grammatical(if log[0].1.Input? then last else Some(log[0]), log[1..])
  {
    var last' := if log[0].1.Input? then last else Some(log[0]);
    forall i | 0 <= i < |log| - 1
      ensures Follows(LastControl(last', log[1..][..i]), log[1..][i])
    {
      LastControlCons(last, log[..i + 1]);
      assert log[..i + 1][1..] == log[1..][..i];
      assert log[1..][i] == log[i + 1];
    }
  }

  lemma {:induction false} LastControlIsLogged(last: Option<Emission>, log: seq<Emission>)
    ensures LastControl(last, log) == last || (LastControl(last, log).Some? && LastControl(last, log).value in log)
    decreases |log|
  {
    if log != [] {
      LastControlIsLogged(last, log[..|log| - 1]);
    }
  }
}
