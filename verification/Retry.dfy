/** Outgoing connections: the retry gate, the set that keeps two dials to one
    peer from overlapping, and the exponential backoff. Times are milliseconds. */
module Retry {
  import opened Types

  const INITIAL_RETRY_BACKOFF: nat := 500
  const MAX_RETRY_BACKOFF: nat := 4000
  const U32_MAX: nat := 0xFFFF_FFFF

  datatype RetryState = RetryState(nextAttemptAt: nat, backoff: nat, failureCount: nat)

  /** A running `connect_to_handle`. */
  datatype DialTask = DialTask(handle: Handle, start: nat)

  datatype Ending = NoAddress | Failed | Connected

  /** The shared tables and the running dials. `failures` is history: when this
      handle failed since it last connected. */
  datatype Connection = Connection(
    retry: map<Handle, RetryState>,
    connecting: set<Handle>,
    dials: seq<DialTask>,
    failures: map<Handle, seq<nat>>,
    now: nat)

  function Initial(now: nat): Connection {
    Connection(map[], {}, [], map[], now)
  }

  function Min(a: nat, b: nat): nat {
    if a <= b then a else b
  }

  predicate GateOpen(c: Connection, h: Handle, now: nat) {
    h in c.retry ==> c.retry[h].nextAttemptAt <= now
  }

  function Claim(c: Connection, h: Handle, now: nat): Connection {
    if h in c.connecting then c else c.(connecting := c.connecting + {h}, dials := c.dials + [DialTask(h, now)])
  }

  /** What `send` without a session, and `dial`, do. */
  function Attempt(c: Connection, h: Handle, now: nat): Connection {
    if GateOpen(c, h, now) then Claim(c, h, now) else c
  }

  function FailuresOf(c: Connection, h: Handle): seq<nat> {
    if h in c.failures then c.failures[h] else []
  }

  function RecordFailure(c: Connection, h: Handle, now: nat): Connection {
    var entry := if h in c.retry then c.retry[h] else RetryState(now, INITIAL_RETRY_BACKOFF, 0);
    c.(retry := c.retry[h := RetryState(now + entry.backoff, Min(entry.backoff * 2, MAX_RETRY_BACKOFF), Min(entry.failureCount + 1, U32_MAX))],
       failures := c.failures[h := FailuresOf(c, h) + [now]])
  }

  /** The dial at this index ends. */
  function End(c: Connection, i: nat, ending: Ending, now: nat): Connection
    requires i < |c.dials|
  {
    var h := c.dials[i].handle;
    var d := c.(dials := c.dials[..i] + c.dials[i + 1..], connecting := c.connecting - {h});
    match ending
    case NoAddress => d
    case Failed => RecordFailure(d, h, now)
    case Connected => d.(retry := d.retry - {h}, failures := d.failures - {h})
  }

  /** The supervisor of a session that broke records a failure and dials,
      past the gate and without entering `connecting`. */
  function Redial(c: Connection, h: Handle, now: nat): Connection {
    var d := RecordFailure(c, h, now);
    d.(dials := d.dials + [DialTask(h, now)])
  }

  // ----- the tables as they are updated -----

  class LanMouseConnection {
    var retryState: map<Handle, RetryState>
    var connecting: set<Handle>
    var dials: seq<DialTask>
    ghost var failures: map<Handle, seq<nat>>
    ghost var now: nat

    ghost function View(): Connection
      reads this
    {
      Connection(retryState, connecting, dials, failures, now)
    }

    constructor (at: nat)
      ensures View() == Initial(at)
    {
      retryState, connecting, dials, failures, now := map[], {}, [], map[], at;
    }

    method Dial(h: Handle, at: nat) returns (spawned: bool)
      modifies this
      ensures View() == Attempt(old(View()), h, at)
      ensures spawned == (|dials| > |old(dials)|)
    {
      spawned := false;
      if h in retryState && at < retryState[h].nextAttemptAt { return; }
      if h !in connecting {
        connecting := connecting + {h};
        dials := dials + [DialTask(h, at)];
        spawned := true;
      }
    }

    method RecordRetryFailure(h: Handle, at: nat)
      modifies this`retryState, this`failures
      ensures View() == RecordFailure(old(View()), h, at)
    {
      failures := failures[h := FailuresOf(View(), h) + [at]];
      if h !in retryState {
        retryState := retryState[h := RetryState(at, INITIAL_RETRY_BACKOFF, 0)];
      }
      var entry := retryState[h];
      var next := entry.backoff;
      entry := entry.(nextAttemptAt := at + next);
      entry := entry.(backoff := if next * 2 <= MAX_RETRY_BACKOFF then next * 2 else MAX_RETRY_BACKOFF);
      if entry.failureCount < U32_MAX {
        entry := entry.(failureCount := entry.failureCount + 1);
      } else {
        entry := entry.(failureCount := U32_MAX);
      }
      retryState := retryState[h := entry];
    }

    method Finish(i: nat, ending: Ending, at: nat)
      requires i < |dials|
      modifies this
      ensures View() == End(old(View()), i, ending, at)
    {
      var h := dials[i].handle;
      dials := dials[..i] + dials[i + 1..];
      if ending.Failed? {
        RecordRetryFailure(h, at);
      }
      connecting := connecting - {h};
      if ending.Connected? {
        retryState := retryState - {h};
        failures := failures - {h};
      }
    }
  }

  // ----- runs -----

  /** `LateClaim`: a caller that passed the gate some time ago. */
  datatype Step =
    | Attempted(handle: Handle, at: nat)
    | LateClaim(handle: Handle, at: nat)
    | Ended(index: nat, ending: Ending, at: nat)
    | Redialed(handle: Handle, at: nat)

  function Advance(c: Connection, t: Step): Connection {
    var d := c.(now := t.at);
    match t
    case Attempted(h, at) => Attempt(d, h, at)
    case LateClaim(h, at) => Claim(d, h, at)
    case Ended(i, ending, at) => if i < |c.dials| then End(d, i, ending, at) else d
    case Redialed(h, at) => Redial(d, h, at)
  }

  function Execute(start: Connection, steps: seq<Step>): Connection {
    if steps == [] then start else Advance(Execute(start, steps[..|steps| - 1]), steps[|steps| - 1])
  }

  predicate Timed(start: nat, steps: seq<Step>) {
    && (forall i :: 0 <= i < |steps| ==> start <= steps[i].at)
    && (forall i, j :: 0 <= i < j < |steps| ==> steps[i].at <= steps[j].at)
  }

  // ----- at most one dial per handle -----

  predicate Dialing(c: Connection, h: Handle) {
    exists i :: 0 <= i < |c.dials| && c.dials[i].handle == h
  }

  /** At most one dial is in flight to `h`, and `connecting` says whether. */
  predicate Sound(c: Connection, h: Handle) {
    && (forall i, j :: 0 <= i < j < |c.dials| && c.dials[i].handle == h ==> c.dials[j].handle != h)
    && (h in c.connecting <==> Dialing(c, h))
  }

  lemma ClaimKeepsSound(c: Connection, h: Handle, now: nat, x: Handle)
    requires Sound(c, x)
    ensures Sound(Claim(c, h, now), x)
  {
    var d := Claim(c, h, now);
    if h !in c.connecting {
      assert d.dials[|c.dials|].handle == h;
      assert Dialing(c, x) ==> Dialing(d, x) by {
        if i :| 0 <= i < |c.dials| && c.dials[i].handle == x {
          assert d.dials[i].handle == x;
        }
      }
    }
  }

  /** The dial at index i is gone; the others moved up. */
  lemma EndShifts(c: Connection, i: nat, ending: Ending, now: nat, j: nat)
    requires i < |c.dials| && j < |c.dials| - 1
    ensures |End(c, i, ending, now).dials| == |c.dials| - 1
    ensures End(c, i, ending, now).dials[j] == c.dials[if j < i then j else j + 1]
  {
  }

  lemma EndKeepsSound(c: Connection, i: nat, ending: Ending, now: nat, x: Handle)
    requires Sound(c, x) && i < |c.dials|
    ensures Sound(End(c, i, ending, now), x)
  {
    var d := End(c, i, ending, now);
    forall j | 0 <= j < |d.dials| ensures d.dials[j] == c.dials[if j < i then j else j + 1] {
      EndShifts(c, i, ending, now, j);
    }
    assert d.connecting == c.connecting - {c.dials[i].handle};
    if c.dials[i].handle != x && Dialing(c, x) {
      var j :| 0 <= j < |c.dials| && c.dials[j].handle == x;
      assert d.dials[if j < i then j else j - 1].handle == x;
    }
  }

  lemma RedialIsUnsound(c: Connection, h: Handle, now: nat)
    requires Sound(c, h)
    ensures !Sound(Redial(c, h, now), h)
  {
    var d := Redial(c, h, now);
    assert d.dials[|c.dials|].handle == h;
    if Dialing(c, h) {
      var i :| 0 <= i < |c.dials| && c.dials[i].handle == h;
      assert d.dials[i].handle == h;
    }
  }

  lemma RedialOfOther(c: Connection, h: Handle, now: nat, x: Handle)
    requires Sound(c, x) && x != h
    ensures Sound(Redial(c, h, now), x)
  {
    var d := Redial(c, h, now);
    if i :| 0 <= i < |c.dials| && c.dials[i].handle == x {
      assert d.dials[i].handle == x;
    }
  }

  /** One step keeps the de-duplication of `x` intact exactly when it is not the
      supervisor's redial of `x`. */
  lemma SoundExactly(c: Connection, t: Step, x: Handle)
    requires Sound(c, x)
    ensures Sound(Advance(c, t), x) <==> !(t.Redialed? && t.handle == x)
  {
    var d := c.(now := t.at);
    assert Sound(d, x) by { assert Dialing(d, x) == Dialing(c, x); }
    match t
    case Attempted(h, at) => ClaimKeepsSound(d, h, at, x);
    case LateClaim(h, at) => ClaimKeepsSound(d, h, at, x);
    case Ended(i, ending, at) => if i < |c.dials| { EndKeepsSound(d, i, ending, at, x); }
    case Redialed(h, at) => if h == x { RedialIsUnsound(d, h, at); } else { RedialOfOther(d, h, at, x); }
  }

  /** Dials started by `send` and `dial` never overlap, however they interleave
      and whatever happens to other handles. */
  lemma {:induction false} OneDialPerHandle(now: nat, steps: seq<Step>, x: Handle)
    requires forall t :: t in steps ==> !(t.Redialed? && t.handle == x)
    ensures Sound(Execute(Initial(now), steps), x)
    decreases |steps|
  {
    if steps != [] {
      var n := |steps| - 1;
      OneDialPerHandle(now, steps[..n], x);
      assert steps[n] in steps;
      SoundExactly(Execute(Initial(now), steps[..n]), steps[n], x);
    }
  }

  // ----- backoff -----

  function Pow2(n: nat): nat {
    if n == 0 then 1 else 2 * Pow2(n - 1)
  }

  function Backoff(n: nat): nat {
    Min(INITIAL_RETRY_BACKOFF * Pow2(n), MAX_RETRY_BACKOFF)
  }

  lemma {:induction false} BackoffCaps(n: nat)
    ensures n >= 3 ==> Pow2(n) >= 8
    ensures Backoff(n) == if n == 0 then 500 else if n == 1 then 1000 else if n == 2 then 2000 else 4000
  {
    if n >= 1 { BackoffCaps(n - 1); }
  }

  /** The waits: after the n-th failure, `Backoff(n - 1)`. */
  predicate Spaced(ts: seq<nat>) {
    forall i :: 1 <= i < |ts| ==> ts[i] >= ts[i - 1] + Backoff(i - 1)
  }

  /** What is stored for `h` after n consecutive failures, and that a running
      dial started after the wait. */
  predicate Paced(c: Connection, h: Handle) {
    && (h in c.retry <==> FailuresOf(c, h) != [])
    && (h in c.retry ==>
          var ts := FailuresOf(c, h);
          var n := |ts|;
          && c.retry[h] == RetryState(ts[n - 1] + Backoff(n - 1), Backoff(n), Min(n, U32_MAX))
          && Spaced(ts)
          && forall i :: 0 <= i < |c.dials| && c.dials[i].handle == h ==> c.dials[i].start >= c.retry[h].nextAttemptAt)
    && (forall i :: 0 <= i < |c.dials| && c.dials[i].handle == h ==> c.dials[i].start <= c.now)
  }

  lemma RecordKeepsPaced(c: Connection, h: Handle, now: nat)
    requires Paced(c, h) && !Dialing(c, h)
    requires h in c.retry ==> c.retry[h].nextAttemptAt <= now
    ensures Paced(RecordFailure(c, h, now), h)
  {
    var ts := FailuresOf(c, h);
    BackoffCaps(|ts|);
    BackoffCaps(|ts| + 1);
    BackoffCaps(if |ts| == 0 then 0 else |ts| - 1);
  }

  lemma EndKeepsPaced(c: Connection, i: nat, ending: Ending, at: nat, x: Handle)
    requires Paced(c, x) && Sound(c, x) && i < |c.dials| && c.now <= at
    ensures Paced(End(c.(now := at), i, ending, at), x)
  {
    var h := c.dials[i].handle;
    var d := c.(now := at, dials := c.dials[..i] + c.dials[i + 1..], connecting := c.connecting - {h});
    assert forall j :: 0 <= j < |d.dials| ==> d.dials[j] == if j < i then c.dials[j] else c.dials[j + 1];
    assert Paced(d, x);
    if ending.Failed? && h == x {
      assert !Dialing(d, x);
      RecordKeepsPaced(d, x, at);
    }
  }

  lemma ClaimKeepsPaced(c: Connection, h: Handle, at: nat, x: Handle)
    requires Paced(c, x) && c.now <= at
    requires h == x ==> h in c.connecting || GateOpen(c, h, at)
    ensures Paced(Claim(c.(now := at), h, at), x)
  {
  }

  /** A late claim breaks the pacing exactly when it starts a dial while the
      gate is shut. */
  lemma LateClaimExactly(c: Connection, h: Handle, at: nat)
    requires Paced(c, h) && c.now <= at
    ensures Paced(Advance(c, LateClaim(h, at)), h) <==> h in c.connecting || GateOpen(c, h, at)
  {
    if h in c.connecting || GateOpen(c, h, at) {
      ClaimKeepsPaced(c, h, at, h);
    } else {
      var d := Advance(c, LateClaim(h, at));
      assert d.dials[|c.dials|] == DialTask(h, at);
    }
  }

  /** No redial of `x`, and no claim of it that comes so late that the gate has
      shut meanwhile. */
  predicate Punctual(c: Connection, t: Step, x: Handle) {
    && !(t.Redialed? && t.handle == x)
    && (t.LateClaim? && t.handle == x ==> x in c.connecting || GateOpen(c, x, t.at))
  }

  predicate AllPunctual(now: nat, steps: seq<Step>, x: Handle) {
    forall i :: 0 <= i < |steps| ==> Punctual(Execute(Initial(now), steps[..i]), steps[i], x)
  }

  lemma StepKeepsPaced(c: Connection, t: Step, x: Handle)
    requires Paced(c, x) && Sound(c, x) && c.now <= t.at
    requires Punctual(c, t, x)
    ensures Paced(Advance(c, t), x)
  {
    match t
    case Attempted(h, at) => if GateOpen(c, h, at) { ClaimKeepsPaced(c, h, at, x); }
    case LateClaim(h, at) => ClaimKeepsPaced(c, h, at, x);
    case Ended(i, ending, at) => if i < |c.dials| { EndKeepsPaced(c, i, ending, at, x); }
    case Redialed(h, at) =>
  }

  lemma PunctualPrefix(now: nat, steps: seq<Step>, x: Handle)
    requires steps != [] && AllPunctual(now, steps, x)
    ensures var n := |steps| - 1;
            && AllPunctual(now, steps[..n], x) && Punctual(Execute(Initial(now), steps[..n]), steps[n], x)
            && forall t :: t in steps[..n] ==> !(t.Redialed? && t.handle == x)
  {
    var n := |steps| - 1;
    forall i | 0 <= i < n ensures Punctual(Execute(Initial(now), steps[..n][..i]), steps[..n][i], x) {
      assert steps[..n][..i] == steps[..i];
    }
  }

  lemma {:induction false} NowEver(now: nat, steps: seq<Step>)
    ensures Execute(Initial(now), steps).now == if steps == [] then now else steps[|steps| - 1].at
  {
    if steps != [] { AdvanceNow(Execute(Initial(now), steps[..|steps| - 1]), steps[|steps| - 1]); }
  }

  lemma AdvanceNow(c: Connection, t: Step)
    ensures Advance(c, t).now == t.at
  {
  }

  lemma TimedPrefix(now: nat, steps: seq<Step>)
    requires steps != [] && Timed(now, steps)
    ensures Timed(now, steps[..|steps| - 1]) && Execute(Initial(now), steps[..|steps| - 1]).now <= steps[|steps| - 1].at
  {
    NowEver(now, steps[..|steps| - 1]);
  }

  lemma {:induction false} PacedEver(now: nat, steps: seq<Step>, x: Handle)
    requires Timed(now, steps) && AllPunctual(now, steps, x)
    ensures Paced(Execute(Initial(now), steps), x)
    decreases |steps|
  {
    if steps != [] {
      var n := |steps| - 1;
      TimedPrefix(now, steps);
      PunctualPrefix(now, steps, x);
      PacedEver(now, steps[..n], x);
      OneDialPerHandle(now, steps[..n], x);
      StepKeepsPaced(Execute(Initial(now), steps[..n]), steps[n], x);
    }
  }

  lemma {:induction false} SpacedAddsUp(ts: seq<nat>)
    requires |ts| >= 4 && Spaced(ts)
    ensures ts[|ts| - 1] >= ts[0] + 3500 + 4000 * (|ts| - 4)
    decreases |ts|
  {
    BackoffCaps(0);
    BackoffCaps(1);
    BackoffCaps(2);
    if |ts| > 4 {
      SpacedAddsUp(ts[..|ts| - 1]);
      BackoffCaps(|ts| - 2);
    }
  }

  lemma PacedMeans(c: Connection, x: Handle)
    requires Paced(c, x)
    ensures var ts := FailuresOf(c, x);
            && (x in c.retry <==> ts != [])
            && (x in c.retry ==> c.retry[x].backoff == Min(500 * Pow2(|ts|), 4000)
                                 && c.retry[x].nextAttemptAt == ts[|ts| - 1] + Min(500 * Pow2(|ts| - 1), 4000)
                                 && c.retry[x].failureCount == Min(|ts|, U32_MAX))
            && (|ts| >= 4 ==> ts[|ts| - 1] >= ts[0] + 3500 + 4000 * (|ts| - 4))
  {
    if |FailuresOf(c, x)| >= 4 {
      SpacedAddsUp(FailuresOf(c, x));
    }
  }

  /** A peer that keeps failing is dialled ever more slowly: the n-th failure
      since it last connected comes at least 3.5 s + 4 s per failure beyond the
      fourth after the first, and the stored backoff is the capped power. */
  lemma BackoffHolds(now: nat, steps: seq<Step>, x: Handle)
    requires Timed(now, steps) && AllPunctual(now, steps, x)
    ensures var c := Execute(Initial(now), steps);
            var ts := FailuresOf(c, x);
            && (x in c.retry <==> ts != [])
            && (x in c.retry ==> c.retry[x].backoff == Min(500 * Pow2(|ts|), 4000)
                                 && c.retry[x].nextAttemptAt == ts[|ts| - 1] + Min(500 * Pow2(|ts| - 1), 4000)
                                 && c.retry[x].failureCount == Min(|ts|, U32_MAX))
            && (|ts| >= 4 ==> ts[|ts| - 1] >= ts[0] + 3500 + 4000 * (|ts| - 4))
  {
    PacedEver(now, steps, x);
    PacedMeans(Execute(Initial(now), steps), x);
  }

  // ----- who is dialled -----

  /** When dials of this handle failed, or its session broke, since it was last
      connected. */
  function FailedTimes(now: nat, steps: seq<Step>, x: Handle): seq<nat> {
    if steps == [] then []
    else
      var n := |steps| - 1;
      var c, before := Execute(Initial(now), steps[..n]), FailedTimes(now, steps[..n], x);
      match steps[n]
      case Ended(i, ending, at) =>
        if i < |c.dials| && c.dials[i].handle == x then
          (match ending case NoAddress => before case Failed => before + [at] case Connected => [])
        else before
      case Redialed(h, at) => if h == x then before + [at] else before
      case _ => before
  }

  /** The history that the pacing is proved against is that of the run. */
  lemma {:induction false} FailuresAreRecorded(now: nat, steps: seq<Step>, x: Handle)
    ensures FailuresOf(Execute(Initial(now), steps), x) == FailedTimes(now, steps, x)
    decreases |steps|
  {
    if steps != [] {
      FailuresAreRecorded(now, steps[..|steps| - 1], x);
    }
  }

  lemma AttemptDials(c: Connection, x: Handle, at: nat)
    requires Sound(c, x)
    ensures Dialing(Advance(c, Attempted(x, at)), x) <==> Dialing(c, x) || GateOpen(c, x, at)
    ensures !Dialing(c, x) && GateOpen(c, x, at) ==> Advance(c, Attempted(x, at)).dials == c.dials + [DialTask(x, at)]
    ensures Dialing(c, x) || !GateOpen(c, x, at) ==> Advance(c, Attempted(x, at)).dials == c.dials
  {
    var d := Advance(c, Attempted(x, at));
    if d.dials != c.dials {
      assert d.dials[|c.dials|].handle == x;
    }
  }

  /** In every such run, asking for a peer that is not being dialled dials it
      exactly when it has not failed since it was last connected, or its wait
      since the last failure is over. */
  lemma DueIsDialed(now: nat, steps: seq<Step>, x: Handle, at: nat)
    requires Timed(now, steps) && AllPunctual(now, steps, x)
    ensures var c, ts := Execute(Initial(now), steps), FailedTimes(now, steps, x);
            var due := ts == [] || at >= ts[|ts| - 1] + Min(500 * Pow2(|ts| - 1), 4000);
            Advance(c, Attempted(x, at)).dials == if !Dialing(c, x) && due then c.dials + [DialTask(x, at)] else c.dials
  {
    var c := Execute(Initial(now), steps);
    PacedEver(now, steps, x);
    PacedMeans(c, x);
    FailuresAreRecorded(now, steps, x);
    OneDialEver(now, steps, x);
    AttemptDials(c, x, at);
  }

  lemma OneDialEver(now: nat, steps: seq<Step>, x: Handle)
    requires AllPunctual(now, steps, x)
    ensures Sound(Execute(Initial(now), steps), x)
  {
    forall t | t in steps ensures !(t.Redialed? && t.handle == x) {
      var i :| 0 <= i < |steps| && steps[i] == t;
      assert Punctual(Execute(Initial(now), steps[..i]), steps[i], x);
    }
    OneDialPerHandle(now, steps, x);
  }
}
