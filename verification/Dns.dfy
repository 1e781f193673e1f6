/** Name resolution: a new request for a handle aborts the previous lookup, so
    that no stale answer follows. */
module Dns {
  import opened Types

  /** A lookup and the request, counted from 0, that it was spawned for. */
  datatype Lookup = Lookup(handle: Handle, request: nat, hostname: string, aborted: bool, finished: bool)

  datatype DnsEvent =
    | Resolving(handle: Handle)
    | Resolved(handle: Handle, hostname: string, addresses: Option<seq<nat>>)

  /** Every lookup ever spawned, the handles' current ones, and the events sent,
      each with the request it stems from. */
  datatype State = State(lookups: seq<Lookup>, active: map<Handle, nat>, events: seq<(DnsEvent, nat)>)

  const EMPTY := State([], map[], [])

  function Request(s: State, h: Handle, hostname: string): State {
    var n := |s.lookups|;
    var lookups :=
      if h in s.active && s.active[h] < n && !s.lookups[s.active[h]].finished
      then s.lookups[s.active[h] := s.lookups[s.active[h]].(aborted := true)]
      else s.lookups;
    State(lookups + [Lookup(h, n, hostname, false, false)], s.active[h := n], s.events + [(Resolving(h), n)])
  }

  predicate Live(l: Lookup) {
    !l.aborted && !l.finished
  }

  /** A lookup that is still live answers. */
  function Complete(s: State, i: nat, result: Option<seq<nat>>): State {
    if i < |s.lookups| && Live(s.lookups[i]) then
      s.(lookups := s.lookups[i := s.lookups[i].(finished := true)],
         events := s.events + [(Resolved(s.lookups[i].handle, s.lookups[i].hostname, result), i)])
    else s
  }

  /** The request loop's body as it updates the table of running tasks. */
  class DnsTask {
    var lookups: seq<Lookup>
    var activeTasks: map<Handle, nat>
    var events: seq<(DnsEvent, nat)>

    ghost predicate Valid()
      reads this
    {
      forall h :: h in activeTasks ==> activeTasks[h] < |lookups|
    }

    ghost function View(): State
      reads this
    {
      State(lookups, activeTasks, events)
    }

    constructor ()
      ensures Valid() && View() == EMPTY
    {
      lookups, activeTasks, events := [], map[], [];
    }

    method DoDns(h: Handle, hostname: string)
      requires Valid()
      modifies this
      ensures Valid() && View() == Request(old(View()), h, hostname)
    {
      var n := |lookups|;
      if h in activeTasks {
        var previous := activeTasks[h];
        activeTasks := activeTasks - {h};
        if !lookups[previous].finished {
          lookups := lookups[previous := lookups[previous].(aborted := true)];
        }
      }
      events := events + [(Resolving(h), n)];
      lookups := lookups + [Lookup(h, n, hostname, false, false)];
      activeTasks := activeTasks[h := n];
    }
  }

  // ----- runs -----

  datatype Step = Asked(handle: Handle, hostname: string) | Answered(index: nat, result: Option<seq<nat>>)

  function Advance(s: State, t: Step): State {
    match t
    case Asked(h, hostname) => Request(s, h, hostname)
    case Answered(i, result) => Complete(s, i, result)
  }

  function Execute(steps: seq<Step>): State {
    if steps == [] then EMPTY else Advance(Execute(steps[..|steps| - 1]), steps[|steps| - 1])
  }

  /** The latest event so far about this handle. */
  function Latest(events: seq<(DnsEvent, nat)>, h: Handle): Option<(DnsEvent, nat)> {
    if events == [] then None
    else
      var e := events[|events| - 1];
      if e.0.handle == h then Some(e) else Latest(events[..|events| - 1], h)
  }

  /** Live lookups are current ones, of which each handle has one; and as long as
      one is live, the handle's latest event announced it. */
  ghost predicate Current(s: State) {
    && (forall h :: h in s.active ==> s.active[h] < |s.lookups| && s.lookups[s.active[h]].handle == h)
    && (forall i :: 0 <= i < |s.lookups| ==> s.lookups[i].request == i)
    && (forall i :: 0 <= i < |s.lookups| && Live(s.lookups[i]) ==>
          var h := s.lookups[i].handle;
          h in s.active && s.active[h] == i && Latest(s.events, h) == Some((Resolving(h), i)))
  }

  /** An answer is about the handle and host of the request it stems from. */
  predicate Answers(lookups: seq<Lookup>, e: (DnsEvent, nat)) {
    e.0.Resolved? ==> e.1 < |lookups| && lookups[e.1].handle == e.0.handle && lookups[e.1].hostname == e.0.hostname
  }

  /** Whenever an answer is sent, the latest earlier event about its handle was
      the announcement of the very request it answers. */
  ghost predicate Fresh(s: State) {
    forall k :: 0 <= k < |s.events| ==>
      && Answers(s.lookups, s.events[k])
      && (s.events[k].0.Resolved? ==>
            var h := s.events[k].0.handle;
            Latest(s.events[..k], h) == Some((Resolving(h), s.events[k].1)))
  }

  lemma LatestSnoc(events: seq<(DnsEvent, nat)>, e: (DnsEvent, nat), h: Handle)
    ensures Latest(events + [e], h) == if e.0.handle == h then Some(e) else Latest(events, h)
  {
    assert (events + [e])[..|events|] == events;
  }

  lemma FreshSnoc(s: State, events: seq<(DnsEvent, nat)>, e: (DnsEvent, nat))
    requires Fresh(s.(events := events))
    requires e.0.Resolved? ==> Latest(events, e.0.handle) == Some((Resolving(e.0.handle), e.1))
    requires Answers(s.lookups, e)
    ensures Fresh(s.(events := events + [e]))
  {
    assert (events + [e])[..|events|] == events;
    assert forall k | 0 <= k < |events| :: (events + [e])[..k] == events[..k];
  }

  lemma RequestKeeps(s: State, h: Handle, hostname: string)
    requires Current(s) && Fresh(s)
    ensures Current(Request(s, h, hostname)) && Fresh(Request(s, h, hostname))
  {
    var s' := Request(s, h, hostname);
    var e := (Resolving(h), |s.lookups|);
    assert forall j :: 0 <= j < |s.lookups| ==> s'.lookups[j].handle == s.lookups[j].handle && s'.lookups[j].hostname == s.lookups[j].hostname;
    FreshSnoc(s', s.events, e);
    forall i | 0 <= i < |s'.lookups| && Live(s'.lookups[i])
      ensures var x := s'.lookups[i].handle;
              x in s'.active && s'.active[x] == i && Latest(s'.events, x) == Some((Resolving(x), i))
    {
      LatestSnoc(s.events, e, s'.lookups[i].handle);
      if i < |s.lookups| {
        assert Live(s.lookups[i]);
      }
    }
  }

  lemma CompleteKeeps(s: State, i: nat, result: Option<seq<nat>>)
    requires Current(s) && Fresh(s)
    ensures Current(Complete(s, i, result)) && Fresh(Complete(s, i, result))
  {
    if i < |s.lookups| && Live(s.lookups[i]) {
      var s' := Complete(s, i, result);
      var e := s'.events[|s.events|];
      FreshSnoc(s', s.events, e);
      forall j | 0 <= j < |s'.lookups| && Live(s'.lookups[j])
        ensures var x := s'.lookups[j].handle;
                x in s'.active && s'.active[x] == j && Latest(s'.events, x) == Some((Resolving(x), j))
      {
        assert j != i && Live(s.lookups[j]);
        LatestSnoc(s.events, e, s.lookups[j].handle);
      }
    }
  }

  lemma {:induction false} CurrentEver(steps: seq<Step>)
    ensures Current(Execute(steps)) && Fresh(Execute(steps))
    decreases |steps|
  {
    if steps != [] {
      var n := |steps| - 1;
      CurrentEver(steps[..n]);
      match steps[n]
      case Asked(h, hostname) => RequestKeeps(Execute(steps[..n]), h, hostname);
      case Answered(i, result) => CompleteKeeps(Execute(steps[..n]), i, result);
    }
  }

  lemma {:induction false} LatestIs(events: seq<(DnsEvent, nat)>, h: Handle, k: nat)
    requires k < |events| && events[k].0.handle == h
    requires forall j :: k < j < |events| ==> events[j].0.handle != h
    ensures Latest(events, h) == Some(events[k])
    decreases |events|
  {
    if k < |events| - 1 {
      LatestIs(events[..|events| - 1], h, k);
    }
  }

  /** No stale answers, in every interleaving: an answer follows the announcement
      of its own request with no other event about the handle in between, so
      between two announcements at most one answer appears and it is the right
      one; and no two lookups for one handle are live. */
  lemma NoStaleResolution(steps: seq<Step>, i: nat, k: nat)
    requires var es := Execute(steps).events;
             i < k < |es| && es[k].0.Resolved? && es[i].0.handle == es[k].0.handle
             && forall j :: i < j < k ==> es[j].0.handle != es[k].0.handle
    ensures var es := Execute(steps).events;
            es[i] == (Resolving(es[k].0.handle), es[k].1) && Answers(Execute(steps).lookups, es[k])
  {
    CurrentEver(steps);
    var es := Execute(steps).events;
    LatestIs(es[..k], es[k].0.handle, i);
  }

  /** Nor does an answer come first. */
  lemma NoUnaskedResolution(steps: seq<Step>, k: nat)
    requires k < |Execute(steps).events| && Execute(steps).events[k].0.Resolved?
    ensures var es := Execute(steps).events;
            exists i :: 0 <= i < k && es[i] == (Resolving(es[k].0.handle), es[k].1)
  {
    CurrentEver(steps);
    var es := Execute(steps).events;
    LatestOccurs(es[..k], es[k].0.handle);
  }

  lemma {:induction false} LatestOccurs(events: seq<(DnsEvent, nat)>, h: Handle)
    ensures Latest(events, h).Some? ==> exists i :: 0 <= i < |events| && events[i] == Latest(events, h).value
    decreases |events|
  {
    if events != [] && events[|events| - 1].0.handle != h {
      LatestOccurs(events[..|events| - 1], h);
    }
  }

  lemma OneLiveLookup(steps: seq<Step>, i: nat, j: nat)
    requires var ls := Execute(steps).lookups;
             i < |ls| && j < |ls| && Live(ls[i]) && Live(ls[j]) && ls[i].handle == ls[j].handle
    ensures i == j
  {
    CurrentEver(steps);
  }

  // ----- every request is served -----

  /** What was asked, in order. */
  function Asks(steps: seq<Step>): seq<(Handle, string)> {
    if steps == [] then []
    else
      var init := Asks(steps[..|steps| - 1]);
      match steps[|steps| - 1]
      case Asked(h, hostname) => init + [(h, hostname)]
      case Answered(_, _) => init
  }

  /** The lookup for this request is the one that was asked for, announced, and
      finished exactly if its answer was sent; it is aborted only when a later
      request for the handle took its place. */
  ghost predicate Serves(s: State, asks: seq<(Handle, string)>, i: nat)
    requires i < |s.lookups|
  {
    var l := s.lookups[i];
    && i < |asks| && (l.handle, l.hostname) == asks[i]
    && (Resolving(l.handle), i) in s.events
    && (l.finished <==> exists e :: e in s.events && e.0.Resolved? && e.1 == i)
    && (l.aborted ==> !l.finished && l.handle in s.active && s.active[l.handle] > i)
  }

  ghost predicate ServesAll(s: State, asks: seq<(Handle, string)>) {
    && |s.lookups| == |asks|
    && (forall h :: h in s.active ==> s.active[h] < |s.lookups|)
    && (forall i :: 0 <= i < |s.lookups| ==> s.lookups[i].handle in s.active && s.active[s.lookups[i].handle] >= i)
    && (forall e :: e in s.events && e.0.Resolved? ==> e.1 < |s.lookups|)
    && (forall i :: 0 <= i < |s.lookups| ==> Serves(s, asks, i))
  }

  lemma RequestServes(s: State, asks: seq<(Handle, string)>, h: Handle, hostname: string)
    requires Current(s) && ServesAll(s, asks)
    ensures ServesAll(Request(s, h, hostname), asks + [(h, hostname)])
  {
    var s', n := Request(s, h, hostname), |s.lookups|;
    forall i | 0 <= i < |s'.lookups| ensures Serves(s', asks + [(h, hostname)], i) {
      if i < n {
        assert Serves(s, asks, i);
        assert forall e :: e in s.events ==> e in s'.events;
      } else {
        assert s'.events[|s.events|] == (Resolving(h), n);
      }
    }
  }

  lemma CompleteServes(s: State, asks: seq<(Handle, string)>, i: nat, result: Option<seq<nat>>)
    requires ServesAll(s, asks)
    ensures ServesAll(Complete(s, i, result), asks)
  {
    var s' := Complete(s, i, result);
    if s' != s {
      var e := s'.events[|s.events|];
      assert s'.events == s.events + [e] && e.0.Resolved? && e.1 == i;
      forall j | 0 <= j < |s'.lookups| ensures Serves(s', asks, j) {
        assert Serves(s, asks, j);
        assert e in s'.events;
      }
    }
  }

  lemma {:induction false} ServesEver(steps: seq<Step>)
    ensures ServesAll(Execute(steps), Asks(steps))
    decreases |steps|
  {
    if steps != [] {
      var n := |steps| - 1;
      ServesEver(steps[..n]);
      CurrentEver(steps[..n]);
      match steps[n]
      case Asked(h, hostname) => RequestServes(Execute(steps[..n]), Asks(steps[..n]), h, hostname);
      case Answered(i, result) => CompleteServes(Execute(steps[..n]), Asks(steps[..n]), i, result);
    }
  }

  /** In every run each request has its own lookup, for its own host; the latest
      one for a handle is never aborted, and when its lookup ends, the answer is
      sent. */
  lemma LatestIsServed(steps: seq<Step>, i: nat, result: Option<seq<nat>>)
    requires i < |Asks(steps)| && forall j :: i < j < |Asks(steps)| ==> Asks(steps)[j].0 != Asks(steps)[i].0
    ensures var s, (h, hostname) := Execute(steps), Asks(steps)[i];
            && i < |s.lookups| && (s.lookups[i].handle, s.lookups[i].hostname) == (h, hostname)
            && !s.lookups[i].aborted
            && (s.lookups[i].finished <==> exists e :: e in s.events && e.0.Resolved? && e.1 == i)
            && (!s.lookups[i].finished ==> Advance(s, Answered(i, result)).events == s.events + [(Resolved(h, hostname, result), i)])
  {
    ServesEver(steps);
    CurrentEver(steps);
    var s := Execute(steps);
    assert Serves(s, Asks(steps), i);
    var j := s.active[s.lookups[i].handle];
    assert Serves(s, Asks(steps), j);
  }
}
