/** What the subscription index guarantees over every interleaving of
    creations, destructions and polls. */
module SubscriptionRuns {
  import opened Types
  import opened Subscriptions

  datatype Op = Subscribe(handle: Handle, key: BarrierKey) | Unsubscribe(handle: Handle) | Poll(next: Option<(BarrierKey, CaptureEvent)>)

  /** A backend event taken by a poll, and how many operations preceded it. */
  datatype Taken = Taken(key: BarrierKey, event: CaptureEvent, at: nat)

  datatype Index = Index(
    regs: seq<Registration>,
    queue: seq<Delivery>,
    delivered: seq<Delivery>,
    taken: seq<Taken>,
    calls: seq<ProducerEvent>)

  /** What the source asserts: a new handle is not registered, a destroyed one is. */
  predicate Allowed(regs: seq<Registration>, op: Op) {
    match op
    case Subscribe(h, _) => !Registered(regs, h)
    case Unsubscribe(h) => Registered(regs, h)
    case Poll(_) => true
  }

  /** The registrations depend on creations and destructions alone. */
  function RegsAfter(ops: seq<Op>): seq<Registration> {
    if ops == [] then []
    else
      var regs := RegsAfter(ops[..|ops| - 1]);
      match ops[|ops| - 1]
      case Subscribe(h, k) => regs + [Registration(h, k)]
      case Unsubscribe(h) => Without(regs, h)
      case Poll(_) => regs
  }

  predicate Legal(ops: seq<Op>) {
    forall i :: 0 <= i < |ops| ==> Allowed(RegsAfter(ops[..i]), ops[i])
  }

  function Step(s: Index, op: Op, at: nat): Index
    requires Allowed(s.regs, op)
  {
    match op
    case Subscribe(h, k) =>
      s.(regs := s.regs + [Registration(h, k)], calls := s.calls + CreateCalls(s.regs, k))
    case Unsubscribe(h) =>
      s.(regs := Without(s.regs, h), calls := s.calls + DestroyCalls(s.regs, h, KeyOf(s.regs, h)))
    case Poll(next) =>
      if s.queue != [] then s.(queue := s.queue[1..], delivered := s.delivered + [s.queue[0]])
      else if next.None? then s
      else
        var (k, e) := next.value;
        var fan := FanOut(Subscribers(s.regs, k), e);
        var t := s.(taken := s.taken + [Taken(k, e, at)]);
        if fan == [] then t else t.(delivered := s.delivered + [fan[0]], queue := fan[1..])
  }

  function Run(ops: seq<Op>): (s: Index)
    requires Legal(ops)
    ensures s.regs == RegsAfter(ops)
  {
    if ops == [] then Index([], [], [], [], [])
    else
      assert forall i | 0 <= i < |ops| - 1 :: ops[..|ops| - 1][..i] == ops[..i];
      Step(Run(ops[..|ops| - 1]), ops[|ops| - 1], |ops| - 1)
  }

  // ----- fan-out conservation -----

  /** The deliveries a list of taken events calls for, each to the subscribers
      at the moment it was taken. */
  function Owed(ops: seq<Op>, taken: seq<Taken>): seq<Delivery>
    requires forall t :: t in taken ==> t.at <= |ops|
  {
    if taken == [] then []
    else
      var t := taken[|taken| - 1];
      assert t in taken;
      Owed(ops, taken[..|taken| - 1]) + FanOut(Subscribers(RegsAfter(ops[..t.at]), t.key), t.event)
  }

  lemma {:induction false} OwedPrefix(ops: seq<Op>, n: nat, taken: seq<Taken>)
    requires n <= |ops| && forall t :: t in taken ==> t.at <= n
    ensures Owed(ops[..n], taken) == Owed(ops, taken)
    decreases |taken|
  {
    if taken != [] {
      var t := taken[|taken| - 1];
      assert t in taken && ops[..n][..t.at] == ops[..t.at];
      OwedPrefix(ops, n, taken[..|taken| - 1]);
    }
  }

  lemma OwedSnoc(ops: seq<Op>, taken: seq<Taken>, t: Taken)
    requires (forall u :: u in taken ==> u.at <= |ops|) && t.at <= |ops|
    ensures Owed(ops, taken + [t]) == Owed(ops, taken) + FanOut(Subscribers(RegsAfter(ops[..t.at]), t.key), t.event)
  {
    assert (taken + [t])[..|taken|] == taken;
  }

  /** The first goes out, the others stay behind it. */
  lemma HeadGoesOut(delivered: seq<Delivery>, queue: seq<Delivery>)
    requires queue != []
    ensures (delivered + [queue[0]]) + queue[1..] == delivered + queue
  {
    assert [queue[0]] + queue[1..] == queue;
  }

  lemma StepConserves(s: Index, op: Op, at: nat)
    requires Allowed(s.regs, op)
    ensures var s' := Step(s, op, at);
            if s'.taken == s.taken then s'.delivered + s'.queue == s.delivered + s.queue
            else
              op.Poll? && op.next.Some? && s.queue == []
              && s'.taken == s.taken + [Taken(op.next.value.0, op.next.value.1, at)]
              && s'.delivered + s'.queue == s.delivered + FanOut(Subscribers(s.regs, op.next.value.0), op.next.value.1)
  {
    if op.Poll? {
      if s.queue != [] {
        HeadGoesOut(s.delivered, s.queue);
      } else if op.next.Some? {
        var fan := FanOut(Subscribers(s.regs, op.next.value.0), op.next.value.1);
        if fan != [] { HeadGoesOut(s.delivered, fan); }
      }
    }
  }

  lemma StepOwes(ops: seq<Op>, s: Index, s': Index)
    requires ops != [] && Allowed(s.regs, ops[|ops| - 1]) && s.regs == RegsAfter(ops[..|ops| - 1])
    requires s' == Step(s, ops[|ops| - 1], |ops| - 1)
    requires (forall t :: t in s.taken ==> t.at < |ops|) && s.delivered + s.queue == Owed(ops, s.taken)
    ensures (forall t :: t in s'.taken ==> t.at < |ops|) && s'.delivered + s'.queue == Owed(ops, s'.taken)
  {
    var n := |ops| - 1;
    StepConserves(s, ops[n], n);
    if s'.taken != s.taken {
      assert s.delivered + s.queue == s.delivered;
      OwedSnoc(ops, s.taken, Taken(ops[n].next.value.0, ops[n].next.value.1, n));
    }
  }

  /** Nothing is lost, duplicated or reordered on the way to the subscribers. */
  lemma {:induction false} FanOutConservation(ops: seq<Op>)
    requires Legal(ops)
    ensures forall t :: t in Run(ops).taken ==> t.at < |ops|
    ensures Run(ops).delivered + Run(ops).queue == Owed(ops, Run(ops).taken)
    decreases |ops|
  {
    if ops != [] {
      var n := |ops| - 1;
      assert forall i | 0 <= i < n :: ops[..n][..i] == ops[..i];
      FanOutConservation(ops[..n]);
      OwedPrefix(ops, n, Run(ops[..n]).taken);
      StepOwes(ops, Run(ops[..n]), Run(ops));
    }
  }

  // ----- calls on the backend -----

  predicate Concerns(call: ProducerEvent, k: BarrierKey) {
    call == Create(k) || call == Destroy(k)
  }

  function LastOn(calls: seq<ProducerEvent>, k: BarrierKey): Option<ProducerEvent> {
    if calls == [] then None
    else if Concerns(calls[|calls| - 1], k) then Some(calls[|calls| - 1])
    else LastOn(calls[..|calls| - 1], k)
  }

  predicate Live(calls: seq<ProducerEvent>, k: BarrierKey) {
    LastOn(calls, k) == Some(Create(k))
  }

  /** Per key, creations and destructions alternate, starting with a creation. */
  predicate Alternates(calls: seq<ProducerEvent>) {
    forall i :: 0 <= i < |calls| ==>
      match calls[i]
      case Create(k) => !Live(calls[..i], k)
      case Destroy(k) => Live(calls[..i], k)
      case _ => false
  }

  lemma AlternatesSnoc(calls: seq<ProducerEvent>, call: ProducerEvent, k: BarrierKey)
    requires Alternates(calls)
    requires (call == Create(k) && !Live(calls, k)) || (call == Destroy(k) && Live(calls, k))
    ensures Alternates(calls + [call])
    ensures forall q :: Live(calls + [call], q) <==> if q == k then call.Create? else Live(calls, q)
  {
    var calls' := calls + [call];
    assert calls'[..|calls|] == calls;
    forall i | 0 <= i < |calls'| ensures calls'[..i] == calls[..i] {}
  }

  /** Backend calls alternate, and a key is live iff it has subscribers. */
  lemma {:induction false} CallsFollowSubscribers(ops: seq<Op>)
    requires Legal(ops)
    ensures Distinct(RegsAfter(ops))
    ensures Alternates(Run(ops).calls)
    ensures forall k :: Live(Run(ops).calls, k) <==> Subscribers(RegsAfter(ops), k) != []
    decreases |ops|
  {
    if ops != [] {
      var n := |ops| - 1;
      assert forall i | 0 <= i < n :: ops[..n][..i] == ops[..i];
      CallsFollowSubscribers(ops[..n]);
      var s := Run(ops[..n]);
      match ops[n]
      case Poll(_) =>
      case Subscribe(h, k) =>
        SubscribeKeepsCalls(s, h, k);
      case Unsubscribe(h) =>
        UnsubscribeKeepsCalls(s, h);
    }
  }

  lemma SubscribeKeepsCalls(s: Index, h: Handle, k: BarrierKey)
    requires Distinct(s.regs) && !Registered(s.regs, h) && Alternates(s.calls)
    requires forall q :: Live(s.calls, q) <==> Subscribers(s.regs, q) != []
    ensures var s' := Step(s, Subscribe(h, k), 0);
            Distinct(s'.regs) && Alternates(s'.calls) && forall q :: Live(s'.calls, q) <==> Subscribers(s'.regs, q) != []
  {
    forall q ensures Subscribers(s.regs + [Registration(h, k)], q) == if q == k then Subscribers(s.regs, q) + [h] else Subscribers(s.regs, q) {
      SubscribersAppend(s.regs, Registration(h, k), q);
    }
    assert forall i | 0 <= i < |s.regs| :: s.regs[i] in s.regs;
    if Subscribers(s.regs, k) == [] {
      AlternatesSnoc(s.calls, Create(k), k);
    } else {
      assert s.calls + [] == s.calls;
    }
  }

  lemma UnsubscribeKeepsCalls(s: Index, h: Handle)
    requires Distinct(s.regs) && Registered(s.regs, h) && Alternates(s.calls)
    requires forall q :: Live(s.calls, q) <==> Subscribers(s.regs, q) != []
    ensures var s' := Step(s, Unsubscribe(h), 0);
            Distinct(s'.regs) && Alternates(s'.calls) && forall q :: Live(s'.calls, q) <==> Subscribers(s'.regs, q) != []
  {
    var k := KeyOf(s.regs, h);
    WithoutMembers(s.regs, h);
    SubscribersMembers(s.regs, k);
    assert h in Subscribers(s.regs, k);
    forall q | q != k ensures Subscribers(Without(s.regs, h), q) == Subscribers(s.regs, q) {
      assert Registration(h, q) !in s.regs;
      SubscribersRemove(s.regs, h, q);
    }
    if Subscribers(Without(s.regs, h), k) == [] {
      AlternatesSnoc(s.calls, Destroy(k), k);
    } else {
      assert s.calls + [] == s.calls;
    }
  }

  // ----- the libei backend's view -----

  function RetainKeys(keys: seq<BarrierKey>, k: BarrierKey): seq<BarrierKey> {
    if keys == [] then []
    else
      var rest := RetainKeys(keys[..|keys| - 1], k);
      if keys[|keys| - 1] == k then rest else rest + [keys[|keys| - 1]]
  }

  /** `active_clients` of the libei backend after handling `calls` in order. */
  function ActiveClients(calls: seq<ProducerEvent>): seq<BarrierKey> {
    if calls == [] then []
    else
      var keys := ActiveClients(calls[..|calls| - 1]);
      match calls[|calls| - 1]
      case Create(k) => keys + [k]
      case Destroy(k) => RetainKeys(keys, k)
      case _ => keys
  }

  predicate NoDuplicates(keys: seq<BarrierKey>) {
    forall i, j :: 0 <= i < j < |keys| ==> keys[i] != keys[j]
  }

  lemma {:induction false} RetainKeysMembers(keys: seq<BarrierKey>, k: BarrierKey)
    ensures forall q :: q in RetainKeys(keys, k) <==> q in keys && q != k
    ensures NoDuplicates(keys) ==> NoDuplicates(RetainKeys(keys, k))
  {
    if keys != [] {
      RetainKeysMembers(keys[..|keys| - 1], k);
      if NoDuplicates(keys) {
        assert NoDuplicates(keys[..|keys| - 1]);
        assert keys[|keys| - 1] !in keys[..|keys| - 1];
      }
      assert keys == keys[..|keys| - 1] + [keys[|keys| - 1]];
    }
  }

  lemma {:induction false} ActiveClientsAreLive(calls: seq<ProducerEvent>)
    requires Alternates(calls)
    ensures NoDuplicates(ActiveClients(calls))
    ensures forall k :: k in ActiveClients(calls) <==> Live(calls, k)
    decreases |calls|
  {
    if calls != [] {
      var n := |calls| - 1;
      assert forall i | 0 <= i < n :: calls[..n][..i] == calls[..i];
      ActiveClientsAreLive(calls[..n]);
      assert calls == calls[..n] + [calls[n]];
      RetainKeysMembers(ActiveClients(calls[..n]), calls[n].key);
      AlternatesSnoc(calls[..n], calls[n], calls[n].key);
    }
  }

  /** However much of its queue libei has handled, it never lists a barrier
      twice; with the queue drained it lists exactly the subscribed barriers. */
  lemma LibeiAgreesWithIndex(ops: seq<Op>, handled: nat)
    requires Legal(ops) && handled <= |Run(ops).calls|
    ensures NoDuplicates(ActiveClients(Run(ops).calls[..handled]))
    ensures handled == |Run(ops).calls| ==>
              forall k :: k in ActiveClients(Run(ops).calls[..handled]) <==> Subscribers(RegsAfter(ops), k) != []
  {
    var calls := Run(ops).calls;
    CallsFollowSubscribers(ops);
    assert forall i | 0 <= i < handled :: calls[..handled][..i] == calls[..i];
    ActiveClientsAreLive(calls[..handled]);
    if handled == |calls| {
      assert calls[..handled] == calls;
    }
  }
}
