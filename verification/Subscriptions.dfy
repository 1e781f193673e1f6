/** `InputCapture`: the index from barrier keys to subscribed handles, the
    fan-out queue and the set of held keys. */
module Subscriptions {
  import opened Types

  datatype Registration = Registration(handle: Handle, key: BarrierKey)

  type Delivery = (Handle, CaptureEvent)

  // ----- the index as a list of registrations, oldest first -----

  /** The handles registered for `k`, in registration order. */
  function Subscribers(regs: seq<Registration>, k: BarrierKey): seq<Handle> {
    if regs == [] then []
    else
      var rest := Subscribers(regs[..|regs| - 1], k);
      var r := regs[|regs| - 1];
      if r.key == k then rest + [r.handle] else rest
  }

  lemma {:induction false} SubscribersMembers(regs: seq<Registration>, k: BarrierKey)
    ensures forall h :: h in Subscribers(regs, k) <==> Registration(h, k) in regs
  {
    if regs != [] {
      SubscribersMembers(regs[..|regs| - 1], k);
      assert regs == regs[..|regs| - 1] + [regs[|regs| - 1]];
    }
  }

  predicate Registered(regs: seq<Registration>, h: Handle) {
    exists r :: r in regs && r.handle == h
  }

  /** No handle is registered twice. */
  predicate Distinct(regs: seq<Registration>) {
    forall i, j :: 0 <= i < j < |regs| ==> regs[i].handle != regs[j].handle
  }

  function Without(regs: seq<Registration>, h: Handle): seq<Registration> {
    if regs == [] then []
    else
      var rest := Without(regs[..|regs| - 1], h);
      var r := regs[|regs| - 1];
      if r.handle == h then rest else rest + [r]
  }

  lemma {:induction false} WithoutMembers(regs: seq<Registration>, h: Handle)
    ensures forall r :: r in Without(regs, h) <==> r in regs && r.handle != h
    ensures Distinct(regs) ==> Distinct(Without(regs, h))
  {
    if regs != [] {
      WithoutMembers(regs[..|regs| - 1], h);
      assert regs == regs[..|regs| - 1] + [regs[|regs| - 1]];
    }
  }

  function KeyOf(regs: seq<Registration>, h: Handle): (k: BarrierKey)
    requires Registered(regs, h)
    ensures Registration(h, k) in regs
  {
    if regs[|regs| - 1].handle == h then regs[|regs| - 1].key
    else
      assert regs == regs[..|regs| - 1] + [regs[|regs| - 1]];
      KeyOf(regs[..|regs| - 1], h)
  }

  /** The call a creation makes on the backend: none if the key is live. */
  function CreateCalls(regs: seq<Registration>, k: BarrierKey): seq<ProducerEvent> {
    if Subscribers(regs, k) == [] then [Create(k)] else []
  }

  /** The call that unregistering `h` from `k` makes on the backend: none while
      others remain. */
  function DestroyCalls(regs: seq<Registration>, h: Handle, k: BarrierKey): seq<ProducerEvent> {
    if Subscribers(Without(regs, h), k) == [] then [Destroy(k)] else []
  }

  function FanOut(hs: seq<Handle>, e: CaptureEvent): (ds: seq<Delivery>)
    ensures |ds| == |hs|
    ensures forall i :: 0 <= i < |ds| ==> ds[i] == (hs[i], e)
  {
    seq(|hs|, i requires 0 <= i < |hs| => (hs[i], e))
  }

  /** Held keys after an event passed through. */
  function Track(held: set<Scancode>, e: CaptureEvent): set<Scancode> {
    if e.Input? && e.event.Key? && IsScancode(e.event.key) then
      if e.event.state == 1 then held + {e.event.key} else held - {e.event.key}
    else held
  }

  lemma {:induction false} SubscribersAreDistinct(regs: seq<Registration>, k: BarrierKey)
    requires Distinct(regs)
    ensures forall i, j :: 0 <= i < j < |Subscribers(regs, k)| ==> Subscribers(regs, k)[i] != Subscribers(regs, k)[j]
  {
    if regs != [] {
      var init, r := regs[..|regs| - 1], regs[|regs| - 1];
      SubscribersAreDistinct(init, k);
      SubscribersMembers(init, k);
      assert r.handle !in Subscribers(init, k);
    }
  }

  /** Removing a handle from a subscriber list, as `retain` does. */
  function Retain(hs: seq<Handle>, h: Handle): seq<Handle> {
    if hs == [] then []
    else
      var rest := Retain(hs[..|hs| - 1], h);
      if hs[|hs| - 1] == h then rest else rest + [hs[|hs| - 1]]
  }

  /** Unregistering keeps every other subscriber, in order. */
  lemma {:induction false} SubscribersWithout(regs: seq<Registration>, h: Handle, k: BarrierKey)
    ensures Subscribers(Without(regs, h), k) == Retain(Subscribers(regs, k), h)
  {
    if regs != [] {
      var init, r := regs[..|regs| - 1], regs[|regs| - 1];
      SubscribersWithout(init, h, k);
      if r.handle != h {
        assert Without(regs, h)[..|Without(regs, h)| - 1] == Without(init, h);
      }
      if r.key == k {
        assert Subscribers(regs, k)[..|Subscribers(regs, k)| - 1] == Subscribers(init, k);
      }
    }
  }

  lemma {:induction false} RetainAbsent(hs: seq<Handle>, h: Handle)
    requires h !in hs
    ensures Retain(hs, h) == hs
  {
    if hs != [] {
      assert hs[|hs| - 1] in hs;
      RetainAbsent(hs[..|hs| - 1], h);
    }
  }

  /** Both maps index the registrations, and no list is empty. */
  ghost predicate Indexes(regs: seq<Registration>, idMap: map<Handle, BarrierKey>, positionMap: map<BarrierKey, seq<Handle>>) {
    && Distinct(regs)
    && (forall h, k :: Registration(h, k) in regs <==> h in idMap && idMap[h] == k)
    && (forall k :: k in positionMap <==> Subscribers(regs, k) != [])
    && (forall k :: k in positionMap ==> positionMap[k] == Subscribers(regs, k))
  }

  /** The two maps are inverse to each other. */
  lemma MutualInverses(regs: seq<Registration>, idMap: map<Handle, BarrierKey>, positionMap: map<BarrierKey, seq<Handle>>, h: Handle, k: BarrierKey)
    requires Indexes(regs, idMap, positionMap)
    ensures (h in idMap && idMap[h] == k) <==> (k in positionMap && h in positionMap[k])
  {
    SubscribersMembers(regs, k);
    assert Registration(h, k) in regs <==> h in Subscribers(regs, k);
    assert k in positionMap <==> Subscribers(regs, k) != [];
  }

  lemma SubscribersAppend(regs: seq<Registration>, r: Registration, k: BarrierKey)
    ensures Subscribers(regs + [r], k) == if k == r.key then Subscribers(regs, k) + [r.handle] else Subscribers(regs, k)
  {
    assert (regs + [r])[..|regs|] == regs;
  }

  lemma SubscribersRemove(regs: seq<Registration>, h: Handle, k: BarrierKey)
    ensures Registration(h, k) !in regs ==> Subscribers(Without(regs, h), k) == Subscribers(regs, k)
    ensures Subscribers(Without(regs, h), k) == Retain(Subscribers(regs, k), h)
  {
    SubscribersWithout(regs, h, k);
    SubscribersMembers(regs, k);
    if Registration(h, k) !in regs { RetainAbsent(Subscribers(regs, k), h); }
  }

  lemma IndexesCreate(regs: seq<Registration>, idMap: map<Handle, BarrierKey>, positionMap: map<BarrierKey, seq<Handle>>, h: Handle, k: BarrierKey)
    requires Indexes(regs, idMap, positionMap) && h !in idMap
    ensures Indexes(regs + [Registration(h, k)], idMap[h := k],
                    positionMap[k := (if k in positionMap then positionMap[k] else []) + [h]])
  {
    forall i | 0 <= i < |regs| ensures regs[i].handle != h {
      assert regs[i] == Registration(regs[i].handle, regs[i].key);
      assert regs[i] in regs;
    }
    forall q ensures Subscribers(regs + [Registration(h, k)], q) == if q == k then Subscribers(regs, q) + [h] else Subscribers(regs, q) {
      SubscribersAppend(regs, Registration(h, k), q);
    }
  }

  lemma KeyIsIndexed(regs: seq<Registration>, idMap: map<Handle, BarrierKey>, positionMap: map<BarrierKey, seq<Handle>>, h: Handle)
    requires Indexes(regs, idMap, positionMap) && h in idMap
    ensures idMap[h] in positionMap && Subscribers(regs, idMap[h]) == positionMap[idMap[h]]
    ensures Retain(positionMap[idMap[h]], h) == Subscribers(Without(regs, h), idMap[h])
  {
    var k := idMap[h];
    assert Registration(h, k) in regs;
    SubscribersMembers(regs, k);
    assert h in Subscribers(regs, k);
    SubscribersRemove(regs, h, k);
  }

  /** Elsewhere nothing changes. */
  lemma OtherKeysKept(regs: seq<Registration>, idMap: map<Handle, BarrierKey>, positionMap: map<BarrierKey, seq<Handle>>, h: Handle, q: BarrierKey)
    requires Indexes(regs, idMap, positionMap) && h in idMap && q != idMap[h]
    ensures Subscribers(Without(regs, h), q) == Subscribers(regs, q)
  {
    assert Registration(h, q) !in regs;
    SubscribersRemove(regs, h, q);
  }

  lemma IndexesDestroy(regs: seq<Registration>, idMap: map<Handle, BarrierKey>, positionMap: map<BarrierKey, seq<Handle>>, h: Handle, positionMap': map<BarrierKey, seq<Handle>>)
    requires Indexes(regs, idMap, positionMap) && h in idMap && idMap[h] in positionMap
    requires positionMap' == if Retain(positionMap[idMap[h]], h) == [] then positionMap - {idMap[h]}
                             else positionMap[idMap[h] := Retain(positionMap[idMap[h]], h)]
    ensures Indexes(Without(regs, h), idMap - {h}, positionMap')
  {
    var k, regs' := idMap[h], Without(regs, h);
    WithoutMembers(regs, h);
    KeyIsIndexed(regs, idMap, positionMap, h);
    forall q
      ensures q in positionMap' <==> Subscribers(regs', q) != []
      ensures q in positionMap' ==> positionMap'[q] == Subscribers(regs', q)
    {
      if q != k { OtherKeysKept(regs, idMap, positionMap, h, q); }
    }
  }

  // ----- the source's object -----

  /** What the backend's stream has to offer, and what a poll makes of it. */
  datatype Upstream = NotReady | Closed | Broken | Ready(key: BarrierKey, event: CaptureEvent)

  datatype Yield = Nothing | EndOfStream | Error | Item(delivery: Delivery)

  class InputCapture {
    var idMap: map<Handle, BarrierKey>
    var positionMap: map<BarrierKey, seq<Handle>>
    var queue: seq<Delivery>
    var held: set<Scancode>
    /** The registrations in force, and every call made on the backend. */
    ghost var regs: seq<Registration>
    ghost var calls: seq<ProducerEvent>
    /** What polls handed out, and what they owed. */
    ghost var delivered: seq<Delivery>
    ghost var owed: seq<Delivery>

    ghost predicate Valid()
      reads this
    {
      Indexes(regs, idMap, positionMap)
    }

    /** Every delivery owed was handed out or is queued, in order. */
    ghost predicate Conserved()
      reads this
    {
      delivered + queue == owed
    }

    constructor ()
      ensures Valid() && Conserved() && regs == [] && queue == [] && held == {} && calls == [] && delivered == [] && owed == []
    {
      idMap, positionMap, queue, held := map[], map[], [], {};
      regs, calls, delivered, owed := [], [], [], [];
    }

    method Create(id: Handle, key: BarrierKey, callOk: bool) returns (ok: bool)
      requires Valid() && id !in idMap
      modifies this
      ensures Valid()
      ensures regs == old(regs) + [Registration(id, key)]
      ensures calls == old(calls) + CreateCalls(old(regs), key)
      ensures ok == (callOk || CreateCalls(old(regs), key) == [])
      ensures queue == old(queue) && held == old(held) && delivered == old(delivered) && owed == old(owed)
    {
      IndexesCreate(regs, idMap, positionMap, id, key);
      regs := regs + [Registration(id, key)];
      idMap := idMap[id := key];
      if key in positionMap {
        positionMap := positionMap[key := positionMap[key] + [id]];
        ok := true;
      } else {
        positionMap := positionMap[key := [id]];
        calls := calls + [ProducerEvent.Create(key)];
        ok := callOk;
      }
    }

    method Destroy(id: Handle, callOk: bool) returns (ok: bool)
      requires Valid() && id in idMap
      modifies this
      ensures Valid()
      ensures regs == Without(old(regs), id)
      ensures calls == old(calls) + DestroyCalls(old(regs), id, old(idMap[id]))
      ensures ok == (callOk || DestroyCalls(old(regs), id, old(idMap[id])) == [])
      ensures queue == old(queue) && held == old(held) && delivered == old(delivered) && owed == old(owed)
    {
      KeyIsIndexed(regs, idMap, positionMap, id);
      var key := idMap[id];
      var remaining := Retain(positionMap[key], id);
      if remaining == [] {
        IndexesDestroy(regs, idMap, positionMap, id, positionMap - {key});
        positionMap := positionMap - {key};
        calls := calls + [ProducerEvent.Destroy(key)];
        ok := callOk;
      } else {
        IndexesDestroy(regs, idMap, positionMap, id, positionMap[key := remaining]);
        positionMap := positionMap[key := remaining];
        ok := true;
      }
      idMap := idMap - {id};
      regs := Without(regs, id);
    }

    /** One poll. A queued delivery goes first; only then is the backend asked,
        and its event, if any, handed to each subscriber of its key. */
    method PollNext(next: Upstream) returns (item: Yield, took: bool)
      requires Valid() && Conserved()
      modifies this`queue, this`held, this`delivered, this`owed
      ensures Conserved()
      ensures took == (old(queue) == [] && next.Ready?)
      ensures owed == old(owed) + if took then FanOut(Subscribers(regs, next.key), next.event) else []
      ensures delivered == old(delivered) + if item.Item? then [item.delivery] else []
      ensures held == if took then Track(old(held), next.event) else old(held)
      ensures item.EndOfStream? <==> old(queue) == [] && next.Closed?
      ensures item.Error? <==> old(queue) == [] && next.Broken?
      ensures item.Nothing? ==> queue == []
    {
      took := false;
      if queue != [] {
        assert [queue[0]] + queue[1..] == queue;
        item, queue := Item(queue[0]), queue[1..];
        delivered := delivered + [item.delivery];
        return;
      }
      match next
      case NotReady => item := Nothing;
      case Closed => item := EndOfStream;
      case Broken => item := Error;
      case Ready(key, event) =>
        took := true;
        if event.Input? && event.event.Key? {
          UpdatePressedKeys(event.event.key, event.event.state);
        }
        var subscribers := if key in positionMap then positionMap[key] else [];
        assert key in positionMap <==> Subscribers(regs, key) != [];
        var first := Hand(subscribers, event);
        item := if first.Some? then Item(first.value) else Nothing;
    }

    /** Hands an event to the subscribers: the first at once, the others queued. */
    method Hand(subscribers: seq<Handle>, event: CaptureEvent) returns (item: Option<Delivery>)
      requires queue == [] && Conserved()
      modifies this`queue, this`delivered, this`owed
      ensures Conserved()
      ensures owed == old(owed) + FanOut(subscribers, event)
      ensures delivered == old(delivered) + if item.Some? then [item.value] else []
      ensures item.None? ==> queue == []
    {
      ghost var fan := FanOut(subscribers, event);
      owed := owed + fan;
      if |subscribers| == 0 { return None; }
      item := Some((subscribers[0], event));
      delivered := delivered + [item.value];
      for i := 1 to |subscribers|
        modifies this`queue
        invariant queue == fan[1..i]
      {
        assert fan[1..i + 1] == fan[1..i] + [fan[i]];
        queue := queue + [(subscribers[i], event)];
      }
      assert fan[1..|subscribers|] == fan[1..];
      assert fan == [fan[0]] + queue;
      assert delivered + queue == old(delivered) + ([fan[0]] + queue);
    }

    method UpdatePressedKeys(key: nat, state: nat)
      modifies this`held
      ensures held == Track(old(held), Input(Key(key, state)))
      ensures forall k :: k in held <==> if k == key && IsScancode(key) then state == 1 else k in old(held)
    {
      if IsScancode(key) {
        if state == 1 { held := held + {key}; } else { held := held - {key}; }
      }
    }
  }

  /** `keys_pressed`, for which the release bind is asked. */
  method AllPressed(keys: seq<Scancode>, held: set<Scancode>) returns (all: bool)
    ensures all <==> forall k :: k in keys ==> k in held
  {
    for i := 0 to |keys|
      invariant forall j :: 0 <= j < i ==> keys[j] in held
    {
      if keys[i] !in held { return false; }
    }
    return true;
  }
}
