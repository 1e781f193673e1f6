/** The capture task keeps a list of captures, and the `InputCapture` of each
    session keeps two maps. This is the program with both, updated one after the
    other as the task does it; the other modules look at the list alone. */
module IndexAgreement {
  import opened Types
  import opened Subscriptions
  import opened Capture
  import CaptureRuns
  import Handshake

  datatype Maps = Maps(idMap: map<Handle, BarrierKey>, positionMap: map<BarrierKey, seq<Handle>>)

  const NO_MAPS := Maps(map[], map[])

  /** The maps after an operation, and the calls it made on the backend. */
  datatype Made = Made(maps: Maps, calls: seq<ProducerEvent>)

  // ----- `InputCapture`: `None` is a failed assertion -----

  function CreateIn(m: Maps, h: Handle, k: BarrierKey): Option<Made> {
    if h in m.idMap then None
    else if k in m.positionMap then
      Some(Made(Maps(m.idMap[h := k], m.positionMap[k := m.positionMap[k] + [h]]), []))
    else
      Some(Made(Maps(m.idMap[h := k], m.positionMap[k := [h]]), [Create(k)]))
  }

  function DestroyIn(m: Maps, h: Handle): Option<Made> {
    if h !in m.idMap || m.idMap[h] !in m.positionMap then None
    else
      var k := m.idMap[h];
      var remaining := Retain(m.positionMap[k], h);
      if remaining == [] then Some(Made(Maps(m.idMap - {h}, m.positionMap - {k}), [Destroy(k)]))
      else Some(Made(Maps(m.idMap - {h}, m.positionMap[k := remaining]), []))
  }

  /** `create_captures`: everything on the list, in its order. */
  function Populate(captures: seq<Entry>): Option<Made> {
    if captures == [] then Some(Made(NO_MAPS, []))
    else
      var n := |captures| - 1;
      match Populate(captures[..n])
      case None => None
      case Some(made) =>
        match CreateIn(made.maps, captures[n].handle, captures[n].key)
        case None => None
        case Some(last) => Some(Made(last.maps, made.calls + last.calls))
  }

  // ----- the task with its session -----

  /** `index` is there while a session runs. */
  datatype Both = Both(task: Task, index: Option<Maps>)

  datatype Turn = Stimulated(stimulus: Stimulus, env: Env) | Between(request: Request) | Begun | Over

  /** `None` is a panic. */
  function Register(b: Both, e: Entry): Option<(Both, seq<ProducerEvent>)>
    requires b.index.Some?
  {
    var t := b.task.(captures := b.task.captures + [e]);
    match CreateIn(b.index.value, e.handle, e.key)
    case None => None
    case Some(made) => Some((Both(t, Some(made.maps)), made.calls))
  }

  function Unregister(b: Both, h: Handle): Option<(Both, seq<ProducerEvent>)>
    requires b.index.Some?
  {
    var t := b.task.(captures := RemoveCapture(b.task.captures, h));
    match DestroyIn(b.index.value, h)
    case None => None
    case Some(made) => Some((Both(t, Some(made.maps)), made.calls))
  }

  predicate Possible(b: Both, t: Turn) {
    if t.Stimulated? || t.Over? then b.index.Some? else b.index.None?
  }

  function Advance(b: Both, t: Turn): Option<(Both, seq<ProducerEvent>)>
    requires Possible(b, t)
  {
    match t
    case Stimulated(s, env) =>
      if s.Requested? && s.request.CreateRequest? then Register(b, Entry(s.request.handle, s.request.key, s.request.kind))
      else if s.Requested? && s.request.DestroyRequest? then Unregister(b, s.request.handle)
      else
        var out := Arm(b.task, s, env);
        if out.outcome == Panicked then None else Some((b.(task := out.task), out.calls))
    case Between(r) => Some((b.(task := OnRequestWhileDown(b.task, r)), []))
    case Begun =>
      (match Populate(b.task.captures)
       case None => None
       case Some(made) => Some((Both(Restarted(b.task), Some(made.maps)), made.calls)))
    case Over => Some((b.(index := None), []))
  }

  // ----- agreement -----

  ghost predicate Agrees(b: Both) {
    b.index.Some? ==> Indexes(Regs(b.task.captures), b.index.value.idMap, b.index.value.positionMap)
  }

  lemma RegisteredIsFound(captures: seq<Entry>, idMap: map<Handle, BarrierKey>, positionMap: map<BarrierKey, seq<Handle>>, h: Handle)
    requires Indexes(Regs(captures), idMap, positionMap)
    ensures Lookup(captures, h).Some? <==> h in idMap
    ensures Lookup(captures, h).Some? ==> idMap[h] == Lookup(captures, h).value.key
  {
    var regs := Regs(captures);
    if Lookup(captures, h).Some? {
      var e := Lookup(captures, h).value;
      var i :| 0 <= i < |captures| && captures[i] == e;
      assert regs[i] == Registration(h, e.key);
      assert regs[i] in regs;
    }
    if h in idMap {
      assert Registration(h, idMap[h]) in regs;
      var i :| 0 <= i < |regs| && regs[i] == Registration(h, idMap[h]);
      assert captures[i] in captures && captures[i].handle == h;
    }
  }

  lemma CreateAgrees(regs: seq<Registration>, m: Maps, h: Handle, k: BarrierKey)
    requires Indexes(regs, m.idMap, m.positionMap) && h !in m.idMap
    ensures var made := CreateIn(m, h, k).value;
            Indexes(regs + [Registration(h, k)], made.maps.idMap, made.maps.positionMap) && made.calls == CreateCalls(regs, k)
  {
    IndexesCreate(regs, m.idMap, m.positionMap, h, k);
    assert k in m.positionMap <==> Subscribers(regs, k) != [];
    assert [] + [h] == [h];
  }

  lemma DestroyAgrees(regs: seq<Registration>, m: Maps, h: Handle)
    requires Indexes(regs, m.idMap, m.positionMap) && h in m.idMap
    ensures DestroyIn(m, h).Some?
    ensures var made := DestroyIn(m, h).value;
            Indexes(Without(regs, h), made.maps.idMap, made.maps.positionMap) && made.calls == DestroyCalls(regs, h, m.idMap[h])
  {
    KeyIsIndexed(regs, m.idMap, m.positionMap, h);
    IndexesDestroy(regs, m.idMap, m.positionMap, h, DestroyIn(m, h).value.maps.positionMap);
  }

  ghost predicate Populated(captures: seq<Entry>, made: Made) {
    Indexes(Regs(captures), made.maps.idMap, made.maps.positionMap) && made.calls == Handshake.Creates(captures)
  }

  lemma PopulatedSnoc(captures: seq<Entry>, made: Made, e: Entry)
    requires Populated(captures, made)
    ensures CreateIn(made.maps, e.handle, e.key).Some? <==> Lookup(captures, e.handle).None?
    ensures CreateIn(made.maps, e.handle, e.key).Some? ==>
              var last := CreateIn(made.maps, e.handle, e.key).value;
              Populated(captures + [e], Made(last.maps, made.calls + last.calls))
  {
    RegisteredIsFound(captures, made.maps.idMap, made.maps.positionMap, e.handle);
    if e.handle !in made.maps.idMap {
      CreateAgrees(Regs(captures), made.maps, e.handle, e.key);
      ListSnoc(captures, e);
    }
  }

  lemma ListSnoc(captures: seq<Entry>, e: Entry)
    ensures Regs(captures + [e]) == Regs(captures) + [Registration(e.handle, e.key)]
    ensures Handshake.Creates(captures + [e]) == Handshake.Creates(captures) + CreateCalls(Regs(captures), e.key)
  {
    assert (captures + [e])[..|captures|] == captures;
  }

  /** A session comes up exactly when no handle is listed twice, and then its maps
      agree with the list and the backend is told of each barrier once. */
  lemma {:induction false} PopulateAgrees(captures: seq<Entry>)
    ensures Populate(captures).Some? <==> Distinct(Regs(captures))
    ensures Populate(captures).Some? ==> Populated(captures, Populate(captures).value)
    decreases |captures|
  {
    if captures != [] {
      var n := |captures| - 1;
      var init, e := captures[..n], captures[n];
      PopulateAgrees(init);
      Handshake.DistinctSnoc(init, e);
      assert captures == init + [e];
      if Populate(init).Some? { PopulatedSnoc(init, Populate(init).value, e); }
    } else {
      NothingIndexed();
      assert Regs(captures) == [];
    }
  }

  lemma NothingIndexed()
    ensures Indexes([], NO_MAPS.idMap, NO_MAPS.positionMap)
  {
  }

  // ----- one turn -----

  /** A turn of the program and what the task does on its list alone. */
  ghost predicate Same(next: Option<(Both, seq<ProducerEvent>)>, out: Out) {
    && (next.None? <==> out.outcome == Panicked)
    && (next.Some? ==>
          var (b', calls) := next.value;
          Agrees(b') && b'.index.Some? && b'.task == out.task && calls == out.calls)
  }

  lemma RegisterAgrees(b: Both, e: Entry, env: Env)
    requires Agrees(b) && b.index.Some?
    ensures Same(Register(b, e), OnCreate(b.task, e, env))
  {
    var m := b.index.value;
    RegisteredIsFound(b.task.captures, m.idMap, m.positionMap, e.handle);
    if e.handle !in m.idMap {
      CreateAgrees(Regs(b.task.captures), m, e.handle, e.key);
      ListSnoc(b.task.captures, e);
    }
  }

  lemma UnregisterAgrees(b: Both, h: Handle, env: Env)
    requires Agrees(b) && b.index.Some?
    ensures Same(Unregister(b, h), OnDestroy(b.task, h, env))
  {
    var m := b.index.value;
    RegisteredIsFound(b.task.captures, m.idMap, m.positionMap, h);
    if h in m.idMap {
      DestroyAgrees(Regs(b.task.captures), m, h);
      CaptureRuns.ListFollowsIndex(b.task.captures, h);
    }
  }

  /** With list and maps in agreement, the program does what the task does on its
      list alone: the same panics, the same task, the same calls. */
  lemma StimulusAgrees(b: Both, s: Stimulus, env: Env)
    requires Agrees(b) && b.index.Some?
    ensures Same(Advance(b, Stimulated(s, env)), Arm(b.task, s, env))
  {
    if s.Requested? && s.request.CreateRequest? {
      RegisterAgrees(b, Entry(s.request.handle, s.request.key, s.request.kind), env);
    } else if s.Requested? && s.request.DestroyRequest? {
      UnregisterAgrees(b, s.request.handle, env);
    } else {
      OtherArmsKeepCaptures(b.task, s, env);
    }
  }

  lemma OtherArmsKeepCaptures(t: Task, s: Stimulus, env: Env)
    requires !(s.Requested? && (s.request.CreateRequest? || s.request.DestroyRequest?))
    ensures Arm(t, s, env).task.captures == t.captures
  {
  }

  // ----- whole runs -----

  /** `None` once the program panicked or was asked for the impossible. */
  function Execute(start: Both, turns: seq<Turn>): Option<Both> {
    if turns == [] then Some(start)
    else
      var n := |turns| - 1;
      match Execute(start, turns[..n])
      case None => None
      case Some(b) =>
        if !Possible(b, turns[n]) then None
        else
          match Advance(b, turns[n])
          case None => None
          case Some(next) => Some(next.0)
  }

  function Boot(bind: seq<Scancode>, cfg: Config, now: nat): Both {
    Both(Task(Idle, None, [], bind, {}, Watchdog(0, [], now), cfg), None)
  }

  lemma {:induction false} AgreesEver(bind: seq<Scancode>, cfg: Config, now: nat, turns: seq<Turn>)
    requires Execute(Boot(bind, cfg, now), turns).Some?
    ensures Agrees(Execute(Boot(bind, cfg, now), turns).value)
    decreases |turns|
  {
    if turns != [] {
      var n := |turns| - 1;
      AgreesEver(bind, cfg, now, turns[..n]);
      var b := Execute(Boot(bind, cfg, now), turns[..n]).value;
      match turns[n]
      case Stimulated(s, env) => StimulusAgrees(b, s, env);
      case Begun => PopulateAgrees(b.task.captures);
      case _ =>
    }
  }

  /** At every loop boundary of every run, across sessions: a handle is listed
      with a barrier exactly when `id_map` says so, exactly when it is among the
      barrier's subscribers, and those are in the order of the list. */
  lemma ListAgreesWithIndex(bind: seq<Scancode>, cfg: Config, now: nat, turns: seq<Turn>, h: Handle, k: BarrierKey)
    requires Execute(Boot(bind, cfg, now), turns).Some? && Execute(Boot(bind, cfg, now), turns).value.index.Some?
    ensures var b := Execute(Boot(bind, cfg, now), turns).value;
            var m := b.index.value;
            && ((exists e :: e in b.task.captures && e.handle == h && e.key == k) <==> h in m.idMap && m.idMap[h] == k)
            && ((h in m.idMap && m.idMap[h] == k) <==> (k in m.positionMap && h in m.positionMap[k]))
            && (k in m.positionMap ==> m.positionMap[k] == Subscribers(Regs(b.task.captures), k) != [])
  {
    AgreesEver(bind, cfg, now, turns);
    var b := Execute(Boot(bind, cfg, now), turns).value;
    var m, regs := b.index.value, Regs(b.task.captures);
    MutualInverses(regs, m.idMap, m.positionMap, h, k);
    if e :| e in b.task.captures && e.handle == h && e.key == k {
      var i :| 0 <= i < |b.task.captures| && b.task.captures[i] == e;
      assert regs[i] == Registration(h, k);
    }
    if h in m.idMap && m.idMap[h] == k {
      var i :| 0 <= i < |regs| && regs[i] == Registration(h, k);
      assert b.task.captures[i] in b.task.captures;
    }
  }
}
