/** The incrementally kept windows are the ones a rebuild would make, and no
    side of the desktop is ever left without a window. */
module LayerShellRuns {
  import opened Types
  import opened LayerShell

  /** How many copies of this window a rebuild makes. */
  function Expected(outputs: seq<Output>, active: set<BarrierKey>, w: Window): nat {
    if w.key in active then multiset(WindowsFor(outputs, w.key))[w] else 0
  }

  ghost predicate InSync(s: State) {
    forall w :: multiset(s.windows)[w] == Expected(s.outputs, s.active, w)
  }

  // ----- a rebuild is in sync -----

  lemma {:induction false} WindowsBearKey(outputs: seq<Output>, key: BarrierKey, w: Window)
    ensures w in WindowsOn(outputs, key) ==> w.key == key
  {
    if outputs != [] {
      WindowsBearKey(outputs[..|outputs| - 1], key, w);
    }
  }

  lemma {:induction false} RebuildCounts(outputs: seq<Output>, keys: seq<BarrierKey>, w: Window)
    requires forall i, j :: 0 <= i < j < |keys| ==> keys[i] != keys[j]
    ensures multiset(Rebuild(outputs, keys))[w] == if w.key in keys then multiset(WindowsFor(outputs, w.key))[w] else 0
    decreases |keys|
  {
    if keys != [] {
      var n := |keys| - 1;
      var key := keys[n];
      RebuildCounts(outputs, keys[..n], w);
      assert keys == keys[..n] + [key];
      assert key !in keys[..n];
      WindowsBearKey(Configuration(outputs, key.pos), key, w);
    }
  }

  /** Being in sync means: the same windows as a rebuild, in whatever order the
      set yields the keys. */
  lemma InSyncIsRebuilt(s: State, order: seq<BarrierKey>)
    requires Lists(order, s.active)
    ensures InSync(s) <==> multiset(s.windows) == multiset(Rebuild(s.outputs, order))
  {
    forall w ensures multiset(Rebuild(s.outputs, order))[w] == Expected(s.outputs, s.active, w) {
      RebuildCounts(s.outputs, order, w);
    }
  }

  // ----- adding and deleting -----

  lemma AddCounts(windows: seq<Window>, added: seq<Window>, w: Window)
    ensures multiset(windows + added)[w] == multiset(windows)[w] + multiset(added)[w]
  {
  }

  /** Adding keeps the windows in sync exactly when the key is new, or has no
      window on any output. */
  lemma AddExactly(s: State, key: BarrierKey)
    requires InSync(s)
    ensures InSync(AddClient(s, key)) <==> key !in s.active || WindowsFor(s.outputs, key) == []
  {
    var added := WindowsFor(s.outputs, key);
    if key !in s.active || added == [] {
      forall w ensures multiset(s.windows + added)[w] == Expected(s.outputs, s.active + {key}, w) {
        AddCounts(s.windows, added, w);
        WindowsBearKey(Configuration(s.outputs, key.pos), key, w);
      }
    } else {
      var w := added[0];
      assert w in added;
      AddCounts(s.windows, added, w);
      WindowsBearKey(Configuration(s.outputs, key.pos), key, w);
      assert multiset(s.windows + added)[w] != Expected(s.outputs, s.active + {key}, w);
    }
  }

  lemma {:induction false} OthersCounts(windows: seq<Window>, key: BarrierKey, w: Window)
    ensures multiset(Others(windows, key))[w] == if w.key == key then 0 else multiset(windows)[w]
  {
    if windows != [] {
      var n := |windows| - 1;
      OthersCounts(windows[..n], key, w);
      assert windows == windows[..n] + [windows[n]];
    }
  }

  lemma DeleteKeeps(s: State, key: BarrierKey)
    requires InSync(s)
    ensures InSync(DeleteClient(s, key))
  {
    forall w ensures multiset(DeleteClient(s, key).windows)[w] == Expected(s.outputs, s.active - {key}, w) {
      OthersCounts(s.windows, key, w);
    }
  }

  // ----- outputs coming and changing -----

  lemma RegisterKeeps(s: State, name: nat)
    requires InSync(s)
    ensures InSync(Register(s, name))
  {
    var s' := Register(s, name);
    assert s'.outputs[..|s.outputs|] == s.outputs;
    assert forall pos :: Edges(s'.outputs, pos) == Edges(s.outputs, pos);
    forall w ensures Expected(s'.outputs, s.active, w) == Expected(s.outputs, s.active, w) {
      assert Configuration(s'.outputs, w.key.pos) == Configuration(s.outputs, w.key.pos);
    }
  }

  /** The geometry that windows are made from. */
  predicate SameGeometry(a: seq<Output>, b: seq<Output>) {
    |a| == |b| && forall i :: 0 <= i < |a| ==> a[i].name == b[i].name && a[i].info == b[i].info
  }

  lemma {:induction false} SameEdges(a: seq<Output>, b: seq<Output>, pos: Position)
    requires SameGeometry(a, b)
    ensures |Edges(a, pos)| == |Edges(b, pos)|
    ensures forall i :: 0 <= i < |Edges(a, pos)| ==> Edges(a, pos)[i].1 == Edges(b, pos)[i].1
                                                     && Edges(a, pos)[i].0.name == Edges(b, pos)[i].0.name
                                                     && Edges(a, pos)[i].0.info == Edges(b, pos)[i].0.info
    decreases |a|
  {
    if a != [] {
      SameEdges(a[..|a| - 1], b[..|a| - 1], pos);
    }
  }

  lemma {:induction false} SameUnmatched(e: seq<(Output, int)>, f: seq<(Output, int)>, oe: seq<(Output, int)>, of: seq<(Output, int)>)
    requires |e| == |f| && forall i :: 0 <= i < |e| ==> e[i].1 == f[i].1 && e[i].0.name == f[i].0.name && e[i].0.info == f[i].0.info
    requires |oe| == |of| && forall i :: 0 <= i < |oe| ==> oe[i].1 == of[i].1
    ensures SameGeometry(Unmatched(e, oe), Unmatched(f, of))
    decreases |e|
  {
    if e != [] {
      var n := |e| - 1;
      SameUnmatched(e[..n], f[..n], oe, of);
      assert Matched(oe, e[n].1) == Matched(of, f[n].1) by {
        if i :| 0 <= i < |oe| && oe[i].1 == e[n].1 { assert of[i].1 == f[n].1; }
        if i :| 0 <= i < |of| && of[i].1 == f[n].1 { assert oe[i].1 == e[n].1; }
      }
    }
  }

  lemma {:induction false} SameWindowsOn(a: seq<Output>, b: seq<Output>, key: BarrierKey)
    requires SameGeometry(a, b)
    ensures WindowsOn(a, key) == WindowsOn(b, key)
    decreases |a|
  {
    if a != [] {
      SameWindowsOn(a[..|a| - 1], b[..|a| - 1], key);
    }
  }

  lemma SameWindows(a: seq<Output>, b: seq<Output>, key: BarrierKey)
    requires SameGeometry(a, b)
    ensures WindowsFor(a, key) == WindowsFor(b, key)
  {
    SameEdges(a, b, key.pos);
    SameEdges(a, b, key.pos.Opposite());
    SameUnmatched(Edges(a, key.pos), Edges(b, key.pos), Edges(a, key.pos.Opposite()), Edges(b, key.pos.Opposite()));
    SameWindowsOn(Configuration(a, key.pos), Configuration(b, key.pos), key);
  }

  lemma AnnounceKeeps(s: State, name: nat, info: OutputInfo)
    requires InSync(s)
    ensures InSync(Announce(s, name, info))
  {
    var s' := Announce(s, name, info);
    forall w ensures Expected(s'.outputs, s.active, w) == Expected(s.outputs, s.active, w) {
      SameWindows(s'.outputs, s.outputs, w.key);
    }
  }

  lemma UpdateKeeps(s: State, name: nat, order: seq<BarrierKey>)
    requires InSync(s) && Find(s.outputs, name) < |s.outputs| && Lists(order, s.active)
    ensures InSync(UpdateOutputInfo(s, name, order))
  {
    InSyncIsRebuilt(UpdateOutputInfo(s, name, order), order);
  }

  // ----- whole runs -----

  datatype Op =
    | Adding(key: BarrierKey)
    | Deleting(key: BarrierKey)
    | Appeared(name: nat)
    | Announced(name: nat, info: OutputInfo)
    | Updated(name: nat, order: seq<BarrierKey>)
    | Removed(name: nat)

  function Apply(s: State, op: Op): State {
    match op
    case Adding(key) => AddClient(s, key)
    case Deleting(key) => DeleteClient(s, key)
    case Appeared(name) => Register(s, name)
    case Announced(name, info) => Announce(s, name, info)
    case Updated(name, order) => if Find(s.outputs, name) < |s.outputs| then UpdateOutputInfo(s, name, order) else s
    case Removed(name) => Deregister(s, name)
  }

  /** Only new keys are added, no output goes away, a set yields its elements. */
  ghost predicate Ordinary(s: State, op: Op) {
    && (op.Adding? ==> op.key !in s.active)
    && (op.Updated? ==> Find(s.outputs, op.name) < |s.outputs| && Lists(op.order, s.active))
    && !op.Removed?
  }

  function Execute(ops: seq<Op>): State {
    if ops == [] then State([], {}, []) else Apply(Execute(ops[..|ops| - 1]), ops[|ops| - 1])
  }

  lemma StepKeepsInSync(s: State, op: Op)
    requires InSync(s) && Ordinary(s, op)
    ensures InSync(Apply(s, op))
  {
    match op
    case Adding(key) => AddExactly(s, key);
    case Deleting(key) => DeleteKeeps(s, key);
    case Appeared(name) => RegisterKeeps(s, name);
    case Announced(name, info) => AnnounceKeeps(s, name, info);
    case Updated(name, order) => UpdateKeeps(s, name, order);
  }

  /** Through every such run, the windows are those of a rebuild. */
  lemma {:induction false} WindowsFollow(ops: seq<Op>, order: seq<BarrierKey>)
    requires forall i :: 0 <= i < |ops| ==> Ordinary(Execute(ops[..i]), ops[i])
    ensures InSync(Execute(ops))
    ensures Lists(order, Execute(ops).active) ==>
              multiset(Execute(ops).windows) == multiset(Rebuild(Execute(ops).outputs, order))
    decreases |ops|
  {
    if ops != [] {
      var n := |ops| - 1;
      assert forall i | 0 <= i < n :: ops[..n][..i] == ops[..i];
      WindowsFollow(ops[..n], []);
      StepKeepsInSync(Execute(ops[..n]), ops[n]);
    }
    if Lists(order, Execute(ops).active) {
      InSyncIsRebuilt(Execute(ops), order);
    }
  }

  // ----- which outputs keep their window -----

  predicate Hides(outputs: seq<Output>, pos: Position, at: int) {
    exists i :: 0 <= i < |outputs| && outputs[i].info.Some? && Edge(outputs[i].info.value, pos.Opposite()) == at
  }

  lemma {:induction false} MatchedIsHidden(outputs: seq<Output>, pos: Position, at: int)
    ensures Matched(Edges(outputs, pos.Opposite()), at) <==> Hides(outputs, pos, at)
    decreases |outputs|
  {
    if outputs != [] {
      var n := |outputs| - 1;
      MatchedIsHidden(outputs[..n], pos, at);
      var init, all := Edges(outputs[..n], pos.Opposite()), Edges(outputs, pos.Opposite());
      assert all[..|init|] == init;
      if Hides(outputs[..n], pos, at) {
        var i :| 0 <= i < n && outputs[..n][i].info.Some? && Edge(outputs[..n][i].info.value, pos.Opposite()) == at;
        assert outputs[i] == outputs[..n][i];
        var j :| 0 <= j < |init| && init[j].1 == at;
        assert all[j].1 == at;
      } else if outputs[n].info.Some? && Edge(outputs[n].info.value, pos.Opposite()) == at {
        assert all[|init|].1 == at;
      }
    }
  }

  lemma {:induction false} EdgesMembers(outputs: seq<Output>, pos: Position, o: Output, at: int)
    ensures (o, at) in Edges(outputs, pos) <==> o in outputs && o.info.Some? && at == Edge(o.info.value, pos)
    decreases |outputs|
  {
    if outputs != [] {
      var n := |outputs| - 1;
      EdgesMembers(outputs[..n], pos, o, at);
      assert outputs == outputs[..n] + [outputs[n]];
    }
  }

  lemma {:induction false} UnmatchedMembers(edges: seq<(Output, int)>, opposite: seq<(Output, int)>, o: Output)
    ensures o in Unmatched(edges, opposite) <==> exists at :: (o, at) in edges && !Matched(opposite, at)
    decreases |edges|
  {
    if edges != [] {
      var n := |edges| - 1;
      UnmatchedMembers(edges[..n], opposite, o);
      assert edges == edges[..n] + [edges[n]];
      assert edges[n] == (edges[n].0, edges[n].1);
    }
  }

  /** An output is used exactly when it has geometry and no output's opposite
      edge lies where its edge does. */
  lemma ConfigurationMembers(outputs: seq<Output>, pos: Position, o: Output)
    ensures o in Configuration(outputs, pos) <==>
            o in outputs && o.info.Some? && !Hides(outputs, pos, Edge(o.info.value, pos))
  {
    UnmatchedMembers(Edges(outputs, pos), Edges(outputs, pos.Opposite()), o);
    if o.info.Some? {
      var at := Edge(o.info.value, pos);
      EdgesMembers(outputs, pos, o, at);
      MatchedIsHidden(outputs, pos, at);
    }
    forall at ensures (o, at) in Edges(outputs, pos) <==> o in outputs && o.info.Some? && at == Edge(o.info.value, pos) {
      EdgesMembers(outputs, pos, o, at);
    }
  }

  predicate Outward(pos: Position, a: int, b: int) {
    if pos.Left? || pos.Top? then a <= b else a >= b
  }

  /** No output reaches further out on this side. */
  predicate Extreme(outputs: seq<Output>, pos: Position, o: Output) {
    && o in outputs && o.info.Some?
    && forall p :: p in outputs && p.info.Some? ==> Outward(pos, Edge(o.info.value, pos), Edge(p.info.value, pos))
  }

  /** The size across this side. */
  function Depth(info: OutputInfo, pos: Position): int {
    if pos.Left? || pos.Right? then info.width else info.height
  }

  /** An extreme output loses its window exactly when an output without extent
      lies on its edge, as far as sizes are not negative; so with positive
      sizes it never does. */
  lemma ExtremeKeptExactly(outputs: seq<Output>, pos: Position, o: Output)
    requires Extreme(outputs, pos, o)
    requires forall p :: p in outputs && p.info.Some? ==> Depth(p.info.value, pos) >= 0
    ensures o in Configuration(outputs, pos) <==>
            !exists p :: p in outputs && p.info.Some? && Depth(p.info.value, pos) == 0
                         && Edge(p.info.value, pos) == Edge(o.info.value, pos)
  {
    ConfigurationMembers(outputs, pos, o);
    var at := Edge(o.info.value, pos);
    if Hides(outputs, pos, at) {
      var i :| 0 <= i < |outputs| && outputs[i].info.Some? && Edge(outputs[i].info.value, pos.Opposite()) == at;
      assert outputs[i] in outputs;
    }
    if p :| p in outputs && p.info.Some? && Depth(p.info.value, pos) == 0 && Edge(p.info.value, pos) == at {
      var i :| 0 <= i < |outputs| && outputs[i] == p;
      assert Edge(outputs[i].info.value, pos.Opposite()) == at;
    }
  }

  lemma {:induction false} ExtremeExists(outputs: seq<Output>, pos: Position) returns (o: Output)
    requires exists p :: p in outputs && p.info.Some?
    ensures Extreme(outputs, pos, o)
    decreases |outputs|
  {
    var n := |outputs| - 1;
    var last := outputs[n];
    assert outputs == outputs[..n] + [last];
    if p :| p in outputs[..n] && p.info.Some? {
      o := ExtremeExists(outputs[..n], pos);
      if last.info.Some? && !Outward(pos, Edge(o.info.value, pos), Edge(last.info.value, pos)) {
        o := last;
      }
    } else {
      o := last;
    }
  }

  /** With outputs of positive size, every side keeps all its extreme outputs,
      so at least one window per key. */
  lemma EverySideIsCovered(outputs: seq<Output>, key: BarrierKey, o: Output)
    requires forall p :: p in outputs && p.info.Some? ==> Depth(p.info.value, key.pos) > 0
    ensures Extreme(outputs, key.pos, o) ==>
              Window(key, o.name, o.info.value.width, o.info.value.height) in WindowsFor(outputs, key)
    ensures (exists p :: p in outputs && p.info.Some?) ==> WindowsFor(outputs, key) != []
  {
    if Extreme(outputs, key.pos, o) {
      ExtremeKeptExactly(outputs, key.pos, o);
      WindowsMembers(Configuration(outputs, key.pos), key, o);
    }
    if exists p :: p in outputs && p.info.Some? {
      var e := ExtremeExists(outputs, key.pos);
      ExtremeKeptExactly(outputs, key.pos, e);
      WindowsMembers(Configuration(outputs, key.pos), key, e);
    }
  }

  lemma {:induction false} WindowsMembers(outputs: seq<Output>, key: BarrierKey, o: Output)
    requires o in outputs && o.info.Some?
    ensures Window(key, o.name, o.info.value.width, o.info.value.height) in WindowsOn(outputs, key)
    decreases |outputs|
  {
    var n := |outputs| - 1;
    assert outputs == outputs[..n] + [outputs[n]];
    if o in outputs[..n] {
      WindowsMembers(outputs[..n], key, o);
    }
  }

  // ----- an output goes away -----

  predicate Named(outputs: seq<Output>) {
    forall i, j :: 0 <= i < j < |outputs| ==> outputs[i].name != outputs[j].name
  }

  /** The removal changes which outputs are used on this side. */
  predicate Disturbs(outputs: seq<Output>, name: nat, pos: Position) {
    exists o :: o in outputs && ((o in Configuration(outputs, pos)) != (o in Configuration(Remaining(outputs, name), pos)))
  }

  lemma {:induction false} RemainingMembers(outputs: seq<Output>, name: nat, o: Output)
    ensures o in Remaining(outputs, name) <==> o in outputs && o.name != name
    decreases |outputs|
  {
    if outputs != [] {
      var n := |outputs| - 1;
      RemainingMembers(outputs[..n], name, o);
      assert outputs == outputs[..n] + [outputs[n]];
    }
  }

  lemma {:induction false} WindowsComeFrom(outputs: seq<Output>, key: BarrierKey, w: Window) returns (o: Output)
    requires w in WindowsOn(outputs, key)
    ensures o in outputs && o.info.Some? && w == Window(key, o.name, o.info.value.width, o.info.value.height)
    decreases |outputs|
  {
    var n := |outputs| - 1;
    assert outputs == outputs[..n] + [outputs[n]];
    if w in WindowsOn(outputs[..n], key) {
      o := WindowsComeFrom(outputs[..n], key, w);
    } else {
      o := outputs[n];
    }
  }

  function WindowOf(o: Output, key: BarrierKey): Window
    requires o.info.Some?
  {
    Window(key, o.name, o.info.value.width, o.info.value.height)
  }

  lemma UsedHasWindow(outputs: seq<Output>, used: seq<Output>, key: BarrierKey, o: Output)
    requires Named(outputs) && (forall p :: p in used ==> p in outputs) && o in outputs && o.info.Some?
    ensures WindowOf(o, key) in WindowsOn(used, key) <==> o in used
  {
    if o in used {
      WindowsMembers(used, key, o);
    } else if WindowOf(o, key) in WindowsOn(used, key) {
      var p := WindowsComeFrom(used, key, WindowOf(o, key));
    }
  }

  /** Only outputs that are there are used. */
  lemma UsedAreOutputs(outputs: seq<Output>, name: nat, pos: Position)
    ensures forall p :: p in Configuration(outputs, pos) ==> p in outputs && p.info.Some?
    ensures forall p :: p in Configuration(Remaining(outputs, name), pos) ==> p in outputs && p.info.Some?
  {
    forall p ensures p in Configuration(outputs, pos) ==> p in outputs && p.info.Some? {
      ConfigurationMembers(outputs, pos, p);
    }
    forall p ensures p in Configuration(Remaining(outputs, name), pos) ==> p in outputs && p.info.Some? {
      ConfigurationMembers(Remaining(outputs, name), pos, p);
      RemainingMembers(outputs, name, p);
    }
  }

  lemma RemovalBreaks(s: State, name: nat, key: BarrierKey)
    requires InSync(s) && Named(s.outputs) && key in s.active && Disturbs(s.outputs, name, key.pos)
    ensures !InSync(Deregister(s, name))
  {
    var rest := Remaining(s.outputs, name);
    var before, after := Configuration(s.outputs, key.pos), Configuration(rest, key.pos);
    UsedAreOutputs(s.outputs, name, key.pos);
    var o :| o in s.outputs && ((o in before) != (o in after));
    UsedHasWindow(s.outputs, before, key, o);
    UsedHasWindow(s.outputs, after, key, o);
    var w := WindowOf(o, key);
    assert multiset(s.windows)[w] == multiset(WindowsOn(before, key))[w];
    assert multiset(WindowsOn(before, key))[w] != multiset(WindowsOn(after, key))[w];
  }

  lemma {:induction false} NamedEdges(outputs: seq<Output>, pos: Position)
    requires Named(outputs)
    ensures forall i, j :: 0 <= i < j < |Edges(outputs, pos)| ==> Edges(outputs, pos)[i].0.name != Edges(outputs, pos)[j].0.name
    decreases |outputs|
  {
    if outputs != [] {
      var n := |outputs| - 1;
      var init := Edges(outputs[..n], pos);
      NamedEdges(outputs[..n], pos);
      forall i | 0 <= i < |init| ensures init[i].0.name != outputs[n].name {
        assert (init[i].0, init[i].1) in init;
        EdgesMembers(outputs[..n], pos, init[i].0, init[i].1);
      }
    }
  }

  lemma {:induction false} NamedUnmatched(edges: seq<(Output, int)>, opposite: seq<(Output, int)>)
    requires forall i, j :: 0 <= i < j < |edges| ==> edges[i].0.name != edges[j].0.name
    ensures Named(Unmatched(edges, opposite))
    decreases |edges|
  {
    if edges != [] {
      var n := |edges| - 1;
      var init := Unmatched(edges[..n], opposite);
      NamedUnmatched(edges[..n], opposite);
      forall i | 0 <= i < |init| ensures init[i].name != edges[n].0.name {
        UnmatchedMembers(edges[..n], opposite, init[i]);
        assert init[i] in init;
      }
    }
  }

  lemma {:induction false} NamedWindows(outputs: seq<Output>, key: BarrierKey, w: Window)
    requires Named(outputs)
    ensures multiset(WindowsOn(outputs, key))[w] <= 1
    decreases |outputs|
  {
    if outputs != [] {
      var n := |outputs| - 1;
      NamedWindows(outputs[..n], key, w);
      if outputs[n].info.Some? && w == WindowOf(outputs[n], key) && w in WindowsOn(outputs[..n], key) {
        var p := WindowsComeFrom(outputs[..n], key, w);
      }
    }
  }

  lemma {:induction false} NamedRemaining(outputs: seq<Output>, name: nat)
    requires Named(outputs)
    ensures Named(Remaining(outputs, name))
    decreases |outputs|
  {
    if outputs != [] {
      var n := |outputs| - 1;
      var init := Remaining(outputs[..n], name);
      NamedRemaining(outputs[..n], name);
      forall i | 0 <= i < |init| ensures init[i].name != outputs[n].name {
        assert init[i] in init;
        RemainingMembers(outputs[..n], name, init[i]);
      }
    }
  }

  lemma OneWindowEach(outputs: seq<Output>, key: BarrierKey, w: Window)
    requires Named(outputs)
    ensures multiset(WindowsFor(outputs, key))[w] <= 1
  {
    NamedEdges(outputs, key.pos);
    NamedUnmatched(Edges(outputs, key.pos), Edges(outputs, key.pos.Opposite()));
    NamedWindows(Configuration(outputs, key.pos), key, w);
  }

  lemma UndisturbedCounts(outputs: seq<Output>, name: nat, key: BarrierKey, w: Window)
    requires Named(outputs) && !Disturbs(outputs, name, key.pos)
    ensures multiset(WindowsFor(outputs, key))[w] == multiset(WindowsFor(Remaining(outputs, name), key))[w]
  {
    var rest := Remaining(outputs, name);
    var before, after := Configuration(outputs, key.pos), Configuration(rest, key.pos);
    UsedAreOutputs(outputs, name, key.pos);
    NamedRemaining(outputs, name);
    OneWindowEach(outputs, key, w);
    OneWindowEach(rest, key, w);
    if w in WindowsOn(before, key) {
      var o := WindowsComeFrom(before, key, w);
      WindowsMembers(after, key, o);
    }
    if w in WindowsOn(after, key) {
      var o := WindowsComeFrom(after, key, w);
      WindowsMembers(before, key, o);
    }
  }

  /** What the removal does to the geometry of a side: an output of that name
      lies on the outside there, or its opposite edge alone hides another's. */
  predicate Shapes(outputs: seq<Output>, name: nat, pos: Position) {
    exists o :: o in outputs && o.name == name && o.info.Some?
                && (!Hides(outputs, pos, Edge(o.info.value, pos)) || Uncovers(outputs, name, o.info.value, pos))
  }

  predicate Uncovers(outputs: seq<Output>, name: nat, info: OutputInfo, pos: Position) {
    exists p :: p in outputs && p.name != name && p.info.Some?
                && Edge(p.info.value, pos) == Edge(info, pos.Opposite())
                && !Hides(Remaining(outputs, name), pos, Edge(p.info.value, pos))
  }

  lemma HidesMember(outputs: seq<Output>, pos: Position, at: int)
    ensures Hides(outputs, pos, at) <==> exists o :: o in outputs && o.info.Some? && Edge(o.info.value, pos.Opposite()) == at
  {
    if i :| 0 <= i < |outputs| && outputs[i].info.Some? && Edge(outputs[i].info.value, pos.Opposite()) == at {
      assert outputs[i] in outputs;
    }
  }

  /** What the removed outputs hid, or what hides still. */
  lemma HidesWithout(outputs: seq<Output>, name: nat, pos: Position, at: int)
    ensures Hides(Remaining(outputs, name), pos, at) ==> Hides(outputs, pos, at)
    ensures Hides(outputs, pos, at) && !Hides(Remaining(outputs, name), pos, at) ==>
              exists o :: o in outputs && o.name == name && o.info.Some? && Edge(o.info.value, pos.Opposite()) == at
  {
    HidesMember(outputs, pos, at);
    HidesMember(Remaining(outputs, name), pos, at);
    forall o ensures o in Remaining(outputs, name) <==> o in outputs && o.name != name {
      RemainingMembers(outputs, name, o);
    }
  }

  lemma ShapesDisturbs(outputs: seq<Output>, name: nat, pos: Position)
    requires Shapes(outputs, name, pos)
    ensures Disturbs(outputs, name, pos)
  {
    var rest := Remaining(outputs, name);
    var o :| o in outputs && o.name == name && o.info.Some?
             && (!Hides(outputs, pos, Edge(o.info.value, pos)) || Uncovers(outputs, name, o.info.value, pos));
    if !Hides(outputs, pos, Edge(o.info.value, pos)) {
      ConfigurationMembers(outputs, pos, o);
      ConfigurationMembers(rest, pos, o);
      RemainingMembers(outputs, name, o);
    } else {
      var p :| p in outputs && p.name != name && p.info.Some?
               && Edge(p.info.value, pos) == Edge(o.info.value, pos.Opposite()) && !Hides(rest, pos, Edge(p.info.value, pos));
      ConfigurationMembers(outputs, pos, p);
      ConfigurationMembers(rest, pos, p);
      RemainingMembers(outputs, name, p);
      HidesMember(outputs, pos, Edge(p.info.value, pos));
    }
  }

  lemma DisturbsShapes(outputs: seq<Output>, name: nat, pos: Position)
    requires Disturbs(outputs, name, pos)
    ensures Shapes(outputs, name, pos)
  {
    var rest := Remaining(outputs, name);
    var o :| o in outputs && ((o in Configuration(outputs, pos)) != (o in Configuration(rest, pos)));
    ConfigurationMembers(outputs, pos, o);
    ConfigurationMembers(rest, pos, o);
    RemainingMembers(outputs, name, o);
    if o.name != name {
      var at := Edge(o.info.value, pos);
      HidesWithout(outputs, name, pos, at);
      var hider :| hider in outputs && hider.name == name && hider.info.Some? && Edge(hider.info.value, pos.Opposite()) == at;
      assert Uncovers(outputs, name, hider.info.value, pos);
    }
  }

  /** Nothing is rebuilt when an output goes away, so the windows stay in sync
      exactly when, on the side of every active key, the output neither lies on
      the outside nor alone hides another one. */
  lemma RemovalExactly(s: State, name: nat)
    requires InSync(s) && Named(s.outputs)
    ensures InSync(Deregister(s, name)) <==> forall key :: key in s.active ==> !Shapes(s.outputs, name, key.pos)
  {
    forall key | key in s.active ensures Shapes(s.outputs, name, key.pos) <==> Disturbs(s.outputs, name, key.pos) {
      if Shapes(s.outputs, name, key.pos) { ShapesDisturbs(s.outputs, name, key.pos); }
      if Disturbs(s.outputs, name, key.pos) { DisturbsShapes(s.outputs, name, key.pos); }
    }
    if key :| key in s.active && Disturbs(s.outputs, name, key.pos) {
      RemovalBreaks(s, name, key);
    } else {
      forall w ensures Expected(Remaining(s.outputs, name), s.active, w) == Expected(s.outputs, s.active, w) {
        if w.key in s.active {
          UndisturbedCounts(s.outputs, name, w.key, w);
        }
      }
    }
  }

  /** It happens: whenever the only output, if it has extent, goes away, its
      window stays, on whatever side. */
  lemma RemovalLeavesStaleWindow(s: State, o: Output, key: BarrierKey)
    requires InSync(s) && s.outputs == [o] && key in s.active
    requires o.info.Some? && Depth(o.info.value, key.pos) != 0
    ensures WindowOf(o, key) in s.windows && WindowOf(o, key) in Deregister(s, o.name).windows
    ensures !InSync(Deregister(s, o.name))
  {
    HidesMember([o], key.pos, Edge(o.info.value, key.pos));
    ConfigurationMembers([o], key.pos, o);
    WindowsMembers(Configuration([o], key.pos), key, o);
    assert multiset(s.windows)[WindowOf(o, key)] > 0;
    assert Shapes([o], o.name, key.pos);
    RemovalExactly(s, o.name);
  }

  // ----- an update takes effect -----

  /** What was announced is what the update puts in force, for this output and
      no other. */
  lemma UpdateTakesEffect(s: State, name: nat, info: OutputInfo, order: seq<BarrierKey>)
    requires Find(s.outputs, name) < |s.outputs|
    ensures var a := Announce(s, name, info);
            Find(a.outputs, name) == Find(s.outputs, name)
    ensures var s' := UpdateOutputInfo(Announce(s, name, info), name, order);
            var i := Find(s.outputs, name);
            && |s'.outputs| == |s.outputs| && s'.outputs[i].info == Some(info)
            && (forall j :: 0 <= j < |s.outputs| && j != i ==> s'.outputs[j] == s.outputs[j])
            && s'.active == s.active && s'.windows == Rebuild(s'.outputs, order)
  {
    var i := Find(s.outputs, name);
    FindIsFirst(Announce(s, name, info).outputs, name, i);
  }

  lemma FindIsFirst(outputs: seq<Output>, name: nat, i: nat)
    requires i < |outputs| && outputs[i].name == name && forall j :: 0 <= j < i ==> outputs[j].name != name
    ensures Find(outputs, name) == i
  {
    var f := Find(outputs, name);
    assert !(f < i);
  }
}
