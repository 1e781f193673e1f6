/** The Wayland layer-shell backend: one edge window per barrier and outer
    output, kept up to date incrementally. */
module LayerShell {
  import opened Types

  datatype OutputInfo = OutputInfo(x: int, y: int, width: int, height: int)

  datatype Output = Output(name: nat, info: Option<OutputInfo>, pending: OutputInfo, hasXdgInfo: bool)

  datatype Window = Window(key: BarrierKey, output: nat, width: int, height: int)

  datatype State = State(outputs: seq<Output>, active: set<BarrierKey>, windows: seq<Window>)

  // ----- which outputs lie on a side -----

  function Edge(info: OutputInfo, pos: Position): int {
    match pos
    case Left => info.x
    case Right => info.x + info.width
    case Top => info.y
    case Bottom => info.y + info.height
  }

  function Edges(outputs: seq<Output>, pos: Position): seq<(Output, int)> {
    if outputs == [] then []
    else
      var o := outputs[|outputs| - 1];
      Edges(outputs[..|outputs| - 1], pos) + if o.info.Some? then [(o, Edge(o.info.value, pos))] else []
  }

  predicate Matched(edges: seq<(Output, int)>, at: int) {
    exists i :: 0 <= i < |edges| && edges[i].1 == at
  }

  function Unmatched(edges: seq<(Output, int)>, opposite: seq<(Output, int)>): seq<Output> {
    if edges == [] then []
    else
      var e := edges[|edges| - 1];
      Unmatched(edges[..|edges| - 1], opposite) + if Matched(opposite, e.1) then [] else [e.0]
  }

  /** The outputs whose edge on this side coincides with no opposite edge. */
  function Configuration(outputs: seq<Output>, pos: Position): seq<Output> {
    Unmatched(Edges(outputs, pos), Edges(outputs, pos.Opposite()))
  }

  function WindowsOn(outputs: seq<Output>, key: BarrierKey): seq<Window> {
    if outputs == [] then []
    else
      var o := outputs[|outputs| - 1];
      WindowsOn(outputs[..|outputs| - 1], key)
      + if o.info.Some? then [Window(key, o.name, o.info.value.width, o.info.value.height)] else []
  }

  function WindowsFor(outputs: seq<Output>, key: BarrierKey): seq<Window> {
    WindowsOn(Configuration(outputs, key.pos), key)
  }

  // ----- operations -----

  function AddClient(s: State, key: BarrierKey): State {
    s.(active := s.active + {key}, windows := s.windows + WindowsFor(s.outputs, key))
  }

  function Others(windows: seq<Window>, key: BarrierKey): seq<Window> {
    if windows == [] then []
    else
      var w := windows[|windows| - 1];
      Others(windows[..|windows| - 1], key) + if w.key == key then [] else [w]
  }

  function DeleteClient(s: State, key: BarrierKey): State {
    s.(active := s.active - {key}, windows := Others(s.windows, key))
  }

  /** From scratch, the keys in the order the hash set yields them. */
  function Rebuild(outputs: seq<Output>, keys: seq<BarrierKey>): seq<Window> {
    if keys == [] then [] else Rebuild(outputs, keys[..|keys| - 1]) + WindowsFor(outputs, keys[|keys| - 1])
  }

  function Find(outputs: seq<Output>, name: nat): (i: nat)
    ensures i <= |outputs|
    ensures i < |outputs| ==> outputs[i].name == name
    ensures forall j :: 0 <= j < i ==> outputs[j].name != name
  {
    if outputs == [] then 0 else if outputs[0].name == name then 0 else Find(outputs[1..], name) + 1
  }

  function Register(s: State, name: nat): State {
    s.(outputs := s.outputs + [Output(name, None, OutputInfo(0, 0, 0, 0), false)])
  }

  /** The compositor announces geometry, which takes effect with the next update. */
  function Announce(s: State, name: nat, info: OutputInfo): State {
    var i := Find(s.outputs, name);
    if i < |s.outputs| then s.(outputs := s.outputs[i := s.outputs[i].(pending := info, hasXdgInfo := true)]) else s
  }

  function UpdateOutputInfo(s: State, name: nat, order: seq<BarrierKey>): State
    requires Find(s.outputs, name) < |s.outputs|
  {
    var i := Find(s.outputs, name);
    var o := s.outputs[i];
    if o.hasXdgInfo then
      var outputs := s.outputs[i := o.(info := Some(o.pending))];
      s.(outputs := outputs, windows := Rebuild(outputs, order))
    else s
  }

  function Remaining(outputs: seq<Output>, name: nat): seq<Output> {
    if outputs == [] then []
    else
      var o := outputs[|outputs| - 1];
      Remaining(outputs[..|outputs| - 1], name) + if o.name == name then [] else [o]
  }

  /** The windows are left alone. */
  function Deregister(s: State, name: nat): State {
    s.(outputs := Remaining(s.outputs, name))
  }

  // ----- the mutating code -----

  lemma OthersSkips(windows: seq<Window>, i: nat, key: BarrierKey)
    requires i < |windows| && windows[i].key == key
    ensures Others(windows[..i] + windows[i + 1..], key) == Others(windows, key)
    decreases |windows|
  {
    var n := |windows| - 1;
    var cut := windows[..i] + windows[i + 1..];
    if i == n {
      assert cut == windows[..n];
    } else {
      assert cut[..n - 1] == windows[..n][..i] + windows[..n][i + 1..];
      OthersSkips(windows[..n], i, key);
    }
  }

  lemma {:induction false} OthersOfNone(windows: seq<Window>, key: BarrierKey)
    requires forall i :: 0 <= i < |windows| ==> windows[i].key != key
    ensures Others(windows, key) == windows
  {
    if windows != [] {
      OthersOfNone(windows[..|windows| - 1], key);
    }
  }

  lemma ListsSnoc(order: seq<BarrierKey>, all: set<BarrierKey>, rest: set<BarrierKey>, key: BarrierKey)
    requires Lists(order, all - rest) && key in rest && rest <= all
    ensures Lists(order + [key], all - (rest - {key}))
  {
  }

  lemma RebuildSnoc(outputs: seq<Output>, order: seq<BarrierKey>, key: BarrierKey)
    ensures Rebuild(outputs, order + [key]) == Rebuild(outputs, order) + WindowsFor(outputs, key)
  {
    assert (order + [key])[..|order|] == order;
  }

  class Inner {
    var outputs: seq<Output>
    var activePositions: set<BarrierKey>
    var activeWindows: seq<Window>

    ghost function View(): State
      reads this
    {
      State(outputs, activePositions, activeWindows)
    }

    method Add(key: BarrierKey)
      modifies this`activePositions, this`activeWindows
      ensures View() == AddClient(old(View()), key)
    {
      activePositions := activePositions + {key};
      var on := Configuration(outputs, key.pos);
      for i := 0 to |on|
        modifies this`activeWindows
        invariant activeWindows == old(activeWindows) + WindowsOn(on[..i], key)
      {
        assert on[..i + 1][..i] == on[..i];
        if on[i].info.Some? {
          var info := on[i].info.value;
          activeWindows := activeWindows + [Window(key, on[i].name, info.width, info.height)];
        }
      }
      assert on[..|on|] == on;
    }

    method FirstWith(key: BarrierKey) returns (i: nat)
      ensures i <= |activeWindows|
      ensures i < |activeWindows| ==> activeWindows[i].key == key
      ensures forall j :: 0 <= j < i ==> activeWindows[j].key != key
    {
      i := 0;
      while i < |activeWindows| && activeWindows[i].key != key
        invariant i <= |activeWindows|
        invariant forall j :: 0 <= j < i ==> activeWindows[j].key != key
      {
        i := i + 1;
      }
    }

    method Delete(key: BarrierKey)
      modifies this`activePositions, this`activeWindows
      ensures View() == DeleteClient(old(View()), key)
    {
      activePositions := activePositions - {key};
      var i := FirstWith(key);
      while i < |activeWindows|
        modifies this`activeWindows
        invariant 0 <= i <= |activeWindows|
        invariant i < |activeWindows| ==> activeWindows[i].key == key
        invariant i == |activeWindows| ==> forall j :: 0 <= j < |activeWindows| ==> activeWindows[j].key != key
        invariant Others(activeWindows, key) == Others(old(activeWindows), key)
        decreases |activeWindows|, if i < |activeWindows| then 1 else 0
      {
        OthersSkips(activeWindows, i, key);
        activeWindows := activeWindows[..i] + activeWindows[i + 1..];
        i := FirstWith(key);
      }
      OthersOfNone(activeWindows, key);
    }

    method UpdateWindows() returns (order: seq<BarrierKey>)
      modifies this`activePositions, this`activeWindows
      ensures Lists(order, old(activePositions)) && activePositions == old(activePositions)
      ensures activeWindows == Rebuild(outputs, order)
    {
      activeWindows := [];
      order := [];
      var rest := activePositions;
      while rest != {}
        invariant activePositions == old(activePositions) && rest <= activePositions
        invariant Lists(order, activePositions - rest)
        invariant activeWindows == Rebuild(outputs, order)
        decreases rest
      {
        var key :| key in rest;
        ListsSnoc(order, activePositions, rest, key);
        RebuildSnoc(outputs, order, key);
        rest := rest - {key};
        Add(key);
        order := order + [key];
      }
    }
  }
}
