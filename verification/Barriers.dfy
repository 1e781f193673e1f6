/** The libei backend: one pointer barrier per client and region, and the way
    back from an activated barrier to the client. */
module Barriers {
  import opened Types

  const U32_MAX: nat := 0xFFFF_FFFF

  /** Width and height are unsigned on the wire. */
  type U32 = n: nat | n <= U32_MAX

  datatype Region = Region(width: U32, height: U32, x: int, y: int)

  datatype Line = Line(x1: int, y1: int, x2: int, y2: int)

  datatype Barrier = Barrier(id: nat, line: Line)

  /** The cast to a signed 32-bit number wraps. */
  function AsI32(n: U32): int {
    if n < 0x8000_0000 then n else n - 0x1_0000_0000
  }

  function LineOf(pos: Position, r: Region): Line {
    var w, h := AsI32(r.width), AsI32(r.height);
    match pos
    case Left => Line(r.x, r.y, r.x, r.y + h - 1)
    case Right => Line(r.x + w, r.y, r.x + w, r.y + h - 1)
    case Top => Line(r.x, r.y, r.x + w - 1, r.y)
    case Bottom => Line(r.x, r.y + h, r.x + w - 1, r.y + h)
  }

  predicate OnLine(l: Line, x: int, y: int) {
    l.x1 <= x <= l.x2 && l.y1 <= y <= l.y2
  }

  predicate Inside(r: Region, x: int, y: int) {
    r.x <= x < r.x + r.width && r.y <= y < r.y + r.height
  }

  /** The point one step inwards. The first column and row of a region belong to
      it, the far edges are one beyond its last. */
  function Inwards(pos: Position, x: int, y: int): (int, int) {
    match pos
    case Left => (x, y)
    case Right => (x - 1, y)
    case Top => (x, y)
    case Bottom => (x, y - 1)
  }

  predicate Outermost(pos: Position, r: Region, x: int, y: int) {
    Inside(r, x, y) && match pos
      case Left => !Inside(r, x - 1, y)
      case Right => !Inside(r, x + 1, y)
      case Top => !Inside(r, x, y - 1)
      case Bottom => !Inside(r, x, y + 1)
  }

  /** A barrier covers exactly the outermost points of its region on its side,
      as long as the sizes are signed 32-bit numbers and not empty. */
  lemma LineIsTheEdge(pos: Position, r: Region, x: int, y: int)
    requires 0 < r.width < 0x8000_0000 && 0 < r.height < 0x8000_0000
    ensures OnLine(LineOf(pos, r), x, y) <==> Outermost(pos, r, Inwards(pos, x, y).0, Inwards(pos, x, y).1)
  {
  }

  // ----- allocation -----

  /** Barrier i belongs to client i / |regions| and region i mod |regions|, and
      ids are consecutive from `first`. */
  ghost predicate Allocated(regions: seq<Region>, clients: seq<BarrierKey>, first: nat, barriers: seq<Barrier>, keyFor: map<nat, BarrierKey>, n: nat) {
    && |barriers| == n <= |clients| * |regions|
    && (forall id :: id in keyFor <==> first <= id < first + n)
    && (forall i :: 0 <= i < n ==> Belongs(regions, clients, barriers[i], i, first) && first + i in keyFor
                                   && keyFor[first + i] == clients[i / |regions|])
  }

  ghost predicate Belongs(regions: seq<Region>, clients: seq<BarrierKey>, b: Barrier, i: nat, first: nat) {
    && |regions| > 0 && i / |regions| < |clients|
    && b.id == first + i
    && b.line == LineOf(clients[i / |regions|].pos, regions[i % |regions|])
  }

  lemma DivMod(c: nat, r: nat, n: nat)
    requires r < n
    ensures (c * n + r) / n == c && (c * n + r) % n == r
  {
    var q, m := (c * n + r) / n, (c * n + r) % n;
    assert q * n + m == c * n + r;
    assert (q - c) * n == r - m;
    assert q - c >= 1 ==> (q - c) * n >= n;
    assert q - c <= -1 ==> (q - c) * n + n <= 0;
  }

  lemma Fits(c: nat, r: nat, clients: nat, n: nat)
    requires c < clients && r < n
    ensures c * n + r < clients * n
  {
    assert c * n + n == (c + 1) * n;
    assert (c + 1) * n <= clients * n;
  }

  lemma NextRow(c: nat, n: nat)
    ensures (c + 1) * n == c * n + n
  {
  }

  /** One barrier more. */
  lemma AllocatedSnoc(regions: seq<Region>, clients: seq<BarrierKey>, first: nat, barriers: seq<Barrier>, keyFor: map<nat, BarrierKey>, c: nat, r: nat)
    requires c < |clients| && r < |regions|
    requires Allocated(regions, clients, first, barriers, keyFor, c * |regions| + r)
    ensures var n := c * |regions| + r;
            Allocated(regions, clients, first, barriers + [Barrier(first + n, LineOf(clients[c].pos, regions[r]))],
                      keyFor[first + n := clients[c]], n + 1)
  {
    DivMod(c, r, |regions|);
    Fits(c, r, |clients|, |regions|);
  }

  /** Fails exactly when the ids run out, which the original answers with a panic. */
  method SelectBarriers(regions: seq<Region>, clients: seq<BarrierKey>, next: nat)
    returns (ok: bool, barriers: seq<Barrier>, keyFor: map<nat, BarrierKey>, next': nat)
    requires 1 <= next <= U32_MAX
    ensures ok <==> next + |clients| * |regions| <= U32_MAX
    ensures ok ==> next' == next + |clients| * |regions|
                   && Allocated(regions, clients, next, barriers, keyFor, |clients| * |regions|)
  {
    barriers, keyFor, next' := [], map[], next;
    ghost var done := 0;
    for c := 0 to |clients|
      invariant done == c * |regions| && next' == next + done <= U32_MAX
      invariant Allocated(regions, clients, next, barriers, keyFor, done)
    {
      for r := 0 to |regions|
        invariant next' == next + done + r <= U32_MAX
        invariant Allocated(regions, clients, next, barriers, keyFor, done + r)
      {
        var id := next';
        if id == U32_MAX {
          Fits(c, r, |clients|, |regions|);
          return false, barriers, keyFor, next';
        }
        next' := id + 1;
        AllocatedSnoc(regions, clients, next, barriers, keyFor, c, r);
        keyFor := keyFor[id := clients[c]];
        barriers := barriers + [Barrier(id, LineOf(clients[c].pos, regions[r]))];
      }
      done := done + |regions|;
      NextRow(c, |regions|);
    }
    ok := true;
  }

  // ----- sessions -----

  datatype Layout = Layout(regions: seq<Region>, clients: seq<BarrierKey>)

  datatype Session = Session(layout: Layout, first: nat, barriers: seq<Barrier>, keyFor: map<nat, BarrierKey>)

  function Demand(l: Layout): nat {
    |l.clients| * |l.regions|
  }

  function Total(layouts: seq<Layout>): nat {
    if layouts == [] then 0 else Total(layouts[..|layouts| - 1]) + Demand(layouts[|layouts| - 1])
  }

  ghost predicate Made(s: Session) {
    Allocated(s.layout.regions, s.layout.clients, s.first, s.barriers, s.keyFor, Demand(s.layout))
  }

  lemma MadeIds(s: Session, a: nat)
    requires Made(s) && a < |s.barriers|
    ensures s.barriers[a].id == s.first + a
    ensures forall id :: id in s.keyFor <==> s.first <= id < s.first + |s.barriers|
  {
    assert Belongs(s.layout.regions, s.layout.clients, s.barriers[a], a, s.first);
  }

  function Ends(s: Session): nat {
    s.first + |s.barriers|
  }

  /** Each session has its barriers allocated from where the one before stopped,
      the first from 1; the next one would start at `next`. */
  ghost predicate Chained(sessions: seq<Session>, next: nat) {
    if sessions == [] then next == 1
    else
      var s := sessions[|sessions| - 1];
      Made(s) && Ends(s) == next && Chained(sessions[..|sessions| - 1], s.first)
  }

  lemma {:induction false} ChainedAt(sessions: seq<Session>, next: nat, i: nat)
    requires Chained(sessions, next) && i < |sessions|
    ensures Made(sessions[i]) && Ends(sessions[i]) <= next
    decreases |sessions|
  {
    var n := |sessions| - 1;
    if i < n { ChainedAt(sessions[..n], sessions[n].first, i); }
  }

  lemma {:induction false} LaterStartsAfter(sessions: seq<Session>, next: nat, i: nat, j: nat)
    requires Chained(sessions, next) && i < j < |sessions|
    ensures Ends(sessions[i]) <= sessions[j].first
    decreases |sessions|
  {
    var n := |sessions| - 1;
    if j < n {
      LaterStartsAfter(sessions[..n], sessions[n].first, i, j);
    } else {
      ChainedAt(sessions[..n], sessions[n].first, i);
    }
  }

  /** No barrier of one session has the id of a barrier of a later one, and a late
      activation of an old barrier finds nothing under its id. */
  lemma IdsNeverReused(sessions: seq<Session>, next: nat, i: nat, j: nat, a: nat, b: nat)
    requires Chained(sessions, next) && i < j < |sessions| && a < |sessions[i].barriers|
    ensures sessions[i].barriers[a].id !in sessions[j].keyFor
    ensures b < |sessions[j].barriers| ==> sessions[i].barriers[a].id != sessions[j].barriers[b].id
  {
    LaterStartsAfter(sessions, next, i, j);
    ChainedAt(sessions, next, i);
    ChainedAt(sessions, next, j);
    MadeIds(sessions[i], a);
    if sessions[j].barriers != [] { MadeIds(sessions[j], 0); }
    if b < |sessions[j].barriers| { MadeIds(sessions[j], b); }
  }

  lemma {:induction false} TotalGrows(layouts: seq<Layout>, n: nat)
    requires n <= |layouts|
    ensures Total(layouts[..n]) <= Total(layouts)
    decreases |layouts| - n
  {
    if n < |layouts| {
      assert layouts[..n + 1][..n] == layouts[..n];
      TotalGrows(layouts, n + 1);
    } else {
      assert layouts[..n] == layouts;
    }
  }

  /** One session after the other, for as long as the ids last. */
  method DoCapture(layouts: seq<Layout>) returns (ok: bool, sessions: seq<Session>, next: nat)
    ensures Chained(sessions, next)
    ensures ok <==> Total(layouts) < U32_MAX
    ensures ok ==> |sessions| == |layouts| && forall i :: 0 <= i < |layouts| ==> sessions[i].layout == layouts[i]
  {
    sessions, next := [], 1;
    for i := 0 to |layouts|
      invariant |sessions| == i && forall k :: 0 <= k < i ==> sessions[k].layout == layouts[k]
      invariant Chained(sessions, next) && next == 1 + Total(layouts[..i]) <= U32_MAX
    {
      var l := layouts[i];
      assert layouts[..i + 1][..i] == layouts[..i];
      var fits, barriers, keyFor, next' := SelectBarriers(l.regions, l.clients, next);
      TotalGrows(layouts, i + 1);
      if !fits { return false, sessions, next; }
      var s := Session(l, next, barriers, keyFor);
      assert (sessions + [s])[..i] == sessions;
      sessions, next := sessions + [s], next';
    }
    assert layouts[..|layouts|] == layouts;
    ok := true;
  }

  // ----- activation -----

  /** The first barrier nearest to the cursor. */
  method FindCorrespondingClient(barriers: seq<Barrier>, distance: Line -> int) returns (id: nat, at: nat)
    requires barriers != []
    ensures at < |barriers| && id == barriers[at].id
    ensures forall i :: 0 <= i < |barriers| ==> distance(barriers[at].line) <= distance(barriers[i].line)
    ensures forall i :: 0 <= i < at ==> distance(barriers[at].line) < distance(barriers[i].line)
  {
    at := 0;
    for n := 1 to |barriers|
      invariant at < n
      invariant forall i :: 0 <= i < n ==> distance(barriers[at].line) <= distance(barriers[i].line)
      invariant forall i :: 0 <= i < at ==> distance(barriers[at].line) < distance(barriers[i].line)
    {
      if distance(barriers[n].line) < distance(barriers[at].line) { at := n; }
    }
    id := barriers[at].id;
  }

  /** Whatever id the compositor reports, or none, the activation resolves to the
      full key of a client: the one the id was allocated for or, if it was not
      allocated in this session, the one with the nearest barrier. */
  method Activate(regions: seq<Region>, clients: seq<BarrierKey>, first: nat, barriers: seq<Barrier>,
                  keyFor: map<nat, BarrierKey>, reported: Option<nat>, distance: Line -> int)
    returns (key: BarrierKey, at: nat)
    requires barriers != [] && Allocated(regions, clients, first, barriers, keyFor, |barriers|)
    ensures at < |barriers| && at / |regions| < |clients| && key == clients[at / |regions|]
    ensures reported.Some? && first <= reported.value < first + |barriers| ==> at == reported.value - first
    ensures !(reported.Some? && first <= reported.value < first + |barriers|) ==>
              forall i :: 0 <= i < |barriers| ==> distance(barriers[at].line) <= distance(barriers[i].line)
  {
    var id: nat;
    if reported.Some? {
      id := reported.value;
    } else {
      id, at := FindCorrespondingClient(barriers, distance);
    }
    if id in keyFor {
      at := id - first;
    } else {
      id, at := FindCorrespondingClient(barriers, distance);
    }
    assert Belongs(regions, clients, barriers[at], at, first);
    key := keyFor[id];
  }
}
