/** Barrier detection on a multi-display layout. */
module Geometry {
  import opened Types

  function FirstContaining(displays: seq<Display>, p: Point): (i: Option<nat>)
    ensures i.Some? ==> i.value < |displays| && displays[i.value].rect.Contains(p)
    ensures i.Some? ==> forall j :: 0 <= j < i.value ==> !displays[j].rect.Contains(p)
    ensures i.None? ==> forall d :: d in displays ==> !d.rect.Contains(p)
  {
    if displays == [] then None
    else if displays[0].rect.Contains(p) then Some(0)
    else
      match FirstContaining(displays[1..], p)
      case None => None
      case Some(i) => Some(i + 1)
  }

  predicate InRegion(displays: seq<Display>, p: Point) {
    exists d :: d in displays && d.rect.Contains(p)
  }

  predicate Beyond(r: Rect, p: Point, pos: Position) {
    match pos
    case Left => p.x < r.x
    case Right => p.x >= r.Right()
    case Top => p.y < r.y
    case Bottom => p.y >= r.Bottom()
  }

  function EdgesCrossed(r: Rect, p: Point): nat {
    (if Beyond(r, p, Left) then 1 else 0) + (if Beyond(r, p, Right) then 1 else 0)
    + (if Beyond(r, p, Top) then 1 else 0) + (if Beyond(r, p, Bottom) then 1 else 0)
  }

  function EdgeCrossed(r: Rect, p: Point): Option<Position> {
    if Beyond(r, p, Bottom) then Some(Bottom)
    else if Beyond(r, p, Top) then Some(Top)
    else if Beyond(r, p, Right) then Some(Right)
    else if Beyond(r, p, Left) then Some(Left)
    else None
  }

  predicate MovesTowards(prev: Point, curr: Point, pos: Position) {
    match pos
    case Left => curr.x < prev.x
    case Right => curr.x > prev.x
    case Top => curr.y < prev.y
    case Bottom => curr.y > prev.y
  }

  /** The barrier a motion from `prev` to `curr` enters: it must leave the
      union of all displays, over exactly one edge of the display it started
      on, moving in the direction of that edge. */
  function EnteredBarrier(prev: Point, curr: Point, displays: seq<Display>): Option<Position> {
    if !InRegion(displays, prev) || InRegion(displays, curr) then None
    else
      match FirstContaining(displays, prev)
      case None => None
      case Some(i) =>
        var r := displays[i].rect;
        if EdgesCrossed(r, curr) != 1 then None
        else
          match EdgeCrossed(r, curr)
          case None => None
          case Some(pos) => if MovesTowards(prev, curr, pos) then Some(pos) else None
  }

  /** The direction test never rejects: a motion fires for `pos` exactly when
      it leaves the union over that edge, and no other, of its display. */
  lemma EnteredBarrierExactly(prev: Point, curr: Point, displays: seq<Display>, pos: Position)
    ensures EnteredBarrier(prev, curr, displays) == Some(pos) <==>
            && !InRegion(displays, curr)
            && FirstContaining(displays, prev).Some?
            && (forall q :: Beyond(displays[FirstContaining(displays, prev).value].rect, curr, q) <==> q == pos)
  {
    match FirstContaining(displays, prev)
    case None => assert !InRegion(displays, prev);
    case Some(i) =>
      assert displays[i] in displays;
      var r := displays[i].rect;
      assert r.Contains(prev);
      if forall q :: Beyond(r, curr, q) <==> q == pos {
        assert Beyond(r, curr, pos);
        assert !Beyond(r, curr, pos.Opposite());
        assert forall q | q in {Left, Right, Top, Bottom} && q != pos :: !Beyond(r, curr, q);
        assert EdgesCrossed(r, curr) == 1;
      } else if EdgesCrossed(r, curr) == 1 {
        var q :| Beyond(r, curr, q) != (q == pos);
        assert Beyond(r, curr, q) ==> EdgeCrossed(r, curr) == Some(q);
        assert !Beyond(r, curr, q) ==> EdgeCrossed(r, curr) != Some(q);
      }
  }

  /** The registered barrier a motion crosses: the full-edge key of the
      monitor it started on, else the monitor-less key of that edge. */
  function Crossed(prev: Point, curr: Point, displays: seq<Display>, clients: set<BarrierKey>): (k: Option<BarrierKey>)
    ensures k.Some? ==> k.value in clients
    ensures k.Some? ==> EnteredBarrier(prev, curr, displays) == Some(k.value.pos)
  {
    match (EnteredBarrier(prev, curr, displays), FirstContaining(displays, prev))
    case (Some(pos), Some(i)) =>
      var key := BarrierKey(pos, displays[i].monitor, 0, 10000);
      if key in clients then Some(key)
      else if key.monitor.Some? && key.(monitor := None) in clients then Some(key.(monitor := None))
      else None
    case _ => None
  }

  /** The barrier of this motion: registered, on the side it leaves over, along
      the whole edge, and of the display it started on, or of no display while
      that display has none registered there. */
  predicate Crosses(prev: Point, curr: Point, displays: seq<Display>, clients: set<BarrierKey>, k: BarrierKey) {
    && k in clients && k.offset == 0 && k.span == 10000
    && EnteredBarrier(prev, curr, displays) == Some(k.pos)
    && FirstContaining(displays, prev).Some?
    && var monitor := displays[FirstContaining(displays, prev).value].monitor;
       || k.monitor == monitor
       || (k.monitor.None? && forall c :: c in clients && c.pos == k.pos && c.offset == 0 && c.span == 10000 ==> c.monitor != monitor)
  }

  /** The answer is that barrier, and None exactly when there is none. */
  lemma CrossedExactly(prev: Point, curr: Point, displays: seq<Display>, clients: set<BarrierKey>)
    ensures forall k :: Crossed(prev, curr, displays, clients) == Some(k) <==> Crosses(prev, curr, displays, clients, k)
    ensures Crossed(prev, curr, displays, clients).None? <==> forall k :: k in clients ==> !Crosses(prev, curr, displays, clients, k)
  {
    if EnteredBarrier(prev, curr, displays).Some? {
      var pos, i := EnteredBarrier(prev, curr, displays).value, FirstContaining(displays, prev).value;
      var key := BarrierKey(pos, displays[i].monitor, 0, 10000);
      forall k ensures Crossed(prev, curr, displays, clients) == Some(k) <==> Crosses(prev, curr, displays, clients, k) {
        if k.pos == pos && k.offset == 0 && k.span == 10000 && k.monitor == displays[i].monitor {
          assert k == key;
        }
      }
    }
  }

  /** Where the cursor is put back: one pixel inside the edge of the display it
      was on or, if that is gone, one pixel further out. */
  function WarpTarget(displays: seq<Display>, prev: Point, pos: Position): Point {
    match FirstContaining(displays, prev)
    case Some(i) =>
      var r := displays[i].rect;
      (match pos
       case Left => Point(r.x + 1.0, prev.y)
       case Right => Point(r.Right() - 1.0, prev.y)
       case Top => Point(prev.x, r.y + 1.0)
       case Bottom => Point(prev.x, r.Bottom() - 1.0))
    case None =>
      match pos
      case Left => Point(prev.x - 1.0, prev.y)
      case Right => Point(prev.x + 1.0, prev.y)
      case Top => Point(prev.x, prev.y - 1.0)
      case Bottom => Point(prev.x, prev.y + 1.0)
  }

  function Nudged(p: Point, pos: Position, step: real): Point {
    match pos
    case Left => Point(p.x - step, p.y)
    case Right => Point(p.x + step, p.y)
    case Top => Point(p.x, p.y - step)
    case Bottom => Point(p.x, p.y + step)
  }

  /** The cursor stays on its own display, wherever the others are, and leaves it
      exactly one pixel further out; a display of at most one pixel is the
      exception. */
  lemma WarpStaysOnDisplay(displays: seq<Display>, prev: Point, pos: Position, step: real)
    requires FirstContaining(displays, prev).Some? && step > 0.0
    ensures var r := displays[FirstContaining(displays, prev).value].rect;
            var warp := WarpTarget(displays, prev, pos);
            && (r.w > 1.0 && r.h > 1.0 ==>
                  && r.Contains(warp)
                  && (step < 1.0 ==> r.Contains(Nudged(warp, pos, step))) && (step > 1.0 ==> !r.Contains(Nudged(warp, pos, step))))
            && (if pos.Left? || pos.Right? then warp.y == prev.y else warp.x == prev.x)
  {
  }
}
