/** Vocabulary shared by the capture and emulation sides. */
module Types {

  datatype Option<+T> = None | Some(value: T)

  /** `order` lists the elements of a set, each once: an order in which a hash
      set yields them. */
  ghost predicate Lists<T(!new)>(order: seq<T>, elements: set<T>) {
    && (forall e :: e in order <==> e in elements)
    && (forall i, j :: 0 <= i < j < |order| ==> order[i] != order[j])
  }

  datatype Position = Left | Right | Top | Bottom {
    function Opposite(): Position {
      match this
      case Left => Right
      case Right => Left
      case Top => Bottom
      case Bottom => Top
    }
  }

  /** A barrier: an edge, the monitor it belongs to and a sub-range of the
      edge in 1/10000. */
  datatype BarrierKey = BarrierKey(pos: Position, monitor: Option<string>, offset: nat, span: nat)

  /** Capture handles are client handles, or, from `ENTER_HANDLE_BEGIN` on,
      the triggers a controlled machine installs for incoming connections. */
  type Handle = nat

  const ENTER_HANDLE_BEGIN: nat := 0x8000_0000_0000_0000

  type Scancode = nat

  const LAST_SCANCODE: nat := 249

  /** Key events carry a raw code; only codes up to `LAST_SCANCODE` name a key. */
  predicate IsScancode(key: nat) {
    key <= LAST_SCANCODE
  }

  datatype Event =
    | Key(key: nat, state: nat)
    | Modifiers(depressed: nat, latched: nat, locked: nat, group: nat)
    | Pointer(payload: int)

  datatype CaptureEvent =
    | Begin
    | BeginPending
    | CancelPending
    | Input(event: Event)

  /** What the capture task asks of its backend, and what the backend's own
      threads add to the same channel. */
  datatype ProducerEvent =
    | Release
    | Create(key: BarrierKey)
    | Destroy(key: BarrierKey)
    | Grab(key: BarrierKey)
    | StartCapture(key: BarrierKey)
    | CancelPendingRequest(key: BarrierKey)
    | EventTapDisabled
    | DisplayReconfigured(displays: seq<Display>)

  datatype Point = Point(x: real, y: real)

  datatype Rect = Rect(x: real, y: real, w: real, h: real) {
    function Right(): real { x + w }
    function Bottom(): real { y + h }

    /** Half-open containment. */
    predicate Contains(p: Point) {
      x <= p.x < Right() && y <= p.y < Bottom()
    }
  }

  datatype Display = Display(rect: Rect, monitor: Option<string>)
}
