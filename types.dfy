/** The value types shared by the cube: its six faces, the wisdom card shown
    on each face, and the optional value used where the application holds
    `null`. */
module Types {

  datatype Option<+T> = None | Some(value: T)

  /** The six sides of the cube, declared in the order the application
      enumerates them. */
  datatype Face = Front | Back | Right | Left | Top | Bottom

  /** The enumeration order Front, Back, Right, Left, Top, Bottom: the order of
      the catalogue and the order in which the scores are scanned. */
  const FaceOrder: seq<Face> := [Front, Back, Right, Left, Top, Bottom]

  /** Position of a face in FaceOrder. */
  function Index(f: Face): (i: nat)
    ensures i < |FaceOrder| && FaceOrder[i] == f
  {
    match f
    case Front => 0
    case Back => 1
    case Right => 2
    case Left => 3
    case Top => 4
    case Bottom => 5
  }

  /** Every face occurs in FaceOrder exactly once. */
  lemma FaceOrderIsEnumeration()
    ensures |FaceOrder| == 6
    ensures forall i :: 0 <= i < |FaceOrder| ==> Index(FaceOrder[i]) == i
    ensures forall f: Face :: f in FaceOrder
  {
    forall f: Face ensures f in FaceOrder {
      assert FaceOrder[Index(f)] == f;
    }
  }

  /** A card of static content, attached to one face (its long detail text
      and code sample, which only the display reads, are not modelled). */
  datatype Wisdom = Wisdom(
    id: nat,
    face: Face,
    title: string,
    summary: string,
    color: string,
    iconName: string)

  /** An orientation in degrees: x is the pitch, y the yaw; neither is
      wrapped. */
  datatype Rotation = Rotation(x: real, y: real)

  /** A pointer position in pixels. */
  datatype Point = Point(x: real, y: real)
}
