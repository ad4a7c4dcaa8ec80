/** The store's placement rules: `validatePosition` (container bounds and overlap with
    the other elements) and `validateRotation` (angle range, door constraints). */
module Validator {
  import opened Geometry
  import opened ElementList

  /** Distance kept from every wall, the floor and the ceiling. */
  const WALL_MARGIN: real := 0.05

  /** A box of full extents `size` centred at `p` stays inside the container less the
      margin. As in the store, the ceiling is taken at half the container height. */
  predicate InBounds(c: Container, p: Vec3, size: Vec3) {
    && -c.length / 2.0 + WALL_MARGIN <= p.x - size.x / 2.0
    && p.x + size.x / 2.0 <= c.length / 2.0 - WALL_MARGIN
    && 0.0 + WALL_MARGIN <= p.y - size.y / 2.0
    && p.y + size.y / 2.0 <= c.height / 2.0 - WALL_MARGIN
    && -c.width / 2.0 + WALL_MARGIN <= p.z - size.z / 2.0
    && p.z + size.z / 2.0 <= c.width / 2.0 - WALL_MARGIN
  }

  /** Two boxes overlap when their centres are closer than the half-sum of their extents
      on all three axes; boxes that only touch do not. */
  predicate Overlaps(p: Vec3, s: Vec3, q: Vec3, t: Vec3) {
    && Abs(p.x - q.x) < (s.x + t.x) / 2.0
    && Abs(p.y - q.y) < (s.y + t.y) / 2.0
    && Abs(p.z - q.z) < (s.z + t.z) / 2.0
  }

  /** Placing the element with this id at `p` is admitted: the element exists, its box
      fits, and no element carrying another id overlaps it. */
  predicate PositionValid(c: Container, els: seq<Element>, id: int, p: Vec3) {
    match Lookup(els, id)
    case None => false
    case Some(e) =>
      && InBounds(c, p, e.size)
      && forall j :: 0 <= j < |els| && els[j].id != id ==> !Overlaps(p, e.size, els[j].position, els[j].size)
  }

  /** An id that names no element is never admitted. */
  lemma UnknownIdRejected(c: Container, els: seq<Element>, id: int, p: Vec3)
    requires forall e :: e in els ==> e.id != id
    ensures !PositionValid(c, els, id, p)
  {
  }

  /** An admitted position keeps the element's box inside the bounds on each axis. */
  lemma AcceptedWithinBounds(c: Container, els: seq<Element>, id: int, p: Vec3)
    requires PositionValid(c, els, id, p)
    ensures Lookup(els, id).Some?
    ensures var s := Lookup(els, id).value.size;
      && -c.length / 2.0 + 0.05 <= p.x - s.x / 2.0 && p.x + s.x / 2.0 <= c.length / 2.0 - 0.05
      && 0.05 <= p.y - s.y / 2.0 && p.y + s.y / 2.0 <= c.height / 2.0 - 0.05
      && -c.width / 2.0 + 0.05 <= p.z - s.z / 2.0 && p.z + s.z / 2.0 <= c.width / 2.0 - 0.05
  {
  }

  /** At an admitted position every other element is separated from the moved one on at
      least one axis; elements with the moved element's own id are not compared. */
  lemma AcceptedSeparated(c: Container, els: seq<Element>, id: int, p: Vec3, j: nat)
    requires PositionValid(c, els, id, p)
    requires j < |els| && els[j].id != id
    ensures var s, q, t := Lookup(els, id).value.size, els[j].position, els[j].size;
      || Abs(p.x - q.x) >= (s.x + t.x) / 2.0
      || Abs(p.y - q.y) >= (s.y + t.y) / 2.0
      || Abs(p.z - q.z) >= (s.z + t.z) / 2.0
  {
  }

  /** Boxes that touch along one axis (centre distance equal to the half-sum) do not overlap. */
  lemma TouchingIsNotOverlap(p: Vec3, s: Vec3, q: Vec3, t: Vec3, a: Axis)
    requires Abs(p.Coord(a) - q.Coord(a)) == (s.Coord(a) + t.Coord(a)) / 2.0
    ensures !Overlaps(p, s, q, t)
  {
  }

  lemma OverlapsSymmetric(p: Vec3, s: Vec3, q: Vec3, t: Vec3)
    ensures Overlaps(p, s, q, t) == Overlaps(q, t, p, s)
  {
    assert Abs(p.x - q.x) == Abs(q.x - p.x);
    assert Abs(p.y - q.y) == Abs(q.y - p.y);
    assert Abs(p.z - q.z) == Abs(q.z - p.z);
  }

  /** Two sequences that agree on ids and sizes everywhere, and on positions wherever the
      id differs from `id`. */
  ghost predicate SameFootprintsBut(a: seq<Element>, b: seq<Element>, id: int) {
    && |a| == |b|
    && forall i :: 0 <= i < |a| ==>
      a[i].id == b[i].id && a[i].size == b[i].size && (a[i].id != id ==> a[i].position == b[i].position)
  }

  /** Whether a position is admitted does not depend on the element's own stored position,
      nor on anything but ids, sizes and the other elements' positions. */
  lemma PositionValidFootprints(c: Container, a: seq<Element>, b: seq<Element>, id: int, p: Vec3)
    requires SameFootprintsBut(a, b, id)
    ensures PositionValid(c, a, id, p) == PositionValid(c, b, id, p)
  {
    FindIndexByIds(a, b, id);
  }

  /** No element has the same id as another. */
  ghost predicate UniqueIds(els: seq<Element>) {
    forall i, j :: 0 <= i < j < |els| ==> els[i].id != els[j].id
  }

  /** The layout the design asks for: every element inside the bounds, no two overlapping. */
  ghost predicate LegalLayout(c: Container, els: seq<Element>) {
    && (forall i :: 0 <= i < |els| ==> InBounds(c, els[i].position, els[i].size))
    && (forall i, j :: 0 <= i < |els| && 0 <= j < |els| && i != j ==>
          !Overlaps(els[i].position, els[i].size, els[j].position, els[j].size))
  }

  /** With unique ids, moving an element to an admitted position keeps a legal layout legal. */
  lemma MovePreservesLegalLayout(c: Container, els: seq<Element>, id: int, p: Vec3)
    requires UniqueIds(els) && LegalLayout(c, els)
    requires PositionValid(c, els, id, p)
    ensures LegalLayout(c, MoveAll(els, id, p))
  {
    var k := FindIndex(els, id).value;
    var r := MoveAll(els, id, p);
    assert forall i :: 0 <= i < |els| && i != k ==> els[i].id != id by {
      forall i | 0 <= i < |els| && i != k ensures els[i].id != id {
        if i < k {
        } else {
          assert els[k].id != els[i].id;
        }
      }
    }
    forall i, j | 0 <= i < |r| && 0 <= j < |r| && i != j
      ensures !Overlaps(r[i].position, r[i].size, r[j].position, r[j].size)
    {
      if j == k {
        OverlapsSymmetric(r[i].position, r[i].size, r[j].position, r[j].size);
      }
    }
  }

  /** Because the ceiling is taken at half the height, an element taller than that less
      twice the margin has no admitted position at all. */
  lemma TallElementNeverPlaced(c: Container, els: seq<Element>, id: int, p: Vec3)
    requires Lookup(els, id).Some? && Lookup(els, id).value.size.y > c.height / 2.0 - 2.0 * WALL_MARGIN
    ensures !PositionValid(c, els, id, p)
  {
  }

  /** In the 6 x 2.5 x 3 container a 0.9-wide element centred at x = 2.9 reaches 3.35 and is
      rejected (the +X bound is 2.95). */
  lemma PastTheWallRejected(e: Element)
    requires e.position == Vec3(2.9, 1.0, 0.0) && e.size == Vec3(0.9, 2.0, 0.1)
    ensures !PositionValid(Container(6.0, 2.5, 3.0, "metal"), [e], e.id, e.position)
  {
  }

  // ---------------------------------------------------------------- rotation

  /** The generic range every Euler angle must lie in: [-2 PI, 2 PI]. */
  predicate AngleInRange(a: real) {
    -2.0 * PI <= a <= 2.0 * PI
  }

  /** Threshold within which a door's Y angle counts as open. */
  const OPEN_TOLERANCE: real := 0.1

  /** An open door, taken at its current position, does not swing past the X walls. */
  predicate DoorClearance(c: Container, e: Element) {
    && e.position.x + e.size.x / 2.0 <= c.length / 2.0 - WALL_MARGIN
    && e.position.x - e.size.x / 2.0 >= -c.length / 2.0 + WALL_MARGIN
  }

  /** The door-only rules: rotation about Y alone, between closed and a quarter turn, and
      clearance when (nearly) open. */
  predicate DoorRotationAllowed(c: Container, e: Element, r: Vec3) {
    && r.x == 0.0 && r.z == 0.0
    && 0.0 <= r.y <= PI / 2.0
    && (Abs(r.y - PI / 2.0) < OPEN_TOLERANCE ==> DoorClearance(c, e))
  }

  /** Rotating the element with this id to `r` is admitted. */
  predicate RotationValid(c: Container, els: seq<Element>, id: int, r: Vec3) {
    match Lookup(els, id)
    case None => false
    case Some(e) =>
      && (forall i :: 0 <= i < 3 ==> AngleInRange(r.At(i)))
      && (e.kind == "door" ==> DoorRotationAllowed(c, e, r))
  }

  /** For an element that is not a door only the range check applies. */
  lemma NonDoorRangeOnly(c: Container, els: seq<Element>, id: int, r: Vec3)
    requires Lookup(els, id).Some? && Lookup(els, id).value.kind != "door"
    ensures RotationValid(c, els, id, r) <==> AngleInRange(r.x) && AngleInRange(r.y) && AngleInRange(r.z)
  {
    assert r.At(0) == r.x && r.At(1) == r.y && r.At(2) == r.z;
  }

  /** Any admitted rotation is in range; an admitted door rotation turns about Y only,
      by an angle in [0, PI/2]. */
  lemma AcceptedRotation(c: Container, els: seq<Element>, id: int, r: Vec3)
    requires RotationValid(c, els, id, r)
    ensures Lookup(els, id).Some?
    ensures AngleInRange(r.x) && AngleInRange(r.y) && AngleInRange(r.z)
    ensures Lookup(els, id).value.kind == "door" ==> r.x == 0.0 && r.z == 0.0 && 0.0 <= r.y <= PI / 2.0
  {
    assert r.At(0) == r.x && r.At(1) == r.y && r.At(2) == r.z;
  }

  /** A door turned to (nearly) a quarter turn is admitted exactly when its current
      position leaves room on both X sides. */
  lemma OpenDoorNeedsClearance(c: Container, els: seq<Element>, id: int, y: real)
    requires Lookup(els, id).Some? && Lookup(els, id).value.kind == "door"
    requires 0.0 <= y <= PI / 2.0 && Abs(y - PI / 2.0) < OPEN_TOLERANCE
    ensures RotationValid(c, els, id, Vec3(0.0, y, 0.0)) <==> DoorClearance(c, Lookup(els, id).value)
  {
    var r := Vec3(0.0, y, 0.0);
    assert r.At(0) == 0.0 && r.At(1) == y && r.At(2) == 0.0;
  }

  /** The closed rotation [0, 0, 0] is admitted for every element, door or not. */
  lemma ClosedRotationAlwaysValid(c: Container, els: seq<Element>, id: int)
    requires Lookup(els, id).Some?
    ensures RotationValid(c, els, id, Origin)
  {
    assert Origin.At(0) == 0.0 && Origin.At(1) == 0.0 && Origin.At(2) == 0.0;
  }
}
