/** Value types shared by the layout store and its callers: 3-vectors, the container,
    design elements and the partial objects that are spread over them. */
module Geometry {

  datatype Option<T> = None | Some(value: T)

  /** Math.PI, kept symbolic. Proofs use only that it lies in this interval. */
  type PiValue = r: real | 3.14159 < r < 3.14160 witness 3.141592
  const PI: PiValue

  datatype Axis = X | Y | Z

  /** A JavaScript triple `[x, y, z]` (positions, sizes and Euler angles). */
  datatype Vec3 = Vec3(x: real, y: real, z: real) {
    /** `v[i]` for an index 0, 1 or 2. */
    function At(i: nat): real
      requires i < 3
    {
      if i == 0 then x else if i == 1 then y else z
    }

    /** The component along one axis. */
    function Coord(a: Axis): real {
      match a
      case X => x
      case Y => y
      case Z => z
    }
  }

  const Origin: Vec3 := Vec3(0.0, 0.0, 0.0)

  function Abs(r: real): real {
    if r < 0.0 then -r else r
  }

  /** JavaScript `Math.round`: the nearest integer, halves rounded toward +infinity. */
  function Round(r: real): (k: int)
    ensures r - 0.5 < k as real <= r + 0.5
  {
    (r + 0.5).Floor
  }

  /** Rounding an integer gives it back. */
  lemma RoundOfInteger(k: int)
    ensures Round(k as real) == k
  {
  }

  /** The container: a box centred on the origin in X and Z, floor at Y = 0. */
  datatype Container = Container(length: real, width: real, height: real, material: string)

  /** One placed element. The source's `type` key is called `kind` here. */
  datatype Element = Element(
    id: int,
    kind: string,
    position: Vec3,
    size: Vec3,
    rotation: Vec3,
    isOpen: bool,
    material: string,
    color: string,
    dragging: bool)

  /** The partial object given to `updateElement`; `None` is an absent key. */
  datatype Patch = Patch(
    id: Option<int>,
    kind: Option<string>,
    position: Option<Vec3>,
    size: Option<Vec3>,
    rotation: Option<Vec3>,
    isOpen: Option<bool>,
    material: Option<string>,
    color: Option<string>,
    dragging: Option<bool>)

  const EmptyPatch: Patch := Patch(None, None, None, None, None, None, None, None, None)

  function PositionPatch(p: Vec3): Patch {
    EmptyPatch.(position := Some(p))
  }

  function DraggingPatch(b: bool): Patch {
    EmptyPatch.(dragging := Some(b))
  }

  function RotationPatch(r: Vec3): Patch {
    EmptyPatch.(rotation := Some(r))
  }

  /** The value of a key after a spread: the patch's value when present. */
  function Override<T>(later: Option<T>, earlier: T): T {
    match later
    case Some(v) => v
    case None => earlier
  }

  /** `{ ...e, ...u }` */
  function Merge(e: Element, u: Patch): Element {
    Element(
      Override(u.id, e.id),
      Override(u.kind, e.kind),
      Override(u.position, e.position),
      Override(u.size, e.size),
      Override(u.rotation, e.rotation),
      Override(u.isOpen, e.isOpen),
      Override(u.material, e.material),
      Override(u.color, e.color),
      Override(u.dragging, e.dragging))
  }

  function OverrideOption<T>(later: Option<T>, earlier: Option<T>): Option<T> {
    if later.Some? then later else earlier
  }

  /** `{ ...u, ...v }`: the patch whose keys are those of both, `v` winning. */
  function Combine(u: Patch, v: Patch): Patch {
    Patch(
      OverrideOption(v.id, u.id),
      OverrideOption(v.kind, u.kind),
      OverrideOption(v.position, u.position),
      OverrideOption(v.size, u.size),
      OverrideOption(v.rotation, u.rotation),
      OverrideOption(v.isOpen, u.isOpen),
      OverrideOption(v.material, u.material),
      OverrideOption(v.color, u.color),
      OverrideOption(v.dragging, u.dragging))
  }

  /** Spreading two patches in turn is spreading their combination. */
  lemma MergeCombine(e: Element, u: Patch, v: Patch)
    ensures Merge(Merge(e, u), v) == Merge(e, Combine(u, v))
  {
  }

  /** Spreading the same patch twice has the effect of spreading it once. */
  lemma MergeIdempotent(e: Element, u: Patch)
    ensures Merge(Merge(e, u), u) == Merge(e, u)
  {
  }

  /** The partial object given to `setContainerDimensions`. */
  datatype ContainerPatch = ContainerPatch(
    length: Option<real>,
    width: Option<real>,
    height: Option<real>,
    material: Option<string>)

  /** `{ ...c, ...d }` */
  function MergeContainer(c: Container, d: ContainerPatch): Container {
    Container(
      Override(d.length, c.length),
      Override(d.width, c.width),
      Override(d.height, c.height),
      Override(d.material, c.material))
  }

  /** Concatenation is associative. */
  lemma AppendAssoc<T>(a: seq<T>, b: seq<T>, c: seq<T>)
    ensures a + b + c == a + (b + c)
  {
  }
}
