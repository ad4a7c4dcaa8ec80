/** The design-state store: the container, the ordered element list, the selection and
    the snap settings, with the mutators that replace them and the read-only rules
    (validation, snapping, alignment guides) evaluated over the current state. */
module DesignStore {
  import opened Geometry
  import opened ElementList
  import Validator
  import Snapping
  import Alignment

  /** The store's `materials` and `colors` lists. */
  const MATERIALS: seq<string> := ["wood", "metal", "plastic", "glass", "concrete", "fabric"]
  const COLORS: seq<string> := ["#ffffff", "#000000", "#ff0000", "#00ff00", "#0000ff"]

  /** The object handed to `addElement`. */
  datatype ElementDraft = ElementDraft(kind: string, position: Vec3, size: Vec3, material: string, color: string)

  /** `{ ...draft, id, rotation: [0, 0, 0], isOpen: false }`. A draft has no `dragging`
      key; the absent key reads as false. */
  function Instantiate(d: ElementDraft, id: int): Element {
    Element(id, d.kind, d.position, d.size, Origin, false, d.material, d.color, false)
  }

  /** The snapshot `exportDesign` serialises: the container and the elements only. */
  datatype Design = Design(container: Container, elements: seq<Element>)

  /** The four snapping preferences, grouped so that contracts can say they are kept. */
  datatype SnapSettings = SnapSettings(snapToGrid: bool, gridSize: real, snapToRotation: bool, rotationSnapAngle: real)

  /** One `if (Math.abs(coord - value) < threshold) guides.push(...)` of `getAlignmentGuides`. */
  method PushIfNear(guides: seq<Alignment.Guide>, coord: real, axis: Axis, value: real, kind: Alignment.GuideKind)
    returns (r: seq<Alignment.Guide>)
    ensures r == guides + Alignment.GuideIfNear(coord, axis, value, kind)
  {
    r := guides;
    if Abs(coord - value) < Alignment.GUIDE_THRESHOLD {
      r := r + [Alignment.Guide(axis, value, kind)];
    }
  }

  /** The four wall pushes and the floor push `getAlignmentGuides` starts with. */
  method PushWallGuides(c: Container, size: Vec3, p: Vec3) returns (r: seq<Alignment.Guide>)
    ensures r == Alignment.WallGuides(c, size, p)
  {
    r := PushIfNear([], p.x, X, c.length / 2.0 - size.x / 2.0, Alignment.Wall);
    assert r == Alignment.GuideIfNear(p.x, X, c.length / 2.0 - size.x / 2.0, Alignment.Wall);
    r := PushIfNear(r, p.x, X, -c.length / 2.0 + size.x / 2.0, Alignment.Wall);
    r := PushIfNear(r, p.z, Z, c.width / 2.0 - size.z / 2.0, Alignment.Wall);
    r := PushIfNear(r, p.z, Z, -c.width / 2.0 + size.z / 2.0, Alignment.Wall);
    r := PushIfNear(r, p.y, Y, size.y / 2.0, Alignment.Floor);
  }

  /** The three pushes `getAlignmentGuides` makes for one other element. */
  method PushGuidesTo(guides: seq<Alignment.Guide>, other: Element, p: Vec3) returns (r: seq<Alignment.Guide>)
    ensures r == guides + Alignment.GuidesTo(other, p)
  {
    r := PushIfNear(guides, p.x, X, other.position.x, Alignment.ElementLine);
    r := PushIfNear(r, p.y, Y, other.position.y, Alignment.ElementLine);
    r := PushIfNear(r, p.z, Z, other.position.z, Alignment.ElementLine);
  }

  class Store {
    var container: Container
    var elements: seq<Element>
    var selectedElement: Option<int>
    var snapToGrid: bool
    var gridSize: real
    var snapToRotation: bool
    var rotationSnapAngle: real

    function Settings(): SnapSettings
      reads this
    {
      SnapSettings(snapToGrid, gridSize, snapToRotation, rotationSnapAngle)
    }

    /** The initial state: a 6 x 2.5 x 3 metal container, no elements, grid snapping on
        at 0.1, rotation snapping off at a quarter turn. */
    constructor ()
      ensures container == Container(6.0, 2.5, 3.0, "metal")
      ensures elements == [] && selectedElement == None
      ensures Settings() == SnapSettings(true, 0.1, false, PI / 2.0)
    {
      container := Container(6.0, 2.5, 3.0, "metal");
      elements := [];
      selectedElement := None;
      snapToGrid := true;
      gridSize := 0.1;
      snapToRotation := false;
      rotationSnapAngle := PI / 2.0;
    }

    /** `setContainerDimensions`: the given keys replace the container's, the rest stay. */
    method SetContainerDimensions(d: ContainerPatch)
      modifies this
      ensures container == MergeContainer(old(container), d)
      ensures d.length.None? ==> container.length == old(container.length)
      ensures d.width.None? ==> container.width == old(container.width)
      ensures d.height.None? ==> container.height == old(container.height)
      ensures d.material.None? ==> container.material == old(container.material)
      ensures elements == old(elements) && selectedElement == old(selectedElement)
      ensures Settings() == old(Settings())
    {
      container := MergeContainer(container, d);
    }

    /** `setContainerMaterial`: only the container's material changes. */
    method SetContainerMaterial(material: string)
      modifies this
      ensures container == old(container).(material := material)
      ensures elements == old(elements) && selectedElement == old(selectedElement)
      ensures Settings() == old(Settings())
    {
      container := container.(material := material);
    }

    /** `addElement`: exactly one element is appended, carrying the given id, the draft's
        fields, rotation [0, 0, 0] and isOpen false; the earlier elements are untouched.
        The id stands for the source's `Date.now()`. */
    method AddElement(draft: ElementDraft, id: int)
      modifies this
      ensures elements == old(elements) + [Instantiate(draft, id)]
      ensures |elements| == |old(elements)| + 1 && elements[..|old(elements)|] == old(elements)
      ensures var e := elements[|elements| - 1];
        e.id == id && e.kind == draft.kind && e.position == draft.position && e.size == draft.size
        && e.rotation == Origin && !e.isOpen
      ensures container == old(container) && selectedElement == old(selectedElement)
      ensures Settings() == old(Settings())
    {
      elements := elements + [Instantiate(draft, id)];
    }

    /** `removeElement`: every element with this id is dropped, the rest keep their order. */
    method RemoveElement(id: int)
      modifies this
      ensures elements == RemoveId(old(elements), id)
      ensures container == old(container) && selectedElement == old(selectedElement)
      ensures Settings() == old(Settings())
    {
      elements := RemoveId(elements, id);
    }

    /** `updateElement`: the patch is spread over every element with this id. */
    method UpdateElement(id: int, u: Patch)
      modifies this
      ensures elements == UpdateAll(old(elements), id, u)
      ensures container == old(container) && selectedElement == old(selectedElement)
      ensures Settings() == old(Settings())
    {
      elements := UpdateAll(elements, id, u);
    }

    /** `selectElement`: only the selection changes (`None` is null). */
    method SelectElement(id: Option<int>)
      modifies this
      ensures selectedElement == id
      ensures container == old(container) && elements == old(elements)
      ensures Settings() == old(Settings())
    {
      selectedElement := id;
    }

    /** `moveElement`: every element with this id gets the new position, nothing else. */
    method MoveElement(id: int, p: Vec3)
      modifies this
      ensures elements == MoveAll(old(elements), id, p)
      ensures container == old(container) && selectedElement == old(selectedElement)
      ensures Settings() == old(Settings())
    {
      elements := MoveAll(elements, id, p);
    }

    /** `exportDesign`, without the JSON text: the container and the elements, and neither
        the selection nor the snap settings. */
    function ExportDesign(): (d: Design)
      reads this
      ensures d.container == container && d.elements == elements
    {
      Design(container, elements)
    }

    /** `toggleSnapToGrid`: the flag is negated, so two calls restore it. */
    method ToggleSnapToGrid()
      modifies this
      ensures snapToGrid == !old(snapToGrid)
      ensures gridSize == old(gridSize) && snapToRotation == old(snapToRotation)
      ensures rotationSnapAngle == old(rotationSnapAngle)
      ensures container == old(container) && elements == old(elements) && selectedElement == old(selectedElement)
    {
      snapToGrid := !snapToGrid;
    }

    /** `setGridSize` */
    method SetGridSize(size: real)
      modifies this
      ensures Settings() == old(Settings()).(gridSize := size)
      ensures container == old(container) && elements == old(elements) && selectedElement == old(selectedElement)
    {
      gridSize := size;
    }

    /** `toggleSnapToRotation`: the flag is negated, so two calls restore it. */
    method ToggleSnapToRotation()
      modifies this
      ensures snapToRotation == !old(snapToRotation)
      ensures snapToGrid == old(snapToGrid) && gridSize == old(gridSize)
      ensures rotationSnapAngle == old(rotationSnapAngle)
      ensures container == old(container) && elements == old(elements) && selectedElement == old(selectedElement)
    {
      snapToRotation := !snapToRotation;
    }

    /** `setRotationSnapAngle` */
    method SetRotationSnapAngle(angle: real)
      modifies this
      ensures Settings() == old(Settings()).(rotationSnapAngle := angle)
      ensures container == old(container) && elements == old(elements) && selectedElement == old(selectedElement)
    {
      rotationSnapAngle := angle;
    }

    /** `validatePosition`: look the element up, check the six bounds, then scan every
        element with another id for an overlap, stopping at the first one. */
    method ValidatePosition(id: int, p: Vec3) returns (ok: bool)
      ensures ok == Validator.PositionValid(container, elements, id, p)
    {
      var found := Lookup(elements, id);
      if found.None? {
        return false;
      }
      var element := found.value;
      var halfLength := container.length / 2.0;
      var halfWidth := container.width / 2.0;
      var halfHeight := container.height / 2.0;
      var margin := 0.05;
      if || p.x - element.size.x / 2.0 < -halfLength + margin
         || p.x + element.size.x / 2.0 > halfLength - margin
         || p.y - element.size.y / 2.0 < 0.0 + margin
         || p.y + element.size.y / 2.0 > halfHeight - margin
         || p.z - element.size.z / 2.0 < -halfWidth + margin
         || p.z + element.size.z / 2.0 > halfWidth - margin
      {
        return false;
      }
      for i := 0 to |elements|
        invariant forall j :: 0 <= j < i && elements[j].id != id ==>
          !Validator.Overlaps(p, element.size, elements[j].position, elements[j].size)
      {
        var other := elements[i];
        if other.id == id {
          continue;
        }
        if && Abs(p.x - other.position.x) < (element.size.x + other.size.x) / 2.0
           && Abs(p.y - other.position.y) < (element.size.y + other.size.y) / 2.0
           && Abs(p.z - other.position.z) < (element.size.z + other.size.z) / 2.0
        {
          return false;
        }
      }
      return true;
    }

    /** `validateRotation`: look the element up, range-check the three angles in turn,
        then apply the door rules. */
    method ValidateRotation(id: int, r: Vec3) returns (ok: bool)
      ensures ok == Validator.RotationValid(container, elements, id, r)
    {
      var found := Lookup(elements, id);
      if found.None? {
        return false;
      }
      var element := found.value;
      for i := 0 to 3
        invariant forall k :: 0 <= k < i ==> Validator.AngleInRange(r.At(k))
      {
        if r.At(i) < -2.0 * PI || r.At(i) > 2.0 * PI {
          return false;
        }
      }
      if element.kind == "door" {
        if r.x != 0.0 || r.z != 0.0 {
          return false;
        }
        if r.y < 0.0 || r.y > PI / 2.0 {
          return false;
        }
        var doorWidth := element.size.x;
        if Abs(r.y - PI / 2.0) < 0.1 {
          var protrusion := doorWidth / 2.0;
          if || element.position.x + protrusion > container.length / 2.0 - 0.05
             || element.position.x - protrusion < -container.length / 2.0 + 0.05
          {
            return false;
          }
        }
      }
      return true;
    }

    /** `snapPosition`: the input when grid snapping is off, else each coordinate rounded
        to a multiple of the grid size, at most half a grid step away. */
    method SnapPosition(p: Vec3) returns (q: Vec3)
      requires snapToGrid ==> gridSize != 0.0
      ensures q == Snapping.Snap(snapToGrid, gridSize, p)
      ensures !snapToGrid ==> q == p
      ensures snapToGrid ==> Snapping.OnGridVec(q, gridSize)
      ensures snapToGrid ==> Snapping.WithinEach(q, p, Abs(gridSize) / 2.0)
    {
      Snapping.SnapMeaning(snapToGrid, gridSize, p);
      if !snapToGrid {
        return p;
      }
      var g := gridSize;
      q := Vec3(Snapping.SnapCoord(p.x, g), Snapping.SnapCoord(p.y, g), Snapping.SnapCoord(p.z, g));
    }

    /** `snapRotation`: as `snapPosition`, with the rotation flag and angle. */
    method SnapRotation(r: Vec3) returns (q: Vec3)
      requires snapToRotation ==> rotationSnapAngle != 0.0
      ensures q == Snapping.Snap(snapToRotation, rotationSnapAngle, r)
      ensures !snapToRotation ==> q == r
      ensures snapToRotation ==> Snapping.OnGridVec(q, rotationSnapAngle)
      ensures snapToRotation ==> Snapping.WithinEach(q, r, Abs(rotationSnapAngle) / 2.0)
    {
      Snapping.SnapMeaning(snapToRotation, rotationSnapAngle, r);
      if !snapToRotation {
        return r;
      }
      var g := rotationSnapAngle;
      q := Vec3(Snapping.SnapCoord(r.x, g), Snapping.SnapCoord(r.y, g), Snapping.SnapCoord(r.z, g));
    }

    /** `getAlignmentGuides`: the wall and floor guides, then one pass over the elements
        pushing X, Y and Z guides for each element with another id. */
    method GetAlignmentGuides(id: int, p: Vec3) returns (guides: seq<Alignment.Guide>)
      ensures guides == Alignment.AlignmentGuides(container, elements, id, p)
    {
      var found := Lookup(elements, id);
      if found.None? {
        return [];
      }
      var element := found.value;
      guides := PushWallGuides(container, element.size, p);
      ghost var walls := guides;
      for i := 0 to |elements|
        invariant guides == walls + Alignment.ElementGuides(elements[..i], id, p)
      {
        var other := elements[i];
        ghost var earlier := Alignment.ElementGuides(elements[..i], id, p);
        Alignment.ElementGuidesSnoc(elements[..i + 1], id, p);
        assert elements[..i + 1][..i] == elements[..i];
        if other.id == id {
          assert earlier + [] == earlier;
          continue;
        }
        guides := PushGuidesTo(guides, other, p);
        AppendAssoc(walls, earlier, Alignment.GuidesTo(other, p));
      }
      assert elements[..|elements|] == elements;
      assert Alignment.AlignmentGuides(container, elements, id, p) == walls + Alignment.ElementGuides(elements, id, p);
    }
  }
}
