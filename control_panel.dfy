/** The control panel's state-changing handlers: adding an element with its per-type
    defaults, the door open/close toggle, the rotation presets and the container
    dimension fields. */
module ControlPanel {
  import opened Geometry
  import opened ElementList
  import opened DesignStore
  import Validator

  /** The size, position, material and color `handleAddElement` picks for a type. */
  datatype Defaults = Defaults(size: Vec3, position: Vec3, material: string, color: string)

  /** The `switch (type)` of `handleAddElement`; positions and some sizes depend on the
      container at the time of the click. */
  function DefaultsFor(kind: string, c: Container): Defaults {
    if kind == "door" then
      Defaults(Vec3(0.9, 2.0, 0.1), Vec3(c.length / 2.0 - 0.05, 1.0, 0.0), "wood", "#8B4513")
    else if kind == "window" then
      Defaults(Vec3(1.0, 1.0, 0.1), Vec3(0.0, 1.5, c.width / 2.0 - 0.05), "glass", "#87CEEB")
    else if kind == "partition" then
      Defaults(Vec3(0.1, c.height, c.width), Vec3(0.0, c.height / 2.0, 0.0), "wood", "#D2B48C")
    else if kind == "shelf" then
      Defaults(Vec3(c.length, 0.1, c.width), Vec3(0.0, 1.0, 0.0), "wood", "#A0522D")
    else if kind == "table" then
      Defaults(Vec3(1.5, 0.8, 1.0), Vec3(0.0, 0.4, 0.0), "wood", "#8B4513")
    else if kind == "chair" then
      Defaults(Vec3(0.5, 1.0, 0.5), Vec3(0.0, 0.5, 0.0), "wood", "#D2B48C")
    else if kind == "bed" then
      Defaults(Vec3(2.0, 0.5, 1.5), Vec3(0.0, 0.25, 0.0), "fabric", "#FFFFFF")
    else if kind == "toilet" then
      Defaults(Vec3(0.6, 0.8, 0.6), Vec3(0.0, 0.4, 0.0), "plastic", "#FFFFFF")
    else if kind == "fan" then
      Defaults(Vec3(0.5, 0.1, 0.5), Vec3(0.0, 2.5, 0.0), "metal", "#C0C0C0")
    else
      Defaults(Vec3(1.0, 1.0, 1.0), Origin, MATERIALS[0], COLORS[0])
  }

  /** The types the `switch` has a case for. */
  const KNOWN_KINDS: set<string> := {"door", "window", "partition", "shelf", "table", "chair", "bed", "toilet", "fan"}

  /** The object `handleAddElement` passes to `addElement`. */
  function DraftFor(kind: string, c: Container): (d: ElementDraft)
    ensures d.kind == kind
    ensures var t := DefaultsFor(kind, c);
      d.position == t.position && d.size == t.size && d.material == t.material && d.color == t.color
  {
    var t := DefaultsFor(kind, c);
    ElementDraft(kind, t.position, t.size, t.material, t.color)
  }

  /** The door is hung on the +X wall: its centre sits on the wall-margin line, it stands on
      the floor, and it reaches half its width past that line. */
  lemma DoorDefaults(c: Container)
    ensures var t := DefaultsFor("door", c);
      && t.size == Vec3(0.9, 2.0, 0.1) && t.material == "wood"
      && t.position.x == c.length / 2.0 - Validator.WALL_MARGIN && t.position.z == 0.0
      && t.position.y - t.size.y / 2.0 == 0.0
      && t.position.x + t.size.x / 2.0 - (c.length / 2.0 - Validator.WALL_MARGIN) == 0.45
  {
  }

  /** The window sits in the +Z wall, centred on the wall-margin line, 1.5 up. */
  lemma WindowDefaults(c: Container)
    ensures var t := DefaultsFor("window", c);
      && t.size == Vec3(1.0, 1.0, 0.1) && t.material == "glass"
      && t.position == Vec3(0.0, 1.5, c.width / 2.0 - Validator.WALL_MARGIN)
  {
  }

  /** The partition spans the container from floor to full height and from wall to wall
      across its width; the shelf spans its whole floor plan, one unit up. */
  lemma ContainerSpanningDefaults(c: Container)
    ensures var t := DefaultsFor("partition", c);
      && t.position.y - t.size.y / 2.0 == 0.0 && t.position.y + t.size.y / 2.0 == c.height
      && t.size.z == c.width && t.size.x == 0.1 && t.position.x == 0.0 && t.position.z == 0.0
    ensures var t := DefaultsFor("shelf", c);
      && t.size == Vec3(c.length, 0.1, c.width) && t.position == Vec3(0.0, 1.0, 0.0)
  {
  }

  /** A type without a case gets a unit cube at the origin in the first material and color. */
  lemma UnknownKindDefaults(kind: string, c: Container)
    requires kind !in KNOWN_KINDS
    ensures DefaultsFor(kind, c) == Defaults(Vec3(1.0, 1.0, 1.0), Origin, MATERIALS[0], COLORS[0])
  {
  }

  /** Doors, partitions and the furniture stand on the floor: their bottom face is at y = 0. */
  lemma FloorStandingDefaults(kind: string, c: Container)
    requires kind in {"door", "partition", "table", "chair", "bed", "toilet"}
    ensures DefaultsFor(kind, c).position.y - DefaultsFor(kind, c).size.y / 2.0 == 0.0
  {
  }

  /** No default placement is inside the validation bounds, except the fan's in a container
      at least 5.2 high (its ceiling bound is half the height): in the initial 6 x 2.5 x 3
      container every default would be refused by `validatePosition`. */
  lemma DefaultPlacementOutOfBounds(kind: string, c: Container)
    ensures var t := DefaultsFor(kind, c);
      Validator.InBounds(c, t.position, t.size) ==>
        kind == "fan" && c.height >= 5.2 && c.length >= 0.6 && c.width >= 0.6
  {
  }

  /** ... and the fan's, in such a container, is. */
  lemma FanPlacementInBounds(c: Container)
    requires c.height >= 5.2 && c.length >= 0.6 && c.width >= 0.6
    ensures Validator.InBounds(c, DefaultsFor("fan", c).position, DefaultsFor("fan", c).size)
  {
  }

  /** `handleAddElement(type)`: one `addElement` with the defaults for the type in the
      current container, neither snapped nor validated. */
  method HandleAddElement(store: Store, kind: string, id: int)
    modifies store
    ensures store.elements == old(store.elements) + [Instantiate(DraftFor(kind, old(store.container)), id)]
    ensures store.container == old(store.container) && store.selectedElement == old(store.selectedElement)
    ensures store.Settings() == old(store.Settings())
  {
    var c := store.container;
    var t := DefaultsFor(kind, c);
    store.AddElement(ElementDraft(kind, t.position, t.size, t.material, t.color), id);
  }

  /** Because nothing validates it, adding a default element other than a fan turns any
      layout into one that is not legal; with a fresh id the store itself would refuse
      the stored position. */
  lemma AddedDefaultNotValidated(c: Container, els: seq<Element>, kind: string, id: int)
    requires kind != "fan" || c.height < 5.2
    ensures !Validator.LegalLayout(c, els + [Instantiate(DraftFor(kind, c), id)])
    ensures (forall e :: e in els ==> e.id != id) ==>
      !Validator.PositionValid(c, els + [Instantiate(DraftFor(kind, c), id)], id, DefaultsFor(kind, c).position)
  {
    var t := DefaultsFor(kind, c);
    var r := els + [Instantiate(DraftFor(kind, c), id)];
    DefaultPlacementOutOfBounds(kind, c);
    assert r[|els|].position == t.position && r[|els|].size == t.size;
    if forall e :: e in els ==> e.id != id {
      assert Lookup(r, id) == Some(r[|els|]) by {
        assert forall i :: 0 <= i < |els| ==> r[i] in els;
      }
    }
  }

  // ---------------------------------------------------------------- door toggle

  /** The rotation the toggle gives a door that becomes open (`true`) or closed. */
  function DoorRotation(open: bool): Vec3 {
    if open then Vec3(0.0, PI / 2.0, 0.0) else Origin
  }

  /** `{ isOpen: newIsOpen, rotation: newRotation }` for the element as displayed. */
  function DoorTogglePatch(el: Element): Patch {
    EmptyPatch.(isOpen := Some(!el.isOpen), rotation := Some(DoorRotation(!el.isOpen)))
  }

  /** The toggle flips `isOpen`, sets the matching rotation and changes nothing else. */
  lemma DoorToggleFlips(e: Element)
    ensures Merge(e, DoorTogglePatch(e)) == e.(isOpen := !e.isOpen, rotation := DoorRotation(!e.isOpen))
  {
  }

  /** Toggling twice restores `isOpen` and leaves the canonical rotation for it; a door
      already at that rotation comes back unchanged. */
  lemma DoorToggleTwice(e: Element)
    ensures var once := Merge(e, DoorTogglePatch(e));
      var twice := Merge(once, DoorTogglePatch(once));
      && twice.isOpen == e.isOpen
      && twice.rotation == DoorRotation(e.isOpen)
      && twice.(isOpen := e.isOpen, rotation := e.rotation) == e
      && (e.rotation == DoorRotation(e.isOpen) ==> twice == e)
  {
    DoorToggleFlips(e);
    DoorToggleFlips(Merge(e, DoorTogglePatch(e)));
  }

  /** The toggle does not consult `validateRotation`: the closed rotation it sets is always
      admitted, the open one exactly when the door has clearance where it stands. */
  lemma DoorToggleRotationValidity(c: Container, els: seq<Element>, id: int)
    requires Lookup(els, id).Some? && Lookup(els, id).value.kind == "door"
    ensures Validator.RotationValid(c, els, id, DoorRotation(false))
    ensures Validator.RotationValid(c, els, id, DoorRotation(true)) <==>
      Validator.DoorClearance(c, Lookup(els, id).value)
  {
    Validator.ClosedRotationAlwaysValid(c, els, id);
    Validator.OpenDoorNeedsClearance(c, els, id, PI / 2.0);
  }

  /** The door button: shown only when the selected id names a door, it updates that id
      with the toggle patch for the element as found. */
  method ToggleDoor(store: Store)
    modifies store
    ensures var sel := old(store.selectedElement);
      if sel.Some? && Lookup(old(store.elements), sel.value).Some?
         && Lookup(old(store.elements), sel.value).value.kind == "door"
      then store.elements == UpdateAll(old(store.elements), sel.value,
             DoorTogglePatch(Lookup(old(store.elements), sel.value).value))
      else store.elements == old(store.elements)
    ensures store.container == old(store.container) && store.selectedElement == old(store.selectedElement)
    ensures store.Settings() == old(store.Settings())
  {
    if store.selectedElement.Some? {
      var selected := store.selectedElement.value;
      var el := Lookup(store.elements, selected);
      if el.Some? && el.value.kind == "door" {
        store.UpdateElement(selected, DoorTogglePatch(el.value));
      }
    }
  }

  // ---------------------------------------------------------------- rotation presets

  /** `rotationPresets`: 0, a quarter, a half and three quarters of a turn. */
  const ROTATION_PRESETS: seq<real> := [0.0, PI / 2.0, PI, 3.0 * PI / 2.0]

  /** The rotation `[0, preset.value, 0]` a preset button sets. */
  function PresetRotation(k: nat): (r: Vec3)
    requires k < |ROTATION_PRESETS|
    ensures r.x == 0.0 && r.z == 0.0 && 0.0 <= r.y < 2.0 * PI
  {
    Vec3(0.0, ROTATION_PRESETS[k], 0.0)
  }

  /** A preset button of the edit panel, shown when the selected id names an element. */
  method ApplyRotationPreset(store: Store, k: nat)
    requires k < |ROTATION_PRESETS|
    modifies store
    ensures var sel := old(store.selectedElement);
      if sel.Some? && Lookup(old(store.elements), sel.value).Some?
      then store.elements == UpdateAll(old(store.elements), sel.value, RotationPatch(PresetRotation(k)))
      else store.elements == old(store.elements)
    ensures store.container == old(store.container) && store.selectedElement == old(store.selectedElement)
    ensures store.Settings() == old(store.Settings())
  {
    if store.selectedElement.Some? {
      var selected := store.selectedElement.value;
      var el := Lookup(store.elements, selected);
      if el.Some? {
        store.UpdateElement(selected, RotationPatch(Vec3(0.0, ROTATION_PRESETS[k], 0.0)));
      }
    }
  }

  /** A preset rotates the elements with that id about Y only, by one of the four preset
      angles, and changes no other field of any element. */
  lemma PresetOnlyRotation(els: seq<Element>, id: int, k: nat)
    requires k < |ROTATION_PRESETS|
    ensures var r := UpdateAll(els, id, RotationPatch(PresetRotation(k)));
      && |r| == |els|
      && (forall i :: 0 <= i < |els| ==> r[i].(rotation := els[i].rotation) == els[i])
      && (forall i :: 0 <= i < |els| && els[i].id == id ==>
            r[i].rotation.x == 0.0 && r[i].rotation.z == 0.0 && r[i].rotation.y in ROTATION_PRESETS)
  {
  }

  /** The presets do not consult `validateRotation`. For an element that is not a door all
      four are admitted; for a door 0 is admitted, the quarter turn exactly when it has
      clearance, and the half and three-quarter turns never. */
  lemma PresetValidity(c: Container, els: seq<Element>, id: int)
    requires Lookup(els, id).Some?
    ensures var e := Lookup(els, id).value;
      && (e.kind != "door" ==> forall k :: 0 <= k < 4 ==> Validator.RotationValid(c, els, id, PresetRotation(k)))
      && (e.kind == "door" ==>
            && Validator.RotationValid(c, els, id, PresetRotation(0))
            && (Validator.RotationValid(c, els, id, PresetRotation(1)) <==> Validator.DoorClearance(c, e))
            && !Validator.RotationValid(c, els, id, PresetRotation(2))
            && !Validator.RotationValid(c, els, id, PresetRotation(3)))
  {
    var e := Lookup(els, id).value;
    if e.kind != "door" {
      forall k | 0 <= k < 4 ensures Validator.RotationValid(c, els, id, PresetRotation(k)) {
        Validator.NonDoorRangeOnly(c, els, id, PresetRotation(k));
      }
    } else {
      assert PresetRotation(0) == Origin;
      Validator.ClosedRotationAlwaysValid(c, els, id);
      Validator.OpenDoorNeedsClearance(c, els, id, PI / 2.0);
    }
  }

  // ---------------------------------------------------------------- container fields

  /** The Length field: `setContainerDimensions({ ...container, length: v })`. */
  method EditLength(store: Store, v: real)
    modifies store
    ensures store.container == old(store.container).(length := v)
    ensures store.elements == old(store.elements) && store.selectedElement == old(store.selectedElement)
    ensures store.Settings() == old(store.Settings())
  {
    var c := store.container;
    store.SetContainerDimensions(ContainerPatch(Some(v), Some(c.width), Some(c.height), Some(c.material)));
  }

  /** The Width field: `setContainerDimensions({ ...container, width: v })`. */
  method EditWidth(store: Store, v: real)
    modifies store
    ensures store.container == old(store.container).(width := v)
    ensures store.elements == old(store.elements) && store.selectedElement == old(store.selectedElement)
    ensures store.Settings() == old(store.Settings())
  {
    var c := store.container;
    store.SetContainerDimensions(ContainerPatch(Some(c.length), Some(v), Some(c.height), Some(c.material)));
  }

  /** The Height field: `setContainerDimensions({ ...container, height: v })`. */
  method EditHeight(store: Store, v: real)
    modifies store
    ensures store.container == old(store.container).(height := v)
    ensures store.elements == old(store.elements) && store.selectedElement == old(store.selectedElement)
    ensures store.Settings() == old(store.Settings())
  {
    var c := store.container;
    store.SetContainerDimensions(ContainerPatch(Some(c.length), Some(c.width), Some(v), Some(c.material)));
  }
}
