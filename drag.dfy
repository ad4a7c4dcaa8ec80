/** The drag handlers of one rendered element: on drag start the element is flagged as
    dragging; on drag end the dropped position is snapped and validated, then either
    committed to the store or the 3D object is put back where the element was. */
module DraggableElement {
  import opened Geometry
  import opened ElementList
  import opened DesignStore
  import Validator
  import Snapping

  /** The scene object the drag controls move; only its position is modelled. */
  class Object3D {
    var position: Vec3

    constructor (p: Vec3)
      ensures position == p
    {
      position := p;
    }
  }

  /** `handleDragEnd`. `element` is the element as it was when rendered; `obj` is the
      event's object, `null` when the event carries none. */
  method HandleDragEnd(store: Store, element: Element, obj: Object3D?)
    requires store.snapToGrid ==> store.gridSize != 0.0
    modifies store, obj
    ensures store.container == old(store.container) && store.selectedElement == old(store.selectedElement)
    ensures store.Settings() == old(store.Settings())
    ensures obj == null ==> store.elements == UpdateAll(old(store.elements), element.id, DraggingPatch(false))
    ensures obj != null ==>
      var dropped := Snapping.Snap(old(store.snapToGrid), old(store.gridSize), old(obj.position));
      if Validator.PositionValid(old(store.container), old(store.elements), element.id, dropped) then
        && obj.position == old(obj.position)
        && store.elements == UpdateAll(
             if dropped != element.position then MoveAll(old(store.elements), element.id, dropped)
             else old(store.elements),
             element.id, DraggingPatch(false))
      else
        && obj.position == element.position
        && store.elements == UpdateAll(old(store.elements), element.id, DraggingPatch(false))
  {
    if obj != null {
      var newPosition := Vec3(obj.position.x, obj.position.y, obj.position.z);
      newPosition := store.SnapPosition(newPosition);
      var ok := store.ValidatePosition(element.id, newPosition);
      if ok {
        if || newPosition.x != element.position.x
           || newPosition.y != element.position.y
           || newPosition.z != element.position.z
        {
          store.MoveElement(element.id, newPosition);
        }
      } else {
        obj.position := element.position;
      }
    }
    store.UpdateElement(element.id, DraggingPatch(false));
  }

  /** `handleDragStart` */
  method HandleDragStart(store: Store, element: Element)
    modifies store
    ensures store.elements == UpdateAll(old(store.elements), element.id, DraggingPatch(true))
    ensures store.container == old(store.container) && store.selectedElement == old(store.selectedElement)
    ensures store.Settings() == old(store.Settings())
  {
    store.UpdateElement(element.id, DraggingPatch(true));
  }

  /** Setting the dragging flag touches nothing else: each element keeps all its other
      fields, and the elements with this id carry the new flag. */
  lemma DraggingOnly(els: seq<Element>, id: int, b: bool)
    ensures var r := UpdateAll(els, id, DraggingPatch(b));
      && |r| == |els|
      && (forall i :: 0 <= i < |els| ==> r[i].(dragging := els[i].dragging) == els[i])
      && (forall i :: 0 <= i < |els| && els[i].id == id ==> r[i].dragging == b)
  {
  }

  /** The sequence a committed drop leaves in the store. */
  function Committed(els: seq<Element>, id: int, p: Vec3): seq<Element> {
    UpdateAll(MoveAll(els, id, p), id, DraggingPatch(false))
  }

  /** The move and the dragging update a committed drop makes in turn are one update with
      the combined patch `{ position, dragging: false }`. */
  lemma CommitIsOneUpdate(els: seq<Element>, id: int, p: Vec3)
    ensures Committed(els, id, p) == UpdateAll(els, id, Combine(PositionPatch(p), DraggingPatch(false)))
  {
    var r := Committed(els, id, p);
    var u := UpdateAll(els, id, Combine(PositionPatch(p), DraggingPatch(false)));
    MoveIsPositionUpdate(els, id, p);
    forall i | 0 <= i < |els|
      ensures r[i] == u[i]
    {
      if els[i].id == id {
        MergeCombine(els[i], PositionPatch(p), DraggingPatch(false));
      }
    }
  }

  /** A committed drop stores the dropped position in the element with that id, no longer
      dragging, and that position is still admitted for it in the new layout. */
  lemma CommittedDropStaysValid(c: Container, els: seq<Element>, id: int, p: Vec3)
    requires Validator.PositionValid(c, els, id, p)
    ensures Lookup(Committed(els, id, p), id).Some?
    ensures var e := Lookup(Committed(els, id, p), id).value;
      e.position == p && !e.dragging
    ensures Validator.PositionValid(c, Committed(els, id, p), id, p)
  {
    var r := Committed(els, id, p);
    assert Validator.SameFootprintsBut(els, r, id);
    Validator.PositionValidFootprints(c, els, r, id, p);
    FindIndexByIds(els, r, id);
  }

  /** A rejected drop (or one with no object) changes no position, size or other field of
      any element: only the dragging flags of the element's id are cleared. */
  lemma RejectedDropKeepsLayout(els: seq<Element>, id: int)
    ensures var r := UpdateAll(els, id, DraggingPatch(false));
      forall i :: 0 <= i < |els| ==> r[i].(dragging := els[i].dragging) == els[i]
  {
    DraggingOnly(els, id, false);
  }

  /** Two layouts that differ only in dragging flags are equally legal. */
  lemma LegalLayoutIgnoresDragging(c: Container, a: seq<Element>, b: seq<Element>)
    requires |a| == |b|
    requires forall i :: 0 <= i < |a| ==> a[i].position == b[i].position && a[i].size == b[i].size
    ensures Validator.LegalLayout(c, a) <==> Validator.LegalLayout(c, b)
  {
  }

  /** With unique ids, a committed drop keeps a legal layout legal, and so does a
      rejected one: drag end never turns a legal layout into an illegal one. */
  lemma DropPreservesLegalLayout(c: Container, els: seq<Element>, id: int, p: Vec3)
    requires Validator.UniqueIds(els) && Validator.LegalLayout(c, els)
    ensures Validator.PositionValid(c, els, id, p) ==> Validator.LegalLayout(c, Committed(els, id, p))
    ensures Validator.LegalLayout(c, UpdateAll(els, id, DraggingPatch(false)))
  {
    if Validator.PositionValid(c, els, id, p) {
      Validator.MovePreservesLegalLayout(c, els, id, p);
      LegalLayoutIgnoresDragging(c, MoveAll(els, id, p), Committed(els, id, p));
    }
    LegalLayoutIgnoresDragging(c, els, UpdateAll(els, id, DraggingPatch(false)));
  }
}
