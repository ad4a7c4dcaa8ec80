/** The element-sequence operations the store is built on: `find` by id, and the
    `filter` and `map` that removal, update and move rebuild `elements` with. */
module ElementList {
  import opened Geometry

  /** Index of the first element with this id, or `None` when there is none. */
  function FindIndex(els: seq<Element>, id: int): (r: Option<nat>)
    ensures r.None? <==> forall i :: 0 <= i < |els| ==> els[i].id != id
    ensures r.Some? ==> r.value < |els| && els[r.value].id == id
    ensures r.Some? ==> forall i :: 0 <= i < r.value ==> els[i].id != id
  {
    if |els| == 0 then None
    else if els[0].id == id then Some(0)
    else match FindIndex(els[1..], id)
      case None => None
      case Some(k) => Some(k + 1)
  }

  /** `elements.find(el => el.id === id)`: the first element with this id, so that when ids
      repeat the earliest one decides. */
  function Lookup(els: seq<Element>, id: int): (r: Option<Element>)
    ensures r.None? <==> forall e :: e in els ==> e.id != id
    ensures r.Some? ==> r.value in els && r.value.id == id
    ensures r.Some? ==> exists k :: 0 <= k < |els| && els[k] == r.value && forall i :: 0 <= i < k ==> els[i].id != id
  {
    match FindIndex(els, id)
    case None => None
    case Some(k) => Some(els[k])
  }

  /** The first match depends on the ids alone. */
  lemma {:induction false} FindIndexByIds(a: seq<Element>, b: seq<Element>, id: int)
    requires |a| == |b|
    requires forall i :: 0 <= i < |a| ==> a[i].id == b[i].id
    ensures FindIndex(a, id) == FindIndex(b, id)
    decreases |a|
  {
    if |a| > 0 && a[0].id != id {
      FindIndexByIds(a[1..], b[1..], id);
    }
  }

  /** `elements.filter(el => el.id !== id)` */
  function RemoveId(els: seq<Element>, id: int): (r: seq<Element>)
    ensures forall e :: e in r <==> e in els && e.id != id
    ensures |r| <= |els|
    decreases |els|
  {
    if |els| == 0 then []
    else
      var n := |els| - 1;
      assert els == els[..n] + [els[n]];
      RemoveId(els[..n], id) + (if els[n].id == id then [] else [els[n]])
  }

  /** Filtering distributes over concatenation: the survivors keep their order. */
  lemma {:induction false} RemoveIdConcat(a: seq<Element>, b: seq<Element>, id: int)
    ensures RemoveId(a + b, id) == RemoveId(a, id) + RemoveId(b, id)
    decreases |b|
  {
    if |b| == 0 {
      assert a + b == a;
    } else {
      var n := |b| - 1;
      assert (a + b)[..|a + b| - 1] == a + b[..n];
      assert (a + b)[|a + b| - 1] == b[n];
      RemoveIdConcat(a, b[..n], id);
    }
  }

  /** Removing an id no element carries leaves the sequence as it was. */
  lemma {:induction false} RemoveIdAbsent(els: seq<Element>, id: int)
    requires forall e :: e in els ==> e.id != id
    ensures RemoveId(els, id) == els
    decreases |els|
  {
    if |els| > 0 {
      var n := |els| - 1;
      var init, last := els[..n], els[n];
      assert els == init + [last];
      assert last in els;
      assert forall e :: e in init ==> e in els;
      RemoveIdAbsent(init, id);
      assert RemoveId(els, id) == RemoveId(init, id) + [last];
    }
  }

  /** Removing the id of an element just appended with a fresh id undoes the append. */
  lemma RemoveAfterAppend(els: seq<Element>, e: Element)
    requires forall x :: x in els ==> x.id != e.id
    ensures RemoveId(els + [e], e.id) == els
  {
    RemoveIdConcat(els, [e], e.id);
    RemoveIdAbsent(els, e.id);
    assert RemoveId([e], e.id) == [];
  }

  /** `elements.map(el => el.id === id ? { ...el, ...u } : el)` */
  function UpdateAll(els: seq<Element>, id: int, u: Patch): (r: seq<Element>)
    ensures |r| == |els|
    ensures forall i :: 0 <= i < |els| && els[i].id == id ==> r[i] == Merge(els[i], u)
    ensures forall i :: 0 <= i < |els| && els[i].id != id ==> r[i] == els[i]
  {
    seq(|els|, i requires 0 <= i < |els| => if els[i].id == id then Merge(els[i], u) else els[i])
  }

  /** `elements.map(el => el.id === id ? { ...el, position } : el)` */
  function MoveAll(els: seq<Element>, id: int, p: Vec3): (r: seq<Element>)
    ensures |r| == |els|
    ensures forall i :: 0 <= i < |els| ==> r[i].(position := els[i].position) == els[i]
    ensures forall i :: 0 <= i < |els| && els[i].id == id ==> r[i].position == p
    ensures forall i :: 0 <= i < |els| && els[i].id != id ==> r[i] == els[i]
  {
    seq(|els|, i requires 0 <= i < |els| => if els[i].id == id then els[i].(position := p) else els[i])
  }

  /** Moving is updating with a patch that holds only the position. */
  lemma MoveIsPositionUpdate(els: seq<Element>, id: int, p: Vec3)
    ensures MoveAll(els, id, p) == UpdateAll(els, id, PositionPatch(p))
  {
  }

  /** An update or move of an id no element carries changes nothing. */
  lemma UpdateAbsent(els: seq<Element>, id: int, u: Patch, p: Vec3)
    requires forall e :: e in els ==> e.id != id
    ensures UpdateAll(els, id, u) == els
    ensures MoveAll(els, id, p) == els
  {
  }
}
