/** Advisory alignment guides (`getAlignmentGuides`): lines near which a dragged element
    lines up with a wall, the floor, or another element's centre. */
module Alignment {
  import opened Geometry
  import opened ElementList

  /** The guide's `type` key: 'wall', 'floor' or 'element'. */
  datatype GuideKind = Wall | Floor | ElementLine

  datatype Guide = Guide(axis: Axis, value: real, kind: GuideKind)

  /** How close a coordinate must be to a target for a guide to appear. */
  const GUIDE_THRESHOLD: real := 0.1

  /** Position of a kind in the emitted order: walls, then the floor, then elements. */
  function Rank(k: GuideKind): nat {
    match k
    case Wall => 0
    case Floor => 1
    case ElementLine => 2
  }

  /** One conditional `guides.push`. */
  function GuideIfNear(coord: real, axis: Axis, value: real, kind: GuideKind): (r: seq<Guide>)
    ensures r == [] || r == [Guide(axis, value, kind)]
    ensures Guide(axis, value, kind) in r <==> Abs(coord - value) < GUIDE_THRESHOLD
  {
    if Abs(coord - value) < GUIDE_THRESHOLD then [Guide(axis, value, kind)] else []
  }

  /** The four wall guides for an element of extents `size` at `p`, in emission order:
      +X wall, -X wall, +Z wall, -Z wall. */
  function WallLines(c: Container, size: Vec3, p: Vec3): (r: seq<Guide>)
    ensures AllOfKind(r, Wall)
  {
    GuideIfNear(p.x, X, c.length / 2.0 - size.x / 2.0, Wall)
    + GuideIfNear(p.x, X, -c.length / 2.0 + size.x / 2.0, Wall)
    + GuideIfNear(p.z, Z, c.width / 2.0 - size.z / 2.0, Wall)
    + GuideIfNear(p.z, Z, -c.width / 2.0 + size.z / 2.0, Wall)
  }

  /** The wall guides followed by the floor guide. */
  function WallGuides(c: Container, size: Vec3, p: Vec3): seq<Guide> {
    WallLines(c, size, p) + GuideIfNear(p.y, Y, size.y / 2.0, Floor)
  }

  /** The X, Y and Z guides one other element contributes. */
  function GuidesTo(o: Element, p: Vec3): seq<Guide> {
    GuideIfNear(p.x, X, o.position.x, ElementLine)
    + GuideIfNear(p.y, Y, o.position.y, ElementLine)
    + GuideIfNear(p.z, Z, o.position.z, ElementLine)
  }

  /** Element guides for the whole sequence, skipping every element with the dragged id. */
  function ElementGuides(els: seq<Element>, id: int, p: Vec3): (r: seq<Guide>)
    ensures forall g :: g in r ==> g.kind == ElementLine
    decreases |els|
  {
    if |els| == 0 then []
    else
      var n := |els| - 1;
      ElementGuides(els[..n], id, p) + (if els[n].id == id then [] else GuidesTo(els[n], p))
  }

  /** One unfolding of `ElementGuides` at the last element. */
  lemma ElementGuidesSnoc(els: seq<Element>, id: int, p: Vec3)
    requires |els| > 0
    ensures ElementGuides(els, id, p) ==
      ElementGuides(els[..|els| - 1], id, p) + (if els[|els| - 1].id == id then [] else GuidesTo(els[|els| - 1], p))
  {
  }

  /** `getAlignmentGuides(id, position)` */
  function AlignmentGuides(c: Container, els: seq<Element>, id: int, p: Vec3): seq<Guide> {
    match Lookup(els, id)
    case None => []
    case Some(e) => WallGuides(c, e.size, p) + ElementGuides(els, id, p)
  }

  /** The wall targets on one axis for an element of extents `size`. */
  function WallTargets(c: Container, size: Vec3, a: Axis): set<real> {
    match a
    case X => {c.length / 2.0 - size.x / 2.0, -c.length / 2.0 + size.x / 2.0}
    case Z => {c.width / 2.0 - size.z / 2.0, -c.width / 2.0 + size.z / 2.0}
    case Y => {}
  }

  /** An unknown id gets no guides. */
  lemma UnknownIdNoGuides(c: Container, els: seq<Element>, id: int, p: Vec3)
    requires forall e :: e in els ==> e.id != id
    ensures AlignmentGuides(c, els, id, p) == []
  {
  }

  lemma WallGuidesAreNear(c: Container, s: Vec3, p: Vec3, g: Guide)
    requires g in WallGuides(c, s, p)
    ensures Abs(p.Coord(g.axis) - g.value) < GUIDE_THRESHOLD
  {
  }

  /** Every guide lies within the threshold of the dragged coordinate on its axis. */
  lemma GuidesAreNear(c: Container, els: seq<Element>, id: int, p: Vec3, g: Guide)
    requires g in AlignmentGuides(c, els, id, p)
    ensures Abs(p.Coord(g.axis) - g.value) < GUIDE_THRESHOLD
  {
    if g in ElementGuides(els, id, p) {
      ElementGuideIff(els, id, p, g.axis, g.value);
    } else {
      WallGuidesAreNear(c, Lookup(els, id).value.size, p, g);
    }
  }

  lemma WallGuidesWallIff(c: Container, s: Vec3, p: Vec3, a: Axis, v: real)
    ensures Guide(a, v, Wall) in WallGuides(c, s, p) <==>
      v in WallTargets(c, s, a) && Abs(p.Coord(a) - v) < GUIDE_THRESHOLD
  {
  }

  lemma WallGuidesFloorIff(c: Container, s: Vec3, p: Vec3, a: Axis, v: real)
    ensures Guide(a, v, Floor) in WallGuides(c, s, p) <==>
      a == Y && v == s.y / 2.0 && Abs(p.y - v) < GUIDE_THRESHOLD
  {
  }

  /** A wall guide at `v` on axis `a` is emitted exactly when `v` is one of that axis's
      wall targets and the coordinate is within the threshold of it. */
  lemma WallGuideIff(c: Container, els: seq<Element>, id: int, p: Vec3, a: Axis, v: real)
    requires Lookup(els, id).Some?
    ensures var s := Lookup(els, id).value.size;
      Guide(a, v, Wall) in AlignmentGuides(c, els, id, p) <==>
        v in WallTargets(c, s, a) && Abs(p.Coord(a) - v) < GUIDE_THRESHOLD
  {
    var s := Lookup(els, id).value.size;
    assert Guide(a, v, Wall) !in ElementGuides(els, id, p);
    WallGuidesWallIff(c, s, p, a, v);
  }

  /** A floor guide appears exactly on Y at the element's half height, when the Y
      coordinate is within the threshold of it. */
  lemma FloorGuideIff(c: Container, els: seq<Element>, id: int, p: Vec3, a: Axis, v: real)
    requires Lookup(els, id).Some?
    ensures var s := Lookup(els, id).value.size;
      Guide(a, v, Floor) in AlignmentGuides(c, els, id, p) <==>
        a == Y && v == s.y / 2.0 && Abs(p.y - v) < GUIDE_THRESHOLD
  {
    var s := Lookup(els, id).value.size;
    assert Guide(a, v, Floor) !in ElementGuides(els, id, p);
    WallGuidesFloorIff(c, s, p, a, v);
  }

  /** Element `o` lines up with the dragged coordinate at `v` on axis `a`. */
  predicate AlignsWith(o: Element, id: int, p: Vec3, a: Axis, v: real) {
    o.id != id && o.position.Coord(a) == v && Abs(p.Coord(a) - v) < GUIDE_THRESHOLD
  }

  lemma GuidesToIff(o: Element, p: Vec3, a: Axis, v: real)
    ensures Guide(a, v, ElementLine) in GuidesTo(o, p) <==>
      o.position.Coord(a) == v && Abs(p.Coord(a) - v) < GUIDE_THRESHOLD
  {
  }

  /** Every element guide comes from an element with another id at that coordinate. */
  lemma {:induction false} ElementGuideSource(els: seq<Element>, id: int, p: Vec3, a: Axis, v: real)
    returns (j: nat)
    requires Guide(a, v, ElementLine) in ElementGuides(els, id, p)
    ensures j < |els| && AlignsWith(els[j], id, p, a, v)
    decreases |els|
  {
    var n := |els| - 1;
    var init := els[..n];
    var tail := if els[n].id == id then [] else GuidesTo(els[n], p);
    assert ElementGuides(els, id, p) == ElementGuides(init, id, p) + tail;
    if Guide(a, v, ElementLine) in tail {
      GuidesToIff(els[n], p, a, v);
      j := n;
    } else {
      j := ElementGuideSource(init, id, p, a, v);
      assert init[j] == els[j];
    }
  }

  /** Every element with another id near the dragged coordinate contributes its guide. */
  lemma {:induction false} ElementGuideFromSource(els: seq<Element>, id: int, p: Vec3, a: Axis, v: real, j: nat)
    requires j < |els| && AlignsWith(els[j], id, p, a, v)
    ensures Guide(a, v, ElementLine) in ElementGuides(els, id, p)
    decreases |els|
  {
    var n := |els| - 1;
    var init := els[..n];
    var tail := if els[n].id == id then [] else GuidesTo(els[n], p);
    assert ElementGuides(els, id, p) == ElementGuides(init, id, p) + tail;
    if j == n {
      GuidesToIff(els[n], p, a, v);
    } else {
      assert init[j] == els[j];
      ElementGuideFromSource(init, id, p, a, v, j);
    }
  }

  /** An element guide at `v` on axis `a` is emitted exactly when some element with
      another id has that coordinate and the dragged coordinate is within the threshold. */
  lemma ElementGuideIff(els: seq<Element>, id: int, p: Vec3, a: Axis, v: real)
    ensures Guide(a, v, ElementLine) in ElementGuides(els, id, p) <==>
      exists j :: 0 <= j < |els| && AlignsWith(els[j], id, p, a, v)
  {
    if Guide(a, v, ElementLine) in ElementGuides(els, id, p) {
      var j := ElementGuideSource(els, id, p, a, v);
    }
    if exists j :: 0 <= j < |els| && AlignsWith(els[j], id, p, a, v) {
      var j :| 0 <= j < |els| && AlignsWith(els[j], id, p, a, v);
      ElementGuideFromSource(els, id, p, a, v, j);
    }
  }

  /** Guides from earlier elements come before guides from later ones. */
  lemma {:induction false} ElementGuidesConcat(a: seq<Element>, b: seq<Element>, id: int, p: Vec3)
    ensures ElementGuides(a + b, id, p) == ElementGuides(a, id, p) + ElementGuides(b, id, p)
    decreases |b|
  {
    if |b| == 0 {
      assert a + b == a;
    } else {
      var n := |b| - 1;
      var ab := a + b;
      assert ab[..|ab| - 1] == a + b[..n] && ab[|ab| - 1] == b[n];
      ElementGuidesSnoc(ab, id, p);
      ElementGuidesSnoc(b, id, p);
      ElementGuidesConcat(a, b[..n], id, p);
      AppendAssoc(ElementGuides(a, id, p), ElementGuides(b[..n], id, p),
        if b[n].id == id then [] else GuidesTo(b[n], p));
    }
  }

  /** The element itself never contributes: dropping every element with its id first
      yields the same element guides. */
  lemma {:induction false} ElementGuidesIgnoreSelf(els: seq<Element>, id: int, p: Vec3)
    ensures ElementGuides(els, id, p) == ElementGuides(RemoveId(els, id), id, p)
    decreases |els|
  {
    if |els| > 0 {
      var n := |els| - 1;
      var last := els[n];
      ElementGuidesIgnoreSelf(els[..n], id, p);
      var tail := if last.id == id then [] else [last];
      ElementGuidesConcat(RemoveId(els[..n], id), tail, id, p);
      if last.id != id {
        assert [last][..0] == [];
      }
    }
  }

  /** Every guide in `s` is of kind `k`. */
  predicate AllOfKind(s: seq<Guide>, k: GuideKind) {
    forall i :: 0 <= i < |s| ==> s[i].kind == k
  }

  /** The kinds along `s` never go back: walls, then floor, then elements. */
  predicate KindsOrdered(s: seq<Guide>) {
    forall i, j :: 0 <= i < j < |s| ==> Rank(s[i].kind) <= Rank(s[j].kind)
  }

  lemma BlocksOrdered(w: seq<Guide>, f: seq<Guide>, e: seq<Guide>)
    requires AllOfKind(w, Wall) && AllOfKind(f, Floor) && AllOfKind(e, ElementLine)
    ensures KindsOrdered(w + f + e)
  {
    var g := w + f + e;
    forall i, j | 0 <= i < j < |g| ensures Rank(g[i].kind) <= Rank(g[j].kind) {
      if j >= |w| + |f| {
        assert g[j] == e[j - |w| - |f|];
      } else if j >= |w| {
        assert g[j] == f[j - |w|];
        if i >= |w| {
          assert g[i] == f[i - |w|];
        } else {
          assert g[i] == w[i];
        }
      } else {
        assert g[i] == w[i] && g[j] == w[j];
      }
    }
  }

  lemma WallGuidesSplit(c: Container, s: Vec3, p: Vec3)
    ensures WallGuides(c, s, p) == WallLines(c, s, p) + GuideIfNear(p.y, Y, s.y / 2.0, Floor)
  {
  }

  lemma NearOfKind(coord: real, axis: Axis, value: real, kind: GuideKind)
    ensures AllOfKind(GuideIfNear(coord, axis, value, kind), kind)
  {
  }

  /** The guides come out ordered: wall guides, then the floor guide, then element guides. */
  lemma GuidesOrdered(c: Container, els: seq<Element>, id: int, p: Vec3)
    ensures KindsOrdered(AlignmentGuides(c, els, id, p))
  {
    if Lookup(els, id).Some? {
      var s := Lookup(els, id).value.size;
      var w, f := WallLines(c, s, p), GuideIfNear(p.y, Y, s.y / 2.0, Floor);
      NearOfKind(p.y, Y, s.y / 2.0, Floor);
      var rest := ElementGuides(els, id, p);
      assert AllOfKind(rest, ElementLine) by {
        assert forall i :: 0 <= i < |rest| ==> rest[i] in rest;
      }
      BlocksOrdered(w, f, rest);
      WallGuidesSplit(c, s, p);
      assert AlignmentGuides(c, els, id, p) == WallGuides(c, s, p) + rest;
    }
  }
}
