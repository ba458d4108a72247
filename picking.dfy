/**
  Mouse picking in the ocean scene (front/app/PickHelper.js): a helper that,
  once per frame, restores the colour of the submarine it highlighted last,
  keeps the intersections whose material is named "submarine", paints the
  nearest one red and shows its label; and the pointer mapping that turns a
  pointer event into the normalised coordinates the ray is cast through.
*/
module Picking {
  import opened Wrappers

  /** The material name the filter accepts (the name index.js gives every submarine material). */
  const PICKABLE: string := "submarine"

  /** The highlight colour, as a hex value. */
  const HIGHLIGHT: Color := 0xFF0000

  /** The coordinate clearPickPosition stores: far off the [-1, 1] square. */
  const OUTSIDE: real := -100000.0

  /** The colour a freshly loaded submarine material starts with. */
  const SUBMARINE_COLOR: Color := 0x000000

  /** A colour as `getHex()` returns it and `setHex` keeps it: 24 bits, 0xRRGGBB. */
  type Color = c: int | 0 <= c <= 0xFF_FFFF

  /**
    A material. Its colour is the hex value `color.getHex()` returns; its label
    is the DOM element pick shows and hides: None when the material has no
    `label` at all, Some(shown) when it has one, shown meaning display 'block'.
  */
  class Material {
    const name: string
    var color: Color
    var labelShown: Option<bool>

    constructor (name: string, color: Color)
      ensures this.name == name && this.color == color && labelShown == None
    {
      this.name := name;
      this.color := color;
      labelShown := None;
    }
  }

  /** A scene node; several nodes may share one material. */
  class Object3D {
    const material: Material?

    constructor (material: Material?)
      ensures this.material == material
    {
      this.material := material;
    }
  }

  /** One record of the raycaster's result, which lists them nearest first. */
  datatype Intersection = Intersection(distance: real, node: Object3D)

  /** How a call of pick ends: normally, or by the TypeError of reading `style` of a missing label. */
  datatype Completion = Normal | Throw

  /** The filter of pick: the object has a material and the material's name is "submarine". */
  predicate IsPickable(o: Object3D)
  {
    o.material != null && o.material.name == PICKABLE
  }

  /** The intersections the filter keeps, in the raycaster's order. */
  function Candidates(hits: seq<Intersection>): (r: seq<Intersection>)
    ensures |r| <= |hits|
    ensures forall c :: c in r ==> c in hits && IsPickable(c.node)
    ensures forall h :: h in hits && IsPickable(h.node) ==> h in r
  {
    if hits == [] then []
    else if IsPickable(hits[0].node) then [hits[0]] + Candidates(hits[1..])
    else Candidates(hits[1..])
  }

  /** The first candidate is the first pickable intersection of the list. */
  lemma {:induction false} FirstCandidate(hits: seq<Intersection>, i: nat)
    requires i < |hits| && IsPickable(hits[i].node)
    requires forall k :: 0 <= k < i ==> !IsPickable(hits[k].node)
    ensures Candidates(hits) != [] && Candidates(hits)[0] == hits[i]
  {
    if i > 0 {
      FirstCandidate(hits[1..], i - 1);
    }
  }

  /** The raycaster's promise: the list is ordered by distance, nearest first. */
  predicate ByDistance(hits: seq<Intersection>)
  {
    forall a, b :: 0 <= a < b < |hits| ==> hits[a].distance <= hits[b].distance
  }

  /**
    On a distance-ordered list the first candidate is a nearest pickable
    intersection: an object that is not pickable never wins, however close.
  */
  lemma {:induction false} FirstCandidateIsNearest(hits: seq<Intersection>)
    requires ByDistance(hits) && Candidates(hits) != []
    ensures forall h :: h in hits && IsPickable(h.node) ==> Candidates(hits)[0].distance <= h.distance
  {
    var c := Candidates(hits)[0];
    if IsPickable(hits[0].node) {
      assert c == hits[0];
      forall h | h in hits && IsPickable(h.node)
        ensures c.distance <= h.distance
      {
        var k :| 0 <= k < |hits| && hits[k] == h;
        assert hits[0].distance <= hits[k].distance;
      }
    } else {
      assert Candidates(hits) == Candidates(hits[1..]);
      FirstCandidateIsNearest(hits[1..]);
      forall h | h in hits && IsPickable(h.node)
        ensures c.distance <= h.distance
      {
        assert h in hits[1..];
      }
    }
  }

  // ---------------------------------------------------------------------------
  // The pointer mapping (setPickPosition, clearPickPosition)
  // ---------------------------------------------------------------------------

  /** The module-level `pickPosition`, shared by every helper; it starts at (0, 0). */
  class PickPosition {
    var x: real
    var y: real

    constructor ()
      ensures x == 0.0 && y == 0.0
    {
      x, y := 0.0, 0.0;
    }
  }

  /** The renderer's canvas, whose drawing-buffer size the renderer may change. */
  class Canvas {
    var width: nat
    var height: nat

    constructor (width: nat, height: nat)
      ensures this.width == width && this.height == height
    {
      this.width, this.height := width, height;
    }
  }

  /** The canvas's bounding box on the page, as getBoundingClientRect reports it. */
  datatype Rect = Rect(left: real, top: real, width: real, height: real)

  datatype Point = Point(x: real, y: real)

  /**
    getCanvasRelativePosition: the pointer's offset inside the bounding box,
    rescaled from CSS pixels to drawing-buffer pixels.
  */
  function CanvasRelativePosition(clientX: real, clientY: real, rect: Rect, canvasWidth: nat, canvasHeight: nat): (p: Point)
    requires 0.0 < rect.width && 0.0 < rect.height
  {
    Point((clientX - rect.left) * canvasWidth as real / rect.width, (clientY - rect.top) * canvasHeight as real / rect.height)
  }

  /**
    The edges of the bounding box map to the edges of the drawing buffer, and
    a pointer inside the box to a point inside the buffer.
  */
  lemma CanvasRelativeEdges(clientX: real, clientY: real, rect: Rect, canvasWidth: nat, canvasHeight: nat)
    requires 0.0 < rect.width && 0.0 < rect.height
    ensures var p := CanvasRelativePosition(clientX, clientY, rect, canvasWidth, canvasHeight);
      && (clientX == rect.left ==> p.x == 0.0)
      && (clientX == rect.left + rect.width ==> p.x == canvasWidth as real)
      && (clientY == rect.top ==> p.y == 0.0)
      && (clientY == rect.top + rect.height ==> p.y == canvasHeight as real)
      && (rect.left <= clientX <= rect.left + rect.width ==> 0.0 <= p.x <= canvasWidth as real)
      && (rect.top <= clientY <= rect.top + rect.height ==> 0.0 <= p.y <= canvasHeight as real)
  {
    var dx, dy := clientX - rect.left, clientY - rect.top;
    AxisScale(dx, canvasWidth as real, rect.width);
    AxisScale(dy, canvasHeight as real, rect.height);
  }

  /** Rescaling an offset d in [0, r] by w / r lands in [0, w], with 0 and r going to 0 and w. */
  lemma AxisScale(d: real, w: real, r: real)
    requires 0.0 < r && 0.0 <= w
    ensures d == 0.0 ==> d * w / r == 0.0
    ensures d == r ==> d * w / r == w
    ensures 0.0 <= d <= r ==> 0.0 <= d * w / r <= w
  {
    UnitRatio(d, r);
    MulDivSwap(d, w, r);
    if 0.0 <= d <= r {
      ScaledUnit(d / r, w);
    }
  }

  lemma ScaledUnit(t: real, w: real)
    requires 0.0 <= t <= 1.0 && 0.0 <= w
    ensures 0.0 <= t * w <= w
  {
    assert (1.0 - t) * w >= 0.0;
  }

  /**
    The normalised device coordinates setPickPosition stores: x from [0, width]
    onto [-1, 1], y from [0, height] onto [1, -1] (flipped).
  */
  function Normalized(p: Point, canvasWidth: nat, canvasHeight: nat): (n: Point)
    requires 0 < canvasWidth && 0 < canvasHeight
  {
    Point(p.x / canvasWidth as real * 2.0 - 1.0, p.y / canvasHeight as real * -2.0 + 1.0)
  }

  /** A point is inside the canvas exactly when its normalised coordinates are inside [-1, 1]. */
  lemma NormalizedRange(p: Point, canvasWidth: nat, canvasHeight: nat)
    requires 0 < canvasWidth && 0 < canvasHeight
    ensures var n := Normalized(p, canvasWidth, canvasHeight);
      && (0.0 <= p.x <= canvasWidth as real <==> -1.0 <= n.x <= 1.0)
      && (0.0 <= p.y <= canvasHeight as real <==> -1.0 <= n.y <= 1.0)
  {
    UnitRatio(p.x, canvasWidth as real);
    UnitRatio(p.y, canvasHeight as real);
  }

  /** The corners go to the corners of [-1, 1]², y flipped, and the centre to (0, 0). */
  lemma NormalizedCorners(p: Point, canvasWidth: nat, canvasHeight: nat)
    requires 0 < canvasWidth && 0 < canvasHeight
    ensures var n := Normalized(p, canvasWidth, canvasHeight);
      && (p.x == 0.0 ==> n.x == -1.0)
      && (p.x == canvasWidth as real ==> n.x == 1.0)
      && (p.y == 0.0 ==> n.y == 1.0)
      && (p.y == canvasHeight as real ==> n.y == -1.0)
      && (p == Point(canvasWidth as real / 2.0, canvasHeight as real / 2.0) ==> n == Point(0.0, 0.0))
  {
    var w, h := canvasWidth as real, canvasHeight as real;
    assert w / w == 1.0 && h / h == 1.0;
    assert w / 2.0 / w == 0.5 && h / 2.0 / h == 0.5;
  }

  /** The canvas point a normalised coordinate pair stands for. */
  function Denormalized(n: Point, canvasWidth: nat, canvasHeight: nat): (p: Point)
  {
    Point((n.x + 1.0) / 2.0 * canvasWidth as real, (1.0 - n.y) / 2.0 * canvasHeight as real)
  }

  /** a lies in [0, w] exactly when a / w lies in [0, 1]. */
  lemma UnitRatio(a: real, w: real)
    requires 0.0 < w
    ensures 0.0 <= a <= w <==> 0.0 <= a / w <= 1.0
  {
    var t := a / w;
    assert t * w == a;
    assert (1.0 - t) * w == w - a;
    SignOfProduct(t, w);
    SignOfProduct(1.0 - t, w);
  }

  lemma SignOfProduct(t: real, w: real)
    requires 0.0 < w
    ensures 0.0 <= t <==> 0.0 <= t * w
  {
  }

  lemma DivMulCancel(a: real, w: real)
    requires w != 0.0
    ensures a / w * w == a
  {
  }

  lemma MulDivCancel(a: real, w: real)
    requires w != 0.0
    ensures a * w / w == a
  {
    var q := a * w / w;
    assert q * w == a * w;
    assert (q - a) * w == 0.0;
  }

  lemma MulDivSwap(a: real, w: real, r: real)
    requires r != 0.0
    ensures a * w / r == a / r * w
  {
    var q := a / r;
    assert q * r == a;
    assert a * w == q * w * r;
    MulDivCancel(q * w, r);
  }

  /** Normalising loses nothing: the two maps are inverse to each other. */
  lemma NormalizedRoundTrip(p: Point, n: Point, canvasWidth: nat, canvasHeight: nat)
    requires 0 < canvasWidth && 0 < canvasHeight
    ensures Denormalized(Normalized(p, canvasWidth, canvasHeight), canvasWidth, canvasHeight) == p
    ensures Normalized(Denormalized(n, canvasWidth, canvasHeight), canvasWidth, canvasHeight) == n
  {
    var w, h := canvasWidth as real, canvasHeight as real;
    assert Normalized(p, canvasWidth, canvasHeight) == Point(p.x / w * 2.0 - 1.0, p.y / h * -2.0 + 1.0);
    var d := Denormalized(n, canvasWidth, canvasHeight);
    assert d == Point((n.x + 1.0) / 2.0 * w, (1.0 - n.y) / 2.0 * h);
    assert Normalized(d, canvasWidth, canvasHeight) == Point(d.x / w * 2.0 - 1.0, d.y / h * -2.0 + 1.0);
    AxisRoundTrip(p.x, n.x, w);
    FlippedAxisRoundTrip(p.y, n.y, h);
  }

  lemma AxisRoundTrip(a: real, t: real, w: real)
    requires 0.0 < w
    ensures (a / w * 2.0 - 1.0 + 1.0) / 2.0 * w == a
    ensures (t + 1.0) / 2.0 * w / w * 2.0 - 1.0 == t
  {
    DivMulCancel(a, w);
    var u := (t + 1.0) / 2.0;
    MulDivCancel(u, w);
    assert (t + 1.0) / 2.0 * w / w == u;
  }

  lemma FlippedAxisRoundTrip(a: real, t: real, h: real)
    requires 0.0 < h
    ensures (1.0 - (a / h * -2.0 + 1.0)) / 2.0 * h == a
    ensures (1.0 - t) / 2.0 * h / h * -2.0 + 1.0 == t
  {
    DivMulCancel(a, h);
    var u := (1.0 - t) / 2.0;
    MulDivCancel(u, h);
    assert (1.0 - t) / 2.0 * h / h == u;
  }

  /** The y axis is flipped: a point lower on the canvas gets a smaller normalised y. */
  lemma NormalizedFlipsY(p: Point, q: Point, canvasWidth: nat, canvasHeight: nat)
    requires 0 < canvasWidth && 0 < canvasHeight
    requires p.y < q.y
    ensures Normalized(p, canvasWidth, canvasHeight).y > Normalized(q, canvasWidth, canvasHeight).y
  {
    var h := canvasHeight as real;
    assert p.y / h < q.y / h;
  }

  /**
    The stored coordinates depend only on where the pointer is inside the
    bounding box: the drawing-buffer size cancels out.
  */
  lemma PickPositionIgnoresBufferSize(clientX: real, clientY: real, rect: Rect, canvasWidth: nat, canvasHeight: nat)
    requires 0.0 < rect.width && 0.0 < rect.height
    requires 0 < canvasWidth && 0 < canvasHeight
    ensures Normalized(CanvasRelativePosition(clientX, clientY, rect, canvasWidth, canvasHeight), canvasWidth, canvasHeight)
         == Point((clientX - rect.left) / rect.width * 2.0 - 1.0, (clientY - rect.top) / rect.height * -2.0 + 1.0)
  {
    var w, h := canvasWidth as real, canvasHeight as real;
    var dx, dy := clientX - rect.left, clientY - rect.top;
    var p := CanvasRelativePosition(clientX, clientY, rect, canvasWidth, canvasHeight);
    assert p == Point(dx * w / rect.width, dy * h / rect.height);
    assert Normalized(p, canvasWidth, canvasHeight) == Point(p.x / w * 2.0 - 1.0, p.y / h * -2.0 + 1.0);
    ScaleCancels(dx, w, rect.width);
    ScaleCancels(dy, h, rect.height);
  }

  lemma ScaleCancels(d: real, w: real, r: real)
    requires w != 0.0 && r != 0.0
    ensures d * w / r / w == d / r
  {
    MulDivSwap(d, w, r);
    MulDivCancel(d / r, w);
  }

  /**
    A pointer inside the canvas always yields coordinates in [-1, 1], so it can
    never coincide with the position clearPickPosition stores.
  */
  lemma PointerNeverLooksCleared(clientX: real, clientY: real, rect: Rect, canvasWidth: nat, canvasHeight: nat)
    requires 0.0 < rect.width && 0.0 < rect.height
    requires 0 < canvasWidth && 0 < canvasHeight
    requires rect.left <= clientX <= rect.left + rect.width
    requires rect.top <= clientY <= rect.top + rect.height
    ensures var n := Normalized(CanvasRelativePosition(clientX, clientY, rect, canvasWidth, canvasHeight), canvasWidth, canvasHeight);
      -1.0 <= n.x <= 1.0 && -1.0 <= n.y <= 1.0 && n.x != OUTSIDE && n.y != OUTSIDE
  {
    CanvasRelativeEdges(clientX, clientY, rect, canvasWidth, canvasHeight);
    NormalizedRange(CanvasRelativePosition(clientX, clientY, rect, canvasWidth, canvasHeight), canvasWidth, canvasHeight);
  }

  // ---------------------------------------------------------------------------
  // The helper
  // ---------------------------------------------------------------------------

  class PickHelper {
    /** The object highlighted last, or null. */
    var pickedObject: Object3D?
    /** Its material's colour before it was painted red. */
    var pickedObjectSavedColor: Color
    const canvas: Canvas
    const pickPosition: PickPosition

    /** Only a candidate of the filter is ever picked. */
    ghost predicate Valid()
      reads this
    {
      pickedObject != null ==> IsPickable(pickedObject)
    }

    constructor (canvas: Canvas, pickPosition: PickPosition)
      ensures Valid()
      ensures pickedObject == null && pickedObjectSavedColor == 0
      ensures this.canvas == canvas && this.pickPosition == pickPosition
    {
      pickedObject := null;
      pickedObjectSavedColor := 0;
      this.canvas := canvas;
      this.pickPosition := pickPosition;
    }

    /** What one call of Pick may write: the previous pick's material and the first candidate's. */
    ghost function Touched(hits: seq<Intersection>): set<object>
      reads this
    {
      var cands := Candidates(hits);
      (if pickedObject != null && pickedObject.material != null then {pickedObject.material} else {})
      + (if cands != [] && cands[0].node.material != null then {cands[0].node.material} else {})
    }

    /**
      One frame of picking, given the raycaster's intersections nearest first.
      First the previous pick is undone (its colour restored, its label hidden,
      the reference cleared); then the first candidate, if any, is picked, its
      label shown, its colour saved and replaced by red. A missing label throws
      where the source reads `label.style`: at the restore, after the colour is
      written back, or at the new pick, after the reference is stored and
      before anything is saved or painted.
    */
    method Pick(hits: seq<Intersection>) returns (completion: Completion)
      requires Valid()
      modifies this, Touched(hits)
      ensures Valid()
      // Restoring an unlabelled previous pick: its colour is written back, then the throw.
      ensures old(pickedObject) != null && old(pickedObject.material.labelShown) == None ==>
        && completion == Throw
        && pickedObject == old(pickedObject)
        && pickedObjectSavedColor == old(pickedObjectSavedColor)
        && pickedObject.material.color == old(pickedObjectSavedColor)
        && pickedObject.material.labelShown == None
      // The throw comes before the ray test: no other material is written.
      ensures old(pickedObject) != null && old(pickedObject.material.labelShown) == None ==>
        var cands := Candidates(hits);
        (cands != [] && cands[0].node.material != null && cands[0].node.material != old(pickedObject).material) ==>
          && cands[0].node.material.color == old(cands[0].node.material.color)
          && cands[0].node.material.labelShown == old(cands[0].node.material.labelShown)
      // Otherwise the previous pick is restored and hidden unless the new pick repaints the same material.
      ensures old(pickedObject) != null && old(pickedObject.material.labelShown) != None ==>
        var m := old(pickedObject).material;
        var cands := Candidates(hits);
        (cands == [] || cands[0].node.material != m) ==>
          m.color == old(pickedObjectSavedColor) && m.labelShown == Some(false)
      // No candidate: nothing is picked and the saved colour stays.
      ensures (old(pickedObject) == null || old(pickedObject.material.labelShown) != None) && Candidates(hits) == [] ==>
        completion == Normal && pickedObject == null && pickedObjectSavedColor == old(pickedObjectSavedColor)
      // A candidate: the first one is picked; an unlabelled one throws before it is saved or painted,
      // a labelled one shows its label, saves its colour as it stood after the restore and turns red.
      ensures (old(pickedObject) == null || old(pickedObject.material.labelShown) != None) && Candidates(hits) != [] ==>
        var first := Candidates(hits)[0].node;
        var same := old(pickedObject) != null && old(pickedObject).material == first.material;
        var colorBefore := if same then old(pickedObjectSavedColor) else old(first.material.color);
        var labelBefore := if same then Some(false) else old(first.material.labelShown);
        && pickedObject == first
        && (labelBefore == None ==>
              completion == Throw && first.material.color == colorBefore && first.material.labelShown == None
              && pickedObjectSavedColor == old(pickedObjectSavedColor))
        && (labelBefore != None ==>
              completion == Normal && first.material.color == HIGHLIGHT && first.material.labelShown == Some(true)
              && pickedObjectSavedColor == colorBefore)
      // Picking the same material again keeps the colour saved first, never the red.
      ensures (old(pickedObject) != null && pickedObject != null && completion == Normal
               && pickedObject.material == old(pickedObject).material) ==>
        pickedObjectSavedColor == old(pickedObjectSavedColor)
    {
      // Undo the previous highlight.
      if pickedObject != null {
        var m := pickedObject.material;
        m.color := pickedObjectSavedColor;
        if m.labelShown == None {
          return Throw;
        }
        m.labelShown := Some(false);
        pickedObject := null;
      }
      var cands := Candidates(hits);
      if cands != [] {
        pickedObject := cands[0].node;
        var m := pickedObject.material;
        if m.labelShown == None {
          return Throw;
        }
        m.labelShown := Some(true);
        pickedObjectSavedColor := m.color;
        m.color := HIGHLIGHT;
      }
      return Normal;
    }

    /** setPickPosition: store the normalised coordinates of a pointer event. */
    method SetPickPosition(clientX: real, clientY: real, rect: Rect)
      requires 0 < canvas.width && 0 < canvas.height
      requires 0.0 < rect.width && 0.0 < rect.height
      modifies pickPosition
      ensures Point(pickPosition.x, pickPosition.y)
           == Normalized(CanvasRelativePosition(clientX, clientY, rect, canvas.width, canvas.height), canvas.width, canvas.height)
    {
      var pos := CanvasRelativePosition(clientX, clientY, rect, canvas.width, canvas.height);
      pickPosition.x := pos.x / canvas.width as real * 2.0 - 1.0;
      pickPosition.y := pos.y / canvas.height as real * -2.0 + 1.0;
    }

    /** clearPickPosition: move the pick position far off the canvas. */
    method ClearPickPosition()
      modifies pickPosition
      ensures pickPosition.x == OUTSIDE && pickPosition.y == OUTSIDE
      ensures pickPosition.x < -1.0 && pickPosition.y < -1.0
    {
      pickPosition.x := OUTSIDE;
      pickPosition.y := OUTSIDE;
    }
  }

  // ---------------------------------------------------------------------------
  // Loading a submarine (the material part of addSubmarine in index.js)
  // ---------------------------------------------------------------------------

  /**
    The material addSubmarine builds and hands to every node of the loaded
    model, as written: black, named "submarine", and without a label.
  */
  method LoadSubmarine(nodeCount: nat) returns (material: Material, nodes: seq<Object3D>)
    ensures fresh(material)
    ensures material.name == PICKABLE && material.color == SUBMARINE_COLOR && material.labelShown == None
    ensures |nodes| == nodeCount
    ensures forall n :: n in nodes ==> n.material == material && IsPickable(n)
  {
    material := new Material(PICKABLE, SUBMARINE_COLOR);
    nodes := [];
    while |nodes| < nodeCount
      invariant |nodes| <= nodeCount
      invariant forall n :: n in nodes ==> n.material == material
      invariant material.color == SUBMARINE_COLOR && material.labelShown == None
    {
      var node := new Object3D(material);
      nodes := nodes + [node];
    }
  }

  /** The same, with the hidden label the picking code expects every submarine material to carry. */
  method LoadLabelledSubmarine(nodeCount: nat) returns (material: Material, nodes: seq<Object3D>)
    ensures fresh(material)
    ensures material.name == PICKABLE && material.color == SUBMARINE_COLOR && material.labelShown == Some(false)
    ensures |nodes| == nodeCount
    ensures forall n :: n in nodes ==> n.material == material && IsPickable(n)
  {
    material, nodes := LoadSubmarine(nodeCount);
    material.labelShown := Some(false);
  }

  // ---------------------------------------------------------------------------
  // Frames in sequence
  // ---------------------------------------------------------------------------

  /**
    As written: once the ray meets a loaded submarine, that frame's pick throws
    before the highlight, and every later frame throws at the restore, whatever
    the ray meets.
  */
  method UnlabelledHitThrows(helper: PickHelper, nodeCount: nat, distance: real, later: seq<Intersection>)
      returns (material: Material, first: Completion, second: Completion)
    requires helper.Valid() && helper.pickedObject == null
    requires 0 < nodeCount
    modifies helper, helper.Touched(later)
    ensures first == Throw && second == Throw
    ensures helper.pickedObject != null && helper.pickedObject.material == material
    // The restore writes back whatever colour the helper saved before: the throw came before any save.
    ensures material.color == old(helper.pickedObjectSavedColor) && material.labelShown == None
  {
    var nodes;
    material, nodes := LoadSubmarine(nodeCount);
    var hits := [Intersection(distance, nodes[0])];
    assert Candidates(hits) == hits;
    first := helper.Pick(hits);
    assert helper.pickedObject == nodes[0];
    second := helper.Pick(later);
  }

  /**
    With the label in place, the nearest submarine turns red and shows its
    label, and when the pointer leaves it on the next frame its colour returns
    and nothing stays picked.
  */
  method LabelledHitHighlights(helper: PickHelper, nodeCount: nat, distance: real, later: seq<Intersection>)
      returns (material: Material, first: Completion, second: Completion)
    requires helper.Valid() && helper.pickedObject == null
    requires 0 < nodeCount
    requires Candidates(later) == []
    modifies helper, helper.Touched(later)
    ensures first == Normal && second == Normal
    ensures helper.pickedObject == null
    ensures material.color == SUBMARINE_COLOR && material.labelShown == Some(false)
  {
    var nodes;
    material, nodes := LoadLabelledSubmarine(nodeCount);
    var hits := [Intersection(distance, nodes[0])];
    assert Candidates(hits) == hits;
    first := helper.Pick(hits);
    assert material.color == HIGHLIGHT && material.labelShown == Some(true);
    assert helper.pickedObjectSavedColor == SUBMARINE_COLOR;
    second := helper.Pick(later);
    assert material.color == SUBMARINE_COLOR && material.labelShown == Some(false);
  }
}
