/** `postprocess_yolo` of infer_rknn_plate.py: from grid cells to detections. */
module Detect {
  import opened Ranking
  import opened Letterbox
  import N = Nms

  type Logits = s: seq<real> | |s| == 16 witness seq(16, _ => 0.0)

  /** One grid cell: position, stride, the four DFL sides and the class scores. */
  datatype Cell = Cell(
    gx: nat, gy: nat, stride: nat,
    left: Logits, top: Logits, right: Logits, bottom: Logits, cls: seq<real>)

  /** The original image, the way back to it, and the thresholds. */
  datatype View = View(w: nat, h: nat, ratio: real, padX: real, padY: real, conf: real, nms: real, classes: nat)

  /** `cell` is the number of the grid cell it comes from. */
  datatype Detection = Detection(box: N.Box, class_: nat, score: real, cell: nat)

  function Clip(v: real, hi: real): real { if v < 0.0 then 0.0 else if v > hi then hi else v }

  /** One coordinate: letterbox grid to original image, clipped. */
  function ToImage(v: real, pad: real, ratio: real, size: nat): real
    requires ratio > 0.0
  {
    Clip((v - pad) / ratio, (size - 1) as real)
  }

  /** At distance `shift` from the centre of grid position `g`, in letterbox pixels. */
  function Place(g: nat, shift: real, stride: nat): real { (g as real + 0.5 + shift) * stride as real }

  /** The side at distance `shift` from the centre of grid position `g`. */
  function Edge(g: nat, shift: real, stride: nat, pad: real, ratio: real, size: nat): real
    requires ratio > 0.0
  {
    ToImage(Place(g, shift, stride), pad, ratio, size)
  }

  function BoxOf(c: Cell, v: View, e: real -> real): N.Box
    requires v.ratio > 0.0
  {
    N.Box(Edge(c.gx, -DflDistance(c.left, e), c.stride, v.padX, v.ratio, v.w),
          Edge(c.gy, -DflDistance(c.top, e), c.stride, v.padY, v.ratio, v.h),
          Edge(c.gx, DflDistance(c.right, e), c.stride, v.padX, v.ratio, v.w),
          Edge(c.gy, DflDistance(c.bottom, e), c.stride, v.padY, v.ratio, v.h))
  }

  predicate InImage(b: N.Box, v: View) {
    0.0 <= b.x1 <= b.x2 <= (v.w - 1) as real && 0.0 <= b.y1 <= b.y2 <= (v.h - 1) as real
  }

  lemma ToImageOrdered(a: real, b: real, pad: real, ratio: real, size: nat)
    requires ratio > 0.0 && size > 0 && a <= b
    ensures 0.0 <= ToImage(a, pad, ratio, size) <= ToImage(b, pad, ratio, size) <= (size - 1) as real
  {
    Quotient(a - pad, b - pad, ratio);
  }

  lemma Quotient(a: real, b: real, r: real)
    requires r > 0.0 && a <= b
    ensures a / r <= b / r
  {
    assert a / r * r == a && b / r * r == b;
  }

  lemma Times(a: real, b: real, s: real)
    requires a <= b && s >= 0.0
    ensures a * s <= b * s
  {
  }

  lemma PlaceOrdered(g: nat, a: real, b: real, stride: nat)
    requires a <= b
    ensures Place(g, a, stride) <= Place(g, b, stride)
  {
    Times(g as real + 0.5 + a, g as real + 0.5 + b, stride as real);
  }

  lemma EdgesOrdered(g: nat, before: real, after: real, stride: nat, pad: real, ratio: real, size: nat)
    requires ratio > 0.0 && size > 0 && before >= 0.0 && after >= 0.0
    ensures 0.0 <= Edge(g, -before, stride, pad, ratio, size)
                <= Edge(g, after, stride, pad, ratio, size) <= (size - 1) as real
  {
    hide ToImage, Place;
    PlaceOrdered(g, -before, after, stride);
    ToImageOrdered(Place(g, -before, stride), Place(g, after, stride), pad, ratio, size);
  }

  /** Whatever the network says, a decoded box is ordered and lies inside the image. */
  lemma BoxInImage(c: Cell, v: View, e: real -> real)
    requires v.ratio > 0.0 && v.w > 0 && v.h > 0 && Positive(e)
    ensures InImage(BoxOf(c, v, e), v)
  {
    DflInRange(c.left, e);
    DflInRange(c.top, e);
    DflInRange(c.right, e);
    DflInRange(c.bottom, e);
    hide DflDistance, Edge, Positive;
    EdgesOrdered(c.gx, DflDistance(c.left, e), DflDistance(c.right, e), c.stride, v.padX, v.ratio, v.w);
    EdgesOrdered(c.gy, DflDistance(c.top, e), DflDistance(c.bottom, e), c.stride, v.padY, v.ratio, v.h);
  }

  // ---------------------------------------------------------------- where the sides lie

  /** The way back from the letterbox of a `w` by `h` image. */
  function ViewOf(w: nat, h: nat, conf: real, nms: real, classes: nat): View
    requires w > 0 && h > 0 && LetterboxLayout(w, h).Layout?
  {
    var l := LetterboxLayout(w, h);
    View(w, h, l.ratio, l.x.pad, l.y.pad, conf, nms, classes)
  }

  lemma ClipNear(v: real, u: real, hi: real, err: real)
    requires 0.0 <= u <= hi && Within(v - u, err)
    ensures Within(Clip(v, hi) - u, err)
  {
  }

  /** A letterbox coordinate at which the picture shows `u` is mapped back to `u`, but for one
      letterbox pixel. */
  lemma SideMapsBack(src: nat, other: nat, v: real, u: real)
    requires src > 0 && other > 0 && 0.0 <= u <= (src - 1) as real
    requires v == Shown(AxisOf(src, Ratio(src, other)), src, u)
    ensures var (r, a) := (Ratio(src, other), AxisOf(src, Ratio(src, other)));
            r > 0.0 && Within(ToImage(v, a.pad, r, src) - u, 1.0 / r)
  {
    hide Ratio, AxisOf, Shown, Clip;
    MapBackError(src, other, u);
    var (r, a) := (Ratio(src, other), AxisOf(src, Ratio(src, other)));
    NegatedQuotient(r);
    ClipNear((v - a.pad) / r, u, (src - 1) as real, 1.0 / r);
  }

  lemma NegatedQuotient(r: real)
    requires r > 0.0
    ensures -1.0 / r == -(1.0 / r)
  {
  }

  /** The four sides of a cell's box in letterbox pixels: its centre less or plus a distance. */
  datatype Sides = Sides(left: real, top: real, right: real, bottom: real)

  function SidesOf(c: Cell, e: real -> real): Sides {
    var s := c.stride as real;
    var (x, y) := ((c.gx as real + 0.5) * s, (c.gy as real + 0.5) * s);
    Sides(x - DflDistance(c.left, e) * s, y - DflDistance(c.top, e) * s,
          x + DflDistance(c.right, e) * s, y + DflDistance(c.bottom, e) * s)
  }

  lemma PlaceIs(g: nat, shift: real, stride: nat)
    ensures Place(g, shift, stride) == (g as real + 0.5) * stride as real + shift * stride as real
    ensures Place(g, -shift, stride) == (g as real + 0.5) * stride as real - shift * stride as real
  {
    Spread(g as real + 0.5, shift, stride as real);
    Spread(g as real + 0.5, -shift, stride as real);
    Flip(shift, stride as real);
  }

  lemma SidesArePlaces(c: Cell, e: real -> real)
    ensures var s := SidesOf(c, e);
            && s.left == Place(c.gx, -DflDistance(c.left, e), c.stride)
            && s.top == Place(c.gy, -DflDistance(c.top, e), c.stride)
            && s.right == Place(c.gx, DflDistance(c.right, e), c.stride)
            && s.bottom == Place(c.gy, DflDistance(c.bottom, e), c.stride)
  {
    hide DflDistance, Place;
    PlaceIs(c.gx, DflDistance(c.left, e), c.stride);
    PlaceIs(c.gy, DflDistance(c.top, e), c.stride);
    PlaceIs(c.gx, DflDistance(c.right, e), c.stride);
    PlaceIs(c.gy, DflDistance(c.bottom, e), c.stride);
  }

  lemma Spread(a: real, b: real, s: real)
    ensures (a + b) * s == a * s + b * s
  {
  }

  lemma Flip(a: real, s: real)
    ensures -a * s == -(a * s)
  {
  }

  /** Where the letterboxed picture shows the image's column `u`, and its row. */
  predicate ShownAtX(w: nat, h: nat, v: real, u: real)
    requires w > 0 && h > 0
  {
    0.0 <= u <= (w - 1) as real && v == Shown(AxisOf(w, Ratio(w, h)), w, u)
  }

  predicate ShownAtY(w: nat, h: nat, v: real, u: real)
    requires w > 0 && h > 0
  {
    0.0 <= u <= (h - 1) as real && v == Shown(AxisOf(h, Ratio(h, w)), h, u)
  }

  lemma ViewParts(w: nat, h: nat, conf: real, nms: real, classes: nat)
    requires w > 0 && h > 0 && LetterboxLayout(w, h).Layout?
    ensures var v := ViewOf(w, h, conf, nms, classes);
            && v.w == w && v.h == h && v.ratio == Ratio(w, h) == Ratio(h, w) && v.ratio > 0.0
            && v.padX == AxisOf(w, Ratio(w, h)).pad && v.padY == AxisOf(h, Ratio(h, w)).pad
  {
    hide Ratio, AxisOf;
    Scaled(w, h);
  }

  lemma EdgeComesBack(g: nat, shift: real, stride: nat, v: real, src: nat, other: nat, u: real)
    requires src > 0 && other > 0 && 0.0 <= u <= (src - 1) as real
    requires Place(g, shift, stride) == v && v == Shown(AxisOf(src, Ratio(src, other)), src, u)
    ensures var (r, a) := (Ratio(src, other), AxisOf(src, Ratio(src, other)));
            r > 0.0 && Within(Edge(g, shift, stride, a.pad, r, src) - u, 1.0 / r)
  {
    hide Ratio, AxisOf, Shown, Place, ToImage, Within;
    SideMapsBack(src, other, v, u);
  }

  /** A side of the box that lies, in letterbox pixels, where the picture shows `u` comes out within
      1 / ratio of `u`: the left and the right one. */
  lemma ColumnsComeBack(c: Cell, w: nat, h: nat, v: View, e: real -> real, u: real)
    requires w > 0 && h > 0 && LetterboxLayout(w, h).Layout? && v == ViewOf(w, h, v.conf, v.nms, v.classes)
    ensures v.ratio > 0.0
    ensures ShownAtX(w, h, SidesOf(c, e).left, u) ==> Within(BoxOf(c, v, e).x1 - u, 1.0 / v.ratio)
    ensures ShownAtX(w, h, SidesOf(c, e).right, u) ==> Within(BoxOf(c, v, e).x2 - u, 1.0 / v.ratio)
  {
    hide Place, DflDistance, Ratio, AxisOf, Shown, Edge, Within, LetterboxLayout, ViewOf, SidesOf;
    ViewParts(w, h, v.conf, v.nms, v.classes);
    SidesArePlaces(c, e);
    var s := SidesOf(c, e);
    if ShownAtX(w, h, s.left, u) {
      EdgeComesBack(c.gx, -DflDistance(c.left, e), c.stride, s.left, w, h, u);
    }
    if ShownAtX(w, h, s.right, u) {
      EdgeComesBack(c.gx, DflDistance(c.right, e), c.stride, s.right, w, h, u);
    }
  }

  /** The upper and the lower one. */
  lemma RowsComeBack(c: Cell, w: nat, h: nat, v: View, e: real -> real, u: real)
    requires w > 0 && h > 0 && LetterboxLayout(w, h).Layout? && v == ViewOf(w, h, v.conf, v.nms, v.classes)
    ensures v.ratio > 0.0
    ensures ShownAtY(w, h, SidesOf(c, e).top, u) ==> Within(BoxOf(c, v, e).y1 - u, 1.0 / v.ratio)
    ensures ShownAtY(w, h, SidesOf(c, e).bottom, u) ==> Within(BoxOf(c, v, e).y2 - u, 1.0 / v.ratio)
  {
    hide Place, DflDistance, Ratio, AxisOf, Shown, Edge, Within, LetterboxLayout, ViewOf, SidesOf;
    ViewParts(w, h, v.conf, v.nms, v.classes);
    SidesArePlaces(c, e);
    var s := SidesOf(c, e);
    if ShownAtY(w, h, s.top, u) {
      EdgeComesBack(c.gy, -DflDistance(c.top, e), c.stride, s.top, h, w, u);
    }
    if ShownAtY(w, h, s.bottom, u) {
      EdgeComesBack(c.gy, DflDistance(c.bottom, e), c.stride, s.bottom, h, w, u);
    }
  }

  // ---------------------------------------------------------------- candidates

  predicate CellsOk(cells: seq<Cell>, v: View) { forall c | c in cells :: |c.cls| == v.classes }

  /** `cls.max(axis=1)` and `np.argmax`: the first best class. */
  method BestClass(cls: seq<real>) returns (k: nat)
    requires cls != []
    ensures k < |cls| && forall j | 0 <= j < |cls| :: cls[j] <= cls[k] && (j < k ==> cls[j] < cls[k])
  {
    k := 0;
    var i := 1;
    while i < |cls|
      invariant 1 <= i <= |cls| && k < i
      invariant forall j | 0 <= j < i :: cls[j] <= cls[k] && (j < k ==> cls[j] < cls[k])
    {
      if cls[i] > cls[k] {
        k := i;
      }
      i := i + 1;
    }
  }

  /** `d` reports cell number `d.cell` truly. */
  predicate Reports(d: Detection, cells: seq<Cell>, v: View, e: real -> real)
    requires v.ratio > 0.0
  {
    && d.cell < |cells| && d.class_ < |cells[d.cell].cls|
    && d.box == BoxOf(cells[d.cell], v, e) && d.score == cells[d.cell].cls[d.class_] >= v.conf
    && var cls := cells[d.cell].cls;
       forall j | 0 <= j < |cls| :: cls[j] <= d.score && (j < d.class_ ==> cls[j] < d.score)
  }

  ghost predicate FromCell(ds: seq<Detection>, k: nat) { exists d | d in ds :: d.cell == k }

  predicate Confident(c: Cell, conf: real) { exists j | 0 <= j < |c.cls| :: c.cls[j] >= conf }

  predicate CellsAscend(ds: seq<Detection>) { forall a, b | 0 <= a < b < |ds| :: ds[a].cell < ds[b].cell }

  lemma OneMoreCell(ds: seq<Detection>, d: Detection)
    ensures FromCell(ds + [d], d.cell) && forall k | FromCell(ds, k) :: FromCell(ds + [d], k)
  {
    assert d in ds + [d];
    forall k | FromCell(ds, k) ensures FromCell(ds + [d], k) {
      var x :| x in ds && x.cell == k;
      assert x in ds + [d];
    }
  }

  lemma ConfidentIs(c: Cell, k: nat, conf: real)
    requires k < |c.cls| && forall j | 0 <= j < |c.cls| :: c.cls[j] <= c.cls[k]
    ensures Confident(c, conf) <==> c.cls[k] >= conf
  {
  }

  /** The cells whose best class reaches the confidence threshold. */
  method Candidates(cells: seq<Cell>, v: View, e: real -> real) returns (ds: seq<Detection>)
    requires v.ratio > 0.0 && v.classes > 0 && CellsOk(cells, v)
    ensures (forall d | d in ds :: Reports(d, cells, v, e)) && CellsAscend(ds)
    ensures forall k | 0 <= k < |cells| && Confident(cells[k], v.conf) :: FromCell(ds, k)
  {
    hide BoxOf, FromCell, Confident;
    ds := [];
    var i := 0;
    while i < |cells|
      invariant i <= |cells| && CellsAscend(ds)
      invariant forall d | d in ds :: Reports(d, cells, v, e) && d.cell < i
      invariant forall k | 0 <= k < i && Confident(cells[k], v.conf) :: FromCell(ds, k)
    {
      assert cells[i] in cells;
      var c := BestClass(cells[i].cls);
      ConfidentIs(cells[i], c, v.conf);
      if cells[i].cls[c] >= v.conf {
        var d := Detection(BoxOf(cells[i], v, e), c, cells[i].cls[c], i);
        assert forall a | 0 <= a < |ds| :: ds[a] in ds;
        OneMoreCell(ds, d);
        ds := ds + [d];
      }
      i := i + 1;
    }
  }

  // ---------------------------------------------------------------- suppression per class

  function OfClass(ds: seq<Detection>, c: nat): (r: seq<Detection>)
    ensures forall d :: d in r <==> d in ds && d.class_ == c
    ensures Distinct(ds) ==> Distinct(r)
  {
    if ds == [] then []
    else
      var r := OfClass(ds[..|ds| - 1], c);
      assert forall i | 0 <= i < |r| :: r[i] in ds[..|ds| - 1];
      if ds[|ds| - 1].class_ == c then r + [ds[|ds| - 1]] else r
  }

  predicate Clashes(a: Detection, b: Detection, nms: real) { N.Iou(a.box, b.box) > nms }

  /** No two kept detections of one class overlap too much. */
  predicate Apart(ds: seq<Detection>, nms: real) {
    forall a, b | a in ds && b in ds && a != b && a.class_ == b.class_ :: !Clashes(a, b, nms)
  }

  /** `d` is kept, or gave way to a kept one of its class that scores at least as high. */
  ghost predicate Covered(d: Detection, kept: seq<Detection>, nms: real) {
    d in kept || exists k | k in kept :: k.class_ == d.class_ && Clashes(k, d, nms) && k.score >= d.score
  }

  function SceneOf(ds: seq<Detection>, nms: real): N.Scene {
    N.Scene(seq(|ds|, (i: nat) requires i < |ds| => ds[i].box),
            seq(|ds|, (i: nat) requires i < |ds| => ds[i].score), nms)
  }

  method OneClass(ds: seq<Detection>, c: nat, nms: real) returns (kept: seq<Detection>)
    requires Distinct(ds)
    ensures Distinct(kept) && forall k | k in kept :: k in ds && k.class_ == c
    ensures Apart(kept, nms)
    ensures forall d | d in ds && d.class_ == c :: Covered(d, kept, nms)
  {
    hide N.PairwiseCompatible, N.DroppedClash, N.Survivors, N.Sorted, Apart, Covered;
    var mine := OfClass(ds, c);
    var s := SceneOf(mine, nms);
    var keep, order := N.NmsXyxy(s);
    kept := seq(|keep|, (i: nat) requires i < |keep| && keep[i] < |mine| => mine[keep[i]]);
    PickedApart(mine, nms, keep, kept);
    forall d | d in ds && d.class_ == c ensures Covered(d, kept, nms) {
      var i :| 0 <= i < |mine| && mine[i] == d;
      PickedCovers(mine, nms, keep, kept, i);
    }
  }

  predicate Picked(mine: seq<Detection>, keep: seq<nat>, kept: seq<Detection>) {
    |kept| == |keep| && forall i | 0 <= i < |keep| :: keep[i] < |mine| && kept[i] == mine[keep[i]]
  }

  lemma PickedApart(mine: seq<Detection>, nms: real, keep: seq<nat>, kept: seq<Detection>)
    requires var s := SceneOf(mine, nms); N.WellFormed(s) && N.Proper(s, keep) && N.PairwiseCompatible(s, keep)
    requires Picked(mine, keep, kept)
    requires Distinct(mine)
    ensures Distinct(kept) && Apart(kept, nms) && forall k | k in kept :: k in mine
  {
    hide N.Iou;
    forall a, b | a in kept && b in kept && a != b && a.class_ == b.class_ ensures !Clashes(a, b, nms) {
      var i :| 0 <= i < |kept| && kept[i] == a;
      var j :| 0 <= j < |kept| && kept[j] == b;
      N.IouIsSymmetric(a.box, b.box);
      assert N.Compatible(SceneOf(mine, nms), keep[if i < j then i else j], keep[if i < j then j else i]);
    }
  }

  lemma PickedCovers(mine: seq<Detection>, nms: real, keep: seq<nat>, kept: seq<Detection>, i: nat)
    requires i < |mine| && Picked(mine, keep, kept)
    requires forall a, b | a in mine && b in mine :: a.class_ == b.class_
    requires N.DroppedClash(SceneOf(mine, nms), keep)
    ensures Covered(mine[i], kept, nms)
  {
    hide N.Iou;
    if i in keep {
      var m :| 0 <= m < |keep| && keep[m] == i;
      assert kept[m] in kept;
    } else {
      var s := SceneOf(mine, nms);
      var k :| k in keep && k < |s.boxes| && !N.Compatible(s, k, i) && s.scores[k] >= s.scores[i];
      var m :| 0 <= m < |keep| && keep[m] == k;
      assert kept[m] in kept && mine[k] in mine && mine[i] in mine;
    }
  }

  // ---------------------------------------------------------------- all classes, sorted

  /** Higher score first; equal scores by class. */
  predicate Before(a: Detection, b: Detection) { a.score > b.score || (a.score == b.score && a.class_ <= b.class_) }

  predicate Ranked(s: seq<Scored<Detection>>) {
    && (forall i | 0 <= i < |s| :: s[i].score == s[i].item.score)
    && forall i, j | 0 <= i < j < |s| :: Before(s[i].item, s[j].item)
  }

  /** Inserting a class that is not below any present keeps the ranking. */
  lemma {:induction false} InsertRanked(s: seq<Scored<Detection>>, b: Scored<Detection>)
    requires Ranked(s) && b.score == b.item.score && forall x | x in s :: x.item.class_ <= b.item.class_
    ensures Ranked(Insert(s, b))
  {
    if s == [] {
    } else if s[|s| - 1].score >= b.score {
      forall i | 0 <= i < |s| ensures Before(s[i].item, b.item) {
        assert s[i] in s;
      }
    } else {
      var n := |s| - 1;
      InsertRanked(s[..n], b);
      var r := Insert(s[..n], b);
      forall i | 0 <= i < |r| ensures Before(r[i].item, s[n].item) {
        assert r[i] in r;
      }
    }
  }

  predicate ClassesAscend(ds: seq<Detection>) { forall i, j | 0 <= i < j < |ds| :: ds[i].class_ <= ds[j].class_ }

  function WithScores(ds: seq<Detection>): seq<Scored<Detection>> {
    seq(|ds|, (i: nat) requires i < |ds| => Scored(ds[i], ds[i].score))
  }

  lemma {:induction false} SortRanked(ds: seq<Detection>)
    requires ClassesAscend(ds)
    ensures Ranked(SortDescending(WithScores(ds)))
  {
    var s := WithScores(ds);
    if ds == [] {
    } else {
      var n := |ds| - 1;
      SortRanked(ds[..n]);
      assert s[..n] == WithScores(ds[..n]);
      forall x | x in SortDescending(s[..n]) ensures x.item.class_ <= ds[n].class_ {
        var i :| 0 <= i < n && s[..n][i] == x;
      }
      InsertRanked(SortDescending(s[..n]), s[n]);
    }
  }

  /** `detections.sort(key=lambda d: (-d.score, d.class_id))` on a list built class by class. */
  method SortDetections(ds: seq<Detection>) returns (r: seq<Detection>)
    requires ClassesAscend(ds) && Distinct(ds)
    ensures |r| == |ds| && Distinct(r) && forall d :: d in r <==> d in ds
    ensures forall i, j | 0 <= i < j < |r| :: Before(r[i], r[j])
  {
    var s := WithScores(ds);
    SortRanked(ds);
    SortKeepsDistinct(s);
    var sorted := SortDescending(s);
    assert forall i | 0 <= i < |ds| :: sorted[i].score == sorted[i].item.score;
    r := seq(|ds|, (i: nat) requires i < |ds| => sorted[i].item);
    forall d ensures d in r <==> d in ds {
      if d in r {
        var i :| 0 <= i < |r| && r[i] == d;
        assert sorted[i] in s;
      }
      if d in ds {
        var i :| 0 <= i < |ds| && ds[i] == d;
        assert s[i] in sorted;
        var j :| 0 <= j < |sorted| && sorted[j] == s[i];
        assert r[j] == d;
      }
    }
  }

  /** Suppression class by class, lowest class first. */
  method AllClasses(ds: seq<Detection>, v: View) returns (kept: seq<Detection>)
    requires Distinct(ds) && forall d | d in ds :: d.class_ < v.classes
    ensures Distinct(kept) && ClassesAscend(kept) && Apart(kept, v.nms) && forall k | k in kept :: k in ds
    ensures forall d | d in ds :: Covered(d, kept, v.nms)
  {
    hide Clashes;
    kept := [];
    var c := 0;
    while c < v.classes
      invariant c <= v.classes && Distinct(kept) && ClassesAscend(kept) && Apart(kept, v.nms)
      invariant forall k | k in kept :: k in ds && k.class_ < c
      invariant forall d | d in ds && d.class_ < c :: Covered(d, kept, v.nms)
    {
      var more := OneClass(ds, c, v.nms);
      AddClass(kept, more, c, v.nms);
      forall d | d in ds && d.class_ < c + 1 ensures Covered(d, kept + more, v.nms) {
        CoveredByMore(d, kept, more, v.nms);
      }
      kept := kept + more;
      c := c + 1;
    }
  }

  lemma AddClass(kept: seq<Detection>, more: seq<Detection>, c: nat, nms: real)
    requires Distinct(kept) && ClassesAscend(kept) && Apart(kept, nms) && forall k | k in kept :: k.class_ < c
    requires Distinct(more) && Apart(more, nms) && forall k | k in more :: k.class_ == c
    ensures Distinct(kept + more) && ClassesAscend(kept + more) && Apart(kept + more, nms)
  {
    hide Clashes;
    assert forall i | 0 <= i < |kept| :: kept[i] in kept;
    assert forall i | 0 <= i < |more| :: more[i] in more;
  }

  lemma CoveredByMore(d: Detection, kept: seq<Detection>, more: seq<Detection>, nms: real)
    requires Covered(d, kept, nms) || Covered(d, more, nms)
    ensures Covered(d, kept + more, nms)
  {
    hide Clashes;
    if d !in kept && d !in more {
      var k :| (k in kept || k in more) && k.class_ == d.class_ && Clashes(k, d, nms) && k.score >= d.score;
      assert k in kept + more;
    }
  }

  /** What the caller gets for grid cell `k`: its own detection, or one of the same class that
      overlaps it too much and scores at least as high. */
  ghost predicate Represented(cells: seq<Cell>, k: nat, v: View, e: real -> real, out: seq<Detection>)
    requires v.ratio > 0.0
  {
    exists d: Detection :: d.cell == k && Reports(d, cells, v, e) && Covered(d, out, v.nms)
  }

  /** `postprocess_yolo`. Every detection is a true report of one confident cell, no cell is reported
      twice, each lies inside the image and overlaps no other of its class; every confident cell is
      represented. */
  method Postprocess(cells: seq<Cell>, v: View, e: real -> real) returns (out: seq<Detection>)
    requires v.ratio > 0.0 && v.classes > 0 && v.w > 0 && v.h > 0 && CellsOk(cells, v) && Positive(e)
    ensures forall d | d in out :: Reports(d, cells, v, e) && InImage(d.box, v)
    ensures Apart(out, v.nms) && forall i, j | 0 <= i < j < |out| :: Before(out[i], out[j])
    ensures forall i, j | 0 <= i < j < |out| :: out[i].cell != out[j].cell
    ensures forall k | 0 <= k < |cells| && Confident(cells[k], v.conf) :: Represented(cells, k, v, e, out)
  {
    hide Clashes, InImage, BoxOf;
    var ds := Candidates(cells, v, e);
    var kept := AllClasses(ds, v);
    out := SortDetections(kept);
    forall d | d in out ensures InImage(d.box, v) {
      BoxInImage(cells[d.cell], v, e);
    }
    CellsDiffer(ds, out);
    forall k | 0 <= k < |cells| && Confident(cells[k], v.conf) ensures Represented(cells, k, v, e, out) {
      assert FromCell(ds, k);
      var d :| d in ds && d.cell == k;
      SameCover(d, kept, out, v.nms);
    }
  }

  lemma CellsDiffer(ds: seq<Detection>, out: seq<Detection>)
    requires CellsAscend(ds) && Distinct(out) && forall d | d in out :: d in ds
    ensures forall i, j | 0 <= i < j < |out| :: out[i].cell != out[j].cell
  {
    forall i, j | 0 <= i < j < |out| ensures out[i].cell != out[j].cell {
      assert out[i] in out && out[j] in out;
      var a :| 0 <= a < |ds| && ds[a] == out[i];
      var b :| 0 <= b < |ds| && ds[b] == out[j];
    }
  }

  lemma SameCover(d: Detection, kept: seq<Detection>, out: seq<Detection>, nms: real)
    requires Covered(d, kept, nms) && forall x :: x in out <==> x in kept
    ensures Covered(d, out, nms)
  {
    hide Clashes;
  }
}
