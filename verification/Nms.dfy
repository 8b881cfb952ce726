/** Non-maximum suppression, `nms_xyxy` of infer_rknn_plate.py, over the reals. */
module Nms {
  import opened Ranking
  import opened Reals

  datatype Box = Box(x1: real, y1: real, x2: real, y2: real)

  function Area(b: Box): real { Max(0.0, b.x2 - b.x1) * Max(0.0, b.y2 - b.y1) }

  function Overlap(a: Box, b: Box): real {
    Max(0.0, Min(a.x2, b.x2) - Max(a.x1, b.x1)) * Max(0.0, Min(a.y2, b.y2) - Max(a.y1, b.y1))
  }

  function Iou(a: Box, b: Box): real {
    Overlap(a, b) / Max(Area(a) + Area(b) - Overlap(a, b), 0.000000001)
  }

  lemma IouIsSymmetric(a: Box, b: Box)
    ensures Iou(a, b) == Iou(b, a)
  {
    hide Area;
    assert Overlap(a, b) == Overlap(b, a);
  }

  /** The rectangle two boxes have in common. */
  function Meet(a: Box, b: Box): Box { Box(Max(a.x1, b.x1), Max(a.y1, b.y1), Min(a.x2, b.x2), Min(a.y2, b.y2)) }

  predicate Holds(a: Box, x: real, y: real) { a.x1 < x < a.x2 && a.y1 < y < a.y2 }

  /** `Overlap` is the area of what the boxes have in common. */
  lemma OverlapIsCommon(a: Box, b: Box)
    ensures Overlap(a, b) == Area(Meet(a, b))
    ensures forall x, y :: Holds(Meet(a, b), x, y) <==> Holds(a, x, y) && Holds(b, x, y)
  {
  }

  lemma ProductBelow(a: real, b: real, c: real, d: real)
    requires 0.0 <= a <= c && 0.0 <= b <= d
    ensures 0.0 <= a * b <= c * d
  {
    assert a * b <= a * d;
    assert a * d <= c * d;
  }

  lemma OverlapBelow(a: Box, b: Box)
    ensures 0.0 <= Overlap(a, b) <= Area(a) && Overlap(a, b) <= Area(b)
  {
    var (w, h) := (Max(0.0, Min(a.x2, b.x2) - Max(a.x1, b.x1)), Max(0.0, Min(a.y2, b.y2) - Max(a.y1, b.y1)));
    ProductBelow(w, h, Max(0.0, a.x2 - a.x1), Max(0.0, a.y2 - a.y1));
    ProductBelow(w, h, Max(0.0, b.x2 - b.x1), Max(0.0, b.y2 - b.y1));
  }

  lemma Share(part: real, whole: real)
    requires 0.0 <= part && whole > 0.0
    ensures 0.0 <= part / whole && (part <= whole ==> part / whole <= 1.0) && (part / whole == 0.0 <==> part == 0.0)
  {
    assert part / whole * whole == part;
  }

  /** It lies between 0 and 1, and is 0 exactly for boxes with nothing in common. */
  lemma IouRange(a: Box, b: Box)
    ensures 0.0 <= Iou(a, b) <= 1.0
    ensures Iou(a, b) == 0.0 <==> Overlap(a, b) == 0.0
  {
    OverlapBelow(a, b);
    hide Overlap, Area;
    Share(Overlap(a, b), Max(Area(a) + Area(b) - Overlap(a, b), 0.000000001));
  }

  /** A box inside another, itself for instance, has their ratio of areas. */
  lemma IouNested(a: Box, b: Box)
    requires b.x1 <= a.x1 <= a.x2 <= b.x2 && b.y1 <= a.y1 <= a.y2 <= b.y2 && Area(b) >= 0.000000001
    ensures Iou(a, b) == Area(a) / Area(b)
  {
    assert Overlap(a, b) == Area(a);
  }

  /** Two boxes of one height that overlap side by side have the share of the box around them. */
  lemma IouSideBySide(a: Box, b: Box)
    requires a.y1 == b.y1 <= a.y2 == b.y2 && a.x1 <= b.x1 <= a.x2 <= b.x2
    requires Area(Box(a.x1, a.y1, b.x2, b.y2)) >= 0.000000001
    ensures Iou(a, b) == Area(Box(b.x1, a.y1, a.x2, a.y2)) / Area(Box(a.x1, a.y1, b.x2, b.y2))
  {
    assert Overlap(a, b) == Area(Box(b.x1, a.y1, a.x2, a.y2));
    Strips(a.x1, b.x1, a.x2, b.x2, a.y2 - a.y1);
  }

  lemma Strips(x1: real, x2: real, x3: real, x4: real, h: real)
    ensures (x3 - x1) * h + (x4 - x2) * h - (x3 - x2) * h == (x4 - x1) * h
  {
  }

  lemma NothingInCommon(a: Box, b: Box)
    ensures Overlap(a, b) == 0.0 <==> forall x, y :: !(Holds(a, x, y) && Holds(b, x, y))
  {
    var m := Meet(a, b);
    OverlapIsCommon(a, b);
    hide Overlap, Meet;
    Inside(m);
    if forall x, y :: !(Holds(a, x, y) && Holds(b, x, y)) {
      assert !Holds(m, (m.x1 + m.x2) / 2.0, (m.y1 + m.y2) / 2.0);
    }
  }

  lemma Inside(m: Box)
    ensures Area(m) == 0.0 <==> !Holds(m, (m.x1 + m.x2) / 2.0, (m.y1 + m.y2) / 2.0)
    ensures Area(m) == 0.0 ==> forall x, y :: !Holds(m, x, y)
  {
    var (w, h) := (Max(0.0, m.x2 - m.x1), Max(0.0, m.y2 - m.y1));
    if w > 0.0 && h > 0.0 {
      assert w * h > 0.0;
    } else {
      assert w * h == 0.0;
    }
  }

  /** The input of one call: boxes, their scores and the threshold. */
  datatype Scene = Scene(boxes: seq<Box>, scores: seq<real>, threshold: real)

  predicate WellFormed(s: Scene) { |s.boxes| == |s.scores| }

  predicate Indices(s: Scene, order: seq<nat>) { forall k | 0 <= k < |order| :: order[k] < |s.boxes| }

  predicate Compatible(s: Scene, i: nat, j: nat)
    requires i < |s.boxes| && j < |s.boxes|
  {
    Iou(s.boxes[i], s.boxes[j]) <= s.threshold
  }

  /** The entries of `order` compatible with `i`, in order. */
  function Remaining(s: Scene, i: nat, order: seq<nat>): (r: seq<nat>)
    requires i < |s.boxes| && Indices(s, order)
    ensures |r| <= |order| && Indices(s, r)
    ensures forall j :: j in r <==> j in order && j < |s.boxes| && Compatible(s, i, j)
  {
    if order == [] then []
    else
      var r := Remaining(s, i, order[..|order| - 1]);
      if Compatible(s, i, order[|order| - 1]) then r + [order[|order| - 1]] else r
  }

  /** Greedy suppression: keep the first, drop what clashes with it, go on with the rest. */
  function Survivors(s: Scene, order: seq<nat>): (keep: seq<nat>)
    requires Indices(s, order)
    ensures forall j | j in keep :: j in order
    decreases |order|
  {
    if order == [] then []
    else
      [order[0]] + Survivors(s, Remaining(s, order[0], order[1..]))
  }

  // ---------------------------------------------------------------- what survives

  predicate ByScore(s: Scene, order: seq<nat>)
    requires WellFormed(s) && Indices(s, order)
  {
    forall a, b | 0 <= a < b < |order| :: s.scores[order[a]] >= s.scores[order[b]]
  }

  lemma {:induction false} RemainingKeepsOrder(s: Scene, i: nat, order: seq<nat>)
    requires WellFormed(s) && i < |s.boxes| && Indices(s, order)
    ensures Distinct(order) ==> Distinct(Remaining(s, i, order))
    ensures ByScore(s, order) ==> ByScore(s, Remaining(s, i, order))
  {
    hide Compatible;
    if order == [] {
    } else {
      var n := |order| - 1;
      RemainingKeepsOrder(s, i, order[..n]);
      var r := Remaining(s, i, order[..n]);
      forall k | 0 <= k < |r|
        ensures Distinct(order) ==> r[k] != order[n]
        ensures ByScore(s, order) ==> s.scores[r[k]] >= s.scores[order[n]]
      {
        var m := PlaceIn(order[..n], r[k]);
        assert order[m] == r[k];
      }
    }
  }

  lemma PlaceIn(order: seq<nat>, j: nat) returns (m: nat)
    requires j in order
    ensures m < |order| && order[m] == j
  {
    m :| 0 <= m < |order| && order[m] == j;
  }

  predicate PairwiseCompatible(s: Scene, keep: seq<nat>)
    requires Indices(s, keep)
  {
    forall a, b | 0 <= a < b < |keep| :: Compatible(s, keep[a], keep[b])
  }

  predicate Proper(s: Scene, keep: seq<nat>)
    requires WellFormed(s)
  {
    Indices(s, keep) && Distinct(keep) && ByScore(s, keep)
  }

  lemma ConsProper(s: Scene, i: nat, tail: seq<nat>)
    requires WellFormed(s) && Proper(s, tail) && PairwiseCompatible(s, tail) && i < |s.boxes|
    requires forall j | j in tail :: j < |s.boxes| && Compatible(s, i, j) && j != i && s.scores[i] >= s.scores[j]
    ensures Proper(s, [i] + tail) && PairwiseCompatible(s, [i] + tail)
  {
    hide Compatible;
    assert forall b | 0 <= b < |tail| :: tail[b] in tail;
  }

  lemma HeadLeads(s: Scene, order: seq<nat>, j: nat)
    requires WellFormed(s) && Proper(s, order) && order != [] && j in order[1..]
    ensures j < |s.boxes| && j != order[0] && s.scores[order[0]] >= s.scores[j]
  {
    var m :| 0 <= m < |order| - 1 && order[1..][m] == j;
    assert order[m + 1] == j;
  }

  /** Kept boxes are pairwise compatible and in order of score. */
  lemma {:induction false} SurvivorsApart(s: Scene, order: seq<nat>)
    requires WellFormed(s) && Proper(s, order)
    ensures Proper(s, Survivors(s, order)) && PairwiseCompatible(s, Survivors(s, order))
    decreases |order|
  {
    hide Compatible, PairwiseCompatible;
    if order == [] {
      assert PairwiseCompatible(s, []) by {
        NonePairwise(s);
      }
    } else {
      var (i, rest) := (order[0], order[1..]);
      RemainingKeepsOrder(s, i, rest);
      var left := Remaining(s, i, rest);
      SurvivorsApart(s, left);
      var tail := Survivors(s, left);
      forall j | j in tail
        ensures j < |s.boxes| && Compatible(s, i, j) && j != i && s.scores[i] >= s.scores[j]
      {
        HeadLeads(s, order, j);
      }
      ConsProper(s, i, tail);
    }
  }

  lemma NonePairwise(s: Scene)
    ensures PairwiseCompatible(s, [])
  {
  }

  /** A dropped box clashes with a kept one that scores at least as high. */
  lemma {:induction false} DroppedHasWitness(s: Scene, order: seq<nat>, d: nat) returns (k: nat)
    requires WellFormed(s) && Indices(s, order) && ByScore(s, order) && d in order && d !in Survivors(s, order)
    ensures k in Survivors(s, order) && k < |s.boxes| && d < |s.boxes|
    ensures !Compatible(s, k, d) && s.scores[k] >= s.scores[d]
    decreases |order|
  {
    hide Compatible;
    var (i, rest) := (order[0], order[1..]);
    var left := Remaining(s, i, rest);
    var m :| 0 <= m < |order| && order[m] == d;
    if d in left {
      RemainingKeepsOrder(s, i, rest);
      k := DroppedHasWitness(s, left, d);
    } else {
      k := i;
      assert d in rest by {
        assert rest[m - 1] == d;
      }
    }
  }

  /** Survivors are exactly those compatible with every survivor before them. */
  lemma {:induction false} SurvivorsExactly(s: Scene, order: seq<nat>, k: nat)
    requires WellFormed(s) && Proper(s, order) && k < |order|
    ensures order[k] in Survivors(s, order) <==>
            forall j | 0 <= j < k && order[j] in Survivors(s, order) :: Compatible(s, order[j], order[k])
    decreases |order|
  {
    hide Compatible;
    var (i, rest) := (order[0], order[1..]);
    if k > 0 {
      var left := Remaining(s, i, rest);
      RemainingKeepsOrder(s, i, rest);
      if Compatible(s, i, order[k]) {
        assert order[k] in rest && order[k] in left;
        var m :| 0 <= m < |left| && left[m] == order[k];
        SurvivorsExactly(s, left, m);
        SameFront(s, order, k, left, m);
      }
    }
  }

  /** The survivors before an element are the first one and those before it in what is left. */
  lemma SameFront(s: Scene, order: seq<nat>, k: nat, left: seq<nat>, m: nat)
    requires WellFormed(s) && Proper(s, order) && 0 < k < |order| && left == Remaining(s, order[0], order[1..])
    requires Indices(s, left) && m < |left| && left[m] == order[k]
    ensures forall x :: x in order[..k] && x in Survivors(s, order) <==>
              x == order[0] || (x in left[..m] && x in Survivors(s, left))
  {
    hide Compatible;
    RemainingFront(s, order[0], order[1..], k - 1, m);
  }

  lemma {:induction false} RemainingFront(s: Scene, i: nat, order: seq<nat>, k: nat, m: nat)
    requires WellFormed(s) && Indices(s, order) && Distinct(order) && i < |s.boxes| && k < |order|
    requires m < |Remaining(s, i, order)| && Remaining(s, i, order)[m] == order[k]
    ensures forall x :: x in Remaining(s, i, order)[..m] <==> x in order[..k] && x in Remaining(s, i, order)
  {
    hide Compatible;
    var (n, r) := (|order| - 1, Remaining(s, i, order));
    var before := Remaining(s, i, order[..n]);
    assert forall x | x in before :: x in order[..n];
    if k < n {
      assert before[m] == order[..n][k];
      RemainingFront(s, i, order[..n], k, m);
      assert r[..m] == before[..m] && order[..n][..k] == order[..k];
    } else {
      assert m == |before| && r[..m] == before;
    }
  }

  lemma {:induction false} AllCompatibleRemain(s: Scene, i: nat, order: seq<nat>)
    requires i < |s.boxes| && Indices(s, order) && forall k | 0 <= k < |order| :: Compatible(s, i, order[k])
    ensures Remaining(s, i, order) == order
  {
    hide Compatible;
    if order == [] {
    } else {
      AllCompatibleRemain(s, i, order[..|order| - 1]);
    }
  }

  /** Compatible boxes all survive, in whatever order they come. */
  lemma {:induction false} CompatibleSurvive(s: Scene, order: seq<nat>)
    requires Indices(s, order) && PairwiseCompatible(s, order)
    ensures Survivors(s, order) == order
    decreases |order|
  {
    hide Compatible;
    if order == [] {
    } else {
      AllCompatibleRemain(s, order[0], order[1..]);
      CompatibleSurvive(s, order[1..]);
    }
  }

  // ---------------------------------------------------------------- the method

  function Numbered(scores: seq<real>): (list: seq<Scored<nat>>)
    ensures |list| == |scores| && forall x | x in list :: x.item < |scores|
  {
    seq(|scores|, (i: nat) requires i < |scores| => Scored(i, scores[i]))
  }

  function Argsort(scores: seq<real>): (order: seq<nat>)
    ensures |order| == |scores| && forall k | 0 <= k < |order| :: order[k] < |scores|
  {
    var sorted := SortDescending(Numbered(scores));
    assert forall k | 0 <= k < |sorted| :: sorted[k] in Numbered(scores);
    seq(|scores|, (i: nat) requires i < |scores| => sorted[i].item)
  }

  lemma ArgsortIsProper(s: Scene)
    requires WellFormed(s)
    ensures Proper(s, Argsort(s.scores)) && forall i | 0 <= i < |s.boxes| :: i in Argsort(s.scores)
  {
    var n := |s.scores|;
    var list := Numbered(s.scores);
    var sorted := SortDescending(list);
    SortDescends(list);
    SortKeepsDistinct(list);
    var order := Argsort(s.scores);
    forall k | 0 <= k < n ensures order[k] < n && sorted[k] == Scored(order[k], s.scores[order[k]]) {
      assert sorted[k] in list;
    }
    forall i | 0 <= i < n ensures i in order {
      assert list[i] in sorted;
      var k :| 0 <= k < n && sorted[k] == list[i];
      assert order[k] == i;
    }
  }

  /** Every dropped box clashes with a kept one that scores at least as high. */
  ghost predicate DroppedClash(s: Scene, keep: seq<nat>)
    requires WellFormed(s)
  {
    forall d | 0 <= d < |s.boxes| && d !in keep ::
      exists k | k in keep :: k < |s.boxes| && !Compatible(s, k, d) && s.scores[k] >= s.scores[d]
  }

  /** Every box once, best score first; how equal scores are ordered is left open. */
  predicate Sorted(s: Scene, order: seq<nat>)
    requires WellFormed(s)
  {
    Proper(s, order) && forall i | 0 <= i < |s.boxes| :: i in order
  }

  /** `scores.argsort()[::-1]`; NumPy's default sort promises nothing about equal scores. */
  method ArgsortDescending(s: Scene) returns (order: seq<nat>)
    requires WellFormed(s)
    ensures Sorted(s, order)
  {
    order := Argsort(s.scores);
    ArgsortIsProper(s);
  }

  /** `nms_xyxy`: greedy suppression in the sorted order, whichever that was. */
  method NmsXyxy(s: Scene) returns (keep: seq<nat>, ghost all: seq<nat>)
    requires WellFormed(s)
    ensures Sorted(s, all) && keep == Survivors(s, all)
    ensures Proper(s, keep) && PairwiseCompatible(s, keep) && DroppedClash(s, keep)
  {
    hide Compatible, PairwiseCompatible;
    var order := ArgsortDescending(s);
    all := order;
    keep := [];
    while |order| > 0
      invariant Indices(s, order) && keep + Survivors(s, order) == Survivors(s, all)
      decreases |order|
    {
      var i := order[0];
      keep := keep + [i];
      order := Remaining(s, i, order[1..]);
    }
    SurvivorsApart(s, all);
    forall d | 0 <= d < |s.boxes| && d !in keep
      ensures exists k | k in keep :: k < |s.boxes| && !Compatible(s, k, d) && s.scores[k] >= s.scores[d]
    {
      var k := DroppedHasWitness(s, all, d);
    }
  }

  /** The scene that consists of the boxes `keep` alone. */
  function Pick(s: Scene, keep: seq<nat>): Scene
    requires WellFormed(s) && Indices(s, keep)
  {
    Scene(seq(|keep|, (i: nat) requires i < |keep| => s.boxes[keep[i]]),
          seq(|keep|, (i: nat) requires i < |keep| => s.scores[keep[i]]), s.threshold)
  }

  /** Suppression is idempotent, however the two runs order equal scores: run on what it kept, it
      keeps everything. */
  lemma NmsIdempotent(s: Scene, order: seq<nat>, keep: seq<nat>, again: seq<nat>)
    requires WellFormed(s) && Sorted(s, order) && keep == Survivors(s, order) && Indices(s, keep)
    requires Sorted(Pick(s, keep), again)
    ensures Survivors(Pick(s, keep), again) == again && forall i | 0 <= i < |keep| :: i in again
  {
    SurvivorsApart(s, order);
    var p := Pick(s, keep);
    forall a, b | 0 <= a < b < |again| ensures Compatible(p, again[a], again[b]) {
      var (i, j) := (again[a], again[b]);
      IouIsSymmetric(p.boxes[i], p.boxes[j]);
      assert Compatible(s, keep[if i < j then i else j], keep[if i < j then j else i]);
    }
    hide Compatible;
    CompatibleSurvive(p, again);
  }
}
