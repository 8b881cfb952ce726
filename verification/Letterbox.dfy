/** Letterbox and DFL geometry of infer_rknn_plate.py, over the reals. */
module Letterbox {
  import opened Reals

  const SIZE: int := 640

  // ---------------------------------------------------------------- rounding

  /** Python's `round`: to the nearest integer, halves to the even one. */
  function PyRound(x: real): (n: int)
    ensures -0.5 <= n as real - x <= 0.5
  {
    var f := x.Floor;
    var d := x - f as real;
    if d < 0.5 || (d == 0.5 && f % 2 == 0) then f else f + 1
  }

  /** Rounding never moves past an integer. */
  lemma RoundBelow(x: real, n: int)
    requires x <= n as real
    ensures PyRound(x) <= n
  {
  }

  lemma RoundAbove(x: real, n: int)
    requires n as real <= x
    ensures n <= PyRound(x)
  {
  }

  lemma RoundNear(x: real, n: int)
    requires -0.5 < x - n as real < 0.5
    ensures PyRound(x) == n
  {
  }

  /** A tie goes to the even neighbour. */
  lemma RoundTie(n: int)
    ensures PyRound(n as real + 0.5) == if n % 2 == 0 then n else n + 1
  {
  }

  /** The two borders share an odd remainder as half below and half above. */
  lemma BordersAddUp(rest: int)
    ensures var pad := rest as real / 2.0;
            && PyRound(pad - 0.1) + PyRound(pad + 0.1) == rest
            && PyRound(pad - 0.1) == rest / 2 && PyRound(pad + 0.1) == (rest + 1) / 2
            && -0.5 <= (rest / 2) as real - pad <= 0.5
  {
    hide PyRound;
    var k := rest / 2;
    var pad := rest as real / 2.0;
    if rest == 2 * k {
      assert pad == k as real;
      RoundNear(pad - 0.1, k);
      RoundNear(pad + 0.1, k);
    } else {
      assert pad == k as real + 0.5;
      RoundNear(pad - 0.1, k);
      RoundNear(pad + 0.1, k + 1);
    }
  }

  /** A quantity rounds to nothing exactly up to one half. */
  lemma RoundsToZero(x: real)
    requires 0.0 <= x
    ensures PyRound(x) == 0 <==> x <= 0.5
  {
  }

  // ---------------------------------------------------------------- letterbox

  /** One axis: the resized length, the padding used to map back, and the borders really added. */
  datatype Axis = Axis(resized: int, pad: real, before: int, after: int)

  datatype Layout = Unresizable | Layout(ratio: real, x: Axis, y: Axis)

  function AxisOf(src: int, ratio: real): Axis {
    var resized := PyRound(src as real * ratio);
    var pad := (SIZE - resized) as real / 2.0;
    Axis(resized, pad, PyRound(pad - 0.1), PyRound(pad + 0.1))
  }

  function Ratio(w: int, h: int): real
    requires w > 0 && h > 0
  {
    Min(SIZE as real / w as real, SIZE as real / h as real)
  }

  /** `letterbox`, as far as sizes go. OpenCV refuses to resize to an empty image. */
  function LetterboxLayout(w: int, h: int): Layout
    requires w > 0 && h > 0
  {
    var (x, y) := (AxisOf(w, Ratio(w, h)), AxisOf(h, Ratio(w, h)));
    if x.resized == 0 || y.resized == 0 then Unresizable else Layout(Ratio(w, h), x, y)
  }

  /** The borders and the resized image always add up. */
  lemma AxisFills(src: int, ratio: real)
    requires 0.0 <= src as real * ratio <= SIZE as real
    ensures var a := AxisOf(src, ratio);
            && 0 <= a.resized <= SIZE && a.before >= 0 && a.after >= 0
            && a.before + a.resized + a.after == SIZE
            && a.before <= a.after <= a.before + 1
            && -0.5 <= a.before as real - a.pad <= 0.5
            && (src as real * ratio == SIZE as real ==> a.resized == SIZE)
  {
    var scaled := src as real * ratio;
    RoundBelow(scaled, SIZE);
    RoundAbove(scaled, 0);
    if scaled == SIZE as real {
      RoundNear(scaled, SIZE);
    }
    hide PyRound;
    BordersAddUp(SIZE - AxisOf(src, ratio).resized);
  }

  lemma Scaled(src: int, other: int)
    requires src > 0 && other > 0
    ensures var r := Ratio(src, other);
            && r > 0.0 && 0.0 < src as real * r <= SIZE as real
            && (src >= other ==> src as real * r == SIZE as real)
            && (src <= other ==> src as real * r == src as real * (SIZE as real / other as real))
    ensures Ratio(src, other) == Ratio(other, src)
  {
    var (s, o) := (src as real, other as real);
    assert s * (640.0 / s) == 640.0;
    Quotients(s, o);
  }

  lemma Quotients(s: real, o: real)
    requires s > 0.0 && o > 0.0
    ensures 640.0 / s > 0.0
    ensures s >= o <==> 640.0 / s <= 640.0 / o
    ensures s * (640.0 / o) <= 640.0 <==> s <= o
  {
    assert s * (640.0 / s) == 640.0 && o * (640.0 / o) == 640.0;
  }

  predicate Fills(a: Axis) {
    && a.resized >= 1 && a.before + a.resized + a.after == SIZE
    && 0 <= a.before <= a.after <= a.before + 1
  }

  /** The result is exactly 640 by 640, the longer side filling it and an odd pixel of border going to
      the right or below, unless the image is so elongated that its short side
      vanishes: at 1280 to 1 and beyond the resize is refused. */
  lemma LetterboxExactly(w: int, h: int)
    requires w > 0 && h > 0
    ensures var l := LetterboxLayout(w, h);
            && (l.Unresizable? <==> w >= 1280 * h || h >= 1280 * w)
            && (l.Layout? ==> Fills(l.x) && Fills(l.y) && l.ratio > 0.0)
            && (l.Layout? ==> (w >= h ==> l.x.resized == SIZE) && (h >= w ==> l.y.resized == SIZE))
  {
    hide AxisOf, Ratio;
    AxisVanishes(w, h);
    AxisVanishes(h, w);
    Scaled(w, h);
    Scaled(h, w);
    AxisFills(w, Ratio(w, h));
    AxisFills(h, Ratio(w, h));
  }

  lemma AxisVanishes(src: int, other: int)
    requires src > 0 && other > 0
    ensures AxisOf(src, Ratio(src, other)).resized == 0 <==> other >= 1280 * src
  {
    hide Ratio, AxisOf;
    Scaled(src, other);
    if src <= other {
      Vanishes(src, other);
      SameOrder(src as real * Ratio(src, other), src as real * (SIZE as real / other as real));
    } else {
      Chain(1.0, src as real * Ratio(src, other), src as real * Ratio(src, other));
    }
    ResizedToZero(src, Ratio(src, other));
  }

  lemma ResizedToZero(src: int, ratio: real)
    requires 0.0 <= src as real * ratio
    ensures AxisOf(src, ratio).resized == 0 <==> src as real * ratio <= 0.5
  {
    hide PyRound;
    RoundsToZero(src as real * ratio);
  }

  lemma SameOrder(a: real, b: real)
    requires a == b
    ensures a <= 0.5 <==> b <= 0.5
  {
  }

  lemma Vanishes(short: int, long: int)
    requires 0 < short <= long
    ensures short as real * (SIZE as real / long as real) <= 0.5 <==> long >= 1280 * short
  {
    var (s, l) := (short as real, long as real);
    var q := s * (640.0 / l);
    assert q * l == 640.0 * s by {
      Cancel(s, l);
    }
    if q <= 0.5 {
      ScalesUp(q, 0.5, l);
    } else {
      ScalesUp(0.5, q, l);
    }
  }

  lemma Cancel(s: real, l: real)
    requires l > 0.0
    ensures s * (640.0 / l) * l == 640.0 * s
  {
    assert 640.0 / l * l == 640.0;
  }

  lemma ScalesUp(a: real, b: real, l: real)
    requires l > 0.0
    ensures a <= b ==> a * l <= b * l
    ensures a < b ==> a * l < b * l
  {
  }

  // ---------------------------------------------------------------- mapping back

  /** Where the resized image shows the point `u` of the original axis. */
  function Shown(a: Axis, src: int, u: real): real
    requires src > 0
  {
    a.before as real + u * (a.resized as real / src as real)
  }

  /** `(coordinate - pad) / ratio` */
  function MapBack(a: Axis, ratio: real, v: real): real
    requires ratio > 0.0
  {
    (v - a.pad) / ratio
  }

  lemma AxisBackError(src: int, ratio: real, u: real)
    requires src > 0 && ratio > 0.0 && src as real * ratio <= SIZE as real && 0.0 <= u <= src as real
    ensures var a := AxisOf(src, ratio);
            -1.0 / ratio <= MapBack(a, ratio, Shown(a, src, u)) - u <= 1.0 / ratio
  {
    var a := AxisOf(src, ratio);
    ResizedNear(src, ratio);
    hide AxisOf;
    ScalesWithin(0.0, src as real, ratio);
    AxisFills(src, ratio);
    BackError(src as real, ratio, a.resized as real, a.before as real, a.pad, u);
  }

  /** Rounding the size and the border costs at most one letterbox pixel: 1 / ratio of the
      original's. */
  lemma MapBackError(src: int, other: int, u: real)
    requires src > 0 && other > 0 && 0.0 <= u <= src as real
    ensures var (r, a) := (Ratio(src, other), AxisOf(src, Ratio(src, other)));
            r > 0.0 && -1.0 / r <= MapBack(a, r, Shown(a, src, u)) - u <= 1.0 / r
  {
    hide Ratio, AxisOf, Shown, MapBack;
    Scaled(src, other);
    AxisBackError(src, Ratio(src, other), u);
  }

  lemma ResizedNear(src: int, ratio: real)
    ensures -0.5 <= AxisOf(src, ratio).resized as real - src as real * ratio <= 0.5
  {
    hide PyRound;
  }

  lemma BackError(s: real, ratio: real, resized: real, before: real, pad: real, u: real)
    requires s > 0.0 && ratio > 0.0 && 0.0 <= u <= s
    requires -0.5 <= resized - s * ratio <= 0.5 && -0.5 <= before - pad <= 0.5
    ensures -1.0 / ratio <= (before + u * (resized / s) - pad) / ratio - u <= 1.0 / ratio
  {
    StepError(s, ratio, resized);
    var step := resized / s - ratio;
    Part(u, s, step);
    var off := u * step + (before - pad);
    Distribute(u, resized / s, ratio, before, pad);
    DivideOut(u, ratio, off);
  }

  lemma StepError(s: real, ratio: real, resized: real)
    requires s > 0.0 && -0.5 <= resized - s * ratio <= 0.5
    ensures -0.5 <= s * (resized / s - ratio) <= 0.5
  {
    assert s * (resized / s) == resized;
  }

  lemma Distribute(u: real, scale: real, ratio: real, before: real, pad: real)
    ensures before + u * scale - pad == u * ratio + (u * (scale - ratio) + (before - pad))
  {
  }

  lemma Part(u: real, s: real, step: real)
    requires 0.0 <= u <= s && s > 0.0 && -0.5 <= s * step <= 0.5
    ensures -0.5 <= u * step <= 0.5
  {
    if step >= 0.0 {
      ScalesWithin(u, s, step);
    } else {
      Shrinks(u, s, step);
      Chain(-0.5, s * step, u * step);
      Chain(u * step, 0.0, 0.5);
    }
  }

  lemma Chain(a: real, b: real, c: real)
    requires a <= b <= c
    ensures a <= c
  {
  }

  lemma Shrinks(u: real, s: real, c: real)
    requires u <= s && c < 0.0 && u >= 0.0
    ensures s * c <= u * c <= 0.0
  {
  }

  lemma ScalesWithin(u: real, s: real, c: real)
    requires u <= s && c >= 0.0 && u >= 0.0
    ensures 0.0 <= u * c <= s * c
  {
  }

  lemma DivideOut(u: real, ratio: real, off: real)
    requires ratio > 0.0 && -1.0 <= off <= 1.0
    ensures -1.0 / ratio <= (u * ratio + off) / ratio - u <= 1.0 / ratio
  {
    assert (u * ratio + off) / ratio == u + off / ratio;
  }

  // ---------------------------------------------------------------- distribution focal loss

  const BINS: nat := 16

  ghost predicate Positive(e: real -> real) { forall x :: e(x) > 0.0 }

  function MaxOf(s: seq<real>): (m: real)
    requires s != []
    ensures forall k | 0 <= k < |s| :: s[k] <= m
  {
    if |s| == 1 then s[0]
    else
      var m := MaxOf(s[..|s| - 1]);
      if s[|s| - 1] > m then s[|s| - 1] else m
  }

  /** Sum of `e(s[k] - m)`, and the same weighted by `k`. */
  function Mass(s: seq<real>, m: real, e: real -> real): real {
    if s == [] then 0.0 else Mass(s[..|s| - 1], m, e) + e(s[|s| - 1] - m)
  }

  function Moment(s: seq<real>, m: real, e: real -> real): real {
    if s == [] then 0.0 else Moment(s[..|s| - 1], m, e) + e(s[|s| - 1] - m) * (|s| - 1) as real
  }

  lemma {:induction false} MomentBounds(s: seq<real>, m: real, e: real -> real)
    requires Positive(e) && 2 <= |s|
    ensures 0.0 < Moment(s, m, e) < (|s| - 1) as real * Mass(s, m, e)
    ensures Mass(s, m, e) > 0.0
  {
    var n := |s| - 1;
    var w := e(s[n] - m);
    assert w > 0.0;
    if n == 1 {
      assert s[..1][..0] == [];
      assert Moment(s[..1], m, e) == 0.0 && Mass(s[..1], m, e) == e(s[0] - m) > 0.0;
    } else {
      MomentBounds(s[..n], m, e);
    }
    assert w * n as real > 0.0;
  }

  /** `dfl_decode` for one side: the mean bin under the softmax of the logits. */
  function DflDistance(logits: seq<real>, e: real -> real): real
    requires |logits| == BINS
  {
    var m := MaxOf(logits);
    if Mass(logits, m, e) == 0.0 then 0.0 else Moment(logits, m, e) / Mass(logits, m, e)
  }

  /** A softmax mean lies strictly between the first bin and the last. */
  lemma DflInRange(logits: seq<real>, e: real -> real)
    requires |logits| == BINS && Positive(e)
    ensures 0.0 < DflDistance(logits, e) < 15.0
  {
    var m := MaxOf(logits);
    MomentBounds(logits, m, e);
    Between(Moment(logits, m, e), Mass(logits, m, e), 15.0);
  }

  lemma Between(a: real, b: real, top: real)
    requires 0.0 < a < top * b && b > 0.0
    ensures 0.0 < a / b < top
  {
    assert a / b * b == a;
    if a / b >= top {
      ScalesUp(top, a / b, b);
    }
  }

  // ---------------------------------------------------------------- what the mean is

  ghost predicate Exponential(e: real -> real) { forall x, y :: e(x + y) == e(x) * e(y) }

  lemma ExponentOfSum(e: real -> real, x: real, y: real)
    requires Exponential(e)
    ensures e(x + y) == e(x) * e(y)
  {
  }

  /** The maximum is only a reference point: for an exponential the distance is the softmax mean. */
  lemma SoftmaxMean(logits: seq<real>, e: real -> real)
    requires |logits| == BINS && Positive(e) && Exponential(e)
    ensures Mass(logits, 0.0, e) > 0.0 && DflDistance(logits, e) == Moment(logits, 0.0, e) / Mass(logits, 0.0, e)
  {
    var m := MaxOf(logits);
    MomentBounds(logits, m, e);
    MomentBounds(logits, 0.0, e);
    Rebased(logits, m, e);
    hide Exponential, Positive, Mass, Moment;
    SameQuotient(Moment(logits, 0.0, e), Mass(logits, 0.0, e), Moment(logits, m, e), Mass(logits, m, e), e(m));
  }

  lemma {:induction false} Rebased(s: seq<real>, m: real, e: real -> real)
    requires Exponential(e)
    ensures Mass(s, 0.0, e) == e(m) * Mass(s, m, e) && Moment(s, 0.0, e) == e(m) * Moment(s, m, e)
  {
    hide Exponential;
    if s == [] {
    } else {
      var n := |s| - 1;
      Rebased(s[..n], m, e);
      ExponentOfSum(e, m, s[n] - m);
      assert m + (s[n] - m) == s[n] - 0.0;
      RebasedSums(e(m), e(s[n] - m), Mass(s[..n], m, e), Moment(s[..n], m, e), n as real);
    }
  }

  lemma RebasedSums(f: real, w: real, mass: real, moment: real, n: real)
    ensures f * mass + f * w == f * (mass + w) && f * moment + f * w * n == f * (moment + w * n)
  {
    Factor(f, mass, w);
    Factor(f, moment, w * n);
    Regrouped(f, w, n);
  }

  lemma Factor(f: real, a: real, b: real)
    ensures f * a + f * b == f * (a + b)
  {
  }

  lemma Regrouped(f: real, w: real, n: real)
    ensures f * w * n == f * (w * n)
  {
  }

  lemma SameQuotient(a: real, b: real, x: real, y: real, f: real)
    requires b > 0.0 && y > 0.0 && a == f * x && b == f * y
    ensures x / y == a / b
  {
    var q := x / y;
    assert q * y == x;
    Regrouped(f, y, q);
    assert a == b * q;
  }

  predicate Within(x: real, bound: real) { -bound <= x <= bound }

  lemma MoreWithin(x: real, a: real, y: real, b: real)
    requires Within(x, 15.0 * a) && Within(y, 15.0 * b)
    ensures Within(x + y, 15.0 * (a + b))
  {
  }

  /** Mass and pull on `c` of the bins other than `j` and `k`. */
  function MassBeside(s: seq<real>, m: real, e: real -> real, j: nat, k: nat): real {
    if s == [] then 0.0
    else
      var n := |s| - 1;
      MassBeside(s[..n], m, e, j, k) + if n == j || n == k then 0.0 else e(s[n] - m)
  }

  function Lever(w: real, d: real): real { w * d }

  function PullBeside(s: seq<real>, m: real, e: real -> real, j: nat, k: nat, c: real): real {
    if s == [] then 0.0
    else
      var n := |s| - 1;
      PullBeside(s[..n], m, e, j, k, c) + if n == j || n == k then 0.0 else Lever(e(s[n] - m), n as real - c)
  }

  /** The weight of bin `j`, if it is among these. */
  function Weight(s: seq<real>, m: real, e: real -> real, j: nat): real {
    if j < |s| then e(s[j] - m) else 0.0
  }

  lemma {:induction false} MassParts(s: seq<real>, m: real, e: real -> real, j: nat, k: nat)
    requires j != k
    ensures Mass(s, m, e) == MassBeside(s, m, e, j, k) + Weight(s, m, e, j) + Weight(s, m, e, k)
  {
    if s != [] {
      MassParts(s[..|s| - 1], m, e, j, k);
    }
  }

  /** The pull of bin `j`, if it is among these. */
  function PullOf(s: seq<real>, m: real, e: real -> real, j: nat, c: real): real {
    if j < |s| then Lever(e(s[j] - m), j as real - c) else 0.0
  }

  /** How far the mean is from `c`, times the mass. */
  function Tilt(s: seq<real>, m: real, e: real -> real, c: real): real { Moment(s, m, e) - c * Mass(s, m, e) }

  lemma TiltStep(s: seq<real>, m: real, e: real -> real, c: real)
    requires s != []
    ensures var n := |s| - 1; Tilt(s, m, e, c) == Tilt(s[..n], m, e, c) + Lever(e(s[n] - m), n as real - c)
  {
    var n := |s| - 1;
    OneBin(Moment(s[..n], m, e), Mass(s[..n], m, e), c, e(s[n] - m), n as real);
    hide Lever;
  }

  lemma {:induction false} PullParts(s: seq<real>, m: real, e: real -> real, j: nat, k: nat, c: real)
    requires j != k
    ensures Tilt(s, m, e, c) == PullBeside(s, m, e, j, k, c) + PullOf(s, m, e, j, c) + PullOf(s, m, e, k, c)
  {
    hide Lever;
    if s == [] {
      NoTilt(m, e, c);
    } else {
      hide Tilt, PullOf;
      PullParts(s[..|s| - 1], m, e, j, k, c);
      TiltStep(s, m, e, c);
      PullStep(s, m, e, j, c);
      PullStep(s, m, e, k, c);
    }
  }

  lemma NoTilt(m: real, e: real -> real, c: real)
    ensures Tilt([], m, e, c) == 0.0
  {
  }

  lemma PullStep(s: seq<real>, m: real, e: real -> real, j: nat, c: real)
    requires s != []
    ensures var n := |s| - 1;
            && PullOf(s, m, e, j, c) ==
                 (if n == j then Lever(e(s[n] - m), n as real - c) else PullOf(s[..n], m, e, j, c))
            && (n == j ==> PullOf(s[..n], m, e, j, c) == 0.0)
  {
  }

  lemma OneBin(a: real, b: real, c: real, w: real, n: real)
    ensures a + w * n - c * (b + w) == a - c * b + Lever(w, n - c)
  {
  }

  lemma {:induction false} PullOfOthers(s: seq<real>, m: real, e: real -> real, j: nat, k: nat, c: real)
    requires Positive(e) && |s| <= BINS && 0.0 <= c <= 15.0
    ensures Within(PullBeside(s, m, e, j, k, c), 15.0 * MassBeside(s, m, e, j, k))
  {
    if s != [] {
      var n := |s| - 1;
      hide Lever;
      PullOfOthers(s[..n], m, e, j, k, c);
      if n != j && n != k {
        var w := e(s[n] - m);
        assert w > 0.0;
        BinPull(w, n as real - c);
        MoreWithin(PullBeside(s[..n], m, e, j, k, c), MassBeside(s[..n], m, e, j, k), Lever(w, n as real - c), w);
      }
    }
  }

  lemma BinPull(w: real, d: real)
    requires w > 0.0 && Within(d, 15.0)
    ensures Within(Lever(w, d), 15.0 * w)
  {
    if d >= 0.0 {
      Product(w, d);
    } else {
      Product(w, -d);
      Negated(w, d);
    }
    hide Lever;
  }

  lemma Product(w: real, d: real)
    requires w > 0.0 && 0.0 <= d <= 15.0
    ensures 0.0 <= Lever(w, d) <= 15.0 * w
  {
    ScalesWithin(d, 15.0, w);
  }

  lemma Negated(w: real, d: real)
    ensures Lever(w, -d) == -Lever(w, d)
  {
  }

  /** With two bins of equal logit and a share of at most `eps` beside them, the distance is within
      15 * eps of their middle. */
  lemma TwoBins(logits: seq<real>, e: real -> real, j: nat, k: nat, eps: real)
    requires |logits| == BINS && Positive(e) && j < BINS && k < BINS && j != k && logits[j] == logits[k]
    requires var m := MaxOf(logits);
             Mass(logits, m, e) - e(logits[j] - m) - e(logits[k] - m) <= eps * Mass(logits, m, e)
    ensures Within(DflDistance(logits, e) - (j + k) as real / 2.0, 15.0 * eps)
  {
    hide Positive, Mass, Moment, MassBeside, PullBeside, Lever, MaxOf;
    var (m, c) := (MaxOf(logits), (j + k) as real / 2.0);
    MassParts(logits, m, e, j, k);
    PullParts(logits, m, e, j, k, c);
    PullOfOthers(logits, m, e, j, k, c);
    MomentBounds(logits, m, e);
    EvenPull(e(logits[j] - m), j as real, k as real, c);
    MeanNear(Moment(logits, m, e), Mass(logits, m, e), c, MassBeside(logits, m, e, j, k), eps);
  }

  lemma EvenPull(w: real, j: real, k: real, c: real)
    requires j + k == c * 2.0
    ensures Lever(w, j - c) + Lever(w, k - c) == 0.0
  {
    Factor(w, j - c, k - c);
  }

  lemma MeanNear(moment: real, mass: real, c: real, rest: real, eps: real)
    requires mass > 0.0 && Within(moment - c * mass, 15.0 * rest) && rest <= eps * mass
    ensures Within(moment / mass - c, 15.0 * eps)
  {
    var d := moment / mass - c;
    assert moment / mass * mass == moment;
    assert d * mass == moment - c * mass;
    if d > 15.0 * eps {
      ScalesUp(15.0 * eps, d, mass);
    }
    if d < -15.0 * eps {
      ScalesUp(d, -15.0 * eps, mass);
    }
  }

  /** With one bin and a share of at most `eps` beside it, within 15 * eps of that bin. */
  lemma OnePeak(logits: seq<real>, e: real -> real, j: nat, eps: real)
    requires |logits| == BINS && Positive(e) && j < BINS
    requires var m := MaxOf(logits); Mass(logits, m, e) - e(logits[j] - m) <= eps * Mass(logits, m, e)
    ensures Within(DflDistance(logits, e) - j as real, 15.0 * eps)
  {
    var m := MaxOf(logits);
    MassParts(logits, m, e, j, BINS);
    PullParts(logits, m, e, j, BINS, j as real);
    PullOfOthers(logits, m, e, j, BINS, j as real);
    MomentBounds(logits, m, e);
    hide Positive, Mass, Moment, MassBeside, PullBeside, Lever;
    NoPull(e(logits[j] - m), j as real);
    MeanNear(Moment(logits, m, e), Mass(logits, m, e), j as real, MassBeside(logits, m, e, j, BINS), eps);
  }

  lemma NoPull(w: real, j: real)
    ensures Lever(w, j - j) == 0.0
  {
  }
}
