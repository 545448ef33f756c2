/** The orientation engine: the home orientation of each face, the drag
    update, the face scores and their argmax, the snap to the nearest face
    and the planner of random spins. Angles are degrees, as reals. */
module Orientation {
  import opened Types

  /** Degrees of rotation per pixel of pointer movement. */
  const DragSensitivity: real := 0.6

  /** The orientation that brings face `f` to the front, upright. */
  function HomeRotation(f: Face): Rotation
  {
    match f
    case Front => Rotation(0.0, 0.0)
    case Back => Rotation(0.0, 180.0)
    case Right => Rotation(0.0, -90.0)
    case Left => Rotation(0.0, 90.0)
    case Top => Rotation(-90.0, 0.0)
    case Bottom => Rotation(90.0, 0.0)
  }

  /** Distinct faces have distinct home orientations. */
  lemma HomeRotationsDistinct(f: Face, g: Face)
    ensures f != g ==> HomeRotation(f) != HomeRotation(g)
  {
  }

  /** A pointer move from `last` to `now` pitches by the vertical movement
      and yaws by the horizontal one: moving right raises the yaw, moving
      down lowers the pitch, and a move of no distance leaves both. */
  function ApplyDrag(r: Rotation, last: Point, now: Point): (q: Rotation)
    ensures now == last ==> q == r
    ensures now.x > last.x ==> q.y > r.y
    ensures now.x < last.x ==> q.y < r.y
    ensures now.y > last.y ==> q.x < r.x
    ensures now.y < last.y ==> q.x > r.x
  {
    Rotation(r.x - (now.y - last.y) * DragSensitivity, r.y + (now.x - last.x) * DragSensitivity)
  }

  /** The orientation after the pointer moves through `path`, one move per
      sample, starting from `last`. */
  function DragAlong(r: Rotation, last: Point, path: seq<Point>): Rotation
    decreases |path|
  {
    if path == [] then r else DragAlong(ApplyDrag(r, last, path[0]), path[0], path[1..])
  }

  /** Only the end points of a drag matter: the moves through the intermediate
      samples add up to a single move from the first to the last position. */
  lemma {:induction false} DragAlongTelescopes(r: Rotation, last: Point, path: seq<Point>)
    requires path != []
    decreases |path|
    ensures DragAlong(r, last, path) == ApplyDrag(r, last, path[|path| - 1])
  {
    if |path| > 1 {
      DragAlongTelescopes(ApplyDrag(r, last, path[0]), path[0], path[1..]);
    }
  }

  /** Moving the pointer away and back again restores the orientation. */
  lemma DragRoundTrip(r: Rotation, a: Point, b: Point)
    ensures ApplyDrag(ApplyDrag(r, a, b), b, a) == r
  {
  }

  /** The cosines and sines of the pitch (x) and yaw (y). They are left
      uninterpreted: the scores and their argmax do not depend on what they
      are. */
  datatype Trig = Trig(cx: real, sx: real, cy: real, sy: real)

  /** How directly face `f` points at the viewer: the out-of-screen component
      of its normal after pitch and yaw. */
  function Score(t: Trig, f: Face): real
  {
    match f
    case Front => t.cx * t.cy
    case Back => -t.cx * t.cy
    case Right => -t.cx * t.sy
    case Left => t.cx * t.sy
    case Top => -t.sx
    case Bottom => t.sx
  }

  /** The scores come in opposite pairs, so some face scores at least zero. */
  lemma ScoresArePaired(t: Trig)
    ensures Score(t, Back) == -Score(t, Front)
    ensures Score(t, Left) == -Score(t, Right)
    ensures Score(t, Bottom) == -Score(t, Top)
  {
  }

  /** The values are cosines and sines of some pitch and yaw. */
  predicate OnUnitCircles(t: Trig)
  {
    t.cx * t.cx + t.sx * t.sx == 1.0 && t.cy * t.cy + t.sy * t.sy == 1.0
  }

  /** For genuine cosines and sines, the scores of Front, Right and Top are
      the coordinates of the unit view direction. */
  lemma ScoresFormUnitVector(t: Trig)
    requires OnUnitCircles(t)
    ensures IsUnitVector(Score(t, Front), Score(t, Right), Score(t, Top))
  {
    assert Score(t, Front) * Score(t, Front) == (t.cx * t.cx) * (t.cy * t.cy);
    assert Score(t, Right) * Score(t, Right) == (t.cx * t.cx) * (t.sy * t.sy);
    assert (t.cx * t.cx) * (t.cy * t.cy) + (t.cx * t.cx) * (t.sy * t.sy)
      == (t.cx * t.cx) * (t.cy * t.cy + t.sy * t.sy);
  }

  /** (a, b, c) has length 1. */
  predicate IsUnitVector(a: real, b: real, c: real)
  {
    a * a + b * b + c * c == 1.0
  }

  /** m is positive and m * m is at least 1/3. */
  predicate AtLeastInverseSqrt3(m: real)
  {
    0.0 < m && 3.0 * (m * m) >= 1.0
  }

  /** For genuine cosines and sines some face always points at the viewer
      with a score of at least 1/sqrt(3), so the highest score is never
      small. */
  lemma HighestScoreBound(t: Trig)
    requires OnUnitCircles(t)
    ensures AtLeastInverseSqrt3(MaxScore(t))
  {
    ScoresWithinHighest(t);
    ScoresFormUnitVector(t);
    UnitCoordinateBound(Score(t, Front), Score(t, Right), Score(t, Top), MaxScore(t));
  }

  /** Each score, and its negation, is at most the highest score. */
  lemma ScoresWithinHighest(t: Trig)
    ensures -MaxScore(t) <= Score(t, Front) <= MaxScore(t)
    ensures -MaxScore(t) <= Score(t, Right) <= MaxScore(t)
    ensures -MaxScore(t) <= Score(t, Top) <= MaxScore(t)
  {
    ScoresArePaired(t);
    assert Score(t, Back) <= MaxScore(t) && Score(t, Left) <= MaxScore(t);
    assert Score(t, Bottom) <= MaxScore(t);
  }

  /** If the coordinates of a unit vector all lie within [-m, m], then
      3 * m * m is at least 1. */
  lemma UnitCoordinateBound(a: real, b: real, c: real, m: real)
    requires -m <= a <= m && -m <= b <= m && -m <= c <= m
    requires IsUnitVector(a, b, c)
    ensures AtLeastInverseSqrt3(m)
  {
    SquareBelow(a, m);
    SquareBelow(b, m);
    SquareBelow(c, m);
    assert 0.0 <= m && m * m != 0.0 * 0.0;
  }

  /** A value within [-m, m] has a square at most m * m. */
  lemma SquareBelow(a: real, m: real)
    requires -m <= a <= m
    ensures a * a <= m * m
  {
    if a >= 0.0 {
      calc {
        a * a;
      <= { MulMonotone(a, m, a); }
        m * a;
      == a * m;
      <= { MulMonotone(a, m, m); }
        m * m;
      }
    } else {
      var b := -a;
      MulMonotone(b, m, b);
      assert b * b <= m * b;
      MulMonotone(b, m, m);
      assert b * m <= m * m;
      assert a * a == b * b;
    }
  }

  /** `f` has the highest score, and every face before it in FaceOrder scores
      strictly less: what a scan in FaceOrder with a strict comparison yields. */
  ghost predicate IsNearest(t: Trig, f: Face)
  {
    && (forall g :: Score(t, g) <= Score(t, f))
    && (forall g :: Index(g) < Index(f) ==> Score(t, g) < Score(t, f))
  }

  /** At most one face is nearest. */
  lemma NearestIsUnique(t: Trig, f: Face, g: Face)
    requires IsNearest(t, f) && IsNearest(t, g)
    ensures f == g
  {
    assert Score(t, f) == Score(t, g);
    assert !(Index(f) < Index(g)) && !(Index(g) < Index(f));
    assert FaceOrder[Index(f)] == f && FaceOrder[Index(g)] == g;
  }

  /** The highest of the six scores. */
  function MaxScore(t: Trig): (m: real)
    ensures forall g :: Score(t, g) <= m
    ensures exists g :: Score(t, g) == m
  {
    Max(Max(Max(Score(t, Front), Score(t, Back)), Max(Score(t, Right), Score(t, Left))),
        Max(Score(t, Top), Score(t, Bottom)))
  }

  function Max(a: real, b: real): real
  {
    if a < b then b else a
  }

  /** The face most directly facing the viewer: the first face in FaceOrder
      that attains the highest score. */
  function Nearest(t: Trig): (f: Face)
    ensures IsNearest(t, f)
  {
    var m := MaxScore(t);
    if Score(t, Front) == m then Front
    else if Score(t, Back) == m then Back
    else if Score(t, Right) == m then Right
    else if Score(t, Left) == m then Left
    else if Score(t, Top) == m then Top
    else Bottom
  }

  /** The running maximum of the scan: it starts below every score. */
  datatype Bound = NegInfinity | Finite(value: real)

  predicate Exceeds(s: real, b: Bound)
  {
    b.NegInfinity? || s > b.value
  }

  /** The argmax scan over the six scores in FaceOrder. */
  method NearestFace(t: Trig) returns (best: Face)
    ensures IsNearest(t, best) && best == Nearest(t)
    ensures Score(t, best) >= 0.0
  {
    best := Front;
    var maxScore := NegInfinity;
    for i := 0 to |FaceOrder|
      invariant i == 0 ==> maxScore == NegInfinity && best == Front
      invariant i > 0 ==> maxScore == Finite(Score(t, best)) && Index(best) < i
      invariant forall j :: 0 <= j < i ==> Score(t, FaceOrder[j]) <= Score(t, best)
      invariant forall j :: 0 <= j < Index(best) ==> Score(t, FaceOrder[j]) < Score(t, best)
    {
      var face := FaceOrder[i];
      var score := Score(t, face);
      if Exceeds(score, maxScore) {
        maxScore := Finite(score);
        best := face;
      }
    }
    forall g ensures Score(t, g) <= Score(t, best) {
      assert FaceOrder[Index(g)] == g;
    }
    forall g | Index(g) < Index(best) ensures Score(t, g) < Score(t, best) {
      assert FaceOrder[Index(g)] == g;
    }
    assert Score(t, best) >= Score(t, Front) && Score(t, best) >= Score(t, Back);
    NearestIsUnique(t, best, Nearest(t));
  }

  /** Exact cosines and sines at the home orientation of `f` (quarter turns,
      so every value is 0, 1 or -1). */
  function HomeTrig(f: Face): Trig
  {
    match f
    case Front => Trig(1.0, 0.0, 1.0, 0.0)
    case Back => Trig(1.0, 0.0, -1.0, 0.0)
    case Right => Trig(1.0, 0.0, 0.0, -1.0)
    case Left => Trig(1.0, 0.0, 0.0, 1.0)
    case Top => Trig(0.0, -1.0, 1.0, 0.0)
    case Bottom => Trig(0.0, 1.0, 1.0, 0.0)
  }

  /** At its own home orientation a face is the nearest one; in particular
      Front wins at (0, 0). */
  lemma HomeSelectsFace(f: Face)
    ensures IsNearest(HomeTrig(f), f)
  {
  }

  /** Close to Front's home (cosines at least 0.9, sines at most 0.45 in size),
      Front is nearest. The initial tilt (-15, -25) lies in this region. */
  lemma NearRestSelectsFront(t: Trig)
    requires 0.9 <= t.cx <= 1.0 && 0.9 <= t.cy <= 1.0
    requires -0.45 <= t.sx <= 0.45 && -0.45 <= t.sy <= 0.45
    ensures IsNearest(t, Front)
  {
    MulMonotone(0.9, t.cx, t.cy);
    assert 0.9 * t.cy <= t.cx * t.cy;
    assert 0.9 * t.cy >= 0.81;
    assert Score(t, Front) >= 0.81;
    if t.sy >= 0.0 {
      MulMonotone(t.cx, 1.0, t.sy);
      MulMonotone(0.0, t.cx, t.sy);
      assert t.cx * t.sy <= 1.0 * t.sy == t.sy;
      assert 0.0 <= t.cx * t.sy <= 0.45;
    } else {
      MulMonotone(t.cx, 1.0, -t.sy);
      MulMonotone(0.0, t.cx, -t.sy);
      assert t.cx * -t.sy <= 1.0 * -t.sy == -t.sy;
      assert 0.0 <= t.cx * -t.sy <= 0.45;
      assert t.cx * -t.sy == -(t.cx * t.sy);
    }
    assert -0.45 <= t.cx * t.sy <= 0.45;
    assert -t.cx * t.sy == -(t.cx * t.sy);
    assert -t.cx * t.cy == -(t.cx * t.cy);
  }

  lemma MulMonotone(a: real, b: real, c: real)
    requires a <= b && 0.0 <= c
    ensures a * c <= b * c
  {
  }

  /** JavaScript's `Math.round`: the nearest integer, halves rounded up. */
  function JsRound(r: real): (n: int)
    ensures r - 0.5 < n as real <= r + 0.5
  {
    (r + 0.5).Floor
  }

  /** JavaScript's `Math.ceil`: the least integer not below `r`. */
  function JsCeil(r: real): (n: int)
    ensures r <= n as real < r + 1.0
  {
    -((-r).Floor)
  }

  function Abs(r: real): real
  {
    if r < 0.0 then -r else r
  }

  /** `home` moved by `k` whole turns. */
  function Winding(home: real, k: int): real
  {
    home + 360.0 * k as real
  }

  /** `a` differs from `home` by a whole number of turns. */
  ghost predicate Congruent(a: real, home: real)
  {
    exists k :: a == Winding(home, k)
  }

  /** The orientation `r` shows face `f` to the viewer, upright. */
  ghost predicate Shows(r: Rotation, f: Face)
  {
    Congruent(r.x, HomeRotation(f).x) && Congruent(r.y, HomeRotation(f).y)
  }

  /** Two angles within one turn of each other that the same angle is
      congruent to are equal. */
  lemma CongruentHomesEqual(a: real, h1: real, h2: real)
    requires Congruent(a, h1) && Congruent(a, h2)
    requires -360.0 < h1 - h2 < 360.0
    ensures h1 == h2
  {
    var k1 :| a == Winding(h1, k1);
    var k2 :| a == Winding(h2, k2);
    assert h1 - h2 == 360.0 * (k2 - k1) as real;
  }

  /** An orientation shows at most one face: the six home orientations are
      distinct modulo whole turns. */
  lemma ShowsAtMostOneFace(r: Rotation, f: Face, g: Face)
    ensures Shows(r, f) && Shows(r, g) ==> f == g
  {
    if Shows(r, f) && Shows(r, g) {
      CongruentHomesEqual(r.x, HomeRotation(f).x, HomeRotation(g).x);
      CongruentHomesEqual(r.y, HomeRotation(f).y, HomeRotation(g).y);
      HomeRotationsDistinct(f, g);
    }
  }

  /** The angle congruent to `home` modulo 360 nearest to `current`. */
  function SnapToClosest(current: real, home: real): (r: real)
    ensures Congruent(r, home)
    ensures Abs(r - current) <= 180.0
  {
    Winding(home, JsRound((current - home) / 360.0))
  }

  /** No whole-turn offset of `home` is strictly closer to `current` than
      the snapped angle. */
  lemma SnapToClosestIsNearest(current: real, home: real, k: int)
    ensures Abs(SnapToClosest(current, home) - current) <= Abs(Winding(home, k) - current)
  {
    var d := (current - home) / 360.0;
    var n := JsRound(d);
    assert current == home + 360.0 * d;
    if k > n {
      assert k as real >= n as real + 1.0;
      assert Winding(home, k) - current >= 180.0;
    } else if k < n {
      assert k as real <= n as real - 1.0;
      assert current - Winding(home, k) >= 180.0;
    }
  }

  /** Snapping an angle that is already a whole number of turns from `home`
      leaves it unchanged. */
  lemma SnapAtRest(home: real, k: int)
    ensures SnapToClosest(Winding(home, k), home) == Winding(home, k)
  {
    var d := (Winding(home, k) - home) / 360.0;
    assert Winding(home, k) - home == 360.0 * k as real;
    assert d == k as real;
    assert (d + 0.5).Floor == k;
  }

  /** The snap target for face `f`, axis by axis. */
  function SnapTarget(current: Rotation, f: Face): (r: Rotation)
    ensures Abs(r.x - current.x) <= 180.0 && Abs(r.y - current.y) <= 180.0
    ensures Shows(r, f)
  {
    Rotation(SnapToClosest(current.x, HomeRotation(f).x), SnapToClosest(current.y, HomeRotation(f).y))
  }

  /** Snapping from the initial tilt (-15, -25) to Front lands on (0, 0). */
  lemma SnapFromInitialTilt()
    ensures SnapTarget(Rotation(-15.0, -25.0), Front) == Rotation(0.0, 0.0)
  {
  }

  /** The spin target on one axis: the least angle congruent to `base`
      modulo 360 that is at least `extra` whole turns ahead of `current`. */
  function SpinTarget(current: real, base: real, extra: int): (r: real)
    ensures Congruent(r, base)
    ensures current + 360.0 * extra as real <= r < current + 360.0 * extra as real + 360.0
  {
    Winding(base, JsCeil((current + 360.0 * extra as real - base) / 360.0))
  }

  /** No angle congruent to `base` below the spin target reaches `extra`
      turns ahead of `current`. */
  lemma SpinTargetIsLeast(current: real, base: real, extra: int, k: int)
    requires Winding(base, k) >= current + 360.0 * extra as real
    ensures SpinTarget(current, base, extra) <= Winding(base, k)
  {
    var v := (current + 360.0 * extra as real - base) / 360.0;
    var n := JsCeil(v);
    assert base + 360.0 * v == current + 360.0 * extra as real;
    assert k as real >= v;
    assert n as real < v + 1.0;
    assert k >= n;
  }

  /** `Math.min(hi, Math.max(lo, v))`. */
  function Clamp(v: real, lo: real, hi: real): (r: real)
    requires lo <= hi
    ensures lo <= r <= hi
    ensures lo <= v <= hi ==> r == v
  {
    if v < lo then lo else if v > hi then hi else v
  }

  /** Spin duration in seconds: 0.8 s plus 0.25 s per full turn travelled,
      summed over both axes, kept within [0.8, 1.5]. */
  function SpinDuration(from: Rotation, to: Rotation): (d: real)
    ensures 0.8 <= d <= 1.5
  {
    var turns := (Abs(to.x - from.x) + Abs(to.y - from.y)) / 360.0;
    Clamp(0.8 + turns * 0.25, 0.8, 1.5)
  }

  datatype SpinPlan = SpinPlan(target: Rotation, duration: real)

  /** The planned spin to face `f` with `extraX` and `extraY` extra turns: the
      rotation only moves forward, by at least the extra turns and by less
      than one turn more. */
  function PlanSpin(current: Rotation, f: Face, extraX: int, extraY: int): (p: SpinPlan)
    ensures Shows(p.target, f)
    ensures 360.0 * extraX as real <= p.target.x - current.x < 360.0 * extraX as real + 360.0
    ensures 360.0 * extraY as real <= p.target.y - current.y < 360.0 * extraY as real + 360.0
    ensures 0.8 <= p.duration <= 1.5
  {
    var target := Rotation(SpinTarget(current.x, HomeRotation(f).x, extraX),
                           SpinTarget(current.y, HomeRotation(f).y, extraY));
    SpinPlan(target, SpinDuration(current, target))
  }

  /** With the random ranges of the application (0 or 1 extra pitch turn,
      1 or 2 extra yaw turns) a spin takes at least 1.05 s, and exactly the
      1.5 s cap when both extras are at their maximum. */
  lemma RandomSpinDuration(current: Rotation, f: Face, extraX: int, extraY: int)
    requires 0 <= extraX <= 1 && 1 <= extraY <= 2
    ensures 1.05 <= PlanSpin(current, f, extraX, extraY).duration <= 1.5
    ensures extraX == 1 && extraY == 2 ==> PlanSpin(current, f, extraX, extraY).duration == 1.5
  {
  }

  /** Spinning from (0, 0) to Top with no extra pitch turn and one extra yaw
      turn ends at (270, 360): the pitch target is -90 moved one turn ahead,
      since -90 lies behind 0. */
  lemma SpinFromRestToTop()
    ensures PlanSpin(Rotation(0.0, 0.0), Top, 0, 1).target == Rotation(270.0, 360.0)
  {
  }
}
