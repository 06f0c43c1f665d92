/** Where the wheel lands and what the pointer reads, in exact reals (web/src/core/wheel.ts). */
module WheelGeometry {
  import opened Basics

  const REVOLUTIONS: real := 6.0
  const SETTLE: real := 0.14

  /** JavaScript's %, whose result takes the sign of the dividend. */
  function Rem(a: real, b: real): real
    requires b > 0.0
  {
    var q := a / b;
    a - (if q >= 0.0 then q.Floor else -((-q).Floor)) as real * b
  }

  function Mod360(d: real): real {
    Rem(Rem(d, 360.0) + 360.0, 360.0)
  }

  function Angle(n: nat): (s: real)
    requires n > 0
    ensures s > 0.0
  {
    360.0 / n as real
  }

  lemma WholeTurn(n: nat)
    requires n > 0
    ensures n as real * Angle(n) == 360.0
  {
  }

  function MinReal(a: real, b: real): real {
    if a < b then a else b
  }

  /** How far into its segment the pointer is to come to rest, `r` being the random number. */
  function Jitter(n: nat, r: real): (j: real)
    requires n > 0 && 0.0 <= r < 1.0
    ensures 0.0 < j < Angle(n)
  {
    JitterInside(Angle(n), r);
    JitterFor(Angle(n), r)
  }

  function JitterFor(s: real, r: real): real {
    var margin := MinReal(2.0, s / 4.0);
    margin + r * (s - 2.0 * margin)
  }

  lemma JitterInside(s: real, r: real)
    requires s > 0.0 && 0.0 <= r < 1.0
    ensures 0.0 < JitterFor(s, r) < s
  {
    var margin := MinReal(2.0, s / 4.0);
    var room := s - 2.0 * margin;
    Fraction(r, room);
    assert JitterFor(s, r) == margin + r * room;
  }

  /** The resting angle; None is the RangeError. */
  function TargetAngle(from: real, segment: int, n: nat, r: real): Option<real>
    requires n > 0 && 0.0 <= r < 1.0
  {
    if segment < 1 || segment > n then None else
      var want := Mod360(360.0 - (Edge(segment, n) + Jitter(n, r)));
      var base := from + REVOLUTIONS * 360.0;
      Some(base + Mod360(want - base))
  }

  function IndicatedSegment(degrees: real, n: nat): int
    requires n > 0
  {
    (Mod360(-degrees) / Angle(n)).Floor + 1
  }

  /******* Reals *******/

  lemma Fraction(r: real, x: real)
    requires 0.0 <= r <= 1.0 && x >= 0.0
    ensures 0.0 <= r * x <= x
  {
  }

  lemma Quotient(a: real, b: real, q: int)
    requires b > 0.0
    ensures (a / b).Floor == q <==> q as real * b <= a < q as real * b + b
  {
    FloorScaled(a / b, b, q, a);
  }

  lemma FloorScaled(x: real, b: real, q: int, a: real)
    requires b > 0.0 && x * b == a
    ensures x.Floor == q <==> q as real * b <= a < q as real * b + b
  {
    var y := q as real;
    LessScaled(x, y, b, a, y * b);
    LessScaled(x, y + 1.0, b, a, y * b + b);
  }

  lemma LessScaled(x: real, y: real, b: real, a: real, c: real)
    requires b > 0.0 && a == x * b && c == y * b
    ensures x < y <==> a < c
  {
    Scaled(x, y, b);
  }

  /** How a quotient compares. */
  lemma Ratio(a: real, b: real, x: real)
    requires b > 0.0
    ensures a / b < x <==> a < x * b
    ensures a / b > x <==> a > x * b
  {
    RatioOf(a / b, b, x, a);
  }

  lemma RatioOf(y: real, b: real, x: real, a: real)
    requires b > 0.0 && y * b == a
    ensures y < x <==> a < x * b
    ensures y > x <==> a > x * b
  {
    Scaled(y, x, b);
    Scaled(x, y, b);
  }

  lemma Scaled(x: real, y: real, b: real)
    requires b > 0.0
    ensures x < y <==> x * b < y * b
  {
  }

  /** The double remainder is the remainder in [0, 360). */
  lemma Mod360Value(d: real)
    ensures 0.0 <= Mod360(d) < 360.0
    ensures Mod360(d) == d - 360.0 * (d / 360.0).Floor as real
  {
    var q := d / 360.0;
    var m := Rem(d, 360.0);
    if q >= 0.0 {
      assert m == d - 360.0 * q.Floor as real;
      assert ((m + 360.0) / 360.0).Floor == 1;
    } else {
      var k := (-q).Floor;
      assert m == d + 360.0 * k as real;
      assert -360.0 < m <= 0.0;
      assert ((m + 360.0) / 360.0).Floor == if m == 0.0 then 1 else 0;
      assert m == 0.0 ==> q == -k as real;
      assert m < 0.0 ==> q.Floor == -k - 1;
    }
  }

  /** It is the only number there that differs from d by whole turns. */
  lemma Mod360Unique(d: real, b: real, turns: int)
    requires 0.0 <= b < 360.0 && d == b + 360.0 * turns as real
    ensures Mod360(d) == b
  {
    Mod360Value(d);
    assert (d / 360.0).Floor == turns;
  }

  /** What a pointer over wheel-local angle phi reads. */
  lemma Reads(degrees: real, n: nat, phi: real, turns: int, k: nat)
    requires 1 <= k <= n && -degrees == phi + 360.0 * turns as real
    requires Edge(k, n) <= phi < Edge(k, n) + Angle(n)
    ensures IndicatedSegment(degrees, n) == k && Mod360(-degrees) == phi
  {
    EdgesInTurn(k, n);
    hide Angle, Mod360;
    Mod360Unique(-degrees, phi, turns);
    Quotient(phi, Angle(n), k - 1);
  }

  /** Where segment k starts, in wheel-local degrees. */
  function Edge(k: int, n: nat): real
    requires n > 0
  {
    (k - 1) as real * Angle(n)
  }

  lemma EdgesInTurn(k: nat, n: nat)
    requires 1 <= k <= n
    ensures 0.0 <= Edge(k, n) && Edge(k, n) + Angle(n) <= 360.0
  {
    WholeTurn(n);
    var s, x, y := Angle(n), (k - 1) as real, (n - k) as real;
    hide Angle;
    Product(x, s);
    Product(y, s);
    assert n as real == x + y + 1.0;
    assert (x + y + 1.0) * s == x * s + y * s + s;
  }

  lemma Product(x: real, y: real)
    requires x >= 0.0 && y >= 0.0
    ensures x * y >= 0.0
  {
  }

  /******* Landing *******/

  /** Wherever the wheel starts and whatever is drawn, it comes to rest under the chosen segment, at least six and
      less than seven turns on, and its distance past the segment's leading edge is the jitter. There is an angle for
      every segment of the wheel, and for nothing else. */
  lemma LandsOnSegment(from: real, segment: int, n: nat, r: real)
    requires n > 0 && 0.0 <= r < 1.0
    ensures TargetAngle(from, segment, n, r).Some? <==> 1 <= segment <= n
    ensures 1 <= segment <= n ==>
              var to := TargetAngle(from, segment, n, r).value;
              && IndicatedSegment(to, n) == segment
              && from + 2160.0 <= to < from + 2520.0
              && Mod360(-to) == Edge(segment, n) + Jitter(n, r)
  {
    if 1 <= segment <= n {
      Lands(from, segment, n, r);
    }
  }

  lemma Lands(from: real, segment: nat, n: nat, r: real)
    requires 1 <= segment <= n && 0.0 <= r < 1.0
    ensures var to := TargetAngle(from, segment, n, r).value;
            && IndicatedSegment(to, n) == segment
            && from + 2160.0 <= to < from + 2520.0
            && Mod360(-to) == Edge(segment, n) + Jitter(n, r)
  {
    var phi := Edge(segment, n) + Jitter(n, r);
    var to := TargetAngle(from, segment, n, r).value;
    var want, base := Mod360(360.0 - phi), from + 2160.0;
    assert to == base + Mod360(want - base);
    hide Mod360, Edge, Jitter, Angle, TargetAngle, IndicatedSegment;
    Mod360Value(360.0 - phi);
    Mod360Value(want - base);
    var t1, t2 := ((360.0 - phi) / 360.0).Floor, ((want - base) / 360.0).Floor;
    assert -to == phi + 360.0 * (t1 + t2 - 1) as real;
    Reads(to, n, phi, t1 + t2 - 1, segment);
  }

  /******* Drawing *******/

  /** The canvas arc of a segment. */
  function ArcStart(segment: int, n: nat): real
    requires n > 0
  {
    Edge(segment, n) - 90.0
  }

  function ArcEnd(segment: int, n: nat): real
    requires n > 0
  {
    Edge(segment + 1, n) - 90.0
  }

  /** A feature drawn at `a` appears at a + rotation; the pointer stands at -90 degrees. */
  ghost predicate UnderPointer(segment: int, n: nat, rotation: real)
    requires n > 0
  {
    exists turns: int :: DrawnThere(segment, n, rotation, turns)
  }

  predicate DrawnThere(segment: int, n: nat, rotation: real, turns: int)
    requires n > 0
  {
    ArcStart(segment, n) <= -90.0 - rotation + 360.0 * turns as real < ArcEnd(segment, n)
  }

  /** The tile drawn under the pointer is the one the pointer is said to read, at every rotation. */
  lemma DrawingAgrees(segment: nat, n: nat, rotation: real)
    requires 1 <= segment <= n
    ensures UnderPointer(segment, n, rotation) <==> IndicatedSegment(rotation, n) == segment
  {
    NextEdge(segment, n);
    hide Edge, Angle, Mod360;
    if UnderPointer(segment, n, rotation) {
      var turns: int :| DrawnThere(segment, n, rotation, turns);
      hide IndicatedSegment;
      Reads(rotation, n, -rotation + 360.0 * turns as real, -turns, segment);
    }
    if IndicatedSegment(rotation, n) == segment {
      ReadIsThere(rotation, n);
      Mod360Value(-rotation);
      assert DrawnThere(segment, n, rotation, -(-rotation / 360.0).Floor);
    }
  }

  lemma NextEdge(segment: int, n: nat)
    requires n > 0
    ensures Edge(segment + 1, n) == Edge(segment, n) + Angle(n)
  {
    var x, s := (segment - 1) as real, Angle(n);
    assert (x + 1.0) * s == x * s + s;
  }

  /** What is read lies in the segment that is read. */
  lemma ReadIsThere(rotation: real, n: nat)
    requires n > 0
    ensures var k := IndicatedSegment(rotation, n);
            Edge(k, n) <= Mod360(-rotation) < Edge(k, n) + Angle(n)
  {
    hide Angle, Mod360;
    Quotient(Mod360(-rotation), Angle(n), IndicatedSegment(rotation, n) - 1);
  }

  /** The pointer always reads some segment of the wheel. */
  lemma AlwaysASegment(rotation: real, n: nat)
    requires n > 0
    ensures 1 <= IndicatedSegment(rotation, n) <= n
  {
    ReadIsThere(rotation, n);
    WholeTurn(n);
    Mod360Value(-rotation);
    WithinTheTurn(IndicatedSegment(rotation, n) - 1, n, Angle(n), Mod360(-rotation));
  }

  lemma WithinTheTurn(q: int, n: nat, s: real, phi: real)
    requires s > 0.0 && n as real * s == 360.0 && 0.0 <= phi < 360.0
    requires q as real * s <= phi < q as real * s + s
    ensures 0 <= q < n
  {
    Scaled(-1.0, q as real, s);
    Scaled(q as real, n as real, s);
  }

  /******* Overshoot and settle *******/

  function Overshoot(to: real, n: nat): real
    requires n > 0
  {
    var s := Angle(n);
    MinReal(0.55 * Rem(Mod360(-to), s), s * 0.4)
  }

  function EaseOutQuart(t: real): real {
    var u := 1.0 - t;
    1.0 - u * u * u * u
  }

  function EaseInOutCubic(t: real): real {
    if t < 0.5 then 4.0 * t * t * t
    else var u := -2.0 * t + 2.0; 1.0 - u * u * u / 2.0
  }

  function Between(a: real, b: real, eased: real): real {
    a + (b - a) * eased
  }

  /** How far into the braking, and into the settling, as fractions of each. */
  function BrakeTime(t: real): real {
    t / (1.0 - SETTLE)
  }

  function SettleTime(t: real): real {
    (t - (1.0 - SETTLE)) / SETTLE
  }

  function RotationWithSettle(from: real, to: real, elapsed: real, n: nat, duration: real): real
    requires n > 0 && duration > 0.0
  {
    if elapsed >= duration then to
    else if elapsed <= 0.0 then from
    else
      var t, peak := elapsed / duration, to + Overshoot(to, n);
      if t <= 1.0 - SETTLE then Between(from, peak, EaseOutQuart(BrakeTime(t)))
      else Between(peak, to, EaseInOutCubic(SettleTime(t)))
  }

  lemma BetweenInside(a: real, b: real, e: real)
    requires 0.0 <= e <= 1.0
    ensures a <= b ==> a <= Between(a, b, e) <= b
    ensures b <= a ==> b <= Between(a, b, e) <= a
    ensures e == 1.0 ==> Between(a, b, e) == b
  {
    var way := b - a;
    assert Between(a, b, e) == a + e * way;
    if way >= 0.0 {
      Fraction(e, way);
    } else {
      Fraction(e, -way);
      assert e * -way == -(e * way);
    }
  }

  lemma BetweenRises(a: real, b: real, e: real, e': real)
    requires a <= b && e <= e'
    ensures Between(a, b, e) <= Between(a, b, e')
  {
    var way := b - a;
    assert Between(a, b, e) == a + e * way && Between(a, b, e') == a + e' * way;
    Product(e' - e, way);
    assert (e' - e) * way == e' * way - e * way;
  }

  lemma RemOfPositive(a: real, b: real)
    requires a >= 0.0 && b > 0.0
    ensures Rem(a, b) == a - (a / b).Floor as real * b
  {
    Ratio(a, b, 0.0);
  }

  /** The overshoot is at most what lies between the pointer and the segment's leading edge. */
  lemma Room(to: real, n: nat)
    requires n > 0
    ensures 0.0 <= Overshoot(to, n) <= Mod360(-to) - Edge(IndicatedSegment(to, n), n)
  {
    hide Angle, Mod360, IndicatedSegment, Edge, Rem;
    ReadIsThere(to, n);
    Mod360Value(-to);
    RemOfPositive(Mod360(-to), Angle(n));
    EdgeRead(to, n);
  }

  lemma EdgeRead(to: real, n: nat)
    requires n > 0
    ensures Edge(IndicatedSegment(to, n), n) == (Mod360(-to) / Angle(n)).Floor as real * Angle(n)
  {
    hide Angle, Mod360;
  }

  /** Being past the resting angle by no more than the overshoot leaves the reading alone. */
  lemma OvershootStaysInside(to: real, n: nat, d: real)
    requires n > 0 && 0.0 <= d <= Overshoot(to, n)
    ensures IndicatedSegment(to + d, n) == IndicatedSegment(to, n)
  {
    hide *;
    var k := IndicatedSegment(to, n);
    AlwaysASegment(to, n);
    Room(to, n);
    ReadIsThere(to, n);
    Mod360Value(-to);
    Reads(to + d, n, Mod360(-to) - d, (-to / 360.0).Floor, k);
  }

  lemma QuartInUnit(t: real)
    requires 0.0 <= t <= 1.0
    ensures 0.0 <= EaseOutQuart(t) <= 1.0 && EaseOutQuart(1.0) == 1.0
  {
    var u := 1.0 - t;
    Fraction(u, u);
    Fraction(u, u * u);
    Fraction(u, u * u * u);
    assert u * u * u * u == u * (u * u * u) && u * u * u == u * (u * u);
  }

  lemma Cube(u: real)
    requires 0.0 <= u <= 1.0
    ensures 0.0 <= u * u * u <= 1.0
  {
    Fraction(u, u);
    Fraction(u, u * u);
    assert u * (u * u) == u * u * u;
  }

  lemma CubicInUnit(t: real)
    requires 0.0 <= t <= 1.0
    ensures 0.0 <= EaseInOutCubic(t) <= 1.0
    ensures EaseInOutCubic(0.0) == 0.0 && EaseInOutCubic(1.0) == 1.0
  {
    if t < 0.5 {
      var u := 2.0 * t;
      Cube(u);
      assert u * u * u == 8.0 * t * t * t;
    } else {
      Cube(-2.0 * t + 2.0);
    }
  }

  /** From the furthest point on, the wheel is between that point and its resting angle ... */
  lemma SettlesBetween(from: real, to: real, elapsed: real, n: nat, duration: real)
    requires n > 0 && duration > 0.0 && elapsed >= (1.0 - SETTLE) * duration
    ensures to <= RotationWithSettle(from, to, elapsed, n, duration) <= to + Overshoot(to, n)
  {
    Room(to, n);
    if elapsed < duration {
      hide Overshoot, EaseInOutCubic, EaseOutQuart, Between, BrakeTime, SettleTime;
      SettlingTimes(elapsed, duration);
      Settling(from, to + Overshoot(to, n), to, elapsed / duration);
    }
  }

  lemma Settling(from: real, peak: real, to: real, t: real)
    requires to <= peak && 1.0 - SETTLE <= t <= 1.0 && 0.0 <= SettleTime(t) <= 1.0 && BrakeTime(1.0 - SETTLE) == 1.0
    ensures t <= 1.0 - SETTLE ==> Between(from, peak, EaseOutQuart(BrakeTime(t))) == peak
    ensures to <= Between(peak, to, EaseInOutCubic(SettleTime(t))) <= peak
  {
    hide *;
    QuartInUnit(1.0);
    CubicInUnit(SettleTime(t));
    BetweenInside(from, peak, 1.0);
    BetweenInside(peak, to, EaseInOutCubic(SettleTime(t)));
  }

  lemma SettlingTimes(elapsed: real, duration: real)
    requires duration > 0.0 && (1.0 - SETTLE) * duration <= elapsed <= duration
    ensures 1.0 - SETTLE <= elapsed / duration <= 1.0 && 0.0 <= SettleTime(elapsed / duration) <= 1.0
    ensures BrakeTime(1.0 - SETTLE) == 1.0
  {
    Ratio(elapsed, duration, 1.0 - SETTLE);
    Ratio(elapsed, duration, 1.0);
  }

  /** ... so from there on the pointer reads the drawn segment, and the wheel stops exactly on the resting angle. */
  lemma HoldsPastTheBrake(from: real, segment: nat, n: nat, r: real, elapsed: real, duration: real)
    requires 1 <= segment <= n && 0.0 <= r < 1.0 && duration > 0.0 && elapsed >= (1.0 - SETTLE) * duration
    ensures var to := TargetAngle(from, segment, n, r).value;
            && IndicatedSegment(RotationWithSettle(from, to, elapsed, n, duration), n) == segment
            && (elapsed >= duration ==> RotationWithSettle(from, to, elapsed, n, duration) == to)
  {
    var to := TargetAngle(from, segment, n, r).value;
    LandsOnSegment(from, segment, n, r);
    SettlesBetween(from, to, elapsed, n, duration);
    OvershootStaysInside(to, n, RotationWithSettle(from, to, elapsed, n, duration) - to);
  }

  /** Once the wheel has reached its resting angle, the pointer reads the drawn segment at every later instant: through
      the overshoot, through the settling and for good, and the wheel ends exactly on the resting angle. */
  lemma PointerHoldsTheSegment(from: real, segment: nat, n: nat, r: real, reached: real, elapsed: real, duration: real)
    requires 1 <= segment <= n && 0.0 <= r < 1.0 && duration > 0.0 && reached <= elapsed
    ensures var to := TargetAngle(from, segment, n, r).value;
            && (RotationWithSettle(from, to, reached, n, duration) >= to ==>
                  IndicatedSegment(RotationWithSettle(from, to, elapsed, n, duration), n) == segment)
            && (elapsed >= duration ==> RotationWithSettle(from, to, elapsed, n, duration) == to)
  {
    var to := TargetAngle(from, segment, n, r).value;
    LandsOnSegment(from, segment, n, r);
    NotBeforeTheStart(from, to, reached, n, duration);
    hide *;
    if elapsed >= (1.0 - SETTLE) * duration {
      HoldsPastTheBrake(from, segment, n, r, elapsed, duration);
    } else if RotationWithSettle(from, to, reached, n, duration) >= to {
      BrakesForward(from, to, reached, elapsed, n, duration);
      OvershootStaysInside(to, n, RotationWithSettle(from, to, elapsed, n, duration) - to);
    }
  }

  /** Until it starts the wheel stands where it stood. */
  lemma NotBeforeTheStart(from: real, to: real, elapsed: real, n: nat, duration: real)
    requires n > 0 && duration > 0.0 && from < to
    ensures RotationWithSettle(from, to, elapsed, n, duration) >= to ==> elapsed > 0.0
  {
    hide Overshoot, EaseOutQuart, EaseInOutCubic, Between;
  }

  /** While braking the wheel only moves forward, from where it stood to the furthest point. */
  lemma BrakesForward(from: real, to: real, e1: real, e2: real, n: nat, duration: real)
    requires n > 0 && duration > 0.0 && from <= to && 0.0 < e1 <= e2 <= (1.0 - SETTLE) * duration
    ensures from <= RotationWithSettle(from, to, e1, n, duration) <= RotationWithSettle(from, to, e2, n, duration)
    ensures RotationWithSettle(from, to, e2, n, duration) <= to + Overshoot(to, n)
  {
    Room(to, n);
    var t1, t2, peak := BrakeTime(e1 / duration), BrakeTime(e2 / duration), to + Overshoot(to, n);
    BrakingTimes(e1, e2, duration);
    QuartInUnit(t1);
    QuartInUnit(t2);
    QuartRises(t1, t2);
    hide Overshoot, EaseInOutCubic, EaseOutQuart, Between, BrakeTime, SettleTime;
    BetweenInside(from, peak, EaseOutQuart(t1));
    BetweenInside(from, peak, EaseOutQuart(t2));
    BetweenRises(from, peak, EaseOutQuart(t1), EaseOutQuart(t2));
  }

  lemma BrakingTimes(e1: real, e2: real, duration: real)
    requires duration > 0.0 && 0.0 < e1 <= e2 <= (1.0 - SETTLE) * duration
    ensures 0.0 <= e1 / duration <= e2 / duration <= 1.0 - SETTLE
    ensures 0.0 <= BrakeTime(e1 / duration) <= BrakeTime(e2 / duration) <= 1.0
  {
    Ratio(e1, duration, 0.0);
    Ratio(e1, duration, e2 / duration);
    Ratio(e2, duration, 1.0 - SETTLE);
    assert e2 / duration * duration == e2;
  }

  lemma QuartRises(t: real, t': real)
    requires 0.0 <= t <= t' <= 1.0
    ensures EaseOutQuart(t) <= EaseOutQuart(t')
  {
    var u, v := 1.0 - t, 1.0 - t';
    SquareRises(v, u);
    SquareRises(v * v, u * u);
    assert u * u * u * u == (u * u) * (u * u) && v * v * v * v == (v * v) * (v * v);
  }

  lemma SquareRises(v: real, u: real)
    requires 0.0 <= v <= u
    ensures 0.0 <= v * v <= u * u
  {
    Product(u - v, u + v);
    Product(v, v);
    assert (u - v) * (u + v) == u * u - v * v;
  }

  /******* The shape of the motion *******/

  /** The quartic ease-out starts at 0, ends at 1, and whenever the remaining time halves, the remaining way shrinks to a
      sixteenth. */
  lemma QuartLaw(t: real)
    ensures EaseOutQuart(0.0) == 0.0 && EaseOutQuart(1.0) == 1.0
    ensures 1.0 - EaseOutQuart((1.0 + t) / 2.0) == (1.0 - EaseOutQuart(t)) / 16.0
  {
    var u, v := 1.0 - t, 1.0 - (1.0 + t) / 2.0;
    assert v == u / 2.0;
    assert v * v == u * u / 4.0;
    assert v * v * v * v == (v * v) * (v * v) && u * u * u * u == (u * u) * (u * u);
    var w := u * u;
    assert (w / 4.0) * (w / 4.0) == w * w / 16.0;
  }

  /** The settling eases in and out: it starts at 0, ends at 1, is halfway at half time, looks the same backwards, and in its
      first half doubling the time covers eight times the way. */
  lemma CubicLaw(t: real)
    requires 0.0 <= t <= 1.0
    ensures EaseInOutCubic(0.0) == 0.0 && EaseInOutCubic(0.5) == 0.5 && EaseInOutCubic(1.0) == 1.0
    ensures EaseInOutCubic(1.0 - t) == 1.0 - EaseInOutCubic(t)
    ensures t <= 0.5 ==> EaseInOutCubic(t / 2.0) == EaseInOutCubic(t) / 8.0
  {
    if t < 0.5 {
      CubicHalves(t);
    } else if t > 0.5 {
      CubicHalves(1.0 - t);
    } else {
      assert EaseInOutCubic(0.25) == 0.0625;
    }
  }

  lemma CubicHalves(t: real)
    requires 0.0 <= t < 0.5
    ensures EaseInOutCubic(t) == 4.0 * (t * t * t)
    ensures EaseInOutCubic(1.0 - t) == 1.0 - 4.0 * (t * t * t)
    ensures EaseInOutCubic(t / 2.0) == EaseInOutCubic(t) / 8.0
  {
    CubeScaled(t, 2.0);
    CubeScaled(t, 0.5);
    var u := -2.0 * (1.0 - t) + 2.0;
    assert u == t * 2.0;
    assert t / 2.0 == t * 0.5;
  }

  lemma CubeScaled(t: real, k: real)
    ensures (t * k) * (t * k) * (t * k) == (t * t * t) * (k * k * k)
  {
    var a, b := t * t, k * k;
    assert (t * k) * (t * k) == a * b;
    assert (a * b) * (t * k) == (a * t) * (b * k);
  }

  /** The motion begins where the wheel stood, passes the furthest point when 86 hundredths of its time are over, and ends
      on the resting angle. */
  lemma MotionEnds(from: real, to: real, n: nat, duration: real)
    requires n > 0 && duration > 0.0
    ensures forall e | e <= 0.0 :: RotationWithSettle(from, to, e, n, duration) == from
    ensures forall e | e >= duration :: RotationWithSettle(from, to, e, n, duration) == to
    ensures RotationWithSettle(from, to, 0.86 * duration, n, duration) == to + Overshoot(to, n)
  {
    Ratio((1.0 - SETTLE) * duration, duration, 1.0 - SETTLE);
    QuartInUnit(1.0);
    BetweenInside(from, to + Overshoot(to, n), 1.0);
    hide Overshoot, EaseInOutCubic, EaseOutQuart, Between;
    assert (1.0 - SETTLE) * duration / duration == 1.0 - SETTLE;
  }

  /** The wheel really does overshoot, by the smaller of 55 hundredths of the way back to the segment's leading edge and
      four tenths of the segment. */
  lemma OvershootInFull(to: real, n: nat)
    requires n > 0
    ensures var room := Mod360(-to) - Edge(IndicatedSegment(to, n), n);
            && Overshoot(to, n) <= 0.55 * room && Overshoot(to, n) <= 0.4 * Angle(n)
            && (Overshoot(to, n) == 0.55 * room || Overshoot(to, n) == 0.4 * Angle(n))
            && (room > 0.0 ==> Overshoot(to, n) > 0.0)
  {
    hide Angle, Mod360, IndicatedSegment, Edge, Rem;
    Mod360Value(-to);
    RemOfPositive(Mod360(-to), Angle(n));
    EdgeRead(to, n);
  }

  /** The pointer never comes to rest closer to a divider than two degrees, or a quarter of the segment if that is less; and
      every place that is not so close can be drawn. */
  lemma AwayFromDividers(n: nat, r: real)
    requires n > 0 && 0.0 <= r < 1.0
    ensures var margin := MinReal(2.0, Angle(n) / 4.0);
            margin <= Jitter(n, r) < Angle(n) - margin
  {
    AwayInside(Angle(n), r);
  }

  lemma AwayInside(s: real, r: real)
    requires s > 0.0 && 0.0 <= r < 1.0
    ensures var margin := MinReal(2.0, s / 4.0); margin <= JitterFor(s, r) < s - margin
  {
    var margin := MinReal(2.0, s / 4.0);
    var room := s - 2.0 * margin;
    Fraction(r, room);
    Scaled(r, 1.0, room);
    assert JitterFor(s, r) == margin + r * room;
  }

  lemma EveryPlaceCanBeDrawn(n: nat, j: real) returns (r: real)
    requires n > 0
    requires var margin := MinReal(2.0, Angle(n) / 4.0); margin <= j < Angle(n) - margin
    ensures 0.0 <= r < 1.0 && Jitter(n, r) == j
  {
    r := PlaceDrawn(Angle(n), j);
  }

  /** Equal steps of the random number are equal steps within the segment: no place in it is favoured. */
  lemma EvenlySpread(n: nat, r: real, q: real)
    requires n > 0 && 0.0 <= r < 1.0 && 0.0 <= q < 1.0
    ensures Jitter(n, (r + q) / 2.0) == (Jitter(n, r) + Jitter(n, q)) / 2.0
  {
    SpreadOf(Angle(n), r, q);
    hide Angle;
  }

  lemma SpreadOf(s: real, r: real, q: real)
    ensures JitterFor(s, (r + q) / 2.0) == (JitterFor(s, r) + JitterFor(s, q)) / 2.0
  {
    var margin := MinReal(2.0, s / 4.0);
    var room := s - 2.0 * margin;
    assert (r + q) / 2.0 * room == (r * room + q * room) / 2.0;
  }

  lemma PlaceDrawn(s: real, j: real) returns (r: real)
    requires s > 0.0
    requires var margin := MinReal(2.0, s / 4.0); margin <= j < s - margin
    ensures 0.0 <= r < 1.0 && JitterFor(s, r) == j
  {
    var margin := MinReal(2.0, s / 4.0);
    var room := s - 2.0 * margin;
    r := (j - margin) / room;
    Ratio(j - margin, room, 0.0);
    Ratio(j - margin, room, 1.0);
    assert r * room == j - margin;
    assert JitterFor(s, r) == margin + r * room;
  }
}
