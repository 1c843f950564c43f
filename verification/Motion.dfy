/** Soul motion: the tick step `integrate_soul` and the closed form `analytic_advance` of
    `server/persistence.py`, over the reals.  Lengths are compared through their squares. */
module Motion {
  import opened Options
  import opened Reals

  datatype Vec = Vec(x: real, y: real) {
    function Minus(o: Vec): Vec { Vec(x - o.x, y - o.y) }
    function Plus(o: Vec): Vec { Vec(x + o.x, y + o.y) }
    function Scale(c: real): Vec { Vec(Mul(c, x), Mul(c, y)) }
    function Dot(o: Vec): real { Mul(x, o.x) + Mul(y, o.y) }
    function Square(): real { Mul(x, x) + Mul(y, y) }
  }

  /** What the tick knows about one soul's movement. */
  datatype Kin = Kin(position: Vec, velocity: Vec, target: Option<Vec>)

  const MARGIN := 10.0
  const ARRIVAL_EPS := 2.0
  const ZERO := Vec(0.0, 0.0)

  function Clamp(v: real, lo: real, hi: real): real {
    var raised := if v > lo then v else lo;
    if raised < hi then raised else hi
  }

  function ClampInto(p: Vec, bounds: Vec): Vec {
    Vec(Clamp(p.x, MARGIN, bounds.x - MARGIN), Clamp(p.y, MARGIN, bounds.y - MARGIN))
  }

  predicate InBounds(p: Vec, bounds: Vec) {
    MARGIN <= p.x <= bounds.x - MARGIN && MARGIN <= p.y <= bounds.y - MARGIN
  }

  /** The offset is no longer than ARRIVAL_EPS. */
  predicate Near(offset: Vec) {
    offset.Square() <= ARRIVAL_EPS * ARRIVAL_EPS
  }

  function Stopped(at: Vec): Kin {
    Kin(at, ZERO, None)
  }

  /** One tick: move, clamp to the world, and snap to the target when it is near or passed. */
  function IntegrateSoul(k: Kin, dt: real, bounds: Vec): Kin {
    if k.velocity == ZERO then k
    else
      var next := ClampInto(k.position.Plus(k.velocity.Scale(dt)), bounds);
      match k.target
      case None => k.(position := next)
      case Some(t) =>
        var remaining := t.Minus(next);
        if Near(remaining) || remaining.Dot(k.velocity) <= 0.0 then Stopped(t)
        else k.(position := next)
  }

  /** The closed form for a downtime of `seconds`: it stops at the target when that is near, or
      when the distance divided by the speed fits into the downtime. */
  function AdvanceSoul(k: Kin, seconds: real, bounds: Vec): Kin {
    if seconds <= 0.0 || k.velocity == ZERO then k
    else
      var moved := k.(position := ClampInto(k.position.Plus(k.velocity.Scale(seconds)), bounds));
      match k.target
      case None => moved
      case Some(t) =>
        var away := t.Minus(k.position);
        if Near(away) || away.Square() <= k.velocity.Scale(seconds).Square() then Stopped(t)
        else moved
  }

  /** `analytic_advance` updates every entry of the state in place. */
  method AnalyticAdvance(state: map<string, Kin>, seconds: real, bounds: Vec) returns (advanced: map<string, Kin>)
    ensures advanced == map id | id in state :: AdvanceSoul(state[id], seconds, bounds)
  {
    advanced := state;
    if seconds <= 0.0 {
      return;
    }
    var todo := state.Keys;
    while todo != {}
      invariant todo <= state.Keys && advanced.Keys == state.Keys
      invariant forall id :: id in state ==>
                  advanced[id] == if id in todo then state[id] else AdvanceSoul(state[id], seconds, bounds)
    {
      var id :| id in todo;
      advanced := advanced[id := AdvanceSoul(state[id], seconds, bounds)];
      todo := todo - {id};
    }
  }

  /** `n` ticks in a row. */
  function Ticks(k: Kin, n: nat, dt: real, bounds: Vec): Kin {
    if n == 0 then k else IntegrateSoul(Ticks(k, n - 1, dt, bounds), dt, bounds)
  }

  /** The time that `n` ticks take. */
  function Span(n: nat, dt: real): real {
    Mul(n as real, dt)
  }

  lemma SpanStep(n: nat, dt: real)
    requires dt > 0.0
    ensures Span(n + 1, dt) == Span(n, dt) + dt && Span(n, dt) >= 0.0 && Span(0, dt) == 0.0
  {
    Distrib(n as real, 1.0, dt);
    MulBasics(dt);
    MulNonNeg(n as real, dt);
  }

  // ---- No target: the ticks and the closed form agree exactly ----

  /** Clamping after each part of a one-way displacement is clamping once at its end. */
  lemma ClampOnce(x: real, v: real, s: real, t: real, lo: real, hi: real)
    requires lo <= x <= hi && s >= 0.0 && t >= 0.0
    ensures Clamp(Clamp(x + Mul(s, v), lo, hi) + Mul(t, v), lo, hi) == Clamp(x + Mul(s + t, v), lo, hi)
    ensures lo <= Clamp(x + Mul(s, v), lo, hi) <= hi
  {
    hide Mul;
    Distrib(s, t, v);
    if v >= 0.0 {
      MulNonNeg(s, v);
      MulNonNeg(t, v);
    } else {
      MulOpposite(s, v);
      MulOpposite(t, v);
    }
  }

  /** `s` seconds then `t` seconds of free motion are `s + t` seconds of it. */
  lemma FreeMotionAdds(k: Kin, s: real, t: real, bounds: Vec)
    requires k.target == None && InBounds(k.position, bounds) && s >= 0.0 && t >= 0.0
    ensures AdvanceSoul(AdvanceSoul(k, s, bounds), t, bounds) == AdvanceSoul(k, s + t, bounds)
    ensures InBounds(AdvanceSoul(k, s, bounds).position, bounds)
  {
    hide Mul, Clamp;
    ClampOnce(k.position.x, k.velocity.x, s, t, MARGIN, bounds.x - MARGIN);
    ClampOnce(k.position.y, k.velocity.y, s, t, MARGIN, bounds.y - MARGIN);
  }

  lemma FreeTick(k: Kin, dt: real, bounds: Vec)
    requires k.target == None
    ensures dt > 0.0 ==> IntegrateSoul(k, dt, bounds) == AdvanceSoul(k, dt, bounds)
    ensures dt == 0.0 ==> AdvanceSoul(k, dt, bounds) == k
    ensures AdvanceSoul(k, dt, bounds).target == None
  {
    hide Mul;
  }

  lemma {:induction false} FreeTicksAreAnalytic(k: Kin, n: nat, dt: real, bounds: Vec)
    requires k.target == None && InBounds(k.position, bounds) && dt > 0.0
    ensures Ticks(k, n, dt, bounds) == AdvanceSoul(k, Span(n, dt), bounds)
  {
    hide Span, AdvanceSoul, IntegrateSoul, InBounds;
    if n == 0 {
      SpanStep(0, dt);
      FreeTick(k, 0.0, bounds);
    } else {
      SpanStep(n - 1, dt);
      FreeTicksAreAnalytic(k, n - 1, dt, bounds);
      FreeMotionAdds(k, Span(n - 1, dt), dt, bounds);
      FreeTick(k, Span(n - 1, dt), bounds);
      FreeTick(AdvanceSoul(k, Span(n - 1, dt), bounds), dt, bounds);
    }
  }

  // ---- Aimed at a target ----

  /** The velocity points from the position straight at the target, at `rate` times the distance
      a second; both ends of the walk lie inside the world. */
  ghost predicate Aimed(k: Kin, rate: real, bounds: Vec) {
    && k.target.Some? && rate > 0.0
    && k.velocity == Way(k).Scale(rate)
    && k.velocity != ZERO
    && InBounds(k.position, bounds) && InBounds(k.target.value, bounds)
  }

  /** The way still to go at the start of the walk. */
  function Way(k: Kin): Vec
    requires k.target.Some?
  {
    k.target.value.Minus(k.position)
  }

  /** The point where fraction `f` of the way is behind the walker. */
  function At(k: Kin, f: real): Vec
    requires k.target.Some?
  {
    k.position.Plus(Way(k).Scale(f))
  }

  /** A walker that has covered fraction `f` stops when it has reached or is near the target. */
  predicate Arrives(way: Vec, f: real) {
    f >= 1.0 || Near(way.Scale(1.0 - f))
  }

  /** An aimed soul once fraction `f` of the way is behind it. */
  function WalkedTo(k: Kin, f: real): Kin
    requires k.target.Some?
  {
    if Arrives(Way(k), f) then Stopped(k.target.value) else k.(position := At(k, f))
  }

  lemma SquareScale(d: Vec, c: real)
    ensures d.Scale(c).Square() == Mul(Mul(c, c), d.Square())
  {
    hide Mul;
    Cross(c, d.x, c, d.x);
    Cross(c, d.y, c, d.y);
    DistribLeft(Mul(c, c), Mul(d.x, d.x), Mul(d.y, d.y));
  }

  lemma SquarePositive(d: Vec)
    ensures d.Square() >= 0.0 && (d != ZERO ==> d.Square() > 0.0)
  {
    hide Mul;
    SquarePos(d.x);
    SquarePos(d.y);
  }

  lemma ZeroWay(k: Kin, rate: real, bounds: Vec)
    requires Aimed(k, rate, bounds)
    ensures Way(k) != ZERO && At(k, 0.0) == k.position && Way(k).Scale(1.0) == Way(k)
  {
    hide Mul;
    MulBasics(Way(k).x);
    MulBasics(Way(k).y);
    MulComm(rate, 0.0);
    MulBasics(rate);
  }

  /** Once near, always near: a larger fraction leaves a shorter remainder. */
  lemma ArrivesMonotone(way: Vec, f: real, g: real)
    requires Arrives(way, f) && f <= g
    ensures Arrives(way, g)
  {
    hide Mul, Vec.Scale, Vec.Square;
    if g < 1.0 {
      SquareScale(way, 1.0 - f);
      SquareScale(way, 1.0 - g);
      SquarePositive(way);
      SquareMono(1.0 - g, 1.0 - f);
      MulMono(Mul(1.0 - g, 1.0 - g), Mul(1.0 - f, 1.0 - f), way.Square());
    }
  }

  /** On one axis, a fraction within the walk stays inside the world. */
  lemma AxisInside(p: real, d: real, f: real, lo: real, hi: real)
    requires lo <= p <= hi && lo <= p + d <= hi && 0.0 <= f <= 1.0
    ensures Clamp(p + Mul(f, d), lo, hi) == p + Mul(f, d)
  {
    hide Mul;
    MulBasics(d);
    if d >= 0.0 {
      MulMono(0.0, f, d);
      MulMono(f, 1.0, d);
    } else {
      MulMono(f, 1.0, -d);
      MulNonNeg(f, -d);
      Neg(f, d);
      MulBasics(-d);
    }
  }

  /** On one axis, a fraction beyond the walk leaves the target behind even after clamping. */
  lemma AxisPassed(p: real, d: real, f: real, rate: real, lo: real, hi: real)
    requires lo <= p + d <= hi && f >= 1.0 && rate > 0.0
    ensures Mul(p + d - Clamp(p + Mul(f, d), lo, hi), Mul(rate, d)) <= 0.0
  {
    hide Mul;
    MulBasics(d);
    MulBasics(-d);
    if d >= 0.0 {
      MulMono(1.0, f, d);
      MulNonNeg(rate, d);
    } else {
      MulMono(1.0, f, -d);
      Neg(f, d);
      MulOpposite(rate, d);
    }
    MulOpposite(p + d - Clamp(p + Mul(f, d), lo, hi), Mul(rate, d));
  }

  /** Moving for `dt` from fraction `f` reaches fraction `f + rate * dt`. */
  lemma AimedMove(k: Kin, f: real, rate: real, dt: real)
    requires k.target.Some?
    ensures At(k, f).Plus(Way(k).Scale(rate).Scale(dt)) == At(k, f + Mul(rate, dt))
  {
    hide Mul;
    var d := Way(k);
    MulComm(rate, dt);
    Distrib(f, Mul(rate, dt), d.x);
    Distrib(f, Mul(rate, dt), d.y);
    Assoc(dt, rate, d.x);
    Assoc(dt, rate, d.y);
  }

  lemma Remainder(k: Kin, f: real)
    requires k.target.Some?
    ensures k.target.value.Minus(At(k, f)) == Way(k).Scale(1.0 - f)
  {
    hide Mul;
    var d := Way(k);
    Distrib(1.0, -f, d.x);
    Distrib(1.0, -f, d.y);
    Neg(f, d.x);
    Neg(f, d.y);
    MulBasics(d.x);
    MulBasics(d.y);
  }

  /** While the target is ahead, the remainder has a positive product with the velocity. */
  lemma TargetAhead(d: Vec, f: real, rate: real)
    requires f < 1.0 && rate > 0.0 && d != ZERO
    ensures d.Scale(1.0 - f).Dot(d.Scale(rate)) > 0.0
  {
    hide Mul;
    SquarePositive(d);
    MulPos(1.0 - f, rate);
    Cross(1.0 - f, d.x, rate, d.x);
    Cross(1.0 - f, d.y, rate, d.y);
    DistribLeft(Mul(1.0 - f, rate), Mul(d.x, d.x), Mul(d.y, d.y));
    MulPos(Mul(1.0 - f, rate), d.Square());
  }

  /** Up to fraction 1 the walk is never clamped. */
  lemma WalkStaysInside(k: Kin, f: real, rate: real, bounds: Vec)
    requires Aimed(k, rate, bounds) && 0.0 <= f <= 1.0
    ensures ClampInto(At(k, f), bounds) == At(k, f)
  {
    hide Mul, Clamp;
    AxisInside(k.position.x, Way(k).x, f, MARGIN, bounds.x - MARGIN);
    AxisInside(k.position.y, Way(k).y, f, MARGIN, bounds.y - MARGIN);
  }

  /** From fraction 1 on the target is passed, clamped or not. */
  lemma WalkPasses(k: Kin, f: real, rate: real, bounds: Vec)
    requires Aimed(k, rate, bounds) && f >= 1.0
    ensures k.target.value.Minus(ClampInto(At(k, f), bounds)).Dot(k.velocity) <= 0.0
  {
    hide Mul, Clamp;
    AxisPassed(k.position.x, Way(k).x, f, rate, MARGIN, bounds.x - MARGIN);
    AxisPassed(k.position.y, Way(k).y, f, rate, MARGIN, bounds.y - MARGIN);
  }

  /** One tick from fraction `f` leads to fraction `f + rate * dt`. */
  lemma AimedTick(k: Kin, f: real, rate: real, dt: real, bounds: Vec)
    requires Aimed(k, rate, bounds) && dt > 0.0 && 0.0 <= f
    ensures IntegrateSoul(k.(position := At(k, f)), dt, bounds) == WalkedTo(k, f + Mul(rate, dt))
  {
    hide Mul, At, Way, Near, ClampInto, Vec.Minus, Vec.Plus, Vec.Scale, Vec.Dot;
    var g := f + Mul(rate, dt);
    MulPos(rate, dt);
    AimedMove(k, f, rate, dt);
    if g < 1.0 {
      ZeroWay(k, rate, bounds);
      WalkStaysInside(k, g, rate, bounds);
      Remainder(k, g);
      TargetAhead(Way(k), g, rate);
    } else {
      WalkPasses(k, g, rate, bounds);
    }
  }

  lemma StoppedStays(t: Vec, dt: real, bounds: Vec)
    ensures IntegrateSoul(Stopped(t), dt, bounds) == Stopped(t)
  {
  }

  /** The fraction of an aimed walk that `n` ticks cover. */
  function Covered(n: nat, rate: real, dt: real): real {
    Span(n, Mul(rate, dt))
  }

  /** Live ticks in closed form: after `n >= 1` ticks the soul has walked that fraction. */
  lemma {:induction false} AimedTicks(k: Kin, n: nat, rate: real, dt: real, bounds: Vec)
    requires Aimed(k, rate, bounds) && dt > 0.0 && n > 0
    ensures Ticks(k, n, dt, bounds) == WalkedTo(k, Covered(n, rate, dt))
  {
    hide Mul, Span, At, Way, Arrives, IntegrateSoul;
    var f := Covered(n - 1, rate, dt);
    MulPos(rate, dt);
    SpanStep(n - 1, Mul(rate, dt));
    if n == 1 {
      ZeroWay(k, rate, bounds);
      AimedTick(k, 0.0, rate, dt, bounds);
      assert Ticks(k, 1, dt, bounds) == IntegrateSoul(Ticks(k, 0, dt, bounds), dt, bounds);
      assert k.(position := At(k, 0.0)) == k;
      SpanStep(0, Mul(rate, dt));
    } else {
      AimedTicks(k, n - 1, rate, dt, bounds);
      if Arrives(Way(k), f) {
        ArrivesMonotone(Way(k), f, f + Mul(rate, dt));
        StoppedStays(k.target.value, dt, bounds);
      } else {
        AimedTick(k, f, rate, dt, bounds);
      }
    }
  }

  /** The closed form stops only when already near, or at fraction 1. */
  lemma AimedAdvance(k: Kin, seconds: real, rate: real, bounds: Vec)
    requires Aimed(k, rate, bounds) && seconds > 0.0
    ensures AdvanceSoul(k, seconds, bounds)
         == if Near(Way(k)) || Mul(rate, seconds) >= 1.0 then Stopped(k.target.value)
            else k.(position := At(k, Mul(rate, seconds)))
  {
    hide Mul, At, Near, ClampInto, Vec.Minus, Vec.Plus, Vec.Scale, Vec.Square;
    var f := Mul(rate, seconds);
    MulPos(rate, seconds);
    ZeroWay(k, rate, bounds);
    CoveredInTime(Way(k), seconds, rate);
    AimedMove(k, 0.0, rate, seconds);
    if f < 1.0 {
      WalkStaysInside(k, f, rate, bounds);
    }
  }

  /** Distance over speed is within `seconds` exactly when fraction 1 is reached. */
  lemma CoveredInTime(d: Vec, seconds: real, rate: real)
    requires d != ZERO && seconds > 0.0 && rate > 0.0
    ensures d.Square() <= d.Scale(rate).Scale(seconds).Square() <==> Mul(rate, seconds) >= 1.0
  {
    hide Mul, Vec.Square, Vec.Scale;
    SquareScale(d.Scale(rate), seconds);
    SquareScale(d, rate);
    SquarePositive(d);
    MulPos(rate, seconds);
    Assoc(Mul(seconds, seconds), Mul(rate, rate), d.Square());
    Cross(seconds, seconds, rate, rate);
    MulComm(rate, seconds);
    SquareFactor(Mul(rate, seconds), d.Square());
  }

  /** Near the target but not there, live ticks snap while the closed form still walks. */
  predicate SnapWindow(way: Vec, f: real) {
    f < 1.0 && Near(way.Scale(1.0 - f)) && !Near(way)
  }

  /** Catch-up against live ticks for an aimed soul: the two are never more than ARRIVAL_EPS
      apart, both stand at the target once the distance is covered, and they are equal exactly
      outside the snap window. */
  lemma CatchUpMatchesTicks(k: Kin, n: nat, rate: real, dt: real, bounds: Vec)
    requires Aimed(k, rate, bounds) && dt > 0.0 && n > 0
    ensures Near(Ticks(k, n, dt, bounds).position.Minus(AdvanceSoul(k, Span(n, dt), bounds).position))
    ensures Covered(n, rate, dt) >= 1.0 ==>
              Ticks(k, n, dt, bounds) == AdvanceSoul(k, Span(n, dt), bounds) == Stopped(k.target.value)
    ensures Ticks(k, n, dt, bounds) == AdvanceSoul(k, Span(n, dt), bounds)
       <==> !SnapWindow(Way(k), Covered(n, rate, dt))
  {
    hide Mul, At, Way, Near, Vec.Minus, Vec.Plus, Vec.Scale, IntegrateSoul, AdvanceSoul;
    var f, d := Covered(n, rate, dt), Way(k);
    CoveredIsRateTimesSpan(n, rate, dt);
    AimedTicks(k, n, rate, dt, bounds);
    AimedAdvance(k, Span(n, dt), rate, bounds);
    ZeroWay(k, rate, bounds);
    NoGap(k.target.value);
    NoGap(At(k, f));
    if f < 1.0 {
      if Near(d) {
        ArrivesMonotone(d, 0.0, f);
      }
      Remainder(k, f);
      NotThereYet(k, f);
    }
  }

  lemma CoveredIsRateTimesSpan(n: nat, rate: real, dt: real)
    requires n > 0 && rate > 0.0 && dt > 0.0
    ensures Covered(n, rate, dt) == Mul(rate, Span(n, dt)) && Covered(n, rate, dt) > 0.0 && Span(n, dt) > 0.0
  {
    hide Mul;
    Assoc(n as real, rate, dt);
    Assoc(rate, n as real, dt);
    MulComm(n as real, rate);
    MulPos(n as real, dt);
    MulPos(rate, Span(n, dt));
  }

  lemma NoGap(p: Vec)
    ensures Near(p.Minus(p))
  {
    assert p.Minus(p) == ZERO;
  }

  lemma NotThereYet(k: Kin, f: real)
    requires k.target.Some? && Way(k) != ZERO && f < 1.0
    ensures At(k, f) != k.target.value
  {
    hide Mul;
    Remainder(k, f);
    TargetAhead(Way(k), f, 1.0);
    MulBasics(Mul(1.0, Way(k).x));
    MulBasics(Mul(1.0, Way(k).y));
  }

  /** The closed form is documented as exact; this walk shows the 2-unit window where it is not. */
  lemma CatchUpIsNotAlwaysExact()
    ensures exists k, bounds :: Aimed(k, 1.0, bounds) &&
              Ticks(k, 1, 0.75, bounds) != AdvanceSoul(k, Span(1, 0.75), bounds)
  {
    var k, bounds := Kin(Vec(100.0, 100.0), Vec(4.0, 0.0), Some(Vec(104.0, 100.0))), Vec(1920.0, 1080.0);
    assert Way(k) == Vec(4.0, 0.0);
    assert Aimed(k, 1.0, bounds) by { assert Vec(4.0, 0.0).Scale(1.0) == Vec(4.0, 0.0); }
    assert Covered(1, 1.0, 0.75) == 0.75;
    assert Near(Way(k).Scale(0.25)) && !Near(Way(k));
    hide *;
    CatchUpMatchesTicks(k, 1, 1.0, 0.75, bounds);
  }

  // ---- In plain numbers ----

  /** `to` is where a coordinate ends that moves by `step` in a world of that width: no nearer than ten to the
      walls, and ten short of the far one if the world is too small for that. */
  predicate LandsAt(to: real, from: real, step: real, width: real) {
    to == if width < 20.0 || from + step > width - 10.0 then width - 10.0 else if from + step < 10.0 then 10.0 else from + step
  }

  lemma Products(v: Vec, o: Vec, c: real)
    ensures v.Scale(c) == Vec(c * v.x, c * v.y) && v.Dot(o) == v.x * o.x + v.y * o.y && v.Square() == v.x * v.x + v.y * v.y
  {
  }

  lemma LandsClamped(to: real, from: real, step: real, width: real)
    requires LandsAt(to, from, step, width)
    ensures Clamp(from + step, MARGIN, width - MARGIN) == to
  {
  }

  /** One tick: a soul at rest stays; any other moves by its velocity times the tick, within the walls; an aimed
      one stands at its target if that is then at most two away, or no longer ahead. */
  lemma TickInNumbers(k: Kin, dt: real, bounds: Vec, p: Vec)
    requires LandsAt(p.x, k.position.x, dt * k.velocity.x, bounds.x) && LandsAt(p.y, k.position.y, dt * k.velocity.y, bounds.y)
    ensures IntegrateSoul(k, dt, bounds)
         == if k.velocity == Vec(0.0, 0.0) then k
            else if k.target.None? then Kin(p, k.velocity, None)
            else
              var dx, dy := k.target.value.x - p.x, k.target.value.y - p.y;
              if dx * dx + dy * dy <= 4.0 || dx * k.velocity.x + dy * k.velocity.y <= 0.0 then
                Kin(k.target.value, Vec(0.0, 0.0), None)
              else Kin(p, k.velocity, k.target)
  {
    hide Vec.Scale, Vec.Dot, Vec.Square, Mul, Clamp, LandsAt;
    Products(k.velocity, k.velocity, dt);
    LandsClamped(p.x, k.position.x, dt * k.velocity.x, bounds.x);
    LandsClamped(p.y, k.position.y, dt * k.velocity.y, bounds.y);
    if k.target.Some? {
      Products(k.target.value.Minus(p), k.velocity, dt);
    }
  }

  /** A catch-up over `seconds`: the same straight way in one; an aimed soul stands at its target if that was at
      most two away, or the way of `seconds` is as long as the way there. */
  lemma CatchUpInNumbers(k: Kin, seconds: real, bounds: Vec, p: Vec)
    requires seconds > 0.0
    requires LandsAt(p.x, k.position.x, seconds * k.velocity.x, bounds.x)
    requires LandsAt(p.y, k.position.y, seconds * k.velocity.y, bounds.y)
    ensures AdvanceSoul(k, seconds, bounds)
         == if k.velocity == Vec(0.0, 0.0) then k
            else if k.target.None? then Kin(p, k.velocity, None)
            else
              var dx, dy := k.target.value.x - k.position.x, k.target.value.y - k.position.y;
              var wx, wy := seconds * k.velocity.x, seconds * k.velocity.y;
              if dx * dx + dy * dy <= 4.0 || dx * dx + dy * dy <= wx * wx + wy * wy then Kin(k.target.value, Vec(0.0, 0.0), None)
              else Kin(p, k.velocity, k.target)
  {
    hide Vec.Scale, Vec.Dot, Vec.Square, Mul, Clamp, LandsAt;
    Products(k.velocity, k.velocity, seconds);
    LandsClamped(p.x, k.position.x, seconds * k.velocity.x, bounds.x);
    LandsClamped(p.y, k.position.y, seconds * k.velocity.y, bounds.y);
    Products(k.velocity.Scale(seconds), k.velocity, seconds);
    if k.target.Some? {
      Products(k.target.value.Minus(k.position), k.velocity, seconds);
    }
  }

  lemma NoCatchUp(k: Kin, seconds: real, bounds: Vec)
    requires seconds <= 0.0
    ensures AdvanceSoul(k, seconds, bounds) == k
  {
  }
}
