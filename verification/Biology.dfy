/** The needs of a soul: `_decay_soul` of `server/biology.py`, shared by the live 0.1 Hz tick and by
    the closed-form catch-up after a downtime. */
module Biology {
  import opened Options
  import opened Reals
  import opened Motion

  datatype State = Normal | Traveling | Collapsed

  /** The columns `_decay_soul` reads.  `dormant` is derived from the cached balance. */
  datatype Soul = Soul(satiety: real, hydration: real, hp: real, state: State, fed: bool,
                       restStarted: Option<real>, activity: string, velocity: Vec, target: Option<Vec>,
                       dormant: bool)

  /** The new columns, the moment of a collapse in this span, and the rest that ended in a recovery. */
  datatype Outcome = Outcome(soul: Soul, collapsedAt: Option<real>, recoveredAfter: Option<real>)

  const SATIETY_REST_PER_H := 100.0 / 36.0
  const HYDRATION_PER_H := 100.0 / 24.0
  const STARVING_SATIETY := 20.0
  const RECOVERY_REST_SECONDS := 21600.0
  const CATCHUP_MAX_SECONDS := 86400.0

  predicate IsActive(s: Soul) {
    s.velocity != ZERO || s.target.Some?
  }

  predicate IsResting(state: State, activity: string) {
    state == Collapsed || activity == "rest" || activity == "idle"
  }

  /** Satiety drains twice as fast while active, and four times slower while dormant. */
  function SatietyRate(s: Soul): real {
    (if IsActive(s) && s.state != Collapsed then SATIETY_REST_PER_H * 2.0 else SATIETY_REST_PER_H)
    * (if s.dormant then 0.25 else 1.0)
  }

  function HydrationRate(s: Soul): real {
    HYDRATION_PER_H * (if s.dormant then 0.25 else 1.0)
  }

  function AtLeastZero(v: real): real {
    if v > 0.0 then v else 0.0
  }

  function Hours(seconds: real): real {
    seconds / 3600.0
  }

  function Div(a: real, b: real): real
    requires b > 0.0
  {
    a / b
  }

  /** The hours at the end of the span that are spent starving; each costs one point of hp. */
  function StarvingHours(s: Soul, hours: real): real {
    if s.dormant then 0.0
    else if s.satiety < STARVING_SATIETY then hours
    else AtLeastZero(hours - Div(s.satiety - STARVING_SATIETY, SatietyRate(s)))
  }

  /** Hours into the span at which the hp run out. */
  function CollapseOffset(s: Soul, hours: real): real {
    var chip := StarvingHours(s, hours);
    if chip > 0.0 && s.hp > 0.0 then hours - chip + s.hp else 0.0
  }

  /** Starvation is the only way to collapse; a dormant soul never does. */
  predicate Collapses(s: Soul, hours: real) {
    s.state != Collapsed && !s.dormant && s.hp - StarvingHours(s, hours) <= 0.0
  }

  function HpAfter(s: Soul, hours: real): real {
    var chip := StarvingHours(s, hours);
    if s.dormant then if s.hp < 1.0 then 1.0 else s.hp
    else if Collapses(s, hours) then 0.0
    else if s.state != Collapsed && chip > 0.0 then AtLeastZero(s.hp - chip)
    else s.hp
  }

  /** Needs and hp after the span, and the collapse if there is one. */
  function Drained(s: Soul, seconds: real, now: real): Outcome {
    var hours := Hours(seconds);
    var fed := s.(satiety := AtLeastZero(s.satiety - Mul(SatietyRate(s), hours)),
                  hydration := AtLeastZero(s.hydration - Mul(HydrationRate(s), hours)),
                  hp := HpAfter(s, hours));
    if Collapses(s, hours) then
      var at := now - (hours - CollapseOffset(s, hours)) * 3600.0;
      Outcome(fed.(state := Collapsed, velocity := ZERO, target := None, restStarted := Some(at)), Some(at), None)
    else
      Outcome(fed.(restStarted := if !IsResting(s.state, s.activity) then None
                                  else if s.restStarted == None then Some(now - seconds)
                                  else s.restStarted), None, None)
  }

  /** A collapsed soul that was fed recovers after six hours of continuous rest. */
  function Rested(o: Outcome, now: real): Outcome {
    var s := o.soul;
    if s.state == Collapsed && s.fed && s.restStarted.Some? && now - s.restStarted.value >= RECOVERY_REST_SECONDS then
      Outcome(s.(state := Normal, fed := false, restStarted := None), o.collapsedAt, Some(now - s.restStarted.value))
    else o
  }

  /** The closed-form advance over `seconds` ending at `now`. */
  function Decay(s: Soul, seconds: real, now: real): Outcome {
    if seconds <= 0.0 then Outcome(s, None, None) else Rested(Drained(s, seconds, now), now)
  }

  // ---- The span law ----

  lemma DivStep(a: real, rate: real, h: real)
    requires rate > 0.0
    ensures Div(a - Mul(rate, h), rate) == Div(a, rate) - h
    ensures Div(a, rate) <= h <==> a <= Mul(rate, h)
    ensures Div(a, rate) < h <==> a < Mul(rate, h)
  {
    var q := a / rate;
    assert Mul(rate, q) == a;
    Distrib(q, -h, rate);
    MulComm(rate, q);
    MulComm(rate, h);
    Neg(h, rate);
    assert (q - h) * rate == a - rate * h;
    if q < h { MulStrict(q, h, rate); }
    if q > h { MulStrict(h, q, rate); }
  }

  lemma DrainAdds(level: real, rate: real, a: real, b: real)
    requires rate > 0.0 && a >= 0.0 && b >= 0.0
    ensures AtLeastZero(AtLeastZero(level - Mul(rate, a)) - Mul(rate, b)) == AtLeastZero(level - Mul(rate, a + b))
  {
    hide Mul;
    MulComm(rate, a);
    MulComm(rate, b);
    MulComm(rate, a + b);
    Distrib(a, b, rate);
    MulNonNeg(rate, b);
  }

  lemma RatesPositive(s: Soul)
    ensures SatietyRate(s) > 0.0 && HydrationRate(s) > 0.0
  {
  }

  /** While the soul has not collapsed, starving hours add up over consecutive spans. */
  lemma StarvingAdds(s: Soul, a: real, b: real)
    requires a > 0.0 && b > 0.0
    ensures var t := s.(satiety := AtLeastZero(s.satiety - Mul(SatietyRate(s), a)));
            StarvingHours(t, b) + StarvingHours(s, a) == StarvingHours(s, a + b)
  {
    hide Mul, Div, SatietyRate;
    RatesPositive(s);
    var rate := SatietyRate(s);
    var t := s.(satiety := AtLeastZero(s.satiety - Mul(rate, a)));
    SameRate(s, t);
    MulPos(rate, a);
    DivStep(s.satiety - STARVING_SATIETY, rate, a);
    if s.satiety >= STARVING_SATIETY && t.satiety >= STARVING_SATIETY {
      assert t.satiety - STARVING_SATIETY == s.satiety - STARVING_SATIETY - Mul(rate, a);
    }
  }

  lemma SameRate(s: Soul, t: Soul)
    requires IsActive(s) == IsActive(t) && s.dormant == t.dormant
    requires (s.state == Collapsed) == (t.state == Collapsed)
    ensures SatietyRate(s) == SatietyRate(t) && HydrationRate(s) == HydrationRate(t)
  {
  }

  lemma StarvingIgnoresHp(s: Soul, t: Soul, hours: real)
    requires s.satiety == t.satiety && s.dormant == t.dormant && SatietyRate(s) == SatietyRate(t)
    ensures StarvingHours(s, hours) == StarvingHours(t, hours)
  {
  }

  lemma HoursAdd(a: real, b: real)
    ensures Hours(a + b) == Hours(a) + Hours(b)
    ensures a > 0.0 ==> Hours(a) > 0.0
    ensures Hours(a) * 3600.0 == a
  {
  }

  lemma StarvingNonNeg(s: Soul, hours: real)
    requires hours >= 0.0
    ensures 0.0 <= StarvingHours(s, hours)
    ensures s.satiety >= STARVING_SATIETY ==> StarvingHours(s, hours) <= hours
  {
    hide SatietyRate;
    RatesPositive(s);
    if s.satiety >= STARVING_SATIETY {
      DivNonNeg(s.satiety - STARVING_SATIETY, SatietyRate(s));
    }
  }

  lemma DivNonNeg(a: real, b: real)
    requires a >= 0.0 && b > 0.0
    ensures Div(a, b) >= 0.0
  {
  }

  /** Everything but the satiety of an active soul that collapses half-way. */
  predicate AgreeExceptSatiety(a: Soul, b: Soul) {
    a == b.(satiety := a.satiety)
  }

  /** Two spans of draining, with no collapse in the first. */
  lemma DrainedAdds(s: Soul, a: real, b: real, now: real)
    requires a > 0.0 && b > 0.0 && Drained(s, a, now - b).collapsedAt == None
    ensures Drained(Drained(s, a, now - b).soul, b, now) == Drained(s, a + b, now)
  {
    hide Mul, SatietyRate, HydrationRate, StarvingHours, Hours;
    HoursAdd(a, b);
    HoursAdd(b, a);
    var ha, hb := Hours(a), Hours(b);
    var t := Drained(s, a, now - b).soul;
    RatesPositive(s);
    SameRate(s, t);
    DrainAdds(s.satiety, SatietyRate(s), ha, hb);
    DrainAdds(s.hydration, HydrationRate(s), ha, hb);
    StarvingAdds(s, ha, hb);
    var u := s.(satiety := t.satiety);
    SameRate(s, u);
    StarvingIgnoresHp(t, u, hb);
    StarvingNonNeg(s, ha);
    StarvingNonNeg(t, hb);
    DormantNeverStarves(s, ha, hb);
  }

  lemma DormantNeverStarves(s: Soul, a: real, b: real)
    ensures s.dormant ==> StarvingHours(s, a) == 0.0 && StarvingHours(s, b) == 0.0
  {
  }

  /** Two spans of draining, with the collapse in the first: the same columns and the same moment
      of collapse, except that an active soul drains at the resting rate once it lies down. */
  lemma DrainedAfterCollapse(s: Soul, a: real, b: real, now: real)
    requires a > 0.0 && b > 0.0 && Drained(s, a, now - b).collapsedAt.Some?
    ensures var half := Drained(s, a, now - b);
            var split, whole := Drained(half.soul, b, now), Drained(s, a + b, now);
            && split.collapsedAt == None && half.collapsedAt == whole.collapsedAt
            && AgreeExceptSatiety(split.soul, whole.soul)
            && split.soul.satiety >= whole.soul.satiety
            && (split.soul.satiety == whole.soul.satiety <==> !IsActive(s) || split.soul.satiety == 0.0)
  {
    hide Mul, SatietyRate, HydrationRate, StarvingHours, Hours;
    HoursAdd(a, b);
    HoursAdd(b, a);
    var ha, hb := Hours(a), Hours(b);
    var t := Drained(s, a, now - b).soul;
    RatesPositive(s);
    RatesPositive(t);
    var u := s.(satiety := t.satiety, velocity := ZERO, target := None, state := Collapsed);
    SatietyAfterCollapse(s, t, ha, hb);
    DrainAdds(s.hydration, HydrationRate(s), ha, hb);
    StarvingAdds(s, ha, hb);
    StarvingNonNeg(s, ha);
    StarvingNonNeg(s.(satiety := t.satiety), hb);
    if s.hp > 0.0 {
      StarvingLasts(s, ha, hb);
    }
  }

  /** A starving soul stays starving, so the hours before starvation do not depend on the span. */
  lemma StarvingLasts(s: Soul, a: real, b: real)
    requires a > 0.0 && b > 0.0 && StarvingHours(s, a) > 0.0
    ensures a - StarvingHours(s, a) == a + b - StarvingHours(s, a + b)
  {
  }

  lemma SatietyAfterCollapse(s: Soul, t: Soul, a: real, b: real)
    requires a > 0.0 && b > 0.0 && s.state != Collapsed && t.state == Collapsed && !s.dormant && !t.dormant
    requires t.satiety == AtLeastZero(s.satiety - Mul(SatietyRate(s), a))
    ensures var split := AtLeastZero(t.satiety - Mul(SatietyRate(t), b));
            var whole := AtLeastZero(s.satiety - Mul(SatietyRate(s), a + b));
            split >= whole && (split == whole <==> !IsActive(s) || split == 0.0)
    ensures HydrationRate(s) == HydrationRate(t)
  {
    var split := AtLeastZero(t.satiety - Mul(SatietyRate(t), b));
    var whole := AtLeastZero(s.satiety - Mul(SatietyRate(s), a + b));
    var rest, rate := SatietyRate(t), SatietyRate(s);
    assert rest == SATIETY_REST_PER_H;
    assert rate == if IsActive(s) then rest * 2.0 else rest;
    hide Mul, SatietyRate;
    DrainAdds(s.satiety, rate, a, b);
    MulPos(rest, b);
    if IsActive(s) {
      MulStrict(rest, rate, b);
    }
  }

  /** Recovery looks at everything but the satiety, and leaves that alone. */
  lemma RestedAgrees(o: Outcome, p: Outcome, now: real)
    requires AgreeExceptSatiety(o.soul, p.soul) && o.recoveredAfter == p.recoveredAfter
    ensures AgreeExceptSatiety(Rested(o, now).soul, Rested(p, now).soul)
    ensures Rested(o, now).recoveredAfter == Rested(p, now).recoveredAfter
    ensures Rested(o, now).collapsedAt == o.collapsedAt && Rested(o, now).soul.satiety == o.soul.satiety
    ensures Rested(p, now).collapsedAt == p.collapsedAt && Rested(p, now).soul.satiety == p.soul.satiety
  {
  }

  /** Decaying for `a` and then for `b` seconds is decaying for `a + b` seconds: same needs, hp,
      state and rest clock, the same recovery, and the same exact moment of collapse, whichever
      half it falls in.  Only the satiety of a soul that collapses on the move differs, upwards. */
  lemma SpanLaw(s: Soul, a: real, b: real, now: real)
    requires a > 0.0 && b > 0.0
    requires Decay(s, a, now - b).recoveredAfter == None
    ensures var half := Decay(s, a, now - b);
            var split, whole := Decay(half.soul, b, now), Decay(s, a + b, now);
            && AgreeExceptSatiety(split.soul, whole.soul)
            && split.recoveredAfter == whole.recoveredAfter
            && whole.collapsedAt == (if half.collapsedAt.Some? then half.collapsedAt else split.collapsedAt)
            && split.soul.satiety >= whole.soul.satiety
            && (split.soul.satiety == whole.soul.satiety <==>
                  !IsActive(s) || half.collapsedAt == None || split.soul.satiety == 0.0)
  {
    assert Decay(s, a, now - b) == Drained(s, a, now - b);
    NothingRecovered(s, a + b, now);
    NothingRecovered(Drained(s, a, now - b).soul, b, now);
    hide Drained, IsActive, Rested, AgreeExceptSatiety;
    var split, whole := Drained(Drained(s, a, now - b).soul, b, now), Drained(s, a + b, now);
    if Drained(s, a, now - b).collapsedAt == None {
      DrainedAdds(s, a, b, now);
      AgreesWithItself(whole.soul);
    } else {
      DrainedAfterCollapse(s, a, b, now);
    }
    RestedAgrees(split, whole, now);
  }

  lemma NothingRecovered(s: Soul, seconds: real, now: real)
    ensures Drained(s, seconds, now).recoveredAfter == None
  {
  }

  lemma AgreesWithItself(s: Soul)
    ensures AgreeExceptSatiety(s, s)
  {
  }

  // ---- Recovery, the one event that breaks the law ----

  /** Only collapsed souls are ever fed, and recovery clears the flag. */
  predicate FedWhileDown(s: Soul) {
    s.fed ==> s.state == Collapsed
  }

  /** The soul has been fed and will have rested for six hours when a span of `seconds` ends at `now`. */
  predicate Recovers(s: Soul, seconds: real, now: real) {
    s.fed && (if s.restStarted.Some? then now - s.restStarted.value else seconds) >= RECOVERY_REST_SECONDS
  }

  /** A span ends in a recovery exactly if the rest clock and the flag at its start say so. */
  lemma RecoversIff(s: Soul, seconds: real, now: real)
    requires seconds > 0.0 && FedWhileDown(s)
    ensures Decay(s, seconds, now).recoveredAfter.Some? <==> Recovers(s, seconds, now)
    ensures FedWhileDown(Decay(s, seconds, now).soul)
  {
    hide Mul, Hours, SatietyRate, HydrationRate, StarvingHours, HpAfter;
  }

  /** A soul that recovers after `a` seconds does not starve to death again within another `b`. */
  predicate StandsAgain(s: Soul, a: real, b: real) {
    s.dormant ||
    s.hp > StarvingHours(s.(state := Normal, satiety := AtLeastZero(s.satiety - Mul(SatietyRate(s), Hours(a)))), Hours(b))
  }

  /** The law needs its hypothesis: recovery does not restore hp, so a soul that recovers at the end of
      the first span can collapse again in the second, while one long span leaves it standing.  Two
      spans agree with one on the lifecycle state exactly if there is no such recovery, or the hp it
      fell with last. */
  lemma SpanLawExactly(s: Soul, a: real, b: real, now: real)
    requires a > 0.0 && b > 0.0 && FedWhileDown(s)
    ensures Decay(Decay(s, a, now - b).soul, b, now).soul.state == Decay(s, a + b, now).soul.state
       <==> !Recovers(s, a, now - b) || StandsAgain(s, a, b)
  {
    RecoversIff(s, a, now - b);
    if !Recovers(s, a, now - b) {
      hide Recovers, StandsAgain, Decay;
      SpanLaw(s, a, b, now);
    } else {
      RecoversIff(s, a + b, now);
      AfterRecovery(s, a, b, now);
      hide Mul, Hours, SatietyRate, HydrationRate, StarvingHours, HpAfter, StandsAgain;
    }
  }

  lemma AfterRecovery(s: Soul, a: real, b: real, now: real)
    requires a > 0.0 && b > 0.0 && FedWhileDown(s) && Recovers(s, a, now - b)
    ensures var half := Decay(s, a, now - b).soul;
            && half.state == Normal && !half.fed
            && (Decay(half, b, now).soul.state == if StandsAgain(s, a, b) then Normal else Collapsed)
  {
    var half := Decay(s, a, now - b).soul;
    var u := s.(state := Normal, satiety := AtLeastZero(s.satiety - Mul(SatietyRate(s), Hours(a))));
    assert IsActive(half) == IsActive(u);
    assert StarvingHours(half, Hours(b)) == StarvingHours(u, Hours(b)) by { SameRate(half, u); hide Mul, SatietyRate, Hours; }
    assert s.dormant || half.hp == s.hp;
    StarvingNonNeg(u, Hours(b));
    hide Mul, Hours, SatietyRate, HydrationRate, StarvingHours;
  }

  /** A fed soul that fell with no hp left, and lies down again an hour after its recovery. */
  lemma RecoveredSoulFallsAgain()
    ensures var s := Soul(0.0, 0.0, 0.0, Collapsed, true, Some(0.0), "idle", ZERO, None, false);
            && Decay(Decay(s, 21600.0, 21600.0).soul, 3600.0, 25200.0).soul.state == Collapsed
            && Decay(s, 25200.0, 25200.0).soul.state == Normal
  {
    var s := Soul(0.0, 0.0, 0.0, Collapsed, true, Some(0.0), "idle", ZERO, None, false);
    AfterRecovery(s, 21600.0, 3600.0, 25200.0);
    RecoversIff(s, 25200.0, 25200.0);
    hide Mul;
  }

  // ---- Live ticks against one catch-up call ----

  /** `n` live biology ticks of `dt` seconds, the first one ending at `start + dt`. */
  function LiveTicks(s: Soul, n: nat, dt: real, start: real): Soul {
    if n == 0 then s
    else Decay(LiveTicks(s, n - 1, dt, start), dt, start + Span(n, dt)).soul
  }

  /** Two collapsed souls that agree up to their satiety still do after a span, and the one with the
      larger satiety keeps it. */
  lemma CollapsedAgree(s: Soul, t: Soul, seconds: real, now: real)
    requires seconds > 0.0 && s.state == Collapsed && AgreeExceptSatiety(s, t) && s.satiety >= t.satiety
    ensures AgreeExceptSatiety(Decay(s, seconds, now).soul, Decay(t, seconds, now).soul)
    ensures Decay(s, seconds, now).soul.satiety >= Decay(t, seconds, now).soul.satiety
    ensures Decay(s, seconds, now).collapsedAt == None
  {
    SameRate(s, t);
    hide Mul, Hours, SatietyRate, HydrationRate, StarvingHours;
  }

  /** A collapse without a recovery leaves the soul down, its rest clock set to the collapse. */
  lemma CollapseShows(s: Soul, seconds: real, now: real)
    requires seconds > 0.0 && Decay(s, seconds, now).collapsedAt.Some? && Decay(s, seconds, now).recoveredAfter == None
    ensures var o := Decay(s, seconds, now); o.soul.state == Collapsed && o.soul.restStarted == o.collapsedAt
  {
    hide Mul, Hours, SatietyRate, HydrationRate, StarvingHours, HpAfter;
  }

  /** The recovery at a tick shows in the rest clock at any later one. */
  lemma RecoversLater(s: Soul, k: nat, n: nat, dt: real, start: real)
    requires dt > 0.0 && k <= n && Recovers(s, Span(k, dt), start + Span(k, dt))
    ensures Recovers(s, Span(n, dt), start + Span(n, dt))
  {
    MulMono(k as real, n as real, dt);
  }

  /** `n` live ticks leave what one catch-up call over the same time leaves, if the soul does not recover
      on the way: the same hydration, hp, state, activity and motion, and the same rest clock, which is
      the exact moment of the collapse if there is one.  The satiety is the same too unless the soul
      collapses on the move; then the live ticks, which see it lie down, leave more. */
  lemma {:induction false} LiveTicksAreOneCatchUp(s: Soul, n: nat, dt: real, start: real)
    requires dt > 0.0 && n > 0 && FedWhileDown(s) && (n == 1 || !Recovers(s, Span(n - 1, dt), start + Span(n - 1, dt)))
    ensures var live, whole := LiveTicks(s, n, dt, start), Decay(s, Span(n, dt), start + Span(n, dt));
            && AgreeExceptSatiety(live, whole.soul) && live.satiety >= whole.soul.satiety
            && (whole.collapsedAt == None || !IsActive(s) ==> live == whole.soul)
            && (whole.collapsedAt.Some? && whole.recoveredAfter == None ==> live.restStarted == whole.collapsedAt)
  {
    hide Decay, IsActive, Span, Recovers, FedWhileDown;
    SpanStep(n - 1, dt);
    SpanStep(0, dt);
    SpanPositive(n, dt);
    var whole := Decay(s, Span(n, dt), start + Span(n, dt));
    if whole.collapsedAt.Some? && whole.recoveredAfter == None {
      CollapseShows(s, Span(n, dt), start + Span(n, dt));
    }
    if n == 1 {
      assert LiveTicks(s, 1, dt, start) == Decay(LiveTicks(s, 0, dt, start), dt, start + Span(1, dt)).soul;
    } else {
      SpanPositive(n - 1, dt);
      if Recovers(s, Span(n - 2, dt), start + Span(n - 2, dt)) {
        RecoversLater(s, n - 2, n - 1, dt, start);
      }
      LiveTicksAreOneCatchUp(s, n - 1, dt, start);
      OneMoreLiveTick(s, LiveTicks(s, n - 1, dt, start), Span(n - 1, dt), dt, start + Span(n, dt));
    }
  }

  /** `live` is what the ticks before have left, `a` seconds after `s`. */
  lemma OneMoreLiveTick(s: Soul, live: Soul, a: real, dt: real, now: real)
    requires a > 0.0 && dt > 0.0 && FedWhileDown(s) && !Recovers(s, a, now - dt)
    requires var half := Decay(s, a, now - dt);
             && AgreeExceptSatiety(live, half.soul) && live.satiety >= half.soul.satiety
             && (half.collapsedAt == None || !IsActive(s) ==> live == half.soul)
    ensures var next, whole := Decay(live, dt, now).soul, Decay(s, a + dt, now);
            && AgreeExceptSatiety(next, whole.soul) && next.satiety >= whole.soul.satiety
            && (whole.collapsedAt == None || !IsActive(s) ==> next == whole.soul)
  {
    RecoversIff(s, a, now - dt);
    SpanLaw(s, a, dt, now);
    var half := Decay(s, a, now - dt);
    if half.collapsedAt.Some? {
      CollapseShows(s, a, now - dt);
      CollapsedAgree(live, half.soul, dt, now);
    }
    hide Decay, IsActive, Recovers;
  }

  /** The first of the `n` ticks that ends in a recovery; `n` if none before the last one does. */
  function RecoveryTick(s: Soul, n: nat, dt: real, start: real): (k: nat)
    requires n > 0
    ensures 1 <= k <= n
    ensures k < n ==> Recovers(s, Span(k, dt), start + Span(k, dt))
    ensures k > 1 ==> !Recovers(s, Span(k - 1, dt), start + Span(k - 1, dt))
  {
    if n > 1 && Recovers(s, Span(n - 1, dt), start + Span(n - 1, dt)) then RecoveryTick(s, n - 1, dt, start) else n
  }

  lemma SpanAdd(k: nat, m: nat, dt: real)
    ensures Span(k + m, dt) == Span(k, dt) + Span(m, dt)
  {
    Distrib(k as real, m as real, dt);
  }

  /** The last ticks start from what the first ones have left. */
  lemma {:induction false} LiveTicksSplit(s: Soul, k: nat, m: nat, dt: real, start: real)
    ensures LiveTicks(s, k + m, dt, start) == LiveTicks(LiveTicks(s, k, dt, start), m, dt, start + Span(k, dt))
  {
    hide Decay, Span, LiveTicks;
    if m == 0 {
      NoTicks(LiveTicks(s, k, dt, start), dt, start + Span(k, dt));
    } else {
      LiveTicksSplit(s, k, m - 1, dt, start);
      LastTick(s, k + m, dt, start);
      LastTick(LiveTicks(s, k, dt, start), m, dt, start + Span(k, dt));
      SpanAdd(k, m, dt);
    }
  }

  lemma NoTicks(s: Soul, dt: real, start: real)
    ensures LiveTicks(s, 0, dt, start) == s
  {
  }

  lemma LastTick(s: Soul, n: nat, dt: real, start: real)
    requires n > 0
    ensures LiveTicks(s, n, dt, start) == Decay(LiveTicks(s, n - 1, dt, start), dt, start + Span(n, dt)).soul
  {
  }

  /** The ticks up to a recovery leave just what one span up to it leaves. */
  lemma TicksToRecovery(s: Soul, k: nat, dt: real, start: real)
    requires dt > 0.0 && k > 0 && FedWhileDown(s) && Recovers(s, Span(k, dt), start + Span(k, dt))
    requires k > 1 ==> !Recovers(s, Span(k - 1, dt), start + Span(k - 1, dt))
    ensures LiveTicks(s, k, dt, start) == Decay(s, Span(k, dt), start + Span(k, dt)).soul
  {
    LiveTicksAreOneCatchUp(s, k, dt, start);
    StaysDown(s, Span(k, dt), start + Span(k, dt));
  }

  lemma StaysDown(s: Soul, seconds: real, now: real)
    requires s.state == Collapsed
    ensures Decay(s, seconds, now).collapsedAt == None
  {
  }

  /** Live ticks agree with one catch-up on the lifecycle state exactly if no tick before the last one
      ends in a recovery, or the soul stands again from the first such tick to the end. */
  lemma LiveTicksExactly(s: Soul, n: nat, dt: real, start: real)
    requires dt > 0.0 && n > 0 && FedWhileDown(s)
    ensures var k := RecoveryTick(s, n, dt, start);
            LiveTicks(s, n, dt, start).state == Decay(s, Span(n, dt), start + Span(n, dt)).soul.state
            <==> k == n || StandsAgain(s, Span(k, dt), Span(n - k, dt))
  {
    hide Decay, LiveTicks, Span, StandsAgain, RecoveryTick, Recovers, IsActive;
    var k := RecoveryTick(s, n, dt, start);
    if k == n {
      LiveTicksAreOneCatchUp(s, n, dt, start);
    } else {
      SpanPositive(k, dt);
      SpanPositive(n, dt);
      RecoversLater(s, k, n, dt, start);
      WholeRecovers(s, Span(n, dt), start + Span(n, dt));
      TicksToRecovery(s, k, dt, start);
      LiveTicksSplit(s, k, n - k, dt, start);
      TicksAfterRecovery(s, k, n - k, dt, start);
    }
  }

  lemma WholeRecovers(s: Soul, seconds: real, now: real)
    requires seconds > 0.0 && FedWhileDown(s) && Recovers(s, seconds, now)
    ensures Decay(s, seconds, now).soul.state == Normal
  {
    RecoversIff(s, seconds, now);
    hide Mul, Hours, SatietyRate, HydrationRate, StarvingHours, HpAfter;
  }

  lemma TicksAfterRecovery(s: Soul, k: nat, m: nat, dt: real, start: real)
    requires dt > 0.0 && k > 0 && m > 0 && FedWhileDown(s) && Recovers(s, Span(k, dt), start + Span(k, dt))
    ensures LiveTicks(Decay(s, Span(k, dt), start + Span(k, dt)).soul, m, dt, start + Span(k, dt)).state
         == if StandsAgain(s, Span(k, dt), Span(m, dt)) then Normal else Collapsed
  {
    hide Decay, LiveTicks, Span, StandsAgain;
    SpanPositive(k, dt);
    SpanPositive(m, dt);
    var half, now := Decay(s, Span(k, dt), start + Span(k, dt)).soul, start + Span(k, dt) + Span(m, dt);
    assert now - Span(m, dt) == start + Span(k, dt);
    AfterRecovery(s, Span(k, dt), Span(m, dt), now);
    LiveTicksAreOneCatchUp(half, m, dt, start + Span(k, dt));
  }

  /** A soul that fell with no hp never stands again; one whose hp dormancy has floored at one, and that
      a gift has funded since, stands another half an hour. */
  lemma StandsAgainExamples(a: real, b: real)
    requires a > 0.0 && b > 0.0
    ensures !StandsAgain(Soul(0.0, 0.0, 0.0, Collapsed, true, Some(0.0), "idle", ZERO, None, false), a, b)
    ensures StandsAgain(Soul(0.0, 0.0, 1.0, Collapsed, true, Some(0.0), "idle", ZERO, None, false), a, 1800.0)
  {
    hide Mul;
    MulPos(SATIETY_REST_PER_H, a / 3600.0);
  }

  lemma SpanPositive(n: nat, dt: real)
    requires n > 0 && dt > 0.0
    ensures Span(n, dt) > 0.0
  {
    MulPos(n as real, dt);
  }

  /** The catch-up entry point clamps the downtime to 24 hours. */
  method ApplyBiologyDecay(souls: map<string, Soul>, downtime: real, now: real) returns (after: map<string, Soul>)
    ensures var seconds := if downtime > 24.0 * 3600.0 then 24.0 * 3600.0 else downtime;
            after == map id | id in souls :: Decay(souls[id], seconds, now).soul
  {
    var seconds := if downtime > CATCHUP_MAX_SECONDS then CATCHUP_MAX_SECONDS else downtime;
    after := souls;
    var todo := souls.Keys;
    while todo != {}
      invariant todo <= souls.Keys && after.Keys == souls.Keys
      invariant forall id :: id in souls ==>
                  after[id] == if id in todo then souls[id] else Decay(souls[id], seconds, now).soul
    {
      var id :| id in todo;
      after := after[id := Decay(souls[id], seconds, now).soul];
      todo := todo - {id};
    }
  }
}
