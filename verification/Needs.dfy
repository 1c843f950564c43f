/** What a span of `server/biology.py` does to a soul, told from outside: how much it hungers and thirsts,
    when it starves, lies down and gets up, in the numbers of the documentation. */
module Needs {
  import opened Options
  import opened Reals
  import opened Motion
  import opened Biology

  function Floored(v: real): real {
    if v < 0.0 then 0.0 else v
  }

  predicate OnTheMove(s: Soul) {
    s.state != Collapsed && (s.velocity != Vec(0.0, 0.0) || s.target.Some?)
  }

  /** A resting soul is empty after 36 hours, one on the move after 18, a dormant one four times as slowly. */
  function HungerPerHour(s: Soul): real {
    if s.dormant then if OnTheMove(s) then 50.0 / 36.0 else 25.0 / 36.0
    else if OnTheMove(s) then 200.0 / 36.0 else 100.0 / 36.0
  }

  /** And out of water after 24 hours, or 96 dormant. */
  function ThirstPerHour(s: Soul): real {
    if s.dormant then 25.0 / 24.0 else 100.0 / 24.0
  }

  lemma NeedsDrain(s: Soul, seconds: real, now: real)
    requires seconds > 0.0
    ensures var u, h := Decay(s, seconds, now).soul, seconds / 3600.0;
            && u.satiety == Floored(s.satiety - HungerPerHour(s) * h)
            && u.hydration == Floored(s.hydration - ThirstPerHour(s) * h)
            && u.activity == s.activity && u.dormant == s.dormant
  {
    assert SatietyRate(s) == HungerPerHour(s) && HydrationRate(s) == ThirstPerHour(s);
    hide SatietyRate, HydrationRate, HungerPerHour, ThirstPerHour, HpAfter, Collapses, CollapseOffset;
  }

  /** `t` hours into the span of `h` hours the soul begins to starve: at once if its satiety is below 20,
      not at all if it is not below 20 at the end, else when it has fallen to 20. */
  predicate StarvesFrom(s: Soul, h: real, t: real) {
    && 0.0 <= t <= h
    && (if s.satiety < 20.0 then t == 0.0
        else if s.satiety - HungerPerHour(s) * h >= 20.0 then t == h
        else s.satiety - HungerPerHour(s) * t == 20.0)
  }

  lemma StarvesSometime(s: Soul, h: real) returns (t: real)
    requires h > 0.0
    ensures StarvesFrom(s, h, t)
  {
    if s.satiety < 20.0 {
      t := 0.0;
    } else if s.satiety - HungerPerHour(s) * h >= 20.0 {
      t := h;
    } else {
      t := (s.satiety - 20.0) / HungerPerHour(s);
    }
  }

  lemma HungryHours(s: Soul, h: real, t: real)
    requires h > 0.0 && StarvesFrom(s, h, t) && !s.dormant
    ensures StarvingHours(s, h) == h - t
  {
    var rate := HungerPerHour(s);
    assert SatietyRate(s) == rate && rate > 0.0;
    if s.satiety >= 20.0 {
      assert Div(s.satiety - 20.0, rate) * rate == s.satiety - 20.0;
      hide Div, SatietyRate, HungerPerHour;
    }
  }

  /** A starving soul loses one point of hp an hour.  One that is up and not dormant falls exactly if its hp
      do not outlast the starving hours, at the moment at which they are used up; nobody else falls, and
      dormancy keeps one point. */
  lemma StarvationLaw(s: Soul, seconds: real, now: real, t: real)
    requires seconds > 0.0 && StarvesFrom(s, seconds / 3600.0, t)
    ensures var o, hungry := Decay(s, seconds, now), seconds / 3600.0 - t;
            && (o.collapsedAt.Some? <==> s.state != Collapsed && !s.dormant && s.hp <= hungry)
            && (if o.collapsedAt.Some? then
                  && o.soul.hp == 0.0 && o.soul.velocity == Vec(0.0, 0.0) && o.soul.target == None
                  && o.collapsedAt.value
                     == if hungry > 0.0 && s.hp > 0.0 then now - (hungry - s.hp) * 3600.0 else now - seconds
                else
                  && o.soul.velocity == s.velocity && o.soul.target == s.target
                  && o.soul.hp == if s.dormant then if s.hp < 1.0 then 1.0 else s.hp
                                  else if s.state == Collapsed then s.hp else s.hp - hungry)
  {
    if !s.dormant {
      HungryHours(s, seconds / 3600.0, t);
    }
    hide Mul, StarvingHours, SatietyRate, HydrationRate, StarvesFrom;
  }

  /** A soul that lies collapsed, since before or since this span, gets up exactly if it was fed and six
      hours have passed since its rest began; then the meal is used up and the rest clock off. */
  lemma RestLaw(s: Soul, seconds: real, now: real)
    requires seconds > 0.0
    ensures var o := Decay(s, seconds, now);
            var down := s.state == Collapsed || o.collapsedAt.Some?;
            var since := if o.collapsedAt.Some? then o.collapsedAt.value
                         else if s.restStarted.Some? then s.restStarted.value else now - seconds;
            var up := down && s.fed && now - since >= 21600.0;
            && o.soul.state == (if up then Normal else if down then Collapsed else s.state)
            && o.soul.fed == (s.fed && !up)
            && o.soul.restStarted == (if !up && (down || s.activity == "rest" || s.activity == "idle") then Some(since) else None)
            && o.recoveredAfter == if up then Some(now - since) else None
  {
    hide Mul, StarvingHours, SatietyRate, HydrationRate, HpAfter;
  }

  /** No span raises hp, but that dormancy keeps one point. */
  lemma HpOnlyFalls(s: Soul, seconds: real, now: real)
    requires s.hp >= 0.0
    ensures var hp := Decay(s, seconds, now).soul.hp;
            0.0 <= hp && (hp <= s.hp || (s.dormant && s.hp < hp == 1.0))
  {
    if seconds > 0.0 {
      var t := StarvesSometime(s, seconds / 3600.0);
      StarvationLaw(s, seconds, now, t);
      hide Decay, HungerPerHour;
    }
  }

  /** No time, no change. */
  lemma NoTimeNoChange(s: Soul, seconds: real, now: real)
    requires seconds <= 0.0
    ensures Decay(s, seconds, now) == Outcome(s, None, None)
  {
  }
}
