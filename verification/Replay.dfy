/** The live tick of `server/world_tick.py` against the boot replay of `server/persistence.py`:
    the journal tail, replayed tick by tick over any snapshot, rebuilds the live world. */
module Replay {
  import opened Options
  import opened Motion
  import opened Reals
  import opened WriteBehind

  type Souls = map<string, Kin>

  /** A journal event, reduced to what replay reads.  Rejections, mode changes, biology and dormancy
      events carry no motion. */
  datatype Event =
    | Move(tick: nat, id: string, velocity: Vec, target: Option<Vec>)
    | Teleport(tick: nat, id: string, to: Vec)
    | Quiet(tick: nat)

  /** `apply_event`: outcomes are absolute assignments; unknown souls are ignored. */
  function Apply(s: Souls, e: Event): Souls {
    match e
    case Move(_, id, v, t) => if id in s then s[id := s[id].(velocity := v, target := t)] else s
    case Teleport(_, id, to) => if id in s then s[id := Stopped(to)] else s
    case Quiet(_) => s
  }

  function ApplyAll(s: Souls, events: seq<Event>): Souls {
    if events == [] then s else Apply(ApplyAll(s, events[..|events| - 1]), events[|events| - 1])
  }

  function IntegrateWorld(s: Souls, dt: real, bounds: Vec): Souls {
    map id | id in s :: IntegrateSoul(s[id], dt, bounds)
  }

  /** The events recorded at tick `t`, in journal order. */
  function EventsAt(events: seq<Event>, t: nat): seq<Event> {
    if events == [] then []
    else
      EventsAt(events[..|events| - 1], t)
      + if events[|events| - 1].tick == t then [events[|events| - 1]] else []
  }

  /** The events of the ticks `lo <= t < hi`, tick by tick. */
  function InTickOrder(events: seq<Event>, lo: nat, hi: nat): seq<Event> {
    if hi <= lo then [] else InTickOrder(events, lo, hi - 1) + EventsAt(events, hi - 1)
  }

  /** A tick after every event. */
  function Top(events: seq<Event>): nat {
    if events == [] then 0
    else
      var rest, last := Top(events[..|events| - 1]), events[|events| - 1].tick + 1;
      if last > rest then last else rest
  }

  /** Ticks `from <= t < to`: the events of the tick, then one integration step. */
  function Exact(s: Souls, events: seq<Event>, from: nat, to: nat, dt: real, bounds: Vec): Souls {
    if to <= from then s
    else IntegrateWorld(ApplyAll(Exact(s, events, from, to - 1, dt, bounds), EventsAt(events, to - 1)), dt, bounds)
  }

  /** Exact replay: events before the base tick apply first, events at or after the end tick last. */
  function Replayed(s: Souls, events: seq<Event>, base: nat, end: nat, dt: real, bounds: Vec): Souls {
    var early := ApplyAll(s, InTickOrder(events, 0, base));
    ApplyAll(Exact(early, events, base, end, dt, bounds), InTickOrder(events, end, Top(events)))
  }

  // ---- The replay method ----

  /** `by_tick`: the events grouped by tick, each group in journal order. */
  method GroupByTick(events: seq<Event>) returns (byTick: map<nat, seq<Event>>)
    ensures forall t :: EventsAt(events, t) == if t in byTick then byTick[t] else []
    ensures forall t :: t in byTick ==> t < Top(events)
  {
    byTick := map[];
    for i := 0 to |events|
      invariant forall t :: EventsAt(events[..i], t) == if t in byTick then byTick[t] else []
      invariant forall t :: t in byTick ==> t < Top(events[..i])
    {
      assert events[..i + 1][..i] == events[..i];
      var t := events[i].tick;
      byTick := byTick[t := (if t in byTick then byTick[t] else []) + [events[i]]];
    }
    assert events[..|events|] == events;
  }

  method ApplyTick(s: Souls, byTick: map<nat, seq<Event>>, t: nat) returns (after: Souls)
    ensures after == ApplyAll(s, if t in byTick then byTick[t] else [])
  {
    after := s;
    var batch := if t in byTick then byTick[t] else [];
    for i := 0 to |batch|
      invariant after == ApplyAll(s, batch[..i])
    {
      assert batch[..i + 1][..i] == batch[..i];
      after := Apply(after, batch[i]);
    }
    assert batch[..|batch|] == batch;
  }

  /** `replay_tail` in its tick-exact mode. */
  method ReplayTail(state: Souls, events: seq<Event>, base: nat, ticks: nat, dt: real, bounds: Vec)
    returns (after: Souls, end: nat)
    ensures end == base + ticks && after == Replayed(state, events, base, end, dt, bounds)
  {
    hide EventsAt, ApplyAll, InTickOrder, Exact, Top;
    end := base + ticks;
    var byTick := GroupByTick(events);
    after := ApplyTicks(state, events, byTick, 0, base);
    after := RunTicks(after, events, byTick, base, end, dt, bounds);
    var last := LastTick(events);
    after := ApplyTicks(after, events, byTick, end, last);
  }

  /** The events of the ticks from `lo` up to `hi`, without a step in between. */
  method ApplyTicks(state: Souls, events: seq<Event>, byTick: map<nat, seq<Event>>, lo: nat, hi: nat) returns (after: Souls)
    requires forall t :: EventsAt(events, t) == if t in byTick then byTick[t] else []
    ensures after == ApplyAll(state, InTickOrder(events, lo, hi))
  {
    hide EventsAt, Apply;
    after := state;
    var t := lo;
    while t < hi
      invariant lo <= t && (t <= hi || t == lo)
      invariant after == ApplyAll(state, InTickOrder(events, lo, t))
    {
      ApplyConcat(state, InTickOrder(events, lo, t), EventsAt(events, t));
      after := ApplyTick(after, byTick, t);
      t := t + 1;
    }
  }

  /** The events of each tick, then one integration step. */
  method RunTicks(state: Souls, events: seq<Event>, byTick: map<nat, seq<Event>>, base: nat, end: nat, dt: real, bounds: Vec)
    returns (after: Souls)
    requires base <= end && forall t :: EventsAt(events, t) == if t in byTick then byTick[t] else []
    ensures after == Exact(state, events, base, end, dt, bounds)
  {
    hide EventsAt, ApplyAll, IntegrateSoul;
    after := state;
    for t := base to end
      invariant after == Exact(state, events, base, t, dt, bounds)
    {
      after := ApplyTick(after, byTick, t);
      after := IntegrateWorld(after, dt, bounds);
    }
  }

  method LastTick(events: seq<Event>) returns (top: nat)
    ensures top == Top(events)
  {
    top := 0;
    for i := 0 to |events|
      invariant top == Top(events[..i])
    {
      assert events[..i + 1][..i] == events[..i];
      if events[i].tick + 1 > top {
        top := events[i].tick + 1;
      }
    }
    assert events[..|events|] == events;
  }

  lemma {:induction false} ApplyConcat(s: Souls, a: seq<Event>, b: seq<Event>)
    ensures ApplyAll(s, a + b) == ApplyAll(ApplyAll(s, a), b)
  {
    if b == [] {
      assert a + b == a;
    } else {
      ApplyConcat(s, a, b[..|b| - 1]);
      assert (a + b)[..|a + b| - 1] == a + b[..|b| - 1];
    }
  }

  // ---- What the journal's events say ----

  predicate Names(e: Event, id: string) {
    (e.Move? || e.Teleport?) && e.id == id
  }

  /** Of all events the last that names a soul decides its velocity and target: what a move says, and none
      after a teleport. */
  lemma {:induction false} LastEventDecides(s: Souls, events: seq<Event>, id: string, k: nat)
    requires id in s && k < |events| && Names(events[k], id) && forall j :: k < j < |events| ==> !Names(events[j], id)
    ensures var u, e := ApplyAll(s, events), events[k];
            && u.Keys == s.Keys
            && u[id].velocity == (if e.Move? then e.velocity else Vec(0.0, 0.0))
            && u[id].target == (if e.Move? then e.target else None)
  {
    var init := events[..|events| - 1];
    ApplyKeepsIds(s, init);
    if k < |init| {
      assert init[k] == events[k] && forall j :: k < j < |init| ==> init[j] == events[j];
      LastEventDecides(s, init, id, k);
    }
  }

  lemma {:induction false} ApplyKeepsIds(s: Souls, events: seq<Event>)
    ensures ApplyAll(s, events).Keys == s.Keys
  {
    if events != [] {
      ApplyKeepsIds(s, events[..|events| - 1]);
    }
  }

  ghost predicate IsLastTeleport(events: seq<Event>, id: string, k: nat)
    requires k < |events|
  {
    && events[k].Teleport? && events[k].id == id
    && forall j :: k < j < |events| && events[j].Teleport? ==> events[j].id != id
  }

  /** The last teleport decides where it is; a soul without one is where it was, and one that no event names
      is as it was. */
  lemma {:induction false} LastTeleportPlaces(s: Souls, events: seq<Event>, id: string)
    requires id in s
    ensures var u := ApplyAll(s, events);
            && u.Keys == s.Keys
            && (forall k :: 0 <= k < |events| && IsLastTeleport(events, id, k) ==> u[id].position == events[k].to)
            && ((forall j :: 0 <= j < |events| && events[j].Teleport? ==> events[j].id != id) ==> u[id].position == s[id].position)
            && ((forall j :: 0 <= j < |events| ==> !Names(events[j], id)) ==> u[id] == s[id])
  {
    if events != [] {
      var init, last := events[..|events| - 1], events[|events| - 1];
      LastTeleportPlaces(s, init, id);
      assert forall j :: 0 <= j < |init| ==> init[j] == events[j];
      assert forall k: nat :: k < |init| && IsLastTeleport(events, id, k) ==> IsLastTeleport(init, id, k);
      if last.Teleport? && last.id == id {
        assert ApplyAll(s, events)[id].position == last.to;
      } else {
        assert ApplyAll(s, events)[id].position == ApplyAll(s, init)[id].position;
      }
    }
  }

  // ---- Replay splits at any tick ----

  function Before(events: seq<Event>, mid: nat): seq<Event> {
    if events == [] then []
    else
      Before(events[..|events| - 1], mid)
      + if events[|events| - 1].tick < mid then [events[|events| - 1]] else []
  }

  function From(events: seq<Event>, mid: nat): seq<Event> {
    if events == [] then []
    else
      From(events[..|events| - 1], mid)
      + if events[|events| - 1].tick >= mid then [events[|events| - 1]] else []
  }

  lemma {:induction false} SplitEventsAt(events: seq<Event>, mid: nat, t: nat)
    ensures EventsAt(Before(events, mid), t) == if t < mid then EventsAt(events, t) else []
    ensures EventsAt(From(events, mid), t) == if t < mid then [] else EventsAt(events, t)
  {
    if events != [] {
      var init, last := events[..|events| - 1], events[|events| - 1];
      SplitEventsAt(init, mid, t);
      if last.tick < mid {
        EventsAtAppend(Before(init, mid), last, t);
        assert From(events, mid) == From(init, mid);
      } else {
        EventsAtAppend(From(init, mid), last, t);
        assert Before(events, mid) == Before(init, mid);
      }
    }
  }

  lemma EventsAtAppend(events: seq<Event>, e: Event, t: nat)
    ensures EventsAt(events + [e], t) == EventsAt(events, t) + if e.tick == t then [e] else []
  {
    assert (events + [e])[..|events|] == events;
  }

  /** Replays that see the same events at the same ticks agree. */
  lemma {:induction false} ExactDependsOnEventsAt(s: Souls, a: seq<Event>, b: seq<Event>, from: nat, to: nat,
                                                  dt: real, bounds: Vec)
    requires forall t :: from <= t < to ==> EventsAt(a, t) == EventsAt(b, t)
    ensures Exact(s, a, from, to, dt, bounds) == Exact(s, b, from, to, dt, bounds)
  {
    if from < to {
      ExactDependsOnEventsAt(s, a, b, from, to - 1, dt, bounds);
    }
  }

  lemma {:induction false} TickOrderDependsOnEventsAt(a: seq<Event>, b: seq<Event>, lo: nat, hi: nat)
    requires forall t :: lo <= t < hi ==> EventsAt(a, t) == EventsAt(b, t)
    ensures InTickOrder(a, lo, hi) == InTickOrder(b, lo, hi)
  {
    if lo < hi {
      TickOrderDependsOnEventsAt(a, b, lo, hi - 1);
    }
  }

  lemma {:induction false} TickOrderEmpty(a: seq<Event>, lo: nat, hi: nat)
    requires forall t :: lo <= t < hi ==> EventsAt(a, t) == []
    ensures InTickOrder(a, lo, hi) == []
  {
    if lo < hi {
      TickOrderEmpty(a, lo, hi - 1);
    }
  }

  lemma {:induction false} NothingAtOrAboveTop(events: seq<Event>, t: nat)
    ensures t >= Top(events) ==> EventsAt(events, t) == []
  {
    if events != [] {
      NothingAtOrAboveTop(events[..|events| - 1], t);
    }
  }

  /** Looking past the last event adds nothing. */
  lemma {:induction false} TickOrderPastTop(events: seq<Event>, lo: nat, hi: nat)
    requires hi >= Top(events)
    ensures InTickOrder(events, lo, hi) == InTickOrder(events, lo, Top(events))
  {
    hide Top, EventsAt;
    if hi > Top(events) && hi > lo {
      NothingAtOrAboveTop(events, hi - 1);
      TickOrderPastTop(events, lo, hi - 1);
    }
  }

  lemma {:induction false} ExactSplits(s: Souls, events: seq<Event>, from: nat, mid: nat, to: nat, dt: real, bounds: Vec)
    requires from <= mid <= to
    ensures Exact(s, events, from, to, dt, bounds)
         == Exact(Exact(s, events, from, mid, dt, bounds), events, mid, to, dt, bounds)
  {
    hide ApplyAll, EventsAt, IntegrateWorld;
    if mid < to {
      ExactSplits(s, events, from, mid, to - 1, dt, bounds);
    }
  }

  function Larger(a: nat, b: nat): nat {
    if a > b then a else b
  }

  /** Replaying from `base` to `mid` with the events before `mid`, and on to `end` with the others,
      is replaying from `base` to `end` with all of them. */
  lemma ReplaySplits(s: Souls, events: seq<Event>, base: nat, mid: nat, end: nat, dt: real, bounds: Vec)
    requires base <= mid <= end
    ensures Replayed(Replayed(s, Before(events, mid), base, mid, dt, bounds), From(events, mid), mid, end, dt, bounds)
         == Replayed(s, events, base, end, dt, bounds)
  {
    hide Exact, ApplyAll, EventsAt, InTickOrder, Before, From, Top;
    var a, b := Before(events, mid), From(events, mid);
    forall t: nat ensures EventsAt(a, t) == if t < mid then EventsAt(events, t) else [] { SplitEventsAt(events, mid, t); }
    forall t: nat ensures EventsAt(b, t) == if t < mid then [] else EventsAt(events, t) { SplitEventsAt(events, mid, t); }
    TickOrderDependsOnEventsAt(a, events, 0, base);
    var early := ApplyAll(s, InTickOrder(events, 0, base));
    ExactDependsOnEventsAt(early, a, events, base, mid, dt, bounds);
    TickOrderEmpty(a, mid, Top(a));
    var half := Exact(early, events, base, mid, dt, bounds);
    ApplyNone(half);
    TickOrderEmpty(b, 0, mid);
    ExactDependsOnEventsAt(half, b, events, mid, end, dt, bounds);
    ExactSplits(early, events, base, mid, end, dt, bounds);
    var far := Larger(Top(b), Top(events));
    TickOrderPastTop(b, end, far);
    TickOrderPastTop(events, end, far);
    TickOrderDependsOnEventsAt(b, events, end, far);
  }

  lemma ApplyNone(s: Souls)
    ensures ApplyAll(s, []) == s
  {
  }

  // ---- The live world ----

  /** What adjudicating one motion intent decided: a `move_to`, a `rest` or `wait`, or a refusal. */
  datatype Decision = Moved(id: string, velocity: Vec, target: Option<Vec>) | Halted(id: string) | Refused

  /** The read-through soul state, the journal and the tick counter. */
  datatype World = World(souls: Souls, journal: seq<Event>, tick: nat)

  /** The outcome is written to the soul and journaled at the current tick.  A halt is written
      too, but its journal event carries no velocity. */
  function Adjudicate(w: World, d: Decision): World {
    if d.Moved? && d.id in w.souls then
      w.(souls := w.souls[d.id := w.souls[d.id].(velocity := d.velocity, target := d.target)],
         journal := w.journal + [Move(w.tick, d.id, d.velocity, d.target)])
    else if d.Halted? && d.id in w.souls then
      w.(souls := w.souls[d.id := Stopped(w.souls[d.id].position)], journal := w.journal + [Quiet(w.tick)])
    else w.(journal := w.journal + [Quiet(w.tick)])
  }

  function Pump(w: World, ds: seq<Decision>): World {
    if ds == [] then w else Adjudicate(Pump(w, ds[..|ds| - 1]), ds[|ds| - 1])
  }

  ghost predicate IsLastDecision(ds: seq<Decision>, id: string, k: nat)
    requires k < |ds|
  {
    !ds[k].Refused? && ds[k].id == id && forall j :: k < j < |ds| && !ds[j].Refused? ==> ds[j].id != id
  }

  /** The last decision about a soul holds: it stays where it is and has the velocity and the target of a move,
      or none after a halt. */
  lemma {:induction false} LastDecisionHolds(w: World, ds: seq<Decision>, id: string, k: nat)
    requires id in w.souls && k < |ds| && IsLastDecision(ds, id, k)
    ensures id in Pump(w, ds).souls
    ensures Pump(w, ds).souls[id]
         == if ds[k].Moved? then Kin(w.souls[id].position, ds[k].velocity, ds[k].target)
            else Kin(w.souls[id].position, Vec(0.0, 0.0), None)
  {
    var init, last := ds[..|ds| - 1], ds[|ds| - 1];
    DecisionsMoveNobody(w, init, id);
    hide Adjudicate;
    OneDecisionHolds(Pump(w, init), last, id);
    if k < |init| {
      assert init[k] == ds[k] && forall j :: k < j < |init| ==> init[j] == ds[j];
      LastDecisionHolds(w, init, id, k);
      assert ds[|init|] == last;
    }
  }

  /** No decision moves a soul from where it is; one about which nothing was decided is as it was. */
  lemma {:induction false} DecisionsMoveNobody(w: World, ds: seq<Decision>, id: string)
    requires id in w.souls
    ensures id in Pump(w, ds).souls && Pump(w, ds).souls[id].position == w.souls[id].position
    ensures (forall j :: 0 <= j < |ds| && !ds[j].Refused? ==> ds[j].id != id) ==> Pump(w, ds).souls[id] == w.souls[id]
  {
    if ds != [] {
      var init, last := ds[..|ds| - 1], ds[|ds| - 1];
      DecisionsMoveNobody(w, init, id);
      hide Adjudicate;
      OneDecisionHolds(Pump(w, init), last, id);
      assert forall j :: 0 <= j < |init| ==> init[j] == ds[j];
    }
  }

  lemma OneDecisionHolds(w: World, d: Decision, id: string)
    requires id in w.souls
    ensures var u := Adjudicate(w, d).souls;
            && u.Keys == w.souls.Keys
            && u[id] == if d.Moved? && d.id == id then Kin(w.souls[id].position, d.velocity, d.target)
                        else if d.Halted? && d.id == id then Kin(w.souls[id].position, Vec(0.0, 0.0), None)
                        else w.souls[id]
  {
  }

  /** The journal records one event a decision, at the current tick: a move with all that it set, and of
      anything else only that it happened. */
  lemma {:induction false} PumpRecords(w: World, ds: seq<Decision>)
    ensures var p := Pump(w, ds);
            && p.tick == w.tick && p.souls.Keys == w.souls.Keys
            && |p.journal| == |w.journal| + |ds| && p.journal[..|w.journal|] == w.journal
            && forall k :: 0 <= k < |ds| ==>
                 p.journal[|w.journal| + k] == if ds[k].Moved? && ds[k].id in w.souls then Move(w.tick, ds[k].id, ds[k].velocity, ds[k].target)
                                               else Quiet(w.tick)
  {
    if ds != [] {
      var init := ds[..|ds| - 1];
      PumpRecords(w, init);
      assert forall j :: 0 <= j < |init| ==> init[j] == ds[j];
    }
  }

  /** One tick: pump the intents, integrate, then advance the counter. */
  function LiveTick(w: World, ds: seq<Decision>, dt: real, bounds: Vec): World {
    var pumped := Pump(w, ds);
    pumped.(souls := IntegrateWorld(pumped.souls, dt, bounds), tick := w.tick + 1)
  }

  /** A decision takes effect within its tick: the soul already moves as decided. */
  lemma DecidedSoulsMoveAtOnce(w: World, ds: seq<Decision>, id: string, k: nat, dt: real, bounds: Vec)
    requires id in w.souls && k < |ds| && IsLastDecision(ds, id, k)
    ensures var u := LiveTick(w, ds, dt, bounds);
            && u.tick == w.tick + 1 && id in u.souls
            && u.souls[id] == if ds[k].Moved? then IntegrateSoul(Kin(w.souls[id].position, ds[k].velocity, ds[k].target), dt, bounds)
                              else Kin(w.souls[id].position, Vec(0.0, 0.0), None)
  {
    PumpRecords(w, ds);
    LastDecisionHolds(w, ds, id, k);
    hide Pump;
  }

  /** And every other soul moves on as it did. */
  lemma OthersMoveOn(w: World, ds: seq<Decision>, id: string, dt: real, bounds: Vec)
    requires id in w.souls && forall j :: 0 <= j < |ds| && !ds[j].Refused? ==> ds[j].id != id
    ensures var u := LiveTick(w, ds, dt, bounds).souls; id in u && u[id] == IntegrateSoul(w.souls[id], dt, bounds)
  {
    DecisionsMoveNobody(w, ds, id);
    hide Pump, IntegrateSoul;
  }

  /** What the run loop does next: a step, or, when a step ended late, a jump of the counter over the
      ticks it missed, for which nothing is simulated. */
  datatype Phase = Tick(decisions: seq<Decision>) | Skip(missed: nat)

  function LivePhase(w: World, p: Phase, dt: real, bounds: Vec): World {
    match p
    case Tick(ds) => LiveTick(w, ds, dt, bounds)
    case Skip(missed) => w.(tick := w.tick + missed)
  }

  function Live(w: World, phases: seq<Phase>, dt: real, bounds: Vec): World {
    if phases == [] then w
    else LivePhase(Live(w, phases[..|phases| - 1], dt, bounds), phases[|phases| - 1], dt, bounds)
  }

  /** The tick loop over the write-behind store does exactly this to what readers see. */
  method TickStore(store: Store, ds: seq<Decision>, ghost w: World, dt: real, bounds: Vec)
    requires store.View() == w.souls
    modifies store
    ensures store.View() == LiveTick(w, ds, dt, bounds).souls
  {
    for i := 0 to |ds|
      invariant store.View() == Pump(w, ds[..i]).souls
    {
      assert ds[..i + 1][..i] == ds[..i];
      if ds[i].Moved? && ds[i].id in store.rows {
        store.AdjudicateMove(ds[i].id, ds[i].velocity, ds[i].target);
      } else if ds[i].Halted? && ds[i].id in store.rows {
        store.Mark(ds[i].id, Entry(None, Some(ZERO), Some(None)));
      }
    }
    assert ds[..|ds|] == ds;
    store.IntegrateAll(dt, bounds);
  }

  /** What the journal of a pump tells about the souls: the moves, and nothing of the halts. */
  function Told(s: Souls, ds: seq<Decision>): Souls {
    if ds == [] then s
    else
      var t, d := Told(s, ds[..|ds| - 1]), ds[|ds| - 1];
      if d.Moved? && d.id in t then t[d.id := t[d.id].(velocity := d.velocity, target := d.target)] else t
  }

  /** The last thing decided about `id` is a halt. */
  predicate EndsHalted(ds: seq<Decision>, id: string) {
    if ds == [] then false
    else
      var d := ds[|ds| - 1];
      if d.Halted? && d.id == id then true
      else if d.Moved? && d.id == id then false
      else EndsHalted(ds[..|ds| - 1], id)
  }

  lemma {:induction false} PumpJournal(w: World, ds: seq<Decision>)
    ensures var p := Pump(w, ds);
            && p.tick == w.tick && |p.journal| == |w.journal| + |ds| && p.journal[..|w.journal|] == w.journal
            && (forall i :: |w.journal| <= i < |p.journal| ==> p.journal[i].tick == w.tick)
            && ApplyAll(w.souls, p.journal[|w.journal|..]) == Told(w.souls, ds)
  {
    if ds != [] {
      PumpJournal(w, ds[..|ds| - 1]);
      var q, p, n := Pump(w, ds[..|ds| - 1]), Pump(w, ds), |w.journal|;
      PumpKeepsIds(w, ds[..|ds| - 1]);
      hide Pump;
      AdjudicateJournals(q, ds[|ds| - 1], Told(w.souls, ds[..|ds| - 1]));
      var e := p.journal[|q.journal|];
      assert p.journal[n..] == q.journal[n..] + [e];
      assert p.journal[n..][..|ds| - 1] == q.journal[n..];
      hide Adjudicate, Apply;
    }
  }

  /** One event at the current tick; unless it is a halt, it carries the whole change. */
  lemma AdjudicateJournals(w: World, d: Decision, t: Souls)
    requires t.Keys == w.souls.Keys
    ensures var p := Adjudicate(w, d);
            && p.tick == w.tick && |p.journal| == |w.journal| + 1 && p.journal == w.journal + [p.journal[|w.journal|]]
            && p.journal[|w.journal|].tick == w.tick
            && Apply(t, p.journal[|w.journal|])
               == if d.Moved? && d.id in t then t[d.id := t[d.id].(velocity := d.velocity, target := d.target)] else t
  {
  }

  lemma {:induction false} PumpKeepsIds(w: World, ds: seq<Decision>)
    ensures Pump(w, ds).souls.Keys == Told(w.souls, ds).Keys == w.souls.Keys
  {
    if ds != [] {
      PumpKeepsIds(w, ds[..|ds| - 1]);
    }
  }

  /** The pump leaves each soul as the journal tells, but stopped if the last word on it was a halt. */
  lemma {:induction false} PumpAgainstTold(w: World, ds: seq<Decision>, id: string)
    requires id in w.souls
    ensures id in Pump(w, ds).souls && id in Told(w.souls, ds)
    ensures var done, told := Pump(w, ds).souls[id], Told(w.souls, ds)[id];
            && told.position == w.souls[id].position
            && done == if EndsHalted(ds, id) then Stopped(told.position) else told
  {
    if ds != [] {
      PumpAgainstTold(w, ds[..|ds| - 1], id);
      PumpKeepsIds(w, ds[..|ds| - 1]);
    }
  }

  lemma {:induction false} AllAtTick(events: seq<Event>, tick: nat, t: nat)
    requires forall i :: 0 <= i < |events| ==> events[i].tick == tick
    ensures EventsAt(events, t) == if t == tick then events else []
  {
    if events != [] {
      AllAtTick(events[..|events| - 1], tick, t);
    }
  }

  lemma SplitLast(a: seq<Event>, b: seq<Event>)
    requires b != []
    ensures a + b == a + b[..|b| - 1] + [b[|b| - 1]] && b == b[..|b| - 1] + [b[|b| - 1]]
  {
  }

  lemma Regroup(a: seq<Event>, b: seq<Event>, c: seq<Event>)
    ensures a + b + c == a + (b + c)
  {
  }

  lemma {:induction false} EventsAtConcat(a: seq<Event>, b: seq<Event>, t: nat)
    ensures EventsAt(a + b, t) == EventsAt(a, t) + EventsAt(b, t)
  {
    if b == [] {
      assert a + b == a;
    } else {
      var init, last := b[..|b| - 1], b[|b| - 1];
      EventsAtConcat(a, init, t);
      EventsAtAppend(a + init, last, t);
      EventsAtAppend(init, last, t);
      SplitLast(a, b);
      Regroup(EventsAt(a, t), EventsAt(init, t), if last.tick == t then [last] else []);
      hide EventsAt;
    }
  }

  /** The journal of a live run only grows, at the ticks it has lived through. */
  lemma {:induction false} LiveJournal(w: World, phases: seq<Phase>, dt: real, bounds: Vec)
    ensures var n := Live(w, phases, dt, bounds);
            && w.tick <= n.tick && |w.journal| <= |n.journal| && n.journal[..|w.journal|] == w.journal
            && (forall i :: |w.journal| <= i < |n.journal| ==> w.tick <= n.journal[i].tick < n.tick)
  {
    if phases != [] {
      var before, last := Live(w, phases[..|phases| - 1], dt, bounds), phases[|phases| - 1];
      LiveJournal(w, phases[..|phases| - 1], dt, bounds);
      hide Pump, IntegrateWorld, Told, ApplyAll;
      if last.Tick? {
        PumpJournal(before, last.decisions);
      }
    }
  }

  // ---- When a phase is faithful to what replay makes of it ----

  /** A soul that a tick leaves standing where it is. */
  predicate AtRest(k: Kin) {
    if k.velocity == ZERO then k.target == None else k.target == Some(k.position)
  }

  /** On one axis: no velocity, or a velocity against the wall the soul stands at. */
  predicate Pinned(p: real, v: real, lo: real, hi: real) {
    v == 0.0 || (v > 0.0 && p == hi) || (v < 0.0 && p == lo)
  }

  /** A soul that no tick moves: without a velocity, or walking into a wall without a target. */
  predicate Still(k: Kin, bounds: Vec) {
    k.velocity == ZERO ||
    (k.target == None && Pinned(k.position.x, k.velocity.x, MARGIN, bounds.x - MARGIN)
                      && Pinned(k.position.y, k.velocity.y, MARGIN, bounds.y - MARGIN))
  }

  /** Position and target lie in the world. */
  predicate Inside(k: Kin, bounds: Vec) {
    InBounds(k.position, bounds) && (k.target.Some? ==> InBounds(k.target.value, bounds))
  }

  ghost predicate AllInside(s: Souls, bounds: Vec) {
    forall id :: id in s ==> Inside(s[id], bounds)
  }

  /** `move_to` clamps its target into the world. */
  ghost predicate MovesInside(phases: seq<Phase>, bounds: Vec) {
    forall i, j :: 0 <= i < |phases| && phases[i].Tick? && 0 <= j < |phases[i].decisions| ==>
      var d := phases[i].decisions[j]; d.Moved? && d.target.Some? ==> InBounds(d.target.value, bounds)
  }

  /** A step is told whole if every soul it halts last was at rest by what the journal tells; a skip
      if no soul was moving. */
  ghost predicate ToldWhole(s: Souls, p: Phase, bounds: Vec) {
    match p
    case Tick(ds) => forall id :: id in s && EndsHalted(ds, id) ==> id in Told(s, ds) && AtRest(Told(s, ds)[id])
    case Skip(missed) => missed == 0 || forall id :: id in s ==> Still(s[id], bounds)
  }

  /** On one axis, a tick moves a soul with its velocity, and leaves it only where it is pinned. */
  lemma AxisMoves(p: real, v: real, dt: real, lo: real, hi: real)
    requires lo <= p <= hi && dt > 0.0
    ensures var q := Clamp(p + Mul(dt, v), lo, hi);
            && lo <= q <= hi && (v >= 0.0 ==> q >= p) && (v <= 0.0 ==> q <= p) && (q == p <==> Pinned(p, v, lo, hi))
  {
    if v > 0.0 {
      MulPos(dt, v);
    } else if v < 0.0 {
      MulPos(dt, -v);
      Neg(dt, v);
    }
  }

  /** From a pinned position no target in the world lies ahead. */
  lemma NothingAhead(p: real, v: real, t: real, lo: real, hi: real)
    requires lo <= t <= hi && Pinned(p, v, lo, hi)
    ensures Mul(t - p, v) <= 0.0
  {
  }

  lemma NotBackward(p: real, v: real, dt: real, lo: real, hi: real)
    requires lo <= p <= hi && dt > 0.0
    ensures Mul(p - Clamp(p + Mul(dt, v), lo, hi), v) <= 0.0
  {
    AxisMoves(p, v, dt, lo, hi);
  }

  lemma AtRestIff(k: Kin, dt: real, bounds: Vec)
    requires InBounds(k.position, bounds) && dt > 0.0
    ensures IntegrateSoul(k, dt, bounds) == Stopped(k.position) <==> AtRest(k)
  {
    NotBackward(k.position.x, k.velocity.x, dt, MARGIN, bounds.x - MARGIN);
    NotBackward(k.position.y, k.velocity.y, dt, MARGIN, bounds.y - MARGIN);
    hide Mul, Clamp, Near;
  }

  lemma StillIff(k: Kin, dt: real, bounds: Vec)
    requires Inside(k, bounds) && dt > 0.0
    ensures IntegrateSoul(k, dt, bounds) == k <==> Still(k, bounds)
    ensures Inside(IntegrateSoul(k, dt, bounds), bounds)
  {
    AxisMoves(k.position.x, k.velocity.x, dt, MARGIN, bounds.x - MARGIN);
    AxisMoves(k.position.y, k.velocity.y, dt, MARGIN, bounds.y - MARGIN);
    if k.target.Some? {
      var t := k.target.value;
      if Pinned(k.position.x, k.velocity.x, MARGIN, bounds.x - MARGIN) {
        NothingAhead(k.position.x, k.velocity.x, t.x, MARGIN, bounds.x - MARGIN);
      }
      if Pinned(k.position.y, k.velocity.y, MARGIN, bounds.y - MARGIN) {
        NothingAhead(k.position.y, k.velocity.y, t.y, MARGIN, bounds.y - MARGIN);
      }
    }
    hide Mul, Clamp, Near, Pinned;
  }

  /** `q` lies where `v` leads from `p`, or there. */
  predicate Onward(p: real, v: real, q: real) {
    (v >= 0.0 ==> q >= p) && (v <= 0.0 ==> q <= p)
  }

  /** After the first tick a soul has stopped for good, or walks on the way it went. */
  lemma {:induction false} NeverBack(k: Kin, n: nat, dt: real, bounds: Vec)
    requires Inside(k, bounds) && dt > 0.0 && n > 0
    ensures var q, first := Ticks(k, n, dt, bounds), Ticks(k, 1, dt, bounds);
            && Inside(q, bounds)
            && (q.velocity == ZERO ||
                (&& q.velocity == k.velocity && q.target == k.target
                 && Onward(k.position.x, k.velocity.x, first.position.x)
                 && Onward(first.position.x, k.velocity.x, q.position.x)
                 && Onward(k.position.y, k.velocity.y, first.position.y)
                 && Onward(first.position.y, k.velocity.y, q.position.y)))
  {
    assert Ticks(k, 1, dt, bounds) == IntegrateSoul(Ticks(k, 0, dt, bounds), dt, bounds);
    var b := Ticks(k, n - 1, dt, bounds);
    if n > 1 {
      NeverBack(k, n - 1, dt, bounds);
    }
    StillIff(b, dt, bounds);
    AxisMoves(b.position.x, b.velocity.x, dt, MARGIN, bounds.x - MARGIN);
    AxisMoves(b.position.y, b.velocity.y, dt, MARGIN, bounds.y - MARGIN);
    hide Mul, Clamp, Near, Pinned, Still;
  }

  /** Ticks bring a soul back to where it was exactly if it never moved. */
  lemma {:induction false} TicksStillIff(k: Kin, n: nat, dt: real, bounds: Vec)
    requires Inside(k, bounds) && dt > 0.0
    ensures Ticks(k, n, dt, bounds) == k <==> n == 0 || Still(k, bounds)
  {
    StillIff(k, dt, bounds);
    if n > 0 {
      assert Ticks(k, 1, dt, bounds) == IntegrateSoul(Ticks(k, 0, dt, bounds), dt, bounds);
      if Still(k, bounds) {
        TicksStillIff(k, n - 1, dt, bounds);
      } else {
        NeverBack(k, n, dt, bounds);
        MovedOrStopped(k, dt, bounds);
      }
      hide IntegrateSoul, Still, Inside;
    }
  }

  lemma MovedOrStopped(k: Kin, dt: real, bounds: Vec)
    requires Inside(k, bounds) && dt > 0.0 && !Still(k, bounds)
    ensures var q := IntegrateSoul(k, dt, bounds);
            k.velocity != ZERO && (q.velocity == ZERO || q.position != k.position)
  {
    StillIff(k, dt, bounds);
    hide Still, Clamp, Mul, Near;
  }

  /** The world coasting on without new intents. */
  function Coast(s: Souls, n: nat, dt: real, bounds: Vec): Souls {
    if n == 0 then s else IntegrateWorld(Coast(s, n - 1, dt, bounds), dt, bounds)
  }

  lemma {:induction false} CoastIsTicks(s: Souls, n: nat, dt: real, bounds: Vec)
    ensures Coast(s, n, dt, bounds) == map id | id in s :: Ticks(s[id], n, dt, bounds)
  {
    hide IntegrateSoul;
    if n > 0 {
      CoastIsTicks(s, n - 1, dt, bounds);
    }
  }

  /** Integrating over skipped ticks leaves the world alone exactly if nobody was moving. */
  lemma SkipIff(s: Souls, missed: nat, dt: real, bounds: Vec)
    requires AllInside(s, bounds) && dt > 0.0
    ensures Coast(s, missed, dt, bounds) == s <==> ToldWhole(s, Skip(missed), bounds)
  {
    hide IntegrateSoul, Still, Ticks;
    CoastIsTicks(s, missed, dt, bounds);
    var c := Coast(s, missed, dt, bounds);
    forall id | id in s ensures c[id] == s[id] <==> missed == 0 || Still(s[id], bounds) {
      TicksStillIff(s[id], missed, dt, bounds);
    }
    hide Coast;
    if ToldWhole(s, Skip(missed), bounds) {
      assert c == s;
    }
  }

  /** A step from what the journal tells leads to the live world exactly if it is told whole. */
  lemma TickIff(w: World, ds: seq<Decision>, dt: real, bounds: Vec)
    requires AllInside(w.souls, bounds) && dt > 0.0
    ensures IntegrateWorld(Told(w.souls, ds), dt, bounds) == IntegrateWorld(Pump(w, ds).souls, dt, bounds)
       <==> ToldWhole(w.souls, Tick(ds), bounds)
  {
    hide IntegrateSoul, Pump, Told, EndsHalted, AtRest;
    PumpKeepsIds(w, ds);
    var told, done := Told(w.souls, ds), Pump(w, ds).souls;
    var a, b := IntegrateWorld(told, dt, bounds), IntegrateWorld(done, dt, bounds);
    forall id | id in w.souls
      ensures a[id] == b[id] <==> (EndsHalted(ds, id) ==> AtRest(told[id]))
    {
      PumpAgainstTold(w, ds, id);
      AtRestIff(told[id], dt, bounds);
      StoppedStays(told[id].position, dt, bounds);
    }
    if ToldWhole(w.souls, Tick(ds), bounds) {
      assert a == b;
    }
  }

  lemma {:induction false} PumpInside(w: World, ds: seq<Decision>, bounds: Vec)
    requires AllInside(w.souls, bounds)
    requires forall j :: 0 <= j < |ds| && ds[j].Moved? && ds[j].target.Some? ==> InBounds(ds[j].target.value, bounds)
    ensures AllInside(Pump(w, ds).souls, bounds)
  {
    if ds != [] {
      PumpInside(w, ds[..|ds| - 1], bounds);
      assert ds[|ds| - 1] == ds[|ds| - 1];
      hide InBounds;
    }
  }

  lemma {:induction false} LiveInside(w: World, phases: seq<Phase>, dt: real, bounds: Vec)
    requires AllInside(w.souls, bounds) && MovesInside(phases, bounds) && dt > 0.0
    ensures AllInside(Live(w, phases, dt, bounds).souls, bounds)
  {
    if phases != [] {
      var init, last := phases[..|phases| - 1], phases[|phases| - 1];
      LiveInside(w, init, dt, bounds);
      var b := Live(w, init, dt, bounds);
      if last.Tick? {
        PumpInside(b, last.decisions, bounds);
        var p := Pump(b, last.decisions).souls;
        hide IntegrateSoul, Pump;
        forall id | id in p ensures Inside(IntegrateSoul(p[id], dt, bounds), bounds) {
          StillIff(p[id], dt, bounds);
        }
      }
    }
  }

  // ---- Exact replay over whole runs ----

  /** Every phase of the run is told whole. */
  ghost predicate Faithful(w: World, phases: seq<Phase>, dt: real, bounds: Vec) {
    phases == [] ||
    (var init := phases[..|phases| - 1];
     Faithful(w, init, dt, bounds) && ToldWhole(Live(w, init, dt, bounds).souls, phases[|phases| - 1], bounds))
  }

  /** What the tail journaled during one phase makes of the world before it. */
  function PhaseReplay(w: World, p: Phase, dt: real, bounds: Vec): Souls {
    match p
    case Tick(ds) => IntegrateWorld(Told(w.souls, ds), dt, bounds)
    case Skip(missed) => Coast(w.souls, missed, dt, bounds)
  }

  lemma PhaseReplayIff(w: World, p: Phase, dt: real, bounds: Vec)
    requires AllInside(w.souls, bounds) && dt > 0.0
    ensures PhaseReplay(w, p, dt, bounds) == LivePhase(w, p, dt, bounds).souls <==> ToldWhole(w.souls, p, bounds)
  {
    hide AllInside, ToldWhole, Told, Coast, Pump, IntegrateWorld;
    match p
    case Tick(ds) => TickIff(w, ds, dt, bounds);
    case Skip(missed) => SkipIff(w.souls, missed, dt, bounds);
  }

  /** One more phase of a run extends the exact replay of its tail by that phase's replay. */
  lemma ExactFollowsPhase(s: Souls, from: nat, start: nat, b: World, p: Phase, dt: real, bounds: Vec)
    requires from <= b.tick && start <= |b.journal|
    requires forall i :: start <= i < |b.journal| ==> b.journal[i].tick < b.tick
    requires Exact(s, b.journal[start..], from, b.tick, dt, bounds) == b.souls
    ensures var n := LivePhase(b, p, dt, bounds);
            && start <= |n.journal|
            && Exact(s, n.journal[start..], from, n.tick, dt, bounds) == PhaseReplay(b, p, dt, bounds)
  {
    hide IntegrateWorld, Exact, Pump, ApplyAll, Told, Coast;
    var n := LivePhase(b, p, dt, bounds);
    var first := b.journal[start..];
    match p {
      case Tick(ds) =>
        PumpJournal(b, ds);
        TailSplits(b.journal, n.journal, start);
        OneMoreTick(s, first, n.journal[|b.journal|..], from, b.tick, dt, bounds);
      case Skip(missed) =>
        forall t: nat | b.tick <= t ensures EventsAt(first, t) == [] {
          NoneAtTick(first, t);
        }
        ExactSplits(s, first, from, b.tick, n.tick, dt, bounds);
        ExactCoasts(b.souls, first, b.tick, n.tick, dt, bounds);
    }
  }

  /** The tail journaled since `w` drives the exact replay of `w` to the live state. */
  lemma {:induction false} ExactFollowsLive(w: World, phases: seq<Phase>, dt: real, bounds: Vec)
    requires AllInside(w.souls, bounds) && MovesInside(phases, bounds) && dt > 0.0 && Faithful(w, phases, dt, bounds)
    ensures var n := Live(w, phases, dt, bounds);
            |w.journal| <= |n.journal| &&
            Exact(w.souls, n.journal[|w.journal|..], w.tick, n.tick, dt, bounds) == n.souls
  {
    LiveJournal(w, phases, dt, bounds);
    if phases != [] {
      hide LivePhase, Exact, ToldWhole, AllInside;
      var init, last := phases[..|phases| - 1], phases[|phases| - 1];
      ExactFollowsLive(w, init, dt, bounds);
      LiveJournal(w, init, dt, bounds);
      LiveInside(w, init, dt, bounds);
      var b := Live(w, init, dt, bounds);
      ExactFollowsPhase(w.souls, w.tick, |w.journal|, b, last, dt, bounds);
      PhaseReplayIff(b, last, dt, bounds);
    }
  }

  lemma TailSplits(older: seq<Event>, newer: seq<Event>, start: nat)
    requires start <= |older| <= |newer| && newer[..|older|] == older
    ensures newer[start..] == older[start..] + newer[|older|..]
  {
  }

  /** A tail whose last part `b` was written at tick `t`: the exact replay up to `t` sees only the
      first part, and the step at `t` only the last. */
  lemma OneMoreTick(s: Souls, a: seq<Event>, b: seq<Event>, from: nat, t: nat, dt: real, bounds: Vec)
    requires from <= t
    requires forall i :: 0 <= i < |a| ==> a[i].tick < t
    requires forall i :: 0 <= i < |b| ==> b[i].tick == t
    ensures Exact(s, a + b, from, t + 1, dt, bounds)
         == IntegrateWorld(ApplyAll(Exact(s, a, from, t, dt, bounds), b), dt, bounds)
  {
    hide ApplyAll, IntegrateWorld, EventsAt;
    forall u: nat | u <= t ensures EventsAt(a + b, u) == if u == t then b else EventsAt(a, u) {
      EventsAtConcat(a, b, u);
      AllAtTick(b, t, u);
      if u == t {
        NoneAtTick(a, t);
      }
    }
    ExactDependsOnEventsAt(s, a + b, a, from, t, dt, bounds);
  }

  lemma {:induction false} NoneAtTick(events: seq<Event>, t: nat)
    requires forall i :: 0 <= i < |events| ==> events[i].tick != t
    ensures EventsAt(events, t) == []
  {
    if events != [] {
      NoneAtTick(events[..|events| - 1], t);
    }
  }

  lemma {:induction false} ExactCoasts(s: Souls, events: seq<Event>, from: nat, to: nat, dt: real, bounds: Vec)
    requires from <= to && forall t :: from <= t < to ==> EventsAt(events, t) == []
    ensures Exact(s, events, from, to, dt, bounds) == Coast(s, to - from, dt, bounds)
  {
    if from < to {
      ExactCoasts(s, events, from, to - 1, dt, bounds);
      ApplyNone(Exact(s, events, from, to - 1, dt, bounds));
    }
  }

  /** A tail of events that lie between base and end replays tick by tick only. */
  lemma ReplayedIsExact(s: Souls, tail: seq<Event>, base: nat, end: nat, dt: real, bounds: Vec)
    requires forall i :: 0 <= i < |tail| ==> base <= tail[i].tick < end
    ensures Replayed(s, tail, base, end, dt, bounds) == Exact(s, tail, base, end, dt, bounds)
  {
    hide Exact, Top;
    forall t: nat | t < base || t >= end ensures EventsAt(tail, t) == [] {
      NoneAtTick(tail, t);
    }
    TickOrderEmpty(tail, 0, base);
    TickOrderEmpty(tail, end, Top(tail));
    ApplyNone(s);
    ApplyNone(Exact(s, tail, base, end, dt, bounds));
  }

  lemma {:induction false} LiveContinues(w: World, phases: seq<Phase>, m: nat, dt: real, bounds: Vec)
    requires m <= |phases|
    ensures Live(Live(w, phases[..m], dt, bounds), phases[m..], dt, bounds) == Live(w, phases, dt, bounds)
    ensures Faithful(w, phases, dt, bounds) ==> Faithful(Live(w, phases[..m], dt, bounds), phases[m..], dt, bounds)
  {
    if m == |phases| {
      assert phases[..m] == phases;
    } else {
      var init := phases[..|phases| - 1];
      LiveContinues(w, init, m, dt, bounds);
      assert init[..m] == phases[..m] && init[m..] == phases[m..][..|phases[m..]| - 1];
      hide ToldWhole, LivePhase;
    }
  }

  /** Recovery does not depend on the snapshot: from the snapshot taken after any `m` phases of a run
      that is told whole, replaying the journal tail to an end tick at or after the crash gives the world
      that the live run reached, coasted on to the end tick. */
  lemma RecoveryIgnoresSnapshotChoice(w: World, phases: seq<Phase>, m: nat, end: nat, dt: real, bounds: Vec)
    requires AllInside(w.souls, bounds) && MovesInside(phases, bounds) && dt > 0.0 && Faithful(w, phases, dt, bounds)
    requires m <= |phases| && end >= Live(w, phases, dt, bounds).tick
    ensures var snapshot, crashed := Live(w, phases[..m], dt, bounds), Live(w, phases, dt, bounds);
            && |snapshot.journal| <= |crashed.journal|
            && Replayed(snapshot.souls, crashed.journal[|snapshot.journal|..], snapshot.tick, end, dt, bounds)
               == Coast(crashed.souls, end - crashed.tick, dt, bounds)
  {
    hide Exact, Coast, ToldWhole, AllInside, LivePhase, Faithful, Replayed;
    var s, n := Live(w, phases[..m], dt, bounds), Live(w, phases, dt, bounds);
    LiveContinues(w, phases, m, dt, bounds);
    LiveInside(w, phases[..m], dt, bounds);
    LiveJournal(s, phases[m..], dt, bounds);
    ExactFollowsLive(s, phases[m..], dt, bounds);
    var tail := n.journal[|s.journal|..];
    ReplayedIsExact(s.souls, tail, s.tick, end, dt, bounds);
    ExactSplits(s.souls, tail, s.tick, n.tick, end, dt, bounds);
    forall t: nat | n.tick <= t ensures EventsAt(tail, t) == [] {
      NoneAtTick(tail, t);
    }
    ExactCoasts(n.souls, tail, n.tick, end, dt, bounds);
  }

  /** Recovery from the snapshot after `m` phases, after a crash once `k` phases were done. */
  ghost predicate Recovered(w: World, phases: seq<Phase>, m: nat, k: nat, dt: real, bounds: Vec)
    requires m <= k <= |phases|
  {
    var s, n := Live(w, phases[..m], dt, bounds), Live(w, phases[..k], dt, bounds);
    |s.journal| <= |n.journal| && Replayed(s.souls, n.journal[|s.journal|..], s.tick, n.tick, dt, bounds) == n.souls
  }

  /** Recovery rebuilds the live world from every snapshot at every later crash exactly if every phase of
      the run is told whole: nobody is moving when ticks are skipped, and whoever is halted was at rest. */
  lemma RecoveryHoldsIff(w: World, phases: seq<Phase>, dt: real, bounds: Vec)
    requires AllInside(w.souls, bounds) && MovesInside(phases, bounds) && dt > 0.0
    ensures Faithful(w, phases, dt, bounds) <==>
              forall m, k :: 0 <= m <= k <= |phases| ==> Recovered(w, phases, m, k, dt, bounds)
  {
    hide Recovered, Faithful, AllInside;
    if Faithful(w, phases, dt, bounds) {
      forall m, k | 0 <= m <= k <= |phases| ensures Recovered(w, phases, m, k, dt, bounds) {
        FaithfulRecovers(w, phases, m, k, dt, bounds);
      }
    }
    if forall m, k :: 0 <= m <= k <= |phases| ==> Recovered(w, phases, m, k, dt, bounds) {
      RecoveredIsFaithful(w, phases, |phases|, dt, bounds);
      assert phases[..|phases|] == phases;
    }
  }

  lemma {:induction false} FaithfulPrefix(w: World, phases: seq<Phase>, k: nat, dt: real, bounds: Vec)
    requires k <= |phases| && Faithful(w, phases, dt, bounds)
    ensures Faithful(w, phases[..k], dt, bounds)
  {
    if k == |phases| {
      assert phases[..k] == phases;
    } else {
      FaithfulPrefix(w, phases[..|phases| - 1], k, dt, bounds);
      assert phases[..|phases| - 1][..k] == phases[..k];
    }
  }

  lemma FaithfulRecovers(w: World, phases: seq<Phase>, m: nat, k: nat, dt: real, bounds: Vec)
    requires AllInside(w.souls, bounds) && MovesInside(phases, bounds) && dt > 0.0 && Faithful(w, phases, dt, bounds)
    requires m <= k <= |phases|
    ensures Recovered(w, phases, m, k, dt, bounds)
  {
    FaithfulPrefix(w, phases, k, dt, bounds);
    hide Live, Faithful, AllInside, Replayed;
    var until := phases[..k];
    assert until[..m] == phases[..m];
    RecoveryIgnoresSnapshotChoice(w, until, m, Live(w, until, dt, bounds).tick, dt, bounds);
  }

  lemma {:induction false} RecoveredIsFaithful(w: World, phases: seq<Phase>, k: nat, dt: real, bounds: Vec)
    requires AllInside(w.souls, bounds) && MovesInside(phases, bounds) && dt > 0.0 && k <= |phases|
    requires forall i, j :: 0 <= i <= j <= |phases| ==> Recovered(w, phases, i, j, dt, bounds)
    ensures Faithful(w, phases[..k], dt, bounds)
  {
    if k > 0 {
      RecoveredIsFaithful(w, phases, k - 1, dt, bounds);
      var b, p := Live(w, phases[..k - 1], dt, bounds), phases[k - 1];
      assert phases[..k][..k - 1] == phases[..k - 1];
      assert Live(w, phases[..k], dt, bounds) == LivePhase(b, p, dt, bounds);
      LiveInside(w, phases[..k - 1], dt, bounds);
      assert Recovered(w, phases, k - 1, k, dt, bounds);
      PhaseIsRecoveredIff(b, p, dt, bounds);
      hide AllInside, ToldWhole, Replayed, LivePhase;
    }
  }

  /** Recovery over one phase. */
  lemma PhaseIsRecoveredIff(w: World, p: Phase, dt: real, bounds: Vec)
    requires AllInside(w.souls, bounds) && dt > 0.0
    ensures var n := LivePhase(w, p, dt, bounds);
            && |w.journal| <= |n.journal|
            && (Replayed(w.souls, n.journal[|w.journal|..], w.tick, n.tick, dt, bounds) == n.souls
                <==> ToldWhole(w.souls, p, bounds))
  {
    assert Live(w, [], dt, bounds) == w && [p][..0] == [];
    assert Live(w, [p], dt, bounds) == LivePhase(w, p, dt, bounds);
    LiveJournal(w, [p], dt, bounds);
    assert Exact(w.souls, w.journal[|w.journal|..], w.tick, w.tick, dt, bounds) == w.souls;
    hide Live, LivePhase, Replayed, Exact, ToldWhole, AllInside, PhaseReplay;
    ExactFollowsPhase(w.souls, w.tick, |w.journal|, w, p, dt, bounds);
    PhaseReplayIff(w, p, dt, bounds);
    var n := LivePhase(w, p, dt, bounds);
    ReplayedIsExact(w.souls, n.journal[|w.journal|..], w.tick, n.tick, dt, bounds);
  }

  /** One walker in the middle of the world. */
  function Walker(): World {
    World(map["a" := Kin(Vec(100.0, 100.0), Vec(1.0, 0.0), None)], [], 0)
  }

  /** A late step makes the loop skip a tick while the walker is moving, and a rest is journaled without
      its velocity: after either, recovery from the snapshot before it leads somewhere else. */
  lemma WalkerIsRecoveredElsewhere()
    ensures !Recovered(Walker(), [Skip(1)], 0, 1, 1.0, Vec(1000.0, 1000.0))
    ensures !Recovered(Walker(), [Tick([Halted("a")])], 0, 1, 1.0, Vec(1000.0, 1000.0))
  {
    var w, bounds := Walker(), Vec(1000.0, 1000.0);
    assert AllInside(w.souls, bounds);
    assert !Still(w.souls["a"], bounds) && !AtRest(w.souls["a"]);
    assert Told(w.souls, []) == w.souls && Told(w.souls, [Halted("a")]) == w.souls by {
      assert [Halted("a")][..0] == [];
    }
    PhaseIsRecoveredIff(w, Skip(1), 1.0, bounds);
    PhaseIsRecoveredIff(w, Tick([Halted("a")]), 1.0, bounds);
    OnePhase(w, Skip(1), 1.0, bounds);
    OnePhase(w, Tick([Halted("a")]), 1.0, bounds);
    hide Replayed, LivePhase, Told, Still, AtRest;
  }

  lemma OnePhase(w: World, p: Phase, dt: real, bounds: Vec)
    ensures Live(w, [p][..0], dt, bounds) == w && Live(w, [p][..1], dt, bounds) == LivePhase(w, p, dt, bounds)
  {
    assert [p][..0] == [] && [p][..1] == [p];
  }

  /** Replaying an outcome that is already applied changes nothing. */
  lemma ApplyIsIdempotent(s: Souls, e: Event)
    ensures Apply(Apply(s, e), e) == Apply(s, e)
  {
  }
}
