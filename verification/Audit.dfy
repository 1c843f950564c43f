/** `verify_balances`: what the recomputation from the ledger reports, and what its repair does. */
module Audit {
  import opened Options
  import opened Threads
  import opened Economy
  import opened Integrity
  import opened Money
  import opened Hub
  import Market
  import Protocol
  import Sums

  // ---- What the audit computes ----

  /** The rows the audit counts for an actor: feed rows are not among them. */
  function Counted(r: Row): int {
    match r.entry
    case Debit => 0 - r.amount
    case Credit => r.amount
    case MintEntry => r.amount
    case _ => 0
  }

  function CountedOf(ledger: seq<Row>, a: Actor): int {
    if ledger == [] then 0
    else
      var last := ledger[|ledger| - 1];
      CountedOf(ledger[..|ledger| - 1], a) + if last.actor == Some(a) then Counted(last) else 0
  }

  ghost predicate HasRows(ledger: seq<Row>, a: Actor) {
    exists k :: 0 <= k < |ledger| && ledger[k].actor == Some(a)
  }

  /** The stored baseline, or the one that is captured now. */
  function BaseOf(bases: map<Actor, int>, w: World, a: Actor): int {
    if a in bases then bases[a] else Balance(w, a) - CountedOf(w.ledger, a)
  }

  function Drift(bases: map<Actor, int>, w: World, a: Actor): int {
    Balance(w, a) - (BaseOf(bases, w, a) + CountedOf(w.ledger, a))
  }

  function FundBaseOf(base: Option<int>, w: World): int {
    if base.Some? then base.value else w.fund - TaxTotal(w.ledger)
  }

  function FundDrift(base: Option<int>, w: World): int {
    w.fund - (FundBaseOf(base, w) + TaxTotal(w.ledger))
  }

  // ---- The audit itself ----

  method SumTax(ledger: seq<Row>) returns (total: int)
    ensures total == TaxTotal(ledger)
  {
    total := 0;
    for k := 0 to |ledger|
      invariant total == TaxTotal(ledger[..k])
    {
      assert ledger[..k + 1][..k] == ledger[..k];
      if ledger[k].entry == Tax {
        total := total + ledger[k].amount;
      }
    }
    assert ledger[..|ledger|] == ledger;
  }

  ghost predicate Grouped(ledger: seq<Row>, deltas: map<Actor, int>) {
    forall a :: (a in deltas <==> HasRows(ledger, a)) && (a in deltas ==> deltas[a] == CountedOf(ledger, a))
  }

  lemma {:induction false} NoRowsNoCount(ledger: seq<Row>, a: Actor)
    requires !HasRows(ledger, a)
    ensures CountedOf(ledger, a) == 0
  {
    if ledger != [] {
      var before := ledger[..|ledger| - 1];
      assert ledger[|ledger| - 1].actor != Some(a);
      assert forall k :: 0 <= k < |before| ==> before[k] == ledger[k];
      NoRowsNoCount(before, a);
    }
  }

  lemma GroupAnother(ledger: seq<Row>, r: Row, a: Actor)
    ensures HasRows(ledger + [r], a) <==> HasRows(ledger, a) || r.actor == Some(a)
    ensures CountedOf(ledger + [r], a) == CountedOf(ledger, a) + if r.actor == Some(a) then Counted(r) else 0
  {
    assert (ledger + [r])[..|ledger|] == ledger;
    if HasRows(ledger, a) {
      var k :| 0 <= k < |ledger| && ledger[k].actor == Some(a);
      assert (ledger + [r])[k].actor == Some(a);
    }
    assert (ledger + [r])[|ledger|] == r;
  }

  lemma GroupNext(ledger: seq<Row>, r: Row, deltas: map<Actor, int>)
    requires Grouped(ledger, deltas)
    ensures r.actor.None? ==> Grouped(ledger + [r], deltas)
    ensures r.actor.Some? ==>
              var a := r.actor.value;
              Grouped(ledger + [r], deltas[a := (if a in deltas then deltas[a] else 0) + Counted(r)])
  {
    hide HasRows, CountedOf, Counted;
    forall a
      ensures HasRows(ledger + [r], a) <==> HasRows(ledger, a) || r.actor == Some(a)
      ensures CountedOf(ledger + [r], a) == CountedOf(ledger, a) + if r.actor == Some(a) then Counted(r) else 0
      ensures !HasRows(ledger, a) ==> CountedOf(ledger, a) == 0
    {
      GroupAnother(ledger, r, a);
      if !HasRows(ledger, a) { NoRowsNoCount(ledger, a); }
    }
  }

  /** SUM(...) GROUP BY actor. */
  method SumByActor(ledger: seq<Row>) returns (deltas: map<Actor, int>)
    ensures Grouped(ledger, deltas)
  {
    deltas := map[];
    for k := 0 to |ledger|
      invariant Grouped(ledger[..k], deltas)
    {
      hide Grouped;
      var r := ledger[k];
      GroupNext(ledger[..k], r, deltas);
      assert ledger[..k + 1] == ledger[..k] + [r];
      if r.actor.Some? {
        var a := r.actor.value;
        deltas := deltas[a := (if a in deltas then deltas[a] else 0) + Counted(r)];
      }
    }
    assert ledger[..|ledger|] == ledger;
  }

  /** What the audit has made of actor `a`, which it has or has not yet looked at. */
  ghost predicate ComparedAt(w: World, u: World, base0: map<Actor, int>, bases: map<Actor, int>, drifts: map<Actor, int>,
                             a: Actor, looked: bool, repair: bool)
  {
    var drift := Drift(base0, w, a);
    && (a in u.wallets <==> a in w.wallets)
    && (a in w.wallets ==> u.wallets[a] == w.wallets[a] - if repair && looked then drift else 0)
    && (a in bases <==> a in base0 || (looked && a in w.wallets))
    && (a in bases ==> bases[a] == BaseOf(base0, w, a))
    && (a in drifts <==> looked && a in w.wallets && drift != 0)
    && (a in drifts ==> drifts[a] == drift)
  }

  /** The actors of `done` have been compared with the ledger, and nothing else has changed. */
  ghost predicate Compared(w: World, u: World, base0: map<Actor, int>, bases: map<Actor, int>, drifts: map<Actor, int>,
                           done: set<Actor>, repair: bool)
  {
    u == w.(wallets := u.wallets) && forall a :: ComparedAt(w, u, base0, bases, drifts, a, a in done, repair)
  }

  /** The treatment of one actor whose counted rows sum up to `delta`. */
  ghost predicate AuditStep(v: World, u: World, bases0: map<Actor, int>, bases: map<Actor, int>, drifts0: map<Actor, int>,
                            drifts: map<Actor, int>, repair: bool, a: Actor, delta: int)
  {
    if a !in v.wallets then u == v && bases == bases0 && drifts == drifts0
    else
      && bases == (if a in bases0 then bases0 else bases0[a := v.wallets[a] - delta])
      && var drift := v.wallets[a] - (bases[a] + delta);
         if drift == 0 then u == v && drifts == drifts0
         else drifts == drifts0[a := drift] && u == if repair then v.(wallets := v.wallets[a := bases[a] + delta]) else v
  }

  class Books {
    var bases: map<Actor, int>
    var fundBase: Option<int>

    constructor ()
      ensures bases == map[] && fundBase == None
    {
      bases, fundBase := map[], None;
    }

    method AuditFund(db: Database, repair: bool) returns (drift: int)
      modifies this`fundBase, db`fund
      ensures fundBase == Some(FundBaseOf(old(fundBase), old(db.State())))
      ensures drift == FundDrift(old(fundBase), old(db.State()))
      ensures db.State() == old(db.State()).(fund := old(db.fund) - if repair then drift else 0)
    {
      var tax := SumTax(db.ledger);
      hide TaxTotal;
      if fundBase.None? {
        fundBase := Some(db.fund - tax);
      }
      var expected := fundBase.value + tax;
      drift := db.fund - expected;
      if drift != 0 && repair {
        db.fund := expected;
      }
    }

    method AuditActor(db: Database, repair: bool, a: Actor, delta: int, drifts0: map<Actor, int>)
      returns (drifts: map<Actor, int>)
      modifies this`bases, db`wallets
      ensures AuditStep(old(db.State()), db.State(), old(bases), bases, drifts0, drifts, repair, a, delta)
    {
      drifts := drifts0;
      if a !in db.wallets { return; }
      if a !in bases {
        bases := bases[a := db.wallets[a] - delta];
      }
      var expected := bases[a] + delta;
      var drift := db.wallets[a] - expected;
      if drift != 0 {
        drifts := drifts[a := drift];
        if repair {
          db.wallets := db.wallets[a := expected];
        }
      }
    }

    /** Report every actor with ledger rows whose balance has drifted; overwrite it when repairing. */
    method AuditActors(db: Database, repair: bool) returns (drifts: map<Actor, int>, ghost done: set<Actor>)
      modifies this`bases, db`wallets
      ensures forall a :: a in done <==> HasRows(old(db.ledger), a)
      ensures Compared(old(db.State()), db.State(), old(bases), bases, drifts, done, repair)
    {
      var deltas := SumByActor(db.ledger);
      hide HasRows, CountedOf, Compared;
      drifts := AuditGroups(db, repair, deltas);
      done := deltas.Keys;
    }

    method AuditGroups(db: Database, repair: bool, deltas: map<Actor, int>) returns (drifts: map<Actor, int>)
      requires forall a :: a in deltas ==> deltas[a] == CountedOf(db.ledger, a)
      modifies this`bases, db`wallets
      ensures Compared(old(db.State()), db.State(), old(bases), bases, drifts, deltas.Keys, repair)
    {
      hide CountedOf, Compared, AuditStep, Database.State;
      drifts := map[];
      NoneCompared(db.State(), bases, repair);
      assert old(db.State()).ledger == db.ledger by { LedgerIs(db); }
      var todo := deltas.Keys;
      ghost var done: set<Actor> := {};
      while todo != {}
        invariant todo !! done && done + todo == deltas.Keys
        invariant Compared(old(db.State()), db.State(), old(bases), bases, drifts, done, repair)
        decreases |todo|
      {
        var a :| a in todo;
        ghost var v, bases0, drifts0 := db.State(), bases, drifts;
        drifts := AuditActor(db, repair, a, deltas[a], drifts);
        CompareOne(old(db.State()), v, db.State(), old(bases), bases0, bases, drifts0, drifts, done, repair, a, deltas[a]);
        done := done + {a};
        todo := todo - {a};
      }
      assert done == deltas.Keys;
    }

    /** The fund first, then the actors.  A repairing audit reports what it found as repaired: no drift
        is left in its report. */
    method VerifyBalances(db: Database, repair: bool)
      returns (ok: bool, fundDrift: int, drifts: map<Actor, int>, found: map<Actor, int>)
      modifies this, db`wallets, db`fund
      ensures fundBase == Some(FundBaseOf(old(fundBase), old(db.State())))
      ensures fundDrift == if repair then 0 else FundDrift(old(fundBase), old(db.State()))
      ensures forall a :: a in found <==> Audited(old(db.State()), a) && Drift(old(bases), old(db.State()), a) != 0
      ensures forall a :: a in found ==> found[a] == Drift(old(bases), old(db.State()), a)
      ensures drifts == if repair then map[] else found
      ensures if repair then Repaired(old(db.State()), db.State(), old(bases)) else db.State() == old(db.State())
      ensures BasesKept(old(db.State()), old(bases), bases)
      ensures ok == (fundDrift == 0 && drifts == map[])
    {
      hide HasRows, Compared, FundBaseOf, FundDrift, Repaired, Audited, BasesKept, Drift;
      ghost var v := db.State();
      ghost var done;
      fundDrift := AuditFund(db, repair);
      ghost var w := db.State();
      found, done := AuditActors(db, repair);
      WhatWasFound(v, w, db.State(), old(bases), bases, found, done, repair);
      drifts := found;
      if repair {
        fundDrift, drifts := 0, map[];
      }
      ok := fundDrift == 0 && drifts == map[];
    }
  }

  /** The actors the audit looks at. */
  ghost predicate Audited(w: World, a: Actor) {
    a in w.wallets && HasRows(w.ledger, a)
  }

  /** What a repairing audit leaves of `v`: every audited actor has what baseline and ledger say. */
  ghost predicate Repaired(v: World, u: World, bases: map<Actor, int>) {
    && u == v.(wallets := u.wallets, fund := u.fund) && u.wallets.Keys == v.wallets.Keys
    && forall a :: a in v.wallets ==> u.wallets[a] == v.wallets[a] - if HasRows(v.ledger, a) then Drift(bases, v, a) else 0
  }

  /** Stored baselines stay, and every audited actor has one now. */
  ghost predicate BasesKept(v: World, base0: map<Actor, int>, bases: map<Actor, int>) {
    forall a :: (a in bases <==> a in base0 || Audited(v, a)) && (a in bases ==> bases[a] == BaseOf(base0, v, a))
  }

  ghost predicate FoundAt(v: World, u: World, base0: map<Actor, int>, bases: map<Actor, int>, found: map<Actor, int>, a: Actor,
                          repair: bool)
  {
    && (a in found <==> Audited(v, a) && Drift(base0, v, a) != 0)
    && (a in found ==> found[a] == Drift(base0, v, a))
    && (a in bases <==> a in base0 || Audited(v, a)) && (a in bases ==> bases[a] == BaseOf(base0, v, a))
    && (a in u.wallets <==> a in v.wallets)
    && (a in v.wallets ==>
          u.wallets[a] == v.wallets[a] - if repair && HasRows(v.ledger, a) then Drift(base0, v, a) else 0)
  }

  lemma ComparedFinds(v: World, w: World, u: World, base0: map<Actor, int>, bases: map<Actor, int>, found: map<Actor, int>,
                      done: set<Actor>, repair: bool, a: Actor)
    requires w == v.(fund := w.fund) && Compared(w, u, base0, bases, found, done, repair)
    requires a in done <==> HasRows(w.ledger, a)
    ensures FoundAt(v, u, base0, bases, found, a, repair) && u == w.(wallets := u.wallets)
  {
    hide HasRows, CountedOf;
    assert ComparedAt(w, u, base0, bases, found, a, a in done, repair);
  }

  lemma WhatWasFound(v: World, w: World, u: World, base0: map<Actor, int>, bases: map<Actor, int>, found: map<Actor, int>,
                     done: set<Actor>, repair: bool)
    requires w == v.(fund := w.fund) && (!repair ==> w == v)
    requires (forall a :: a in done <==> HasRows(w.ledger, a)) && Compared(w, u, base0, bases, found, done, repair)
    ensures forall a :: a in found <==> Audited(v, a) && Drift(base0, v, a) != 0
    ensures forall a :: a in found ==> found[a] == Drift(base0, v, a)
    ensures if repair then Repaired(v, u, base0) else u == v
    ensures BasesKept(v, base0, bases)
  {
    hide HasRows, CountedOf, Compared, Drift, BaseOf;
    forall a
      ensures a in found <==> Audited(v, a) && Drift(base0, v, a) != 0
      ensures a in found ==> found[a] == Drift(base0, v, a)
      ensures (a in bases <==> a in base0 || Audited(v, a)) && (a in bases ==> bases[a] == BaseOf(base0, v, a))
      ensures a in u.wallets <==> a in v.wallets
      ensures a in v.wallets ==>
                u.wallets[a] == v.wallets[a] - if repair && HasRows(v.ledger, a) then Drift(base0, v, a) else 0
    {
      ComparedFinds(v, w, u, base0, bases, found, done, repair, a);
    }
    assert u == w.(wallets := u.wallets) by { ComparedFinds(v, w, u, base0, bases, found, done, repair, Soul("")); }
    hide Audited;
    if !repair {
      assert u.wallets == v.wallets;
    }
  }

  lemma LedgerIs(db: Database)
    ensures db.State().ledger == db.ledger
  {
  }

  lemma NoneCompared(w: World, base0: map<Actor, int>, repair: bool)
    ensures Compared(w, w, base0, base0, map[], {}, repair)
  {
  }

  lemma CompareOne(w: World, v: World, u: World, base0: map<Actor, int>, bases0: map<Actor, int>, bases: map<Actor, int>,
                   drifts0: map<Actor, int>, drifts: map<Actor, int>, done: set<Actor>, repair: bool, a: Actor, delta: int)
    requires Compared(w, v, base0, bases0, drifts0, done, repair) && a !in done && delta == CountedOf(w.ledger, a)
    requires AuditStep(v, u, bases0, bases, drifts0, drifts, repair, a, delta)
    ensures Compared(w, u, base0, bases, drifts, done + {a}, repair)
  {
    hide CountedOf;
    forall b ensures ComparedAt(w, u, base0, bases, drifts, b, b in done + {a}, repair) {
      assert ComparedAt(w, v, base0, bases0, drifts0, b, b in done, repair);
    }
  }

  // ---- What the report means ----

  /** What meals given and received have brought `a`, by its rows. */
  function FeedOf(ledger: seq<Row>, a: Actor): int {
    if ledger == [] then 0
    else
      var last := ledger[|ledger| - 1];
      FeedOf(ledger[..|ledger| - 1], a) + if last.actor == Some(a) && (last.entry.FeedDebit? || last.entry.FeedCredit?) then last.amount else 0
  }

  /** The sum of the audit leaves out the feed rows and nothing else. */
  lemma {:induction false} CountedButFeeds(ledger: seq<Row>, a: Actor)
    ensures NetOf(ledger, a) == CountedOf(ledger, a) + FeedOf(ledger, a)
  {
    if ledger != [] {
      CountedButFeeds(ledger[..|ledger| - 1], a);
    }
  }

  /** For baselines captured in `w`, the drift reported after any run is minus what has come to be held
      since, plus the feed rows the sum leaves out, minus the surplus of sales. */
  lemma DriftLaw(w: World, steps: seq<Step>, bases: map<Actor, int>, a: Actor)
    requires Good(w) && a in bases && bases[a] == BaseOf(map[], w, a)
    ensures var u := Run(w, steps);
            Drift(bases, u, a) == HeldTotal(w, a) - HeldTotal(u, a) + FeedOf(u.ledger, a) - FeedOf(w.ledger, a)
                                  - LossOver(w, steps, a)
  {
    RunConserves(w, steps, a);
    CountedButFeeds(w.ledger, a);
    CountedButFeeds(Run(w, steps).ledger, a);
    hide Good, HeldTotal, LossOver, NetOf, CountedOf, FeedOf, Run;
  }

  lemma FundNeverDrifts(w: World, steps: seq<Step>)
    requires Good(w)
    ensures FundDrift(Some(FundBaseOf(None, w)), Run(w, steps)) == 0
  {
    RunConserves(w, steps, Soul(""));
    hide Good, TaxTotal, Run;
  }

  /** With fresh listing ids, baselines captured while nothing was held, and no feeding, the drift is
      exactly minus the held escrows; so it is zero exactly if none are held. */
  lemma DriftIsHeld(w: World, steps: seq<Step>, bases: map<Actor, int>, a: Actor)
    requires Good(w) && Market.Priced(w) && Market.FreshRun(w, steps) && HeldTotal(w, a) == 0
    requires a in bases && bases[a] == BaseOf(map[], w, a)
    requires FeedOf(Run(w, steps).ledger, a) == FeedOf(w.ledger, a)
    ensures Drift(bases, Run(w, steps), a) == 0 - HeldTotal(Run(w, steps), a)
  {
    DriftLaw(w, steps, bases, a);
    RunConserves(w, steps, a);
    Market.FreshRunConserves(w, steps, a, "");
    hide Good, HeldTotal, LossOver, NetOf, CountedOf, FeedOf, Run, Gap;
  }

  /** The baselines were captured in `w`, from actors of whom nothing was held then. */
  ghost predicate CapturedIn(w: World, bases: map<Actor, int>) {
    forall a :: a in bases ==> bases[a] == BaseOf(map[], w, a) && HeldTotal(w, a) == 0
  }

  ghost predicate NoFeeding(w: World, v: World) {
    forall a :: FeedOf(v.ledger, a) == FeedOf(w.ledger, a)
  }

  /** What a repair pays out to `a`. */
  ghost function PaidOut(v: World, bases: map<Actor, int>, a: Actor): int {
    if Audited(v, a) && a in bases then HeldTotal(v, a) else 0
  }

  lemma HeldNonNegative(v: World, a: Actor)
    ensures HeldTotal(v, a) >= 0
  {
    Sums.TotalNonNegative(v.escrows, HeldBy(a));
  }

  /** A repair gives every audited actor what is held from it, on top of its balance. */
  lemma RepairPaysOutTheHeld(w: World, steps: seq<Step>, bases: map<Actor, int>, u: World, a: Actor)
    requires Good(w) && Market.Priced(w) && Market.FreshRun(w, steps) && CapturedIn(w, bases)
    requires NoFeeding(w, Run(w, steps)) && Repaired(Run(w, steps), u, bases)
    ensures Balance(u, a) == Balance(Run(w, steps), a) + PaidOut(Run(w, steps), bases, a)
    ensures Gap(u, a) == Gap(Run(w, steps), a) + PaidOut(Run(w, steps), bases, a)
  {
    var v := Run(w, steps);
    hide Run, Market.FreshRun, Market.Priced, Good, HasRows, CountedOf, NetOf, BaseOf;
    if a in bases {
      DriftIsHeld(w, steps, bases, a);
    } else {
      FirstAudit(bases, v, a);
    }
    hide Drift, HeldTotal;
    MoreOf(v, u, a);
  }

  lemma FirstAudit(bases: map<Actor, int>, v: World, a: Actor)
    requires a !in bases
    ensures Drift(bases, v, a) == 0
  {
  }

  lemma MoreOf(v: World, u: World, a: Actor)
    requires u == v.(wallets := u.wallets, fund := u.fund) && u.wallets.Keys == v.wallets.Keys
    ensures Gap(u, a) - Gap(v, a) == Balance(u, a) - Balance(v, a)
  {
  }

  lemma RepairedIsGood(w: World, steps: seq<Step>, bases: map<Actor, int>, u: World)
    requires Good(w) && Market.Priced(w) && Market.FreshRun(w, steps) && CapturedIn(w, bases)
    requires NoFeeding(w, Run(w, steps)) && Repaired(Run(w, steps), u, bases)
    ensures Good(u)
  {
    var v := Run(w, steps);
    forall a | a in v.wallets ensures u.wallets[a] >= v.wallets[a] {
      hide *;
      RepairPaysOutTheHeld(w, steps, bases, u, a);
      HeldNonNegative(v, a);
      BalanceOf(u, v, bases, a);
    }
    RichIsGood(v, u);
  }

  lemma BalanceOf(u: World, v: World, bases: map<Actor, int>, a: Actor)
    requires a in v.wallets && u.wallets.Keys == v.wallets.Keys && HeldTotal(v, a) >= 0
    requires Balance(u, a) == Balance(v, a) + PaidOut(v, bases, a)
    ensures u.wallets[a] >= v.wallets[a]
  {
  }

  lemma RichIsGood(v: World, u: World)
    requires Good(v) && u == v.(wallets := u.wallets, fund := u.fund) && u.wallets.Keys == v.wallets.Keys
    requires forall a :: a in v.wallets ==> u.wallets[a] >= v.wallets[a]
    ensures Good(u)
  {
    assert Matched(u) by {
      forall k | k in u.escrows ensures Backs(u, u.intents[k], u.escrows[k]) {
        assert Backs(v, v.intents[k], v.escrows[k]);
      }
    }
    hide Matched, Sound, KeysUnique;
  }

  /** A repairing audit is harmless to an actor it has a baseline of exactly if nothing is held from that
      actor.  Otherwise it pays the held money out a second time: whatever happens then, the actor's
      baseline is too large by that amount. */
  lemma RepairIsSafeIff(w: World, steps: seq<Step>, bases: map<Actor, int>, u: World, more: seq<Step>, a: Actor)
    requires Good(w) && Market.Priced(w) && Market.FreshRun(w, steps) && CapturedIn(w, bases)
    requires NoFeeding(w, Run(w, steps)) && Repaired(Run(w, steps), u, bases)
    requires Audited(Run(w, steps), a) && a in bases
    ensures Good(u)
    ensures Gap(Run(u, more), a) == Gap(w, a) + HeldTotal(Run(w, steps), a) - LossOver(u, more, a)
    ensures Gap(u, a) == Gap(Run(w, steps), a) <==> HeldTotal(Run(w, steps), a) == 0
  {
    RepairedIsGood(w, steps, bases, u);
    RepairPaysOutTheHeld(w, steps, bases, u, a);
    Market.FreshRunConserves(w, steps, a, "");
    RunConserves(u, more, a);
    hide Run, Good, Gap, LossOver, HeldTotal, Audited, Repaired, CapturedIn, NoFeeding;
  }

  lemma NoneHeld(u: World, a: Actor)
    requires forall id: nat :: !IsHeld(u, id)
    ensures HeldTotal(u, a) == 0
  {
    assert forall id :: id in u.escrows ==> !IsHeld(u, id);
    Sums.TotalZero(u.escrows, HeldBy(a));
  }

  lemma SweepIsFresh(w: World, pump: seq<Step>)
    requires Good(w) && Market.FreshRun(w, pump)
    ensures Market.FreshRun(w, pump + [Reconciles]) && Run(w, pump + [Reconciles]) == Reconcile(Run(w, pump))
  {
    assert (pump + [Reconciles])[..|pump|] == pump;
    hide Good, Market.Priced, Reconcile;
    Market.RunAnother(w, pump, Reconciles, Soul(""));
  }

  /** When every pending intent has been pumped and the sweep has run, the audit of any actor is clean. */
  lemma CleanAfterPumpAndSweep(w: World, pump: seq<Step>, bases: map<Actor, int>, a: Actor)
    requires Good(w) && Market.Priced(w) && Protocol.IsPump(pump) && Market.FreshRun(w, pump) && HeldTotal(w, a) == 0
    requires forall id: nat :: IsPending(w, id) ==> Protocol.Reads(pump, id)
    requires a in bases && bases[a] == BaseOf(map[], w, a)
    requires FeedOf(Run(w, pump + [Reconciles]).ledger, a) == FeedOf(w.ledger, a)
    ensures Drift(bases, Run(w, pump + [Reconciles]), a) == 0
  {
    Protocol.PumpAndSweepSettleAll(w, pump);
    hide *;
    SweepIsFresh(w, pump);
    NoneHeld(Run(w, pump + [Reconciles]), a);
    DriftIsHeld(w, pump + [Reconciles], bases, a);
  }
}
