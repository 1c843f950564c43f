/** Safety of the intent protocol over whole runs: retries, racing pumps, crashes and the boot sweep. */
module Protocol {
  import opened Options
  import opened Threads
  import opened Economy
  import opened Integrity
  import Plots

  // ---- What can never be undone ----

  /** A settled intent stays settled; outside feeding it stays exactly as it is. */
  predicate IntentAdvances(i: Intent, j: Intent) {
    && j.(status := Pending) == i.(status := Pending)
    && (i.status != Pending ==> j.status != Pending && (!i.order.Feed? ==> j == i))
  }

  /** An escrow leaves the held state at most once. */
  predicate EscrowAdvances(e: Escrow, f: Escrow) {
    f.(status := Held) == e.(status := Held) && (e.status != Held ==> f == e)
  }

  ghost predicate Advances(w: World, u: World) {
    && |w.intents| <= |u.intents|
    && (forall id :: 0 <= id < |w.intents| ==> IntentAdvances(w.intents[id], u.intents[id]))
    && (forall id :: id in w.escrows ==> id in u.escrows && EscrowAdvances(w.escrows[id], u.escrows[id]))
    && w.claims <= u.claims
    && w.grid == u.grid
  }

  lemma AdvancesTransitive(w: World, v: World, u: World)
    requires Advances(w, v) && Advances(v, u)
    ensures Advances(w, u)
  {
    forall id | 0 <= id < |w.intents| ensures IntentAdvances(w.intents[id], u.intents[id]) {
      assert IntentAdvances(w.intents[id], v.intents[id]) && IntentAdvances(v.intents[id], u.intents[id]);
    }
    forall id | id in w.escrows ensures id in u.escrows && EscrowAdvances(w.escrows[id], u.escrows[id]) {
      assert EscrowAdvances(w.escrows[id], v.escrows[id]) && EscrowAdvances(v.escrows[id], u.escrows[id]);
    }
  }

  /** Pumping or faulting a settled intent changes nothing, unless it is a feed. */
  lemma OnlyOnce(w: World, id: nat, minted: string)
    requires IsForest(w.messages) && id < |w.intents| && w.intents[id].status != Pending && !w.intents[id].order.Feed?
    ensures Adjudicate(w, id, minted) == w && Fault(w, id) == w
  {
  }

  lemma MovesAdvances(w: World, u: World, id: nat)
    requires Moves(w, u, id) && (w.intents[id].order.Feed? || IsPending(w, id) || u.intents == w.intents)
    ensures Advances(w, u)
  {
    hide WalletsSound, SellersKnown, Sound;
  }

  lemma SelfAdvances(w: World)
    ensures Advances(w, w)
  {
  }

  lemma AdjudicateAdvances(w: World, id: nat, minted: string)
    requires Good(w)
    ensures Advances(w, Adjudicate(w, id, minted)) && Advances(w, Fault(w, id))
  {
    assert IsForest(w.messages);
    hide Good, Moves, AdjudicateFeed, Settle, Compensate, Conclude, Advances;
    SelfAdvances(w);
    if id < |w.intents| && w.intents[id].order.Feed? {
      FeedMoves(w, id);
      FeedFaultMoves(w, id);
      MovesAdvances(w, AdjudicateFeed(w, id), id);
      MovesAdvances(w, Fault(w, id), id);
    } else if IsPending(w, id) {
      SettleMoves(w, id, minted);
      CompensateMoves(w, id);
      MovesAdvances(w, Settle(w, id, minted), id);
      MovesAdvances(w, Compensate(w, id), id);
    } else {
      SettledIsIdle(w, id, minted);
    }
  }

  lemma SettledIsIdle(w: World, id: nat, minted: string)
    requires IsForest(w.messages) && !IsPending(w, id) && !(id < |w.intents| && w.intents[id].order.Feed?)
    ensures Settle(w, id, minted) == w && Compensate(w, id) == w
  {
  }

  lemma MovesFirst(w: World, u: World, id: nat)
    requires Moves(w, u, id)
    ensures id < |w.intents|
  {
  }

  lemma ReconcileOneAdvances(w: World, id: nat)
    requires Good(w)
    ensures Advances(w, ReconcileOne(w, id))
  {
    if IsHeld(w, id) && !IsPending(w, id) {
      ReconcileMoves(w, id);
      ReconcileOneGood(w, id);
      hide Good, ReconcileOne, Moves;
      MovesFirst(w, ReconcileOne(w, id), id);
      MovesAdvances(w, ReconcileOne(w, id), id);
    }
  }

  lemma {:induction false} ReconcileAdvances(w: World, n: nat)
    requires Good(w)
    ensures Advances(w, ReconcileUpTo(w, n))
  {
    SelfAdvances(w);
    hide Good, ReconcileOne, Advances;
    if n > 0 {
      var v := ReconcileUpTo(w, n - 1);
      ReconcileAdvances(w, n - 1);
      ReconcileUpToGood(w, n - 1);
      ReconcileOneAdvances(v, n - 1);
      AdvancesTransitive(w, v, ReconcileOne(v, n - 1));
    }
  }

  lemma SubmitAdvances(w: World, i: Intent)
    requires Good(w)
    ensures Advances(w, Submit(w, i).0)
  {
    assert IsForest(w.messages);
    AcceptAdvances(w, i);
    SelfAdvances(w);
    hide Good, Accept, Preface, Afford, ChargeFor, Malformed, Advances, FindKey;
  }

  lemma AcceptAdvances(w: World, i: Intent)
    requires Good(w)
    ensures Advances(w, Accept(w, i))
  {
    assert |w.intents| !in w.escrows;
    AcceptFrame(w, i);
    hide Good, Accept, ChargeFor, Shift;
  }

  lemma NextAdvances(w: World, s: Step)
    requires Good(w)
    ensures Advances(w, Next(w, s))
  {
    assert IsForest(w.messages);
    hide Good, Submit, Adjudicate, Fault, ReconcileUpTo, Mint, SetBody;
    match s {
      case Submits(i) => SubmitAdvances(w, i);
      case Adjudicates(id, minted) => AdjudicateAdvances(w, id, minted);
      case Faults(id) => AdjudicateAdvances(w, id, "");
      case Reconciles => ReconcileAdvances(w, |w.intents|);
      case Mints(a, custodian) => hide Advances; OthersAdvance(w, a, custodian, "", SoulRow(None, false, false));
      case SetsBody(soul, row) => hide Advances; OthersAdvance(w, Soul(""), None, soul, row);
    }
  }

  lemma OthersAdvance(w: World, a: Actor, custodian: Option<string>, soul: string, row: SoulRow)
    ensures Advances(w, Mint(w, a, custodian)) && Advances(w, SetBody(w, soul, row))
  {
  }

  /** Over any run every intent leaves `Pending` at most once and every escrow leaves `Held` at most
      once, and no intent or escrow is lost. */
  lemma {:induction false} RunAdvances(w: World, steps: seq<Step>)
    requires Good(w)
    ensures Advances(w, Run(w, steps))
  {
    if steps == [] {
      assert Run(w, steps) == w;
    } else {
      var before, last := steps[..|steps| - 1], steps[|steps| - 1];
      RunAdvances(w, before);
      var v := Run(w, before);
      hide Good, Advances, Next;
      NextAdvances(v, last);
      AdvancesTransitive(w, v, Next(v, last));
    }
  }

  // ---- Lost acknowledgements ----

  lemma {:induction false} FindsTheKey(intents: seq<Intent>, i: Intent, n: nat, id: nat)
    requires KeysUnique(intents) && id < n <= |intents| && SameKey(intents[id], i)
    ensures FindKey(intents, i, n) == Some(id)
  {
    if id < n - 1 {
      FindsTheKey(intents, i, n - 1, id);
    } else {
      forall k | 0 <= k < n - 1 ensures !SameKey(intents[k], i) {
        assert !SameKey(intents[k], intents[id]);
      }
    }
  }

  /** An acknowledged submission can be repeated at any later time, after any pumps, crashes and
      sweeps: it gets the same record back and changes nothing, and there is no other intent with
      its key. */
  lemma RetryIsIdempotent(w: World, i: Intent, steps: seq<Step>)
    requires Good(w) && Submit(w, i).1.Ack?
    ensures Good(Submit(w, i).0)
    ensures var u := Run(Submit(w, i).0, steps);
            && Submit(u, i) == (u, Ack(Submit(w, i).1.id, false))
            && forall k :: 0 <= k < |u.intents| ==> (SameKey(u.intents[k], i) <==> k == Submit(w, i).1.id)
  {
    SubmitGood(w, i);
    var v, id := Submit(w, i).0, Submit(w, i).1.id;
    var u := Run(v, steps);
    assert Malformed(i).None?;
    AcceptFrame(w, i);
    assert id < |v.intents| && SameKey(v.intents[id], i) by {
      hide Preface, Afford, ChargeFor, Accept;
    }
    RunAdvances(v, steps);
    assert IntentAdvances(v.intents[id], u.intents[id]);
    KeyStays(u, i, id);
  }

  lemma KeyStays(u: World, i: Intent, id: nat)
    requires Good(u) && id < |u.intents| && SameKey(u.intents[id], i) && Malformed(i).None?
    ensures Submit(u, i) == (u, Ack(id, false))
    ensures forall k :: 0 <= k < |u.intents| ==> (SameKey(u.intents[k], i) <==> k == id)
  {
    FindsTheKey(u.intents, i, |u.intents|, id);
    assert IsForest(u.messages) && KeysUnique(u.intents);
    hide Good, Preface, Afford, ChargeFor, Accept, Malformed, FindKey;
    forall k | 0 <= k < |u.intents| && k != id ensures !SameKey(u.intents[k], i) {
      if k < id {
        assert !SameKey(u.intents[k], u.intents[id]);
      } else {
        assert !SameKey(u.intents[id], u.intents[k]);
      }
    }
  }

  // ---- Racing pumps ----

  /** The second of two pumps that read the same pending intent does nothing. */
  lemma SecondPumpIsIdle(w: World, id: nat, minted: string, again: string)
    requires Good(w) && !(id < |w.intents| && w.intents[id].order.Feed?)
    ensures Good(Adjudicate(w, id, minted))
    ensures Adjudicate(Adjudicate(w, id, minted), id, again) == Adjudicate(w, id, minted)
  {
    NextGood(w, Adjudicates(id, minted));
    AdjudicateMoves(w, id, minted);
    var u := Adjudicate(w, id, minted);
    assert IsForest(u.messages);
    if u != w {
      assert u.intents[id].status != Pending && !u.intents[id].order.Feed?;
      hide Good, Moves, Adjudicate;
      OnlyOnce(u, id, again);
    }
  }

  /** A feed is not guarded by its status: the second pump rejects the intent even if the first one
      adjudicated it.  It moves no money and no soul, because the escrow has left the held state. */
  lemma SecondFeedOnlyRejects(w: World, id: nat)
    requires Good(w) && id < |w.intents| && w.intents[id].order.Feed?
    ensures var u := AdjudicateFeed(w, id);
            && u.intents[id].order.Feed?
            && exists why :: AdjudicateFeed(u, id) == Conclude(u, id, Rejected, IntentRejected(id, why))
  {
    FeedMoves(w, id);
    var u := AdjudicateFeed(w, id);
    assert u.intents[id].order.Feed?;
    EscrowGoneAfterFeed(w, id);
    hide Good, Moves, AdjudicateFeed;
    var why := FeedCheck(u, id, u.intents[id]);
    SecondFeed(u, id);
  }

  lemma EscrowGoneAfterFeed(w: World, id: nat)
    requires id < |w.intents| && w.intents[id].order.Feed?
    ensures !IsHeld(AdjudicateFeed(w, id), id)
  {
    hide Noted;
  }

  lemma SecondFeed(u: World, id: nat)
    requires id < |u.intents| && u.intents[id].order.Feed? && !IsHeld(u, id)
    ensures FeedCheck(u, id, u.intents[id]).Some?
    ensures AdjudicateFeed(u, id) == Conclude(u, id, Rejected, IntentRejected(id, FeedCheck(u, id, u.intents[id]).value))
  {
    hide Fed, InCustody;
  }

  /** So for a feed the status keeps what the first pump decided exactly if that was a refusal. */
  lemma FeedStatusKeptIff(w: World, id: nat)
    requires Good(w) && id < |w.intents| && w.intents[id].order.Feed?
    ensures var u := AdjudicateFeed(w, id);
            && u.intents[id].order.Feed?
            && (AdjudicateFeed(u, id).intents == u.intents <==> FeedCheck(w, id, w.intents[id]).Some?)
  {
    FeedMoves(w, id);
    var u := AdjudicateFeed(w, id);
    EscrowGoneAfterFeed(w, id);
    assert u.intents[id].status == if FeedCheck(w, id, w.intents[id]).Some? then Rejected else Adjudicated;
    hide Good, Moves, AdjudicateFeed, FeedCheck;
    SecondFeed(u, id);
  }

  /** An exception after the commit of an adjudication.  The handlers of the other kinds see that the
      intent is settled and leave it alone; a feed is rejected all the same.  So the handler overturns
      what was committed exactly if a feed had gone through, and even then it moves nothing but the
      status. */
  lemma FaultAfterCommitIff(w: World, id: nat, minted: string)
    requires Good(w) && id < |w.intents|
    ensures var u := Adjudicate(w, id, minted);
            var v := Fault(u, id);
            && (v == u || (id < |u.intents| && v == Conclude(u, id, Rejected, IntentRejected(id, Internal))))
            && (v.intents != u.intents <==> w.intents[id].order.Feed? && FeedCheck(w, id, w.intents[id]).None?)
  {
    if w.intents[id].order.Feed? {
      FeedMoves(w, id);
      var u := AdjudicateFeed(w, id);
      assert u.intents[id].order.Feed?;
      assert u.intents[id].status == if FeedCheck(w, id, w.intents[id]).Some? then Rejected else Adjudicated;
    } else {
      SettledIsLeftAlone(w, id, minted);
    }
  }

  lemma SettledIsLeftAlone(w: World, id: nat, minted: string)
    requires Good(w) && id < |w.intents| && !w.intents[id].order.Feed?
    ensures Fault(Adjudicate(w, id, minted), id) == Adjudicate(w, id, minted)
  {
    NextGood(w, Adjudicates(id, minted));
    AdjudicateMoves(w, id, minted);
    AdjudicateSettles(w, Adjudicates(id, minted), id);
    var u := Adjudicate(w, id, minted);
    assert !IsPending(u, id) && IsForest(u.messages) && !u.intents[id].order.Feed?;
    hide Good, Moves, Adjudicate;
    OnlyOnce(u, id, minted);
  }

  // ---- The boot sweep ----

  /** After the sweep the held escrows are exactly those of the pending charged intents. */
  lemma ReconcileFinishes(w: World)
    requires Good(w)
    ensures var u := Reconcile(w);
            forall id: nat :: IsHeld(u, id) <==> IsPending(u, id) && Charged(u.intents[id].order)
  {
    ReconcileUpToGood(w, |w.intents|);
    SweptUpTo(w, |w.intents|);
    var u := Reconcile(w);
    forall id: nat ensures IsHeld(u, id) <==> IsPending(u, id) && Charged(u.intents[id].order) {
      if IsPending(u, id) {
        OwnEscrow(u, id);
      }
      assert id in u.escrows ==> id < |w.intents|;
    }
  }

  lemma {:induction false} SweptUpTo(w: World, n: nat)
    requires Good(w)
    ensures forall id: nat :: id < n && IsHeld(ReconcileUpTo(w, n), id) ==> IsPending(w, id)
  {
    hide Good, ReconcileOne, IsHeld;
    if n > 0 {
      SweptUpTo(w, n - 1);
      ReconcileUpToGood(w, n - 1);
      SweptOne(ReconcileUpTo(w, n - 1), n - 1);
    }
  }

  lemma SweptOne(v: World, id: nat)
    ensures IsHeld(ReconcileOne(v, id), id) ==> IsPending(v, id)
    ensures forall k: nat :: k != id ==> (IsHeld(ReconcileOne(v, id), k) <==> IsHeld(v, k))
  {
  }

  /** The sweep never meets an escrow held past adjudication, so it only ever refunds. */
  lemma SweepOnlyRefunds(w: World, id: nat)
    requires Good(w) && IsHeld(w, id) && !IsPending(w, id)
    ensures ReconcileOne(w, id).escrows == w.escrows[id := w.escrows[id].(status := Released)]
    ensures ReconcileOne(w, id).wallets
         == w.wallets[w.escrows[id].actor := w.wallets[w.escrows[id].actor] + w.escrows[id].amount]
  {
    assert Backs(w, w.intents[id], w.escrows[id]);
    hide Good;
  }

  // ---- The pump ----

  lemma AdjudicateSettles(w: World, s: Step, id: nat)
    requires Good(w) && s.Adjudicates?
    ensures IsForest(w.messages)
    ensures IsPending(Next(w, s), id) ==> IsPending(w, id) && id != s.id
  {
    AdjudicateMoves(w, s.id, s.minted);
    if IsPending(w, s.id) {
      if w.intents[s.id].order.Feed? { FeedMoves(w, s.id); } else { SettleMoves(w, s.id, s.minted); }
    }
    hide Good, AdjudicateFeed, Settle, SameActors, Sound, EscrowStep, ClaimsAdvance, StatusesAgree;
  }

  ghost predicate IsPump(steps: seq<Step>) {
    forall k :: 0 <= k < |steps| ==> steps[k].Adjudicates?
  }

  /** The pump has read the intent `id`. */
  ghost predicate Reads(steps: seq<Step>, id: nat)
    requires IsPump(steps)
  {
    exists k :: 0 <= k < |steps| && steps[k].id == id
  }

  lemma ReadsAnother(steps: seq<Step>, id: nat)
    requires IsPump(steps) && steps != []
    ensures IsPump(steps[..|steps| - 1])
    ensures steps[|steps| - 1].id == id || Reads(steps[..|steps| - 1], id) <== Reads(steps, id)
  {
  }

  lemma {:induction false} PumpSettles(w: World, steps: seq<Step>, id: nat)
    requires Good(w) && IsPump(steps)
    ensures IsPending(Run(w, steps), id) ==> IsPending(w, id) && !Reads(steps, id)
  {
    if steps != [] {
      var before, last := steps[..|steps| - 1], steps[|steps| - 1];
      ReadsAnother(steps, id);
      hide Good, Next, IsPending, Reads, IsPump;
      AdjudicateSettles(Run(w, before), last, id);
      PumpSettles(w, before, id);
    }
  }

  /** A pump that reads every pending intent, followed by the sweep, leaves no intent pending and no
      escrow held. */
  lemma PumpAndSweepSettleAll(w: World, steps: seq<Step>)
    requires Good(w) && IsPump(steps) && forall id: nat :: IsPending(w, id) ==> Reads(steps, id)
    ensures var u := Reconcile(Run(w, steps)); forall id: nat :: !IsPending(u, id) && !IsHeld(u, id)
  {
    var v := Run(w, steps);
    ReconcileFinishes(v);
    ReconcileUpToGood(v, |v.intents|);
    var u := Reconcile(v);
    forall id: nat ensures !IsPending(u, id) && !IsHeld(u, id) {
      hide Good, ReconcileUpTo, Run, Reads;
      PumpSettles(w, steps, id);
    }
  }

  /** The pending rows in the order in which they were written. */
  function PendingIds(intents: seq<Intent>): seq<nat> {
    if intents == [] then []
    else
      var n := |intents| - 1;
      PendingIds(intents[..n]) + if intents[n].status == Pending then [n] else []
  }

  const PUMP_LIMIT := 500

  /** What one pump reads: the oldest pending rows. */
  function ReadIds(intents: seq<Intent>): seq<nat> {
    if |PendingIds(intents)| <= PUMP_LIMIT then PendingIds(intents) else PendingIds(intents)[..PUMP_LIMIT]
  }

  function PumpSteps(ids: seq<nat>, minted: nat -> string): (steps: seq<Step>)
    ensures |steps| == |ids| && IsPump(steps)
  {
    seq(|ids|, k requires 0 <= k < |ids| => Adjudicates(ids[k], minted(ids[k])))
  }

  lemma {:induction false} PendingListed(intents: seq<Intent>, id: nat)
    ensures id in PendingIds(intents) <==> id < |intents| && intents[id].status == Pending
  {
    if intents != [] {
      var n := |intents| - 1;
      PendingListed(intents[..n], id);
    }
  }

  ghost predicate Climbs(ids: seq<nat>) {
    forall i, j :: 0 <= i < j < |ids| ==> ids[i] < ids[j]
  }

  lemma {:induction false} PendingClimbs(intents: seq<Intent>)
    ensures Climbs(PendingIds(intents)) && forall id: nat :: id in PendingIds(intents) ==> id < |intents|
  {
    if intents != [] {
      var n := |intents| - 1;
      PendingClimbs(intents[..n]);
      var before := PendingIds(intents[..n]);
      forall i | 0 <= i < |before| ensures before[i] < n {
        assert before[i] in before;
      }
    }
  }

  /** A pump reads pending rows, oldest first, each once; it leaves out a pending row only if it has read 500
      and the row is younger than all of them. */
  lemma ReadsOldest(intents: seq<Intent>)
    ensures var ids := ReadIds(intents);
            && |ids| <= 500 && Climbs(ids)
            && (forall id: nat :: id in ids ==> id < |intents| && intents[id].status == Pending)
            && forall id: nat :: id < |intents| && intents[id].status == Pending && id !in ids ==>
                 |ids| == 500 && forall k :: 0 <= k < |ids| ==> ids[k] < id
  {
    var all, ids := PendingIds(intents), ReadIds(intents);
    PendingClimbs(intents);
    forall id: nat ensures id in all <==> id < |intents| && intents[id].status == Pending {
      PendingListed(intents, id);
    }
    hide PendingIds;
    forall id: nat | id < |intents| && intents[id].status == Pending && id !in ids
      ensures |ids| == 500 && forall k :: 0 <= k < |ids| ==> ids[k] < id
    {
      var i :| 0 <= i < |all| && all[i] == id;
      assert forall k :: 0 <= k < |ids| ==> all[k] == ids[k] && ids[k] in ids;
    }
  }

  /** With at most 500 intents pending, one pump and one sweep settle everything. */
  lemma OnePumpSettlesAll(w: World, minted: nat -> string)
    requires Good(w) && |PendingIds(w.intents)| <= PUMP_LIMIT
    ensures var u := Reconcile(Run(w, PumpSteps(ReadIds(w.intents), minted)));
            forall id: nat :: !IsPending(u, id) && !IsHeld(u, id)
  {
    var steps := PumpSteps(ReadIds(w.intents), minted);
    forall id: nat | IsPending(w, id) ensures Reads(steps, id) {
      PendingListed(w.intents, id);
      var k :| 0 <= k < |steps| && ReadIds(w.intents)[k] == id;
      assert steps[k].id == id;
    }
    hide Good;
    PumpAndSweepSettleAll(w, steps);
  }

  // ---- Plots and messages over runs ----

  /** Over any run from an empty Hub: the owned plots are exactly the first `claims` of the allocation
      order, a pending claim never holds more than the next plot costs, and the messages are a forest
      within the depth cap. */
  lemma PlotsAndMessagesOverRuns(g: Plots.Grid, steps: seq<Step>)
    ensures Good(Genesis(g))
    ensures var u := Run(Genesis(g), steps);
            && u.grid == g && u.claims <= |Plots.AllocationOrder(g)|
            && (forall c :: c in u.owners <==> c in Plots.AllocationOrder(g)[..u.claims])
            && (forall id :: id in u.escrows && IsPending(u, id) && u.intents[id].order.Claim? && NextPlot(u).Some? ==>
                  u.escrows[id].amount <= FeeAt(g, NextPlot(u).value))
            && Sound(u.messages)
  {
    GenesisGood(g);
    RunAdvances(Genesis(g), steps);
    var u := Run(Genesis(g), steps);
    hide Run, NextPlot, FeeAt, Sound;
    NextIsClaims(u);
  }
}
