/** The journal of `server/dormancy.py` follows the derived dormancy of every soul. */
module Dormancy {
  import opened Options
  import opened Threads
  import opened Economy
  import opened Integrity
  import Protocol
  import Plots

  /** The dormancy flips journaled for `soul`: true where it froze, false where it woke. */
  function Flips(journal: seq<Event>, soul: string): seq<bool> {
    if journal == [] then []
    else
      var last := journal[|journal| - 1];
      Flips(journal[..|journal| - 1], soul)
      + if last == SoulDormant(soul) then [true] else if last == SoulWoke(soul) then [false] else []
  }

  /** Strict alternation, beginning with a freeze: souls are born awake. */
  ghost predicate Alternates(flips: seq<bool>) {
    forall k :: 0 <= k < |flips| ==> (flips[k] <==> k % 2 == 0)
  }

  ghost predicate Follows(flips: seq<bool>, dormant: bool) {
    Alternates(flips) && (dormant <==> |flips| % 2 == 1)
  }

  /** Every soul's flips alternate, and the last one says whether it is dormant now. */
  ghost predicate Agrees(w: World) {
    forall soul :: Follows(Flips(w.journal, soul), Dormant(w, soul))
  }

  lemma LastFlipTells(w: World, soul: string)
    requires Agrees(w) && Flips(w.journal, soul) != []
    ensures var flips := Flips(w.journal, soul); flips[|flips| - 1] <==> Dormant(w, soul)
  {
    assert Follows(Flips(w.journal, soul), Dormant(w, soul));
  }

  lemma FlipsAppend(journal: seq<Event>, e: Event, soul: string)
    ensures Flips(journal + [e], soul)
         == Flips(journal, soul) + if e == SoulDormant(soul) then [true] else if e == SoulWoke(soul) then [false] else []
  {
    assert (journal + [e])[..|journal|] == journal;
  }

  /** The flips do not alternate, or an awake soul's last flip is a freeze. */
  ghost predicate Strays(flips: seq<bool>, dormant: bool) {
    !Alternates(flips) || (|flips| % 2 == 1 && !dormant)
  }

  ghost predicate Tells(flips: seq<bool>, dormant: bool, lost: bool) {
    if lost then Strays(flips, dormant) else Follows(flips, dormant)
  }

  /** What every step but the sweep keeps for a soul: a journal that follows it, or one that has lost it. */
  ghost predicate Stands(w: World, soul: string, lost: bool) {
    Tells(Flips(w.journal, soul), Dormant(w, soul), lost)
  }

  lemma FlipTells(flips: seq<bool>, dormant: bool, lost: bool)
    requires Tells(flips, dormant, lost)
    ensures Tells(flips + [!dormant], !dormant, lost)
  {
    var more := flips + [!dormant];
    if Alternates(more) {
      assert forall k :: 0 <= k < |flips| ==> flips[k] == more[k];
      assert more[|flips|] == !dormant;
    }
  }

  lemma NotedTells(journal: seq<Event>, a: Actor, before: int, after: int, soul: string, dormant: bool, lost: bool)
    requires Tells(Flips(journal, soul), dormant, lost) && (a == Soul(soul) ==> dormant == IsDormant(before))
    ensures Tells(Flips(Noted(journal, a, before, after), soul), if a == Soul(soul) then IsDormant(after) else dormant, lost)
  {
    hide Flips, IsDormant, Tells;
    FlipTells(Flips(journal, soul), dormant, lost);
    if a.Soul? && IsDormant(before) != IsDormant(after) {
      FlipsAppend(journal, if IsDormant(after) then SoulDormant(a.id) else SoulWoke(a.id), soul);
      assert Flips(journal, soul) + [] == Flips(journal, soul);
    }
  }

  lemma ShiftStands(w: World, a: Actor, delta: int, soul: string, lost: bool)
    requires Stands(w, soul, lost)
    ensures Stands(Shift(w, a, delta), soul, lost)
  {
    if a in w.wallets {
      var u := Shift(w, a, delta);
      hide Flips, Tells, Noted, IsDormant;
      NotedTells(w.journal, a, w.wallets[a], u.wallets[a], soul, Dormant(w, soul), lost);
    }
  }

  /** Only wallets and journal matter. */
  lemma StandsFrame(w: World, u: World, soul: string, lost: bool)
    requires u.wallets == w.wallets && u.journal == w.journal && Stands(w, soul, lost)
    ensures Stands(u, soul, lost)
  {
  }

  lemma ReleaseStands(w: World, id: nat, soul: string, lost: bool)
    requires Stands(w, soul, lost)
    ensures Stands(Release(w, id), soul, lost)
  {
    if IsHeld(w, id) {
      hide Stands, Shift, Marked;
      var v := Shift(w, w.escrows[id].actor, w.escrows[id].amount);
      ShiftStands(w, w.escrows[id].actor, w.escrows[id].amount, soul, lost);
      StandsFrame(v, Release(w, id), soul, lost);
    }
  }

  lemma ConcludeStands(w: World, id: nat, status: Status, event: Event, soul: string, lost: bool)
    requires id < |w.intents| && Stands(w, soul, lost) && !event.SoulDormant? && !event.SoulWoke?
    ensures Stands(Conclude(w, id, status, event), soul, lost)
  {
    hide Flips, Tells;
    FlipsAppend(w.journal, event, soul);
    assert Flips(w.journal, soul) + [] == Flips(w.journal, soul);
  }

  // ---- Settlements ----

  ghost predicate OutcomeStands(o: Outcome, soul: string, lost: bool) {
    o.Raised? || Stands(o.world, soul, lost)
  }

  lemma BuyStands(w: World, id: nat, i: Intent, soul: string, lost: bool)
    requires Stands(w, soul, lost) && i.order.Buy?
    ensures OutcomeStands(ApplyBuy(w, id, i), soul, lost)
  {
    hide Stands, Release, Shift, Sold, ActsAs;
    ReleaseStands(w, id, soul, lost);
    if i.order.listing in w.listings {
      var v, l := w.(listings := w.listings - {i.order.listing}), w.listings[i.order.listing];
      StandsFrame(w, v, soul, lost);
      ReleaseStands(v, id, soul, lost);
      ShiftStands(v, l.seller, l.price - TaxOn(l.price), soul, lost);
      SoldFrame(v, id, i.order.buyer, l);
      StandsFrame(Shift(v, l.seller, l.price - TaxOn(l.price)), Sold(v, id, i.order.buyer, l), soul, lost);
    }
  }

  lemma ClaimStands(w: World, id: nat, i: Intent, soul: string, lost: bool)
    requires Stands(w, soul, lost) && i.order.Claim?
    ensures OutcomeStands(ApplyClaim(w, id, i), soul, lost)
  {
    hide Stands, Release, Shift, MayClaim, NextPlot, FeeAt, Marked, Plots.AllocationOrder;
    ReleaseStands(w, id, soul, lost);
    var o := ApplyClaim(w, id, i);
    if o.Done? {
      var claimant := Soul(i.order.claimant);
      var extra := FeeAt(w.grid, NextPlot(w).value) - w.escrows[id].amount;
      ShiftStands(w, claimant, 0 - extra, soul, lost);
      StandsFrame(ToppedUp(w, claimant, extra), o.world, soul, lost);
    }
  }

  /** The other orders settle without touching a wallet. */
  lemma QuietOrders(w: World, id: nat, i: Intent, minted: string)
    requires IsForest(w.messages) && !i.order.Buy? && !i.order.Claim? && !i.order.Feed?
    ensures var o := Apply(w, id, i, minted); o.Raised? || (o.world.wallets == w.wallets && o.world.journal == w.journal)
  {
    hide ApplyList, ApplyCancel, ApplyPost, ApplyReply, ApplyEdit, ApplyDelete;
    match i.order
    case List(_, _, _, _, _) => QuietTrade(w, i, minted);
    case Cancel(_, _) => QuietTrade(w, i, minted);
    case Post(_, _, _) => QuietPost(w, id, i);
    case Reply(_, _, _) => QuietReply(w, id, i);
    case Edit(_, _) => QuietChange(w, i);
    case Delete(_) => QuietChange(w, i);
  }

  ghost predicate Quiet(w: World, o: Outcome) {
    o.Raised? || (o.world.wallets == w.wallets && o.world.journal == w.journal)
  }

  lemma QuietTrade(w: World, i: Intent, minted: string)
    ensures i.order.List? ==> Quiet(w, ApplyList(w, i, minted))
    ensures i.order.Cancel? ==> Quiet(w, ApplyCancel(w, i))
  {
    hide Qty, Take, Give, ActsAs, MayCancel;
  }

  lemma QuietPost(w: World, id: nat, i: Intent)
    requires i.order.Post?
    ensures Quiet(w, ApplyPost(w, id, i))
  {
    hide ActsAs, Dormant, Marked;
  }

  lemma QuietReply(w: World, id: nat, i: Intent)
    requires i.order.Reply? && IsForest(w.messages)
    ensures Quiet(w, ApplyReply(w, id, i))
  {
    hide ActsAs, Dormant, Marked, ParentCheck;
  }

  lemma QuietChange(w: World, i: Intent)
    ensures i.order.Edit? ==> Quiet(w, ApplyEdit(w, i))
    ensures i.order.Delete? ==> Quiet(w, ApplyDelete(w, i))
  {
    hide MutationCheck;
  }

  lemma ApplyStands(w: World, id: nat, i: Intent, minted: string, soul: string, lost: bool)
    requires Stands(w, soul, lost) && IsForest(w.messages) && !i.order.Feed?
    ensures OutcomeStands(Apply(w, id, i, minted), soul, lost)
  {
    hide Stands, ApplyBuy, ApplyClaim;
    if i.order.Buy? {
      BuyStands(w, id, i, soul, lost);
    } else if i.order.Claim? {
      ClaimStands(w, id, i, soul, lost);
    } else {
      QuietOrders(w, id, i, minted);
      hide Apply;
      var o := Apply(w, id, i, minted);
      if !o.Raised? {
        StandsFrame(w, o.world, soul, lost);
      }
    }
  }

  lemma CompensateStands(w: World, id: nat, soul: string, lost: bool)
    requires Stands(w, soul, lost)
    ensures Stands(Compensate(w, id), soul, lost)
  {
    if IsPending(w, id) {
      hide Stands, Release, Conclude;
      ReleaseStands(w, id, soul, lost);
      ReleaseFrame(w, id);
      var v := if RefundsOnFault(w.intents[id].order) then Release(w, id) else w;
      ConcludeStands(v, id, Rejected, IntentRejected(id, Internal), soul, lost);
    }
  }

  lemma SettleStands(w: World, id: nat, minted: string, soul: string, lost: bool)
    requires Stands(w, soul, lost) && IsForest(w.messages) && (id < |w.intents| ==> !w.intents[id].order.Feed?)
    ensures Stands(Settle(w, id, minted), soul, lost)
  {
    if IsPending(w, id) {
      ApplyStands(w, id, w.intents[id], minted, soul, lost);
      hide Stands, Release, Conclude, Apply, Compensate;
      match Apply(w, id, w.intents[id], minted)
      case Done(v) => ConcludeStands(v, id, Adjudicated, IntentAdjudicated(id), soul, lost);
      case Refuse(v, why) =>
        ReleaseStands(v, id, soul, lost);
        ReleaseFrame(v, id);
        ConcludeStands(v, id, Rejected, IntentRejected(id, why), soul, lost);
        ConcludeStands(Release(v, id), id, Rejected, IntentRejected(id, why), soul, lost);
      case Raised => CompensateStands(w, id, soul, lost);
    }
  }

  lemma FeedStands(w: World, id: nat, soul: string, lost: bool)
    requires Stands(w, soul, lost) && id < |w.intents| && w.intents[id].order.Feed?
    ensures Stands(AdjudicateFeed(w, id), soul, lost)
  {
    var i := w.intents[id];
    hide Stands, Release, Shift, Conclude, Marked;
    ReleaseStands(w, id, soul, lost);
    ReleaseFrame(w, id);
    if FeedCheck(w, id, i).Some? {
      ConcludeStands(Release(w, id), id, Rejected, IntentRejected(id, FeedCheck(w, id, i).value), soul, lost);
    } else {
      var u := Fed(w, id, i.soul, i.order.recipient);
      ShiftStands(w, Soul(i.order.recipient), FEED_COST, soul, lost);
      ShiftFrame(w, Soul(i.order.recipient), FEED_COST);
      StandsFrame(Shift(w, Soul(i.order.recipient), FEED_COST), u, soul, lost);
      ConcludeStands(u, id, Adjudicated, SoulFed(id), soul, lost);
    }
  }

  lemma SubmitStands(w: World, i: Intent, soul: string, lost: bool)
    requires Stands(w, soul, lost) && IsForest(w.messages)
    ensures Stands(Submit(w, i).0, soul, lost)
  {
    var u, c := Accept(w, i), ChargeFor(w, i);
    AcceptFrame(w, i);
    hide Stands, Accept, Shift, Preface, Afford, ChargeFor, Malformed, FindKey;
    if c.Charge? {
      ShiftStands(w, c.actor, 0 - c.amount, soul, lost);
      StandsFrame(Shift(w, c.actor, 0 - c.amount), u, soul, lost);
    } else {
      StandsFrame(w, u, soul, lost);
    }
  }

  lemma MintStands(w: World, a: Actor, custodian: Option<string>, soul: string, lost: bool)
    requires Stands(w, soul, lost)
    ensures Stands(Mint(w, a, custodian), soul, lost)
  {
    hide Flips, Tells;
  }

  lemma NextStands(w: World, s: Step, soul: string, lost: bool)
    requires Stands(w, soul, lost) && IsForest(w.messages) && !s.Reconciles?
    ensures Stands(Next(w, s), soul, lost)
  {
    hide Stands, Submit, AdjudicateFeed, Settle, Compensate, Conclude, Mint;
    match s {
      case Submits(i) => SubmitStands(w, i, soul, lost);
      case Adjudicates(id, minted) =>
        if id < |w.intents| && w.intents[id].order.Feed? {
          FeedStands(w, id, soul, lost);
        } else {
          SettleStands(w, id, minted, soul, lost);
        }
      case Faults(id) =>
        if id < |w.intents| && w.intents[id].order.Feed? {
          ConcludeStands(w, id, Rejected, IntentRejected(id, Internal), soul, lost);
        } else {
          CompensateStands(w, id, soul, lost);
        }
      case Mints(a, custodian) => MintStands(w, a, custodian, soul, lost);
      case SetsBody(soul', row) => StandsFrame(w, SetBody(w, soul', row), soul, lost);
    }
  }

  /** Every step but the boot sweep keeps journal and dormancy in agreement. */
  lemma NextAgrees(w: World, s: Step)
    requires Agrees(w) && IsForest(w.messages) && !s.Reconciles?
    ensures Agrees(Next(w, s))
  {
    forall soul ensures Follows(Flips(Next(w, s).journal, soul), Dormant(Next(w, s), soul)) {
      hide Next, Flips, Follows, Dormant;
      assert Follows(Flips(w.journal, soul), Dormant(w, soul));
      NextStands(w, s, soul, false);
    }
  }

  // ---- The boot sweep ----

  /** The sweep will refund a dormant soul without noting that it woke. */
  predicate WakesSilently(w: World, id: nat) {
    && IsHeld(w, id) && !IsPending(w, id)
    && w.escrows[id].actor.Soul? && w.escrows[id].amount > 0 && Dormant(w, w.escrows[id].actor.id)
  }

  ghost predicate WokenBefore(w: World, n: nat, soul: string) {
    exists id: nat :: id < n && WakesSilently(w, id) && w.escrows[id].actor == Soul(soul)
  }

  lemma OneLeavesOthers(v: World, id: nat, k: nat)
    requires k != id
    ensures var u := ReconcileOne(v, id);
            && IsHeld(u, k) == IsHeld(v, k) && (IsHeld(v, k) ==> u.escrows[k] == v.escrows[k])
            && u.intents == v.intents && u.journal == v.journal
  {
  }

  lemma {:induction false} SweepLeavesLater(w: World, n: nat, id: nat)
    requires id >= n
    ensures var u := ReconcileUpTo(w, n);
            && IsHeld(u, id) == IsHeld(w, id) && (IsHeld(w, id) ==> u.escrows[id] == w.escrows[id])
            && u.intents == w.intents && u.journal == w.journal
  {
    hide ReconcileOne, IsHeld;
    if n > 0 {
      SweepLeavesLater(w, n - 1, id);
      OneLeavesOthers(ReconcileUpTo(w, n - 1), n - 1, id);
    }
  }

  lemma WokenNext(w: World, n: nat, soul: string)
    ensures WokenBefore(w, n + 1, soul) <==>
              WokenBefore(w, n, soul) || (WakesSilently(w, n) && w.escrows[n].actor == Soul(soul))
  {
    if WokenBefore(w, n + 1, soul) && !WokenBefore(w, n, soul) {
      var id: nat :| id < n + 1 && WakesSilently(w, id) && w.escrows[id].actor == Soul(soul);
    }
  }

  /** Who is dormant after the sweep. */
  lemma {:induction false} SweepDormancy(w: World, n: nat, soul: string)
    requires Good(w)
    ensures Dormant(ReconcileUpTo(w, n), soul) <==> Dormant(w, soul) && !WokenBefore(w, n, soul)
  {
    hide WokenBefore, Good, ReconcileOne, Dormant, IsHeld;
    NoneBefore(w, soul);
    if n > 0 {
      SweepDormancy(w, n - 1, soul);
      SweepLeavesLater(w, n - 1, n - 1);
      ReconcileUpToGood(w, n - 1);
      NextWakes(w, ReconcileUpTo(w, n - 1), n - 1, soul);
    }
  }

  lemma NoneBefore(w: World, soul: string)
    ensures !WokenBefore(w, 0, soul)
  {
  }

  lemma NextWakes(w: World, v: World, n: nat, soul: string)
    requires Good(v) && v.intents == w.intents && IsHeld(v, n) == IsHeld(w, n)
    requires IsHeld(w, n) ==> v.escrows[n] == w.escrows[n]
    requires Dormant(v, soul) <==> Dormant(w, soul) && !WokenBefore(w, n, soul)
    ensures Dormant(ReconcileOne(v, n), soul) <==> Dormant(w, soul) && !WokenBefore(w, n + 1, soul)
  {
    hide Good, ReconcileOne, WokenBefore;
    OneWakes(v, n, soul);
    WokenNext(w, n, soul);
  }

  lemma OneWakes(v: World, id: nat, soul: string)
    requires Good(v)
    ensures Dormant(ReconcileOne(v, id), soul) <==>
              Dormant(v, soul) && !(IsHeld(v, id) && !IsPending(v, id) && v.escrows[id].actor == Soul(soul) && v.escrows[id].amount > 0)
  {
    if IsHeld(v, id) && !IsPending(v, id) {
      Protocol.SweepOnlyRefunds(v, id);
    }
    hide Matched, KeysUnique, ClaimsInOrder, ClaimsCovered, SellersKnown, Sound;
  }

  /** The sweep keeps the agreement exactly if no refund goes to a dormant soul. */
  lemma SweepAgreesIff(w: World)
    requires Good(w) && Agrees(w)
    ensures Agrees(Reconcile(w)) <==> forall id: nat :: !WakesSilently(w, id)
  {
    var n := |w.intents|;
    var u := Reconcile(w);
    SweepLeavesLater(w, n, n);
    forall soul ensures Follows(Flips(u.journal, soul), Dormant(u, soul)) <==> !WokenBefore(w, n, soul) {
      SweepDormancy(w, n, soul);
      assert Follows(Flips(w.journal, soul), Dormant(w, soul));
      if WokenBefore(w, n, soul) {
        var id: nat :| id < n && WakesSilently(w, id) && w.escrows[id].actor == Soul(soul);
      }
    }
    if id: nat :| WakesSilently(w, id) {
      assert id < n;
      assert WokenBefore(w, n, w.escrows[id].actor.id);
    }
  }

  /** No sweep of the run refunds a dormant soul. */
  ghost predicate NoSilentWakes(w: World, steps: seq<Step>)
    requires Good(w)
  {
    steps == [] ||
    (var v := Run(w, steps[..|steps| - 1]);
     && NoSilentWakes(w, steps[..|steps| - 1])
     && (steps[|steps| - 1].Reconciles? ==> forall id: nat :: !WakesSilently(v, id)))
  }

  lemma QuietExtends(w: World, steps: seq<Step>, s: Step)
    requires Good(w) && NoSilentWakes(w, steps) && !s.Reconciles?
    ensures NoSilentWakes(w, steps + [s])
  {
    hide WakesSilently, Good, Run;
    assert (steps + [s])[..|steps|] == steps;
  }

  ghost predicate Lost(w: World, soul: string) {
    Strays(Flips(w.journal, soul), Dormant(w, soul))
  }

  lemma AgreesAt(w: World, soul: string)
    requires Agrees(w)
    ensures Follows(Flips(w.journal, soul), Dormant(w, soul))
  {
  }

  lemma LostDisagrees(w: World, soul: string)
    requires Lost(w, soul)
    ensures !Agrees(w)
  {
    hide Flips, Dormant, Alternates;
    if Agrees(w) {
      AgreesAt(w, soul);
    }
  }

  /** The journal loses the soul that a sweep wakes silently. */
  lemma SilentWakeLoses(w: World, id: nat)
    requires Good(w) && Agrees(w) && WakesSilently(w, id)
    ensures var soul := w.escrows[id].actor.id; !Dormant(Next(w, Reconciles), soul) && Lost(Next(w, Reconciles), soul)
  {
    var n, soul := |w.intents|, w.escrows[id].actor.id;
    assert Follows(Flips(w.journal, soul), Dormant(w, soul));
    assert WokenBefore(w, n, soul);
    SweepDormancy(w, n, soul);
    SweepLeavesLater(w, n, n);
  }

  /** Once lost, a soul stays lost: no later step repairs the journal. */
  lemma LostStays(w: World, s: Step, soul: string)
    requires Good(w) && Lost(w, soul)
    ensures Lost(Next(w, s), soul)
  {
    if s.Reconciles? {
      var n := |w.intents|;
      hide Good, ReconcileUpTo, WokenBefore, Flips, Dormant, Alternates;
      SweepDormancy(w, n, soul);
      SweepLeavesLater(w, n, n);
    } else {
      assert IsForest(w.messages);
      hide Good, Next, Flips, Dormant, Strays;
      NextStands(w, s, soul, true);
    }
  }

  /** A run with a silent wake ends with a soul that the journal has lost. */
  lemma {:induction false} SilentWakeIsForGood(w: World, steps: seq<Step>) returns (soul: string)
    requires Good(w) && Agrees(w) && !NoSilentWakes(w, steps)
    ensures Lost(Run(w, steps), soul)
  {
    var before, last := steps[..|steps| - 1], steps[|steps| - 1];
    var v := Run(w, before);
    hide Good, Agrees, Next, Lost, WakesSilently, IsHeld, Dormant;
    if !NoSilentWakes(w, before) {
      soul := SilentWakeIsForGood(w, before);
      LostStays(v, last, soul);
    } else {
      JournalFollowsQuietRun(w, before);
      var id: nat :| WakesSilently(v, id);
      soul := v.escrows[id].actor.id;
      SilentWakeLoses(v, id);
    }
  }

  lemma {:induction false} JournalFollowsQuietRun(w: World, steps: seq<Step>)
    requires Good(w) && Agrees(w) && NoSilentWakes(w, steps)
    ensures Agrees(Run(w, steps))
  {
    if steps == [] {
      assert Run(w, steps) == w;
    } else {
      var before, last := steps[..|steps| - 1], steps[|steps| - 1];
      JournalFollowsQuietRun(w, before);
      var v := Run(w, before);
      assert IsForest(v.messages);
      hide Good, Agrees, ReconcileUpTo, Submit, Adjudicate, Fault, Mint, SetBody, WakesSilently;
      if last.Reconciles? {
        SweepAgreesIff(v);
      } else {
        NextAgrees(v, last);
      }
    }
  }

  /** After a run every soul's `soul_dormant` and `soul_woke` events strictly alternate, and the last
      one agrees with its cached balance, exactly if no sweep of the run refunded a dormant soul. */
  lemma JournalFollowsDormancy(w: World, steps: seq<Step>)
    requires Good(w) && Agrees(w)
    ensures Agrees(Run(w, steps)) <==> NoSilentWakes(w, steps)
  {
    hide *;
    if NoSilentWakes(w, steps) {
      JournalFollowsQuietRun(w, steps);
    } else {
      var soul := SilentWakeIsForGood(w, steps);
      LostDisagrees(Run(w, steps), soul);
    }
  }

  lemma GenesisAgrees(g: Plots.Grid)
    ensures Agrees(Genesis(g))
  {
  }

  /** From an empty Hub: the flips of every soul alternate from its birth on, and the last one says
      whether it is dormant, exactly if no sweep woke a soul silently. */
  lemma JournalFollowsFromGenesis(g: Plots.Grid, steps: seq<Step>)
    requires Good(Genesis(g))
    ensures Agrees(Run(Genesis(g), steps)) <==> NoSilentWakes(Genesis(g), steps)
  {
    GenesisAgrees(g);
    JournalFollowsDormancy(Genesis(g), steps);
  }
}
