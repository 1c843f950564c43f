/** Items are conserved, and while listing ids are fresh every buy holds exactly the price. */
module Market {
  import opened Options
  import opened Threads
  import opened Economy
  import opened Integrity
  import opened Money
  import opened Sums
  import Plots
  import Protocol

  // ---- Counting units ----

  function InHand(item: string): (Holding, nat) -> int {
    (h: Holding, n: nat) => if h.item == item then n else 0
  }

  function OnSale(item: string): (string, Listing) -> int {
    (id: string, l: Listing) => if l.item == item then l.qty else 0
  }

  /** The units of `item` in all inventories and all open listings. */
  ghost function Units(w: World, item: string): int {
    Total(w.items, InHand(item)) + Total(w.listings, OnSale(item))
  }

  function Of(item: string, other: string, n: int): int {
    if item == other then n else 0
  }

  lemma GiveUnits(items: map<Holding, nat>, a: Actor, it: string, n: Quantity, item: string)
    ensures Total(Give(items, a, it, n), InHand(item)) == Total(items, InHand(item)) + Of(item, it, n)
  {
    TotalUpdate<Holding, nat>(items, Holding(a, it), Qty(items, a, it) + n, InHand(item));
  }

  lemma TakeUnits(items: map<Holding, nat>, a: Actor, it: string, n: Quantity, item: string)
    requires Qty(items, a, it) >= n
    ensures Total(Take(items, a, it, n), InHand(item)) == Total(items, InHand(item)) - Of(item, it, n)
  {
    if Qty(items, a, it) == n {
      TotalWithout<Holding, nat>(items, Holding(a, it), InHand(item));
    } else {
      TotalUpdate<Holding, nat>(items, Holding(a, it), Qty(items, a, it) - n, InHand(item));
    }
  }

  // ---- What each settlement does to the units ----

  /** The buy `id` is about to be refused for want of funds, its listing already deleted. */
  predicate FallsShort(w: World, id: nat) {
    && IsPending(w, id) && w.intents[id].order.Buy?
    && ActsAs(w, w.intents[id], w.intents[id].order.buyer).None?
    && w.intents[id].order.listing in w.listings
    && !Funded(w, id, w.listings[w.intents[id].order.listing].price)
  }

  function UnitsLost(w: World, id: nat, item: string): int {
    if FallsShort(w, id) then
      Of(item, w.listings[w.intents[id].order.listing].item, w.listings[w.intents[id].order.listing].qty)
    else 0
  }

  lemma UnitsFrame(w: World, u: World, item: string)
    requires u.items == w.items && u.listings == w.listings
    ensures Units(u, item) == Units(w, item)
  {
  }

  lemma ReleaseKeepsGoods(w: World, id: nat)
    ensures Release(w, id).items == w.items && Release(w, id).listings == w.listings
  {
    ReleaseFrame(w, id);
  }

  lemma ListUnits(w: World, i: Intent, minted: string, item: string)
    requires i.order.List? && ApplyList(w, i, minted).Done?
    ensures Units(ApplyList(w, i, minted).world, item) == Units(w, item)
  {
    var d := i.order;
    var lid := if d.chosen.Some? then d.chosen.value else minted;
    TakeUnits(w.items, d.seller, d.item, d.qty, item);
    TotalUpdate(w.listings, lid, Listing(d.seller, d.item, d.qty, d.price), OnSale(item));
    hide Take, ActsAs;
  }

  lemma CancelUnits(w: World, i: Intent, item: string)
    requires i.order.Cancel? && ApplyCancel(w, i).Done?
    ensures Units(ApplyCancel(w, i).world, item) == Units(w, item)
  {
    var l := w.listings[i.order.listing];
    GiveUnits(w.items, l.seller, l.item, l.qty, item);
    TotalWithout(w.listings, i.order.listing, OnSale(item));
    hide Give, MayCancel;
  }

  lemma BuyUnits(w: World, id: nat, item: string)
    requires IsPending(w, id) && w.intents[id].order.Buy?
    ensures Units(ApplyBuy(w, id, w.intents[id]).world, item) == Units(w, item) - UnitsLost(w, id, item)
  {
    var i := w.intents[id];
    ReleaseKeepsGoods(w, id);
    if i.order.listing in w.listings && ActsAs(w, i, i.order.buyer).None? {
      var l := w.listings[i.order.listing];
      var v := w.(listings := w.listings - {i.order.listing});
      GiveUnits(w.items, i.order.buyer, l.item, l.qty, item);
      TotalWithout(w.listings, i.order.listing, OnSale(item));
      ReleaseKeepsGoods(v, id);
      SoldGoods(v, id, i.order.buyer, l);
      hide Give, Release, Shift, ActsAs, Sold;
    } else {
      hide Give, Release, Shift, ActsAs, Sold;
    }
  }

  lemma SoldGoods(v: World, id: nat, buyer: Actor, l: Listing)
    ensures Sold(v, id, buyer, l).items == Give(v.items, buyer, l.item, l.qty)
    ensures Sold(v, id, buyer, l).listings == v.listings
  {
    hide Give, Noted, TaxOn, Marked;
  }

  /** Only market orders touch items and listings. */
  lemma OthersKeepGoods(w: World, id: nat, minted: string)
    requires Good(w) && IsPending(w, id)
    requires var d := w.intents[id].order; d.Claim? || d.Post? || d.Reply? || d.Edit? || d.Delete?
    ensures var o := Apply(w, id, w.intents[id], minted);
            !o.Raised? && o.world.items == w.items && o.world.listings == w.listings
  {
    assert IsForest(w.messages) by { GoodForest(w); }
    var d := w.intents[id].order;
    hide Good, ApplyClaim, ApplyPost, ApplyReply, ApplyEdit, ApplyDelete;
    if d.Claim? {
      ClaimKeepsGoods(w, id);
    } else if d.Post? || d.Reply? {
      WritingKeepsGoods(w, id, w.intents[id]);
    } else {
      ChangesKeepGoods(w, w.intents[id]);
    }
  }

  lemma WrittenGoods(w: World, id: nat, m: Message, author: Actor, cost: nat)
    ensures Written(w, id, m, author, cost).items == w.items && Written(w, id, m, author, cost).listings == w.listings
  {
  }

  lemma WritingKeepsGoods(w: World, id: nat, i: Intent)
    requires IsForest(w.messages)
    ensures i.order.Post? ==> ApplyPost(w, id, i).world.items == w.items && ApplyPost(w, id, i).world.listings == w.listings
    ensures i.order.Reply? ==> ApplyReply(w, id, i).world.items == w.items && ApplyReply(w, id, i).world.listings == w.listings
  {
    var d := i.order;
    if d.Post? {
      WrittenGoods(w, id, Message(None, d.author.Tamer?, d.author.id, d.title, d.body, false), d.author, POST_COST);
    } else if d.Reply? {
      WrittenGoods(w, id, Message(Some(d.answers), d.author.Tamer?, d.author.id, "", d.body, false), d.author, REPLY_COST);
    }
    hide Written, ActsAs, CheckParent, DormantActor, When, First;
  }

  lemma ChangesKeepGoods(w: World, i: Intent)
    ensures i.order.Edit? ==> ApplyEdit(w, i).world.items == w.items && ApplyEdit(w, i).world.listings == w.listings
    ensures i.order.Delete? ==> ApplyDelete(w, i).world.items == w.items && ApplyDelete(w, i).world.listings == w.listings
  {
    hide MutationCheck;
  }

  lemma ClaimKeepsGoods(w: World, id: nat)
    requires IsPending(w, id) && w.intents[id].order.Claim?
    ensures var o := ApplyClaim(w, id, w.intents[id]);
            !o.Raised? && o.world.items == w.items && o.world.listings == w.listings
  {
    ReleaseKeepsGoods(w, id);
    hide Release, Noted, NextPlot, FeeAt, MayClaim, Marked;
  }

  lemma ApplyUnits(w: World, id: nat, minted: string, item: string)
    requires Good(w) && IsPending(w, id) && !w.intents[id].order.Feed?
    ensures var o := Apply(w, id, w.intents[id], minted);
            o.Raised? || Units(o.world, item) == Units(w, item) - UnitsLost(w, id, item)
  {
    var i := w.intents[id];
    hide Good, Units, Qty, Take, Give, ActsAs, MayCancel, Sold, Release, FallsShort;
    assert IsForest(w.messages) by { GoodForest(w); }
    if i.order.Buy? {
      BuyUnits(w, id, item);
    } else {
      assert UnitsLost(w, id, item) == 0 by { NoLoss(w, id, item); }
      if i.order.List? {
        if ApplyList(w, i, minted).Done? { ListUnits(w, i, minted, item); }
      } else if i.order.Cancel? {
        if ApplyCancel(w, i).Done? { CancelUnits(w, i, item); }
      } else {
        OthersKeepGoods(w, id, minted);
        UnitsFrame(w, Apply(w, id, i, minted).world, item);
      }
    }
  }

  lemma GoodForest(w: World)
    requires Good(w)
    ensures IsForest(w.messages)
  {
  }

  lemma NoLoss(w: World, id: nat, item: string)
    requires IsPending(w, id) && !w.intents[id].order.Buy?
    ensures UnitsLost(w, id, item) == 0
  {
  }

  // ---- What each step does to the units ----

  function StepUnitsLost(w: World, s: Step, item: string): int {
    if s.Adjudicates? then UnitsLost(w, s.id, item) else 0
  }

  lemma ConcludeGoods(w: World, id: nat, status: Status, event: Event)
    requires id < |w.intents|
    ensures Conclude(w, id, status, event).items == w.items && Conclude(w, id, status, event).listings == w.listings
  {
  }

  lemma CompensateGoods(w: World, id: nat)
    ensures Compensate(w, id).items == w.items && Compensate(w, id).listings == w.listings
  {
    ReleaseFrame(w, id);
    hide Release;
  }

  lemma SettleUnits(w: World, id: nat, minted: string, item: string)
    requires Good(w) && IsPending(w, id) && !w.intents[id].order.Feed?
    ensures Units(Settle(w, id, minted), item) == Units(w, item) - UnitsLost(w, id, item)
  {
    ApplyUnits(w, id, minted, item);
    RaisedLosesNothing(w, id, minted, item);
    var o := Apply(w, id, w.intents[id], minted);
    hide Good, Units, Release, Conclude, Apply, Compensate, UnitsLost;
    match o
    case Done(v) =>
      ConcludeGoods(v, id, Adjudicated, IntentAdjudicated(id));
      UnitsFrame(v, Settle(w, id, minted), item);
    case Refuse(v, why) =>
      ReleaseFrame(v, id);
      ConcludeGoods(v, id, Rejected, IntentRejected(id, why));
      ConcludeGoods(Release(v, id), id, Rejected, IntentRejected(id, why));
      UnitsFrame(v, Settle(w, id, minted), item);
    case Raised =>
      CompensateGoods(w, id);
      UnitsFrame(w, Compensate(w, id), item);
  }

  lemma RaisedLosesNothing(w: World, id: nat, minted: string, item: string)
    requires Good(w) && IsPending(w, id) && !w.intents[id].order.Feed?
    ensures Apply(w, id, w.intents[id], minted).Raised? ==> UnitsLost(w, id, item) == 0
  {
    hide Good, Sold, Shift, Release, ActsAs, Qty;
  }

  lemma FeedGoods(w: World, id: nat)
    requires id < |w.intents| && w.intents[id].order.Feed?
    ensures AdjudicateFeed(w, id).items == w.items && AdjudicateFeed(w, id).listings == w.listings
  {
    ReleaseFrame(w, id);
    hide Release, Noted, Marked;
  }

  lemma AcceptGoods(w: World, i: Intent)
    requires IsForest(w.messages)
    ensures Submit(w, i).0.items == w.items && Submit(w, i).0.listings == w.listings
  {
    AcceptFrame(w, i);
    hide Accept, Preface, Afford, ChargeFor, Malformed;
  }

  lemma {:induction false} ReconcileGoods(w: World, n: nat)
    ensures ReconcileUpTo(w, n).items == w.items && ReconcileUpTo(w, n).listings == w.listings
  {
    if n > 0 {
      hide ReconcileOne;
      ReconcileGoods(w, n - 1);
      ReconcileOneGoods(ReconcileUpTo(w, n - 1), n - 1);
    }
  }

  lemma ReconcileOneGoods(w: World, id: nat)
    ensures ReconcileOne(w, id).items == w.items && ReconcileOne(w, id).listings == w.listings
  {
    hide Marked;
  }

  /** The exact law of one step: only a short buy makes units disappear. */
  lemma NextUnits(w: World, s: Step, item: string)
    requires Good(w)
    ensures Units(Next(w, s), item) == Units(w, item) - StepUnitsLost(w, s, item)
  {
    assert IsForest(w.messages) by { GoodForest(w); }
    var u := Next(w, s);
    hide Good, Submit, Adjudicate, Fault, ReconcileUpTo, Mint, Units, UnitsLost;
    if s.Adjudicates? {
      AdjudicateUnits(w, s.id, s.minted, item);
    } else {
      match s {
        case Submits(i) => AcceptGoods(w, i);
        case Faults(id) => FaultGoods(w, id);
        case Reconciles => ReconcileGoods(w, |w.intents|);
        case Mints(a, custodian) => MintGoods(w, a, custodian);
        case SetsBody(_, _) =>
      }
      UnitsFrame(w, u, item);
    }
  }

  lemma MintGoods(w: World, a: Actor, custodian: Option<string>)
    ensures Mint(w, a, custodian).items == w.items && Mint(w, a, custodian).listings == w.listings
  {
  }

  lemma FaultGoods(w: World, id: nat)
    ensures Fault(w, id).items == w.items && Fault(w, id).listings == w.listings
  {
    hide Compensate;
    CompensateGoods(w, id);
  }

  lemma AdjudicateUnits(w: World, id: nat, minted: string, item: string)
    requires Good(w)
    ensures Units(Adjudicate(w, id, minted), item) == Units(w, item) - UnitsLost(w, id, item)
  {
    GoodForest(w);
    if id < |w.intents| && w.intents[id].order.Feed? {
      FeedGoods(w, id);
      hide Good, AdjudicateFeed, Units;
      UnitsFrame(w, AdjudicateFeed(w, id), item);
    } else if IsPending(w, id) {
      hide Good, Settle, Units, UnitsLost;
      SettleUnits(w, id, minted, item);
    }
  }

  // ---- Fresh listing ids ----

  function ListingId(i: Intent, minted: string): string
    requires i.order.List?
  {
    if i.order.chosen.Some? then i.order.chosen.value else minted
  }

  /** Every pending buy of an open listing holds exactly its price. */
  ghost predicate Priced(w: World) {
    forall k :: k in w.escrows && IsPending(w, k) && w.intents[k].order.Buy? && w.intents[k].order.listing in w.listings ==>
      w.escrows[k].amount == w.listings[w.intents[k].order.listing].price
  }

  /** The step does not put up a listing under an id that a pending buy still names. */
  ghost predicate Fresh(w: World, s: Step) {
    s.Adjudicates? && IsPending(w, s.id) && w.intents[s.id].order.List? ==>
      forall k :: k in w.escrows && IsPending(w, k) && w.intents[k].order.Buy? ==>
        w.intents[k].order.listing != ListingId(w.intents[s.id], s.minted)
  }

  /** Listings of `u` were there in `w`, unless the intent `id` has put them up. */
  ghost predicate ListedBy(w: World, u: World, id: nat, minted: string) {
    forall l :: l in u.listings ==>
      || (l in w.listings && u.listings[l] == w.listings[l])
      || (IsPending(w, id) && w.intents[id].order.List? && l == ListingId(w.intents[id], minted))
  }

  lemma ApplyLists(w: World, id: nat, minted: string)
    requires Good(w) && IsPending(w, id) && !w.intents[id].order.Feed?
    ensures var o := Apply(w, id, w.intents[id], minted); o.Raised? || ListedBy(w, o.world, id, minted)
  {
    GoodForest(w);
    var i := w.intents[id];
    var d := i.order;
    hide Good, ListedBy, ApplyList, ApplyBuy, ApplyCancel, ApplyClaim, ApplyPost, ApplyReply, ApplyEdit, ApplyDelete;
    if d.List? || d.Cancel? {
      TradeLists(w, id, minted);
    } else if d.Buy? {
      BuyLists(w, id, minted);
    } else {
      OthersKeepGoods(w, id, minted);
      SameLists(w, Apply(w, id, i, minted).world, id, minted);
    }
  }

  lemma SameLists(w: World, u: World, id: nat, minted: string)
    requires u.listings == w.listings
    ensures ListedBy(w, u, id, minted)
  {
  }

  lemma TradeLists(w: World, id: nat, minted: string)
    requires IsPending(w, id) && (w.intents[id].order.List? || w.intents[id].order.Cancel?)
    ensures w.intents[id].order.List? ==>
              var o := ApplyList(w, w.intents[id], minted); o.Raised? || ListedBy(w, o.world, id, minted)
    ensures w.intents[id].order.Cancel? ==>
              var o := ApplyCancel(w, w.intents[id]); o.Raised? || ListedBy(w, o.world, id, minted)
  {
    hide Qty, Take, Give, ActsAs, MayCancel;
  }

  lemma BuyLists(w: World, id: nat, minted: string)
    requires IsPending(w, id) && w.intents[id].order.Buy?
    ensures var o := ApplyBuy(w, id, w.intents[id]); o.Raised? || ListedBy(w, o.world, id, minted)
  {
    hide ActsAs, Sold, Release;
    var d := w.intents[id].order;
    ReleaseKeepsGoods(w, id);
    if d.listing in w.listings {
      var v := w.(listings := w.listings - {d.listing});
      ReleaseKeepsGoods(v, id);
      SoldGoods(v, id, d.buyer, w.listings[d.listing]);
    }
  }

  lemma AdjudicateLists(w: World, id: nat, minted: string)
    requires Good(w)
    ensures ListedBy(w, Adjudicate(w, id, minted), id, minted)
  {
    GoodForest(w);
    if id < |w.intents| && w.intents[id].order.Feed? {
      FeedGoods(w, id);
    } else if IsPending(w, id) {
      ApplyLists(w, id, minted);
      CompensateGoods(w, id);
      var o := Apply(w, id, w.intents[id], minted);
      if o.Refuse? {
        ReleaseFrame(o.world, id);
      }
      hide Good, Apply, Compensate, Release;
    }
  }

  lemma MovesPriced(w: World, u: World, id: nat, minted: string)
    requires Good(w) && Priced(w) && Moves(w, u, id) && ListedBy(w, u, id, minted)
    requires Fresh(w, Adjudicates(id, minted))
    ensures Priced(u)
  {
    hide SameActors, Sound, ClaimsAdvance, Good;
    forall k | k in u.escrows && IsPending(u, k) && u.intents[k].order.Buy? && u.intents[k].order.listing in u.listings
      ensures u.escrows[k].amount == u.listings[u.intents[k].order.listing].price {
      assert k in w.escrows && IsPending(w, k) && w.escrows[k] == u.escrows[k];
    }
  }

  lemma SubmitPriced(w: World, i: Intent)
    requires Good(w) && Priced(w)
    ensures Priced(Submit(w, i).0)
  {
    GoodForest(w);
    AcceptFrame(w, i);
    var u := Accept(w, i);
    forall k | k in u.escrows && IsPending(u, k) && u.intents[k].order.Buy? && u.intents[k].order.listing in u.listings
      ensures u.escrows[k].amount == u.listings[u.intents[k].order.listing].price {
      hide Accept, Shift, Preface, Afford, Malformed, NextPlot;
      if k < |w.intents| {
        assert k in w.escrows && IsPending(w, k) && w.escrows[k] == u.escrows[k];
      }
    }
    hide Accept, Preface, Afford, ChargeFor, Malformed;
  }

  lemma {:induction false} ReconcilePriced(w: World, n: nat)
    requires Priced(w)
    ensures Priced(ReconcileUpTo(w, n))
  {
    if n > 0 {
      hide Priced, Good, ReconcileOne;
      ReconcilePriced(w, n - 1);
      ReconcileOnePriced(ReconcileUpTo(w, n - 1), n - 1);
    }
  }

  lemma ReconcileOnePriced(w: World, id: nat)
    requires Priced(w)
    ensures Priced(ReconcileOne(w, id))
  {
  }

  lemma NextPriced(w: World, s: Step)
    requires Good(w) && Priced(w) && Fresh(w, s)
    ensures Priced(Next(w, s))
  {
    GoodForest(w);
    hide Good, Submit, Adjudicate, Fault, ReconcileUpTo, Moves, Fresh;
    match s {
      case Submits(i) => SubmitPriced(w, i);
      case Adjudicates(id, minted) =>
        AdjudicateMoves(w, id, minted);
        AdjudicateLists(w, id, minted);
        if Adjudicate(w, id, minted) != w { MovesPriced(w, Adjudicate(w, id, minted), id, minted); }
      case Faults(id) =>
        AdjudicateMoves(w, id, "");
        FaultGoods(w, id);
        if Fault(w, id) != w { FaultPriced(w, Fault(w, id), id); }
      case Reconciles => ReconcilePriced(w, |w.intents|);
      case Mints(_, _) =>
      case SetsBody(_, _) =>
    }
  }

  lemma FaultPriced(w: World, u: World, id: nat)
    requires Good(w) && Priced(w) && Moves(w, u, id) && u.listings == w.listings
    ensures Priced(u)
  {
    hide SameActors, Sound, ClaimsAdvance, Good;
    forall k | k in u.escrows && IsPending(u, k) && u.intents[k].order.Buy? && u.intents[k].order.listing in u.listings
      ensures u.escrows[k].amount == u.listings[u.intents[k].order.listing].price {
      assert k in w.escrows && IsPending(w, k) && w.escrows[k] == u.escrows[k];
    }
  }

  /** A buy that holds the price neither falls short nor leaves a surplus. */
  lemma PricedLosesNothing(w: World, s: Step, a: Actor, item: string)
    requires Good(w) && Priced(w)
    ensures StepLoss(w, s, a) == 0 && StepUnitsLost(w, s, item) == 0
  {
    if s.Adjudicates? && IsPending(w, s.id) && w.intents[s.id].order.Buy? {
      OwnEscrow(w, s.id);
    }
    hide Good, ActsAs;
  }

  /** Every listing of the run gets an id no pending buy names. */
  ghost predicate FreshRun(w: World, steps: seq<Step>)
    requires Good(w)
  {
    steps == [] || (FreshRun(w, steps[..|steps| - 1]) && Fresh(Run(w, steps[..|steps| - 1]), steps[|steps| - 1]))
  }

  /** With fresh listing ids, over every run: no actor's baseline moves, nor the fund's, the units of
      every item stay the same, and no buy is ever refused for being short. */
  lemma {:induction false} FreshRunConserves(w: World, steps: seq<Step>, a: Actor, item: string)
    requires Good(w) && Priced(w) && FreshRun(w, steps)
    ensures var u := Run(w, steps);
            && Priced(u) && Gap(u, a) == Gap(w, a) && FundGap(u) == FundGap(w) && Units(u, item) == Units(w, item)
            && forall id: nat :: !FallsShort(u, id)
  {
    if steps != [] {
      var before, last := steps[..|steps| - 1], steps[|steps| - 1];
      FreshRunConserves(w, before, a, item);
      var v := Run(w, before);
      hide Good, Priced, Fresh, Next, Gap, FundGap, Units, FallsShort, StepLoss, StepUnitsLost;
      PricedLosesNothing(v, last, a, item);
      NextGap(v, last, a);
      NextUnits(v, last, item);
      NextPriced(v, last);
    }
    hide Gap, FundGap, Units, Next, Run, FreshRun;
    NeverShort(Run(w, steps));
  }

  lemma NeverShort(w: World)
    requires Good(w) && Priced(w)
    ensures forall id: nat :: !FallsShort(w, id)
  {
    forall id: nat ensures !FallsShort(w, id) {
      if IsPending(w, id) && w.intents[id].order.Buy? {
        OwnEscrow(w, id);
      }
    }
  }

  // ---- A reused listing id ----

  lemma RunAnother(w: World, steps: seq<Step>, s: Step, a: Actor)
    requires Good(w)
    ensures Run(w, steps + [s]) == Next(Run(w, steps), s)
    ensures LossOver(w, steps + [s], a) == LossOver(w, steps, a) + StepLoss(Run(w, steps), s, a)
  {
    assert (steps + [s])[..|steps|] == steps;
  }

  function Asks(nonce: string, order: Order): Intent {
    Intent("operator", nonce, None, "o", order, Pending)
  }

  /** A cap is on sale under "L" at `high`.  Its seller has asked to take it back and to list it again
      under the same id at `low`; then a soul, to which it still shows at `high`, has asked to buy it. */
  function Relisting(high: nat, low: nat): World {
    Genesis(Plots.Grid(1, 1)).(
      souls := map["b" := SoulRow(None, false, false)],
      wallets := map[Soul("b") := 1, Tamer("s") := 0],
      listings := map["L" := Listing(Tamer("s"), "cap", 1, high)],
      intents := [Asks("1", Cancel("L", true)), Asks("2", List(Tamer("s"), "cap", 1, low, Some("L"))),
                  Asks("3", Buy(Soul("b"), "L"))],
      escrows := map[2 := Escrow(Soul("b"), high, Held)])
  }

  lemma RelistingKeys(high: nat, low: nat)
    ensures KeysUnique(Relisting(high, low).intents)
  {
    var intents := Relisting(high, low).intents;
    assert intents[0].nonce[0] == '1' && intents[1].nonce[0] == '2' && intents[2].nonce[0] == '3';
  }

  lemma RelistingMatched(high: nat, low: nat)
    ensures Matched(Relisting(high, low)) && Priced(Relisting(high, low))
  {
    var w := Relisting(high, low);
    assert forall k :: k in w.escrows ==> k == 2;
  }

  lemma RelistingGood(high: nat, low: nat)
    ensures Good(Relisting(high, low)) && Priced(Relisting(high, low))
  {
    GenesisGood(Plots.Grid(1, 1));
    RelistingKeys(high, low);
    RelistingMatched(high, low);
    hide Plots.AllocationOrder, FeeAt, Sound, Matched, KeysUnique, Priced;
  }

  lemma ThreeSteps(w0: World, s1: Step, s2: Step, s3: Step, a: Actor)
    requires Good(w0)
    ensures var w1 := Run(w0, [s1]); var w2 := Run(w0, [s1, s2]);
            && IsForest(w0.messages) && IsForest(w1.messages) && w1 == Next(w0, s1) && w2 == Next(w1, s2)
            && LossOver(w0, [s1, s2, s3], a) == StepLoss(w0, s1, a) + StepLoss(w1, s2, a) + StepLoss(w2, s3, a)
  {
    GoodForest(w0);
    assert Run(w0, []) == w0 && LossOver(w0, [], a) == 0;
    hide Next, StepLoss, Good;
    RunAnother(w0, [], s1, a);
    assert [] + [s1] == [s1] && [s1] + [s2] == [s1, s2] && [s1, s2] + [s3] == [s1, s2, s3];
    RunAnother(w0, [s1], s2, a);
    RunAnother(w0, [s1, s2], s3, a);
    GoodForest(Run(w0, [s1]));
  }

  /** What one pump does: it reads the oldest first. */
  lemma RelistingPump(high: nat, low: nat)
    ensures Protocol.PumpSteps(Protocol.ReadIds(Relisting(high, low).intents), _ => "")
         == [Adjudicates(0, ""), Adjudicates(1, ""), Adjudicates(2, "")]
  {
    var intents := Relisting(high, low).intents;
    assert intents[..2][..1][..0] == [] && intents[..2][..1] == intents[..1];
    assert Protocol.PendingIds(intents[..1]) == [0];
    assert Protocol.PendingIds(intents[..2]) == [0, 1];
    assert Protocol.PendingIds(intents) == [0, 1, 2];
  }

  /** Freshness is needed.  One pump settles the three in the order of their submission: the listing is
      cancelled and put up again before the buy, and the buyer pays the `high` it held, while the ledger
      knows of `low` only. */
  lemma ReusedIdLosesTheDifference(high: nat, low: nat)
    requires high >= low
    ensures var w := Relisting(high, low);
            && Good(w) && Priced(w)
            && LossOver(w, Protocol.PumpSteps(Protocol.ReadIds(w.intents), _ => ""), Soul("b")) == high - low
  {
    RelistingGood(high, low);
    RelistingPump(high, low);
    CapTakenBack(high, low);
    var w0 := Relisting(high, low);
    hide Good, Priced, Run, LossOver, Adjudicate, StepLoss;
    ThreeSteps(w0, Adjudicates(0, ""), Adjudicates(1, ""), Adjudicates(2, ""), Soul("b"));
    var w1 := Run(w0, [Adjudicates(0, "")]);
    var w2 := Run(w0, [Adjudicates(0, ""), Adjudicates(1, "")]);
    CapRelisted(w1, low);
    CapSold(w0, w1, w2, high, low);
  }

  lemma CapSold(w0: World, w1: World, w2: World, high: nat, low: nat)
    requires high >= low && w0 == Relisting(high, low)
    requires w1.intents == w0.intents[0 := w0.intents[0].(status := Adjudicated)]
    requires w2.intents == w1.intents[1 := w1.intents[1].(status := Adjudicated)]
    requires w2.escrows == w0.escrows && w2.wallets == w0.wallets
    requires w2.listings == map["L" := Listing(Tamer("s"), "cap", 1, low)]
    ensures StepLoss(w0, Adjudicates(0, ""), Soul("b")) == StepLoss(w1, Adjudicates(1, ""), Soul("b")) == 0
    ensures StepLoss(w2, Adjudicates(2, ""), Soul("b")) == high - low
  {
  }

  lemma CapTakenBack(high: nat, low: nat)
    ensures var w, u := Relisting(high, low), Adjudicate(Relisting(high, low), 0, "");
            && u.listings == map[] && u.items == map[Holding(Tamer("s"), "cap") := 1] && u.escrows == w.escrows
            && u.wallets == w.wallets && u.intents == w.intents[0 := w.intents[0].(status := Adjudicated)]
            && u.messages == []
  {
  }

  lemma CapRelisted(w: World, low: nat)
    requires |w.intents| > 1 && w.intents[1] == Asks("2", List(Tamer("s"), "cap", 1, low, Some("L"))) && w.listings == map[]
    requires w.items == map[Holding(Tamer("s"), "cap") := 1] && Tamer("s") in w.wallets && w.messages == []
    ensures var u := Adjudicate(w, 1, "");
            && u.listings == map["L" := Listing(Tamer("s"), "cap", 1, low)] && u.escrows == w.escrows
            && u.wallets == w.wallets && u.intents == w.intents[1 := w.intents[1].(status := Adjudicated)]
  {
  }
}
