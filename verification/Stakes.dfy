/** Whose the units of an item are: what `server/inventory.py` and `server/market.py` do to each actor's
    units in hand and on sale. */
module Stakes {
  import opened Options
  import opened Threads
  import opened Economy
  import opened Integrity
  import opened Market
  import opened Sums

  function OnSaleBy(a: Actor, item: string): (string, Listing) -> int {
    (id: string, l: Listing) => if l.seller == a && l.item == item then l.qty else 0
  }

  /** The units of `item` that `a` has in hand or reserved in its open listings. */
  ghost function Stake(w: World, a: Actor, item: string): int {
    Qty(w.items, a, item) + Total(w.listings, OnSaleBy(a, item))
  }

  function Where(holds: bool, n: int): int {
    if holds then n else 0
  }

  /** The buy `id` finds its listing open and its sender entitled. */
  predicate Trades(w: World, id: nat) {
    && IsPending(w, id) && w.intents[id].order.Buy? && ActsAs(w, w.intents[id], w.intents[id].order.buyer).None?
    && w.intents[id].order.listing in w.listings
  }

  /** What settling the buy `id` does to the stake of `a`: a sale takes the units from the seller and gives
      them to the buyer; a short one takes them from the seller. */
  function Trade(w: World, id: nat, a: Actor, item: string): int {
    if Trades(w, id) then
      var l := w.listings[w.intents[id].order.listing];
      Where(a == w.intents[id].order.buyer && l.item == item && Funded(w, id, l.price), l.qty)
      - Where(a == l.seller && l.item == item, l.qty)
    else 0
  }

  lemma GiveStake(items: map<Holding, nat>, a: Actor, it: string, n: Quantity, b: Actor, item: string)
    ensures Qty(Give(items, a, it, n), b, item) == Qty(items, b, item) + Where(a == b && it == item, n)
  {
  }

  lemma TakeStake(items: map<Holding, nat>, a: Actor, it: string, n: Quantity, b: Actor, item: string)
    requires Qty(items, a, it) >= n
    ensures Qty(Take(items, a, it, n), b, item) == Qty(items, b, item) - Where(a == b && it == item, n)
  {
  }

  lemma StakeFrame(w: World, u: World, a: Actor, item: string)
    requires u.items == w.items && u.listings == w.listings
    ensures Stake(u, a, item) == Stake(w, a, item)
  {
  }

  lemma ListStake(w: World, i: Intent, minted: string, a: Actor, item: string)
    requires i.order.List? && ApplyList(w, i, minted).Done?
    ensures Stake(ApplyList(w, i, minted).world, a, item) == Stake(w, a, item)
  {
    var d := i.order;
    var lid := if d.chosen.Some? then d.chosen.value else minted;
    TakeStake(w.items, d.seller, d.item, d.qty, a, item);
    TotalUpdate(w.listings, lid, Listing(d.seller, d.item, d.qty, d.price), OnSaleBy(a, item));
    hide Take, ActsAs;
  }

  lemma CancelStake(w: World, i: Intent, a: Actor, item: string)
    requires i.order.Cancel? && ApplyCancel(w, i).Done?
    ensures Stake(ApplyCancel(w, i).world, a, item) == Stake(w, a, item)
  {
    var l := w.listings[i.order.listing];
    GiveStake(w.items, l.seller, l.item, l.qty, a, item);
    TotalWithout(w.listings, i.order.listing, OnSaleBy(a, item));
    hide Give, MayCancel;
  }

  lemma BuyGoods(w: World, id: nat)
    requires IsPending(w, id) && w.intents[id].order.Buy?
    ensures var d, u := w.intents[id].order, ApplyBuy(w, id, w.intents[id]).world;
            if !Trades(w, id) then u.items == w.items && u.listings == w.listings
            else
              var l := w.listings[d.listing];
              && u.listings == w.listings - {d.listing}
              && u.items == if Funded(w, id, l.price) then Give(w.items, d.buyer, l.item, l.qty) else w.items
  {
    var d := w.intents[id].order;
    ReleaseKeepsGoods(w, id);
    if d.listing in w.listings {
      var v := w.(listings := w.listings - {d.listing});
      ReleaseKeepsGoods(v, id);
      SoldGoods(v, id, d.buyer, w.listings[d.listing]);
    }
    hide Give, Qty, Release, Shift, ActsAs, Sold;
  }

  lemma BuyStake(w: World, id: nat, a: Actor, item: string)
    requires IsPending(w, id) && w.intents[id].order.Buy?
    ensures Stake(ApplyBuy(w, id, w.intents[id]).world, a, item) == Stake(w, a, item) + Trade(w, id, a, item)
  {
    var d := w.intents[id].order;
    BuyGoods(w, id);
    hide ApplyBuy, Give, Qty, ActsAs, Total, IsHeld;
    if Trades(w, id) {
      var l := w.listings[d.listing];
      GiveStake(w.items, d.buyer, l.item, l.qty, a, item);
      TotalWithout(w.listings, d.listing, OnSaleBy(a, item));
    }
  }

  lemma NoTrade(w: World, id: nat, a: Actor, item: string)
    requires !(IsPending(w, id) && w.intents[id].order.Buy?)
    ensures Trade(w, id, a, item) == 0
  {
  }

  lemma ApplyStake(w: World, id: nat, minted: string, a: Actor, item: string)
    requires Good(w) && IsPending(w, id) && !w.intents[id].order.Feed?
    ensures IsForest(w.messages)
    ensures var o := Apply(w, id, w.intents[id], minted);
            if o.Raised? then Trade(w, id, a, item) == 0 else Stake(o.world, a, item) == Stake(w, a, item) + Trade(w, id, a, item)
  {
    var i := w.intents[id];
    GoodForest(w);
    hide Good, Stake, Qty, Take, Give, ActsAs, MayCancel, Sold, Release, Trade;
    if i.order.Buy? {
      BuyStake(w, id, a, item);
    } else {
      NoTrade(w, id, a, item);
      if i.order.List? {
        if ApplyList(w, i, minted).Done? { ListStake(w, i, minted, a, item); }
      } else if i.order.Cancel? {
        if ApplyCancel(w, i).Done? { CancelStake(w, i, a, item); }
      } else {
        OthersKeepGoods(w, id, minted);
        StakeFrame(w, Apply(w, id, i, minted).world, a, item);
      }
    }
  }

  lemma SettleStake(w: World, id: nat, minted: string, a: Actor, item: string)
    requires Good(w) && IsPending(w, id) && !w.intents[id].order.Feed?
    ensures IsForest(w.messages)
    ensures Stake(Settle(w, id, minted), a, item) == Stake(w, a, item) + Trade(w, id, a, item)
  {
    ApplyStake(w, id, minted, a, item);
    var o := Apply(w, id, w.intents[id], minted);
    hide Good, Stake, Release, Conclude, Apply, Compensate, Trade;
    match o
    case Done(v) =>
      ConcludeGoods(v, id, Adjudicated, IntentAdjudicated(id));
      StakeFrame(v, Settle(w, id, minted), a, item);
    case Refuse(v, why) =>
      ReleaseFrame(v, id);
      ConcludeGoods(v, id, Rejected, IntentRejected(id, why));
      ConcludeGoods(Release(v, id), id, Rejected, IntentRejected(id, why));
      StakeFrame(v, Settle(w, id, minted), a, item);
    case Raised =>
      CompensateGoods(w, id);
      StakeFrame(w, Compensate(w, id), a, item);
  }

  lemma AdjudicateStake(w: World, id: nat, minted: string, a: Actor, item: string)
    requires Good(w)
    ensures IsForest(w.messages)
    ensures Stake(Adjudicate(w, id, minted), a, item) == Stake(w, a, item) + Trade(w, id, a, item)
  {
    GoodForest(w);
    if id < |w.intents| && w.intents[id].order.Feed? {
      FeedGoods(w, id);
      NoTrade(w, id, a, item);
      hide Good, AdjudicateFeed, Stake, Trade;
      StakeFrame(w, AdjudicateFeed(w, id), a, item);
    } else if IsPending(w, id) {
      hide Good, Settle, Stake, Trade;
      SettleStake(w, id, minted, a, item);
    }
  }

  function StepTrade(w: World, s: Step, a: Actor, item: string): int {
    if s.Adjudicates? then Trade(w, s.id, a, item) else 0
  }

  /** One step changes what an actor has of an item by exactly what it buys and what is bought from it. */
  lemma NextStake(w: World, s: Step, a: Actor, item: string)
    requires Good(w)
    ensures Stake(Next(w, s), a, item) == Stake(w, a, item) + StepTrade(w, s, a, item)
  {
    GoodForest(w);
    var u := Next(w, s);
    hide Good, Submit, Adjudicate, Fault, ReconcileUpTo, Mint, Stake, Trade;
    if s.Adjudicates? {
      AdjudicateStake(w, s.id, s.minted, a, item);
    } else {
      match s {
        case Submits(i) => AcceptGoods(w, i);
        case Faults(id) => FaultGoods(w, id);
        case Reconciles => ReconcileGoods(w, |w.intents|);
        case Mints(b, custodian) => MintGoods(w, b, custodian);
        case SetsBody(_, _) =>
      }
      StakeFrame(w, u, a, item);
    }
  }

  ghost function TradeOver(w: World, steps: seq<Step>, a: Actor, item: string): int
    requires Good(w)
  {
    if steps == [] then 0
    else
      TradeOver(w, steps[..|steps| - 1], a, item)
      + StepTrade(Run(w, steps[..|steps| - 1]), steps[|steps| - 1], a, item)
  }

  /** Over any run, whatever is listed, cancelled, refused or swept: what an actor has of an item, in hand
      and on sale together, is what it had, plus what it bought, minus what was bought from it. */
  lemma {:induction false} RunStake(w: World, steps: seq<Step>, a: Actor, item: string)
    requires Good(w)
    ensures Stake(Run(w, steps), a, item) == Stake(w, a, item) + TradeOver(w, steps, a, item)
  {
    if steps != [] {
      var before, last := steps[..|steps| - 1], steps[|steps| - 1];
      RunStake(w, before, a, item);
      hide Good, Next, Stake, StepTrade;
      NextStake(Run(w, before), last, a, item);
    }
  }

  /** With fresh listing ids no step takes units from a seller without giving them to a buyer: the trade of
      an intent is a gain only for its buyer, a loss only for the seller, and of equal size. */
  lemma TradesAreSales(w: World, id: nat, item: string)
    requires Good(w) && Priced(w) && IsPending(w, id) && w.intents[id].order.Buy? && w.intents[id].order.listing in w.listings
    ensures var buyer, seller := w.intents[id].order.buyer, w.listings[w.intents[id].order.listing].seller;
            && Trade(w, id, buyer, item) + Where(buyer != seller, Trade(w, id, seller, item)) == 0
            && forall a :: a != buyer && a != seller ==> Trade(w, id, a, item) == 0
  {
    NeverShort(w);
    assert !FallsShort(w, id);
    hide Good, Priced, ActsAs, Funded;
  }
}
