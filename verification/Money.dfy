/** Conservation: for every actor the cached balance, the ledger and the held escrows agree. */
module Money {
  import opened Options
  import opened Threads
  import opened Economy
  import opened Integrity
  import Plots
  import opened Sums

  /** What a ledger row adds to the balance of its actor. */
  function Signed(r: Row): int {
    match r.entry
    case Debit => 0 - r.amount
    case Credit => r.amount
    case MintEntry => r.amount
    case FeedDebit => r.amount
    case FeedCredit => r.amount
    case Tax => 0
    case Memo => 0
  }

  function NetOf(ledger: seq<Row>, a: Actor): int {
    if ledger == [] then 0
    else
      var last := ledger[|ledger| - 1];
      NetOf(ledger[..|ledger| - 1], a) + if last.actor == Some(a) then Signed(last) else 0
  }

  function TaxTotal(ledger: seq<Row>): int {
    if ledger == [] then 0
    else
      var last := ledger[|ledger| - 1];
      TaxTotal(ledger[..|ledger| - 1]) + if last.entry == Tax then last.amount else 0
  }

  function HeldBy(a: Actor): (nat, Escrow) -> int {
    (id: nat, e: Escrow) => if e.actor == a && e.status == Held then e.amount else 0
  }

  function Balance(w: World, a: Actor): int {
    if a in w.wallets then w.wallets[a] else 0
  }

  ghost function HeldTotal(w: World, a: Actor): int {
    Total(w.escrows, HeldBy(a))
  }

  /** The part of the cached balance that neither the ledger nor a held escrow explains: the
      baseline of `a`.  Zero for an actor born in the run. */
  ghost function Gap(w: World, a: Actor): int {
    Balance(w, a) - NetOf(w.ledger, a) + HeldTotal(w, a)
  }

  function FundGap(w: World): int {
    w.fund - TaxTotal(w.ledger)
  }

  // ---- What the elementary writes do ----

  function AddsTo(a: Actor, r: Row): int {
    if r.actor == Some(a) then Signed(r) else 0
  }

  function AddsTax(r: Row): int {
    if r.entry == Tax then r.amount else 0
  }

  lemma NetAppend(ledger: seq<Row>, r: Row, a: Actor)
    ensures NetOf(ledger + [r], a) == NetOf(ledger, a) + AddsTo(a, r)
    ensures TaxTotal(ledger + [r]) == TaxTotal(ledger) + AddsTax(r)
  {
    assert (ledger + [r])[..|ledger|] == ledger;
  }

  /** What is held for `a` under intent `id`. */
  function HeldAt(w: World, id: nat, a: Actor): int {
    if IsHeld(w, id) && w.escrows[id].actor == a then w.escrows[id].amount else 0
  }

  lemma HeldMarked(w: World, id: nat, status: EscrowStatus, a: Actor)
    requires status != Held
    ensures Total(Marked(w.escrows, id, status), HeldBy(a)) == HeldTotal(w, a) - HeldAt(w, id, a)
  {
    if IsHeld(w, id) {
      TotalUpdate(w.escrows, id, w.escrows[id].(status := status), HeldBy(a));
    }
  }

  lemma GapHold(w: World, u: World, id: nat, b: Actor, amount: nat, a: Actor)
    requires id !in w.escrows && b in w.wallets && u.wallets == Shift(w, b, 0 - amount).wallets
    requires u.ledger == w.ledger && u.escrows == w.escrows[id := Escrow(b, amount, Held)]
    ensures Gap(u, a) == Gap(w, a)
  {
    TotalUpdate(w.escrows, id, Escrow(b, amount, Held), HeldBy(a));
  }

  lemma GapRelease(w: World, id: nat, a: Actor)
    requires IsHeld(w, id) ==> w.escrows[id].actor in w.wallets
    ensures Gap(Release(w, id), a) == Gap(w, a)
    ensures FundGap(Release(w, id)) == FundGap(w)
  {
    HeldMarked(w, id, Released, a);
  }

  /** Only wallets, ledger, escrows and fund matter. */
  lemma GapFrame(w: World, v: World, a: Actor)
    requires v.wallets == w.wallets && v.ledger == w.ledger && v.escrows == w.escrows
    ensures Gap(v, a) == Gap(w, a)
    ensures FundGap(v) == FundGap(w) + v.fund - w.fund
  {
  }

  // ---- What each settlement does to the gap ----

  /** The buy `id` is about to be settled by a sale. */
  predicate WillSell(w: World, id: nat) {
    && IsPending(w, id) && w.intents[id].order.Buy?
    && ActsAs(w, w.intents[id], w.intents[id].order.buyer).None?
    && w.intents[id].order.listing in w.listings
    && Funded(w, id, w.listings[w.intents[id].order.listing].price)
  }

  /** What the buyer held beyond the price, which a sale does not give back. */
  function Surplus(w: World, id: nat, a: Actor): nat {
    if WillSell(w, id) && w.intents[id].order.buyer == a then
      w.escrows[id].amount - w.listings[w.intents[id].order.listing].price
    else 0
  }

  /** The outcome moves the gap of `a` by `-loss` and leaves the fund's alone. */
  ghost predicate Costs(w: World, o: Outcome, a: Actor, loss: int) {
    o.Raised? || (Gap(o.world, a) == Gap(w, a) - loss && FundGap(o.world) == FundGap(w))
  }

  lemma RefusalCosts(w: World, id: nat, why: Reason, a: Actor)
    requires Good(w)
    ensures Costs(w, Refuse(w, why), a, 0) && Costs(w, Refuse(Release(w, id), why), a, 0)
  {
    hide Good, Gap, FundGap, Release;
    PayerKnown(w, id);
    GapRelease(w, id, a);
  }

  lemma PayerKnown(w: World, id: nat)
    requires Good(w)
    ensures IsHeld(w, id) ==> w.escrows[id].actor in w.wallets
  {
    if IsHeld(w, id) {
      assert Backs(w, w.intents[id], w.escrows[id]);
    }
    hide ClaimsInOrder, ClaimsCovered, WalletsSound, SellersKnown, KeysUnique, Sound;
  }

  /** A memo row moves no money. */
  lemma MemoCosts(w: World, u: World, b: Actor, a: Actor)
    requires u.wallets == w.wallets && u.escrows == w.escrows && u.fund == w.fund
    requires u.ledger == w.ledger + [Row(Memo, Some(b), 0)]
    ensures Costs(w, Done(u), a, 0)
  {
    NetAppend(w.ledger, Row(Memo, Some(b), 0), a);
    hide NetOf, TaxTotal;
  }

  lemma SaleCosts(w: World, v: World, id: nat, buyer: Actor, l: Listing, a: Actor)
    requires v.wallets == w.wallets && v.ledger == w.ledger && v.escrows == w.escrows && v.fund == w.fund
    requires IsHeld(w, id) && w.escrows[id].actor == buyer && l.seller in w.wallets
    ensures Costs(w, Done(Sold(v, id, buyer, l)), a, if a == buyer then w.escrows[id].amount - l.price else 0)
  {
    SaleFields(v, id, buyer, l);
    SaleRowsAdd(w.ledger, buyer, l.seller, l.price, TaxOn(l.price), a);
    HeldMarked(v, id, Applied, a);
    hide NetOf, TaxTotal, TaxOn, Noted, Marked, Sold;
  }

  lemma SaleRowsAdd(ledger: seq<Row>, buyer: Actor, seller: Actor, price: int, tax: int, a: Actor)
    ensures var after := ledger + [Row(Debit, Some(buyer), price)] + [Row(Credit, Some(seller), price - tax)] + [Row(Tax, None, tax)];
            && NetOf(after, a) == NetOf(ledger, a) - (if a == buyer then price else 0) + (if a == seller then price - tax else 0)
            && TaxTotal(after) == TaxTotal(ledger) + tax
  {
    var r, s, t := Row(Debit, Some(buyer), price), Row(Credit, Some(seller), price - tax), Row(Tax, None, tax);
    NetAppend(ledger, r, a);
    NetAppend(ledger + [r], s, a);
    NetAppend(ledger + [r] + [s], t, a);
    hide NetOf, TaxTotal;
  }

  lemma SaleFields(v: World, id: nat, buyer: Actor, l: Listing)
    ensures var u, tax := Sold(v, id, buyer, l), TaxOn(l.price);
            && u.wallets == Shift(v, l.seller, l.price - tax).wallets && u.fund == v.fund + tax
            && u.escrows == Marked(v.escrows, id, Applied)
            && u.ledger == v.ledger + [Row(Debit, Some(buyer), l.price)] + [Row(Credit, Some(l.seller), l.price - tax)]
                           + [Row(Tax, None, tax)]
  {
    hide TaxOn, Noted, Marked, Give;
  }

  lemma BuyCosts(w: World, id: nat, a: Actor)
    requires Good(w) && IsPending(w, id) && w.intents[id].order.Buy?
    ensures Costs(w, ApplyBuy(w, id, w.intents[id]), a, Surplus(w, id, a))
  {
    var i := w.intents[id];
    var d := i.order;
    OwnEscrow(w, id);
    if d.listing !in w.listings || ActsAs(w, i, d.buyer).Some? {
      hide Costs, Good, Release, ActsAs, Sold;
      RefusalCosts(w, id, ListingGone, a);
      if ActsAs(w, i, d.buyer).Some? {
        RefusalCosts(w, id, ActsAs(w, i, d.buyer).value, a);
      }
    } else if Funded(w, id, w.listings[d.listing].price) {
      SaleCosts(w, w.(listings := w.listings - {d.listing}), id, d.buyer, w.listings[d.listing], a);
      hide Costs, Good, Release, ActsAs, Sold;
    } else {
      hide Good, Release, ActsAs, Sold;
      ShortBuyCosts(w, id, a);
    }
  }

  lemma ShortBuyCosts(w: World, id: nat, a: Actor)
    requires Good(w) && IsPending(w, id) && w.intents[id].order.Buy? && w.intents[id].order.listing in w.listings
    requires !Funded(w, id, w.listings[w.intents[id].order.listing].price)
    requires ActsAs(w, w.intents[id], w.intents[id].order.buyer).None?
    ensures Costs(w, ApplyBuy(w, id, w.intents[id]), a, 0)
  {
    var d := w.intents[id].order;
    var v := w.(listings := w.listings - {d.listing});
    GapFrame(w, v, a);
    GapRelease(v, id, a);
    hide Good, Release, ActsAs, Sold, Gap, FundGap;
  }

  lemma ClaimCosts(w: World, id: nat, a: Actor)
    requires Good(w) && IsPending(w, id) && w.intents[id].order.Claim?
    ensures Costs(w, ApplyClaim(w, id, w.intents[id]), a, 0)
  {
    NextIsClaims(w);
    OwnEscrow(w, id);
    var claimant := Soul(w.intents[id].order.claimant);
    var o := ApplyClaim(w, id, w.intents[id]);
    if w.claims < |Plots.AllocationOrder(w.grid)| {
      assert IsPending(w, id) && id in w.escrows && w.escrows[id].amount <= FeeAt(w.grid, w.claims);
    }
    hide Good, NextPlot, FeeAt, Claimed, MayClaim, Release, ToppedUp, Costs, Plots.AllocationOrder;
    if o.Refuse? {
      RefusalCosts(w, id, o.reason, a);
    } else {
      ClaimedCosts(w, id, claimant, FeeAt(w.grid, w.claims), a);
    }
  }

  lemma ClaimedCosts(w: World, id: nat, claimant: Actor, fee: nat, a: Actor)
    requires IsHeld(w, id) && w.escrows[id].actor == claimant && claimant.Soul? && claimant in w.wallets
    requires w.claims < |Plots.AllocationOrder(w.grid)| && fee == FeeAt(w.grid, w.claims) && w.escrows[id].amount <= fee
    ensures Costs(w, Done(Claimed(ToppedUp(w, claimant, fee - w.escrows[id].amount), id, claimant.id, w.claims)), a, 0)
  {
    hide FeeAt, NetOf, TaxTotal, Noted, Marked, Plots.AllocationOrder;
    var r, t := Row(Debit, Some(claimant), fee), Row(Tax, None, fee);
    NetAppend(w.ledger, r, a);
    NetAppend(w.ledger + [r], t, a);
    HeldMarked(w, id, Applied, a);
  }

  lemma WritingCosts(w: World, id: nat, m: Message, author: Actor, cost: nat, a: Actor)
    requires author.Soul? ==> IsHeld(w, id) && w.escrows[id].actor == author && w.escrows[id].amount == cost
    ensures Costs(w, Done(Written(w, id, m, author, cost)), a, 0)
  {
    NetAppend(w.ledger, Row(Debit, Some(author), cost), a);
    HeldMarked(w, id, Applied, a);
    hide NetOf, TaxTotal, Marked;
  }

  lemma PostCosts(w: World, id: nat, a: Actor)
    requires Good(w) && IsPending(w, id) && (w.intents[id].order.Post? || w.intents[id].order.Reply?)
    ensures w.intents[id].order.Post? ==> Costs(w, ApplyPost(w, id, w.intents[id]), a, 0)
    ensures w.intents[id].order.Reply? ==> Costs(w, ApplyReply(w, id, w.intents[id]), a, 0)
  {
    OwnEscrow(w, id);
    var d := w.intents[id].order;
    var m := if d.Post? then Message(None, d.author.Tamer?, d.author.id, d.title, d.body, false)
             else Message(Some(d.answers), d.author.Tamer?, d.author.id, "", d.body, false);
    var o := if d.Post? then ApplyPost(w, id, w.intents[id]) else ApplyReply(w, id, w.intents[id]);
    hide Good, Written, ActsAs, DormantActor, ParentCheck, Costs;
    if o.Refuse? {
      RefusalCosts(w, id, o.reason, a);
    } else {
      WritingCosts(w, id, m, d.author, if d.Post? then POST_COST else REPLY_COST, a);
    }
  }

  lemma ListingCosts(w: World, id: nat, minted: string, a: Actor)
    requires Good(w) && IsPending(w, id) && (w.intents[id].order.List? || w.intents[id].order.Cancel?)
    ensures w.intents[id].order.List? ==> Costs(w, ApplyList(w, w.intents[id], minted), a, 0)
    ensures w.intents[id].order.Cancel? ==> Costs(w, ApplyCancel(w, w.intents[id]), a, 0)
  {
    var i := w.intents[id];
    var o := if i.order.List? then ApplyList(w, i, minted) else ApplyCancel(w, i);
    hide Good, Qty, Take, Give, ActsAs, MayCancel, Costs;
    if o.Refuse? {
      RefusalCosts(w, id, o.reason, a);
    } else if o.Done? {
      var b := if i.order.List? then i.order.seller else if i.order.byTamer then Tamer(i.soul) else Soul(i.soul);
      MemoCosts(w, o.world, b, a);
    }
    assert Costs(w, Raised, a, 0) by { RaisedCosts(w, a); }
  }

  lemma RaisedCosts(w: World, a: Actor)
    ensures Costs(w, Raised, a, 0)
  {
  }

  lemma EditCosts(w: World, i: Intent, a: Actor)
    requires i.order.Edit?
    ensures Costs(w, ApplyEdit(w, i), a, 0)
  {
    hide MutationCheck, Costs;
    FrameCosts(w, ApplyEdit(w, i), a);
  }

  lemma DeleteCosts(w: World, i: Intent, a: Actor)
    requires i.order.Delete?
    ensures Costs(w, ApplyDelete(w, i), a, 0)
  {
    hide MutationCheck, Costs;
    FrameCosts(w, ApplyDelete(w, i), a);
  }

  lemma FrameCosts(w: World, o: Outcome, a: Actor)
    requires !o.Raised? && o.world.wallets == w.wallets && o.world.ledger == w.ledger
    requires o.world.escrows == w.escrows && o.world.fund == w.fund
    ensures Costs(w, o, a, 0)
  {
  }

  lemma ApplyCosts(w: World, id: nat, minted: string, a: Actor)
    requires Good(w) && IsPending(w, id) && !w.intents[id].order.Feed?
    ensures Costs(w, Apply(w, id, w.intents[id], minted), a, Surplus(w, id, a))
  {
    hide Costs, Good, ApplyList, ApplyBuy, ApplyCancel, ApplyClaim, ApplyPost, ApplyReply, ApplyEdit, ApplyDelete;
    match w.intents[id].order
    case List(_, _, _, _, _) => ListingCosts(w, id, minted, a);
    case Buy(_, _) => BuyCosts(w, id, a);
    case Cancel(_, _) => ListingCosts(w, id, minted, a);
    case Claim(_) => ClaimCosts(w, id, a);
    case Post(_, _, _) => PostCosts(w, id, a);
    case Reply(_, _, _) => PostCosts(w, id, a);
    case Edit(_, _) => EditCosts(w, w.intents[id], a);
    case Delete(_) => DeleteCosts(w, w.intents[id], a);
  }

  // ---- What each step does to the gap ----

  /** What a step costs `a`: the surplus of the sale it settles, if any. */
  function StepLoss(w: World, s: Step, a: Actor): nat {
    if s.Adjudicates? then Surplus(w, s.id, a) else 0
  }

  lemma ConcludeGap(w: World, id: nat, status: Status, event: Event, a: Actor)
    requires id < |w.intents|
    ensures Gap(Conclude(w, id, status, event), a) == Gap(w, a)
    ensures FundGap(Conclude(w, id, status, event)) == FundGap(w)
  {
    hide Gap, FundGap;
    GapFrame(w, Conclude(w, id, status, event), a);
  }

  lemma CompensateGap(w: World, id: nat, a: Actor)
    requires Good(w) && IsPending(w, id)
    ensures Gap(Compensate(w, id), a) == Gap(w, a) && FundGap(Compensate(w, id)) == FundGap(w)
  {
    RefusalCosts(w, id, Internal, a);
    ReleaseFrame(w, id);
    hide Good, Gap, FundGap, Release, Conclude;
    ConcludeGap(if RefundsOnFault(w.intents[id].order) then Release(w, id) else w, id, Rejected, IntentRejected(id, Internal), a);
  }

  lemma RefusedGap(w: World, v: World, id: nat, why: Reason, a: Actor)
    requires Good(w) && IsPending(w, id) && !w.intents[id].order.Feed? && v.intents == w.intents
    requires FitOutcome(w, Refuse(v, why), id)
    ensures Gap(Release(v, id), a) == Gap(v, a) && FundGap(Release(v, id)) == FundGap(v)
  {
    OwnEscrow(w, id);
    hide Good, Gap, FundGap, Release, ClaimsAdvance, Sound, WalletsSound, SellersKnown;
    GapRelease(v, id, a);
  }

  lemma SettleGap(w: World, id: nat, minted: string, a: Actor)
    requires Good(w) && IsPending(w, id) && !w.intents[id].order.Feed?
    ensures Gap(Settle(w, id, minted), a) == Gap(w, a) - Surplus(w, id, a)
    ensures FundGap(Settle(w, id, minted)) == FundGap(w)
  {
    ApplyCosts(w, id, minted, a);
    FitApply(w, id, minted);
    NoSurplusWhenRefused(w, id, minted, a);
    var o := Apply(w, id, w.intents[id], minted);
    hide Good, Gap, FundGap, Release, Conclude, Apply, Compensate, FitOutcome, Surplus;
    match o
    case Done(v) => ConcludeGap(v, id, Adjudicated, IntentAdjudicated(id), a);
    case Refuse(v, why) =>
      RefusedGap(w, v, id, why, a);
      ReleaseFrame(v, id);
      ConcludeGap(v, id, Rejected, IntentRejected(id, why), a);
      ConcludeGap(Release(v, id), id, Rejected, IntentRejected(id, why), a);
    case Raised => CompensateGap(w, id, a);
  }

  lemma NoSurplusWhenRefused(w: World, id: nat, minted: string, a: Actor)
    requires Good(w) && IsPending(w, id) && !w.intents[id].order.Feed?
    ensures Apply(w, id, w.intents[id], minted).Raised? ==> Surplus(w, id, a) == 0
  {
    hide Good, Sold, Shift, Release, ActsAs;
  }

  lemma FedFields(w: World, id: nat, feeder: string, recipient: string)
    requires recipient in w.souls
    ensures var u := Fed(w, id, feeder, recipient);
            && u.wallets == Shift(w, Soul(recipient), FEED_COST).wallets && u.fund == w.fund
            && u.escrows == Marked(w.escrows, id, Applied)
            && u.ledger == w.ledger + [Row(FeedDebit, Some(Soul(feeder)), 0 - FEED_COST)]
                           + [Row(FeedCredit, Some(Soul(recipient)), FEED_COST)]
  {
    hide Noted, Marked;
  }

  lemma FedGap(w: World, id: nat, feeder: string, recipient: string, a: Actor)
    requires IsHeld(w, id) && w.escrows[id].actor == Soul(feeder) && w.escrows[id].amount == FEED_COST
    requires recipient in w.souls && Soul(recipient) in w.wallets
    ensures Costs(w, Done(Fed(w, id, feeder, recipient)), a, 0)
  {
    FedFields(w, id, feeder, recipient);
    hide NetOf, TaxTotal, Noted, Marked, Fed;
    var r, t := Row(FeedDebit, Some(Soul(feeder)), 0 - FEED_COST), Row(FeedCredit, Some(Soul(recipient)), FEED_COST);
    NetAppend(w.ledger, r, a);
    NetAppend(w.ledger + [r], t, a);
    HeldMarked(w, id, Applied, a);
  }

  lemma FeedGap(w: World, id: nat, a: Actor)
    requires Good(w) && id < |w.intents| && w.intents[id].order.Feed?
    ensures Gap(AdjudicateFeed(w, id), a) == Gap(w, a) && FundGap(AdjudicateFeed(w, id)) == FundGap(w)
  {
    var i := w.intents[id];
    var refusal := FeedCheck(w, id, i);
    if refusal.Some? {
      RefusalCosts(w, id, Internal, a);
      ReleaseFrame(w, id);
      hide Good, Gap, FundGap, Release, Conclude, FeedCheck, Fed;
      ConcludeGap(Release(w, id), id, Rejected, IntentRejected(id, refusal.value), a);
    } else {
      assert Backs(w, i, w.escrows[id]);
      FedGap(w, id, i.soul, i.order.recipient, a);
      FedFrame(w, id, i.order.recipient);
      hide Good, Gap, FundGap, Release, Conclude, FeedCheck, Fed, SameActors;
      ConcludeGap(Fed(w, id, i.soul, i.order.recipient), id, Adjudicated, SoulFed(id), a);
    }
  }

  lemma AdjudicateGap(w: World, id: nat, minted: string, a: Actor)
    requires Good(w)
    ensures Gap(Adjudicate(w, id, minted), a) == Gap(w, a) - Surplus(w, id, a)
    ensures FundGap(Adjudicate(w, id, minted)) == FundGap(w)
    ensures Gap(Fault(w, id), a) == Gap(w, a) && FundGap(Fault(w, id)) == FundGap(w)
  {
    assert IsForest(w.messages);
    if id < |w.intents| && w.intents[id].order.Feed? {
      FeedGap(w, id, a);
      hide Good, Gap, FundGap, AdjudicateFeed, Conclude;
      ConcludeGap(w, id, Rejected, IntentRejected(id, Internal), a);
    } else if IsPending(w, id) {
      SettleGap(w, id, minted, a);
      CompensateGap(w, id, a);
      hide Good, Gap, FundGap, Settle, Compensate, Surplus;
    }
  }

  lemma SubmitGap(w: World, i: Intent, a: Actor)
    requires Good(w)
    ensures Gap(Submit(w, i).0, a) == Gap(w, a) && FundGap(Submit(w, i).0) == FundGap(w)
  {
    assert IsForest(w.messages);
    hide Good, Preface, Afford, ChargeFor, Accept, Malformed, Gap, FundGap, FindKey;
    if Preface(w, i).None? && Afford(w, ChargeFor(w, i)).None? {
      AcceptGap(w, i, a);
    }
  }

  lemma AcceptGap(w: World, i: Intent, a: Actor)
    requires Good(w) && Preface(w, i).None? && Afford(w, ChargeFor(w, i)).None?
    ensures Gap(Accept(w, i), a) == Gap(w, a) && FundGap(Accept(w, i)) == FundGap(w)
  {
    assert |w.intents| !in w.escrows;
    ChargeFits(w, i);
    AcceptFrame(w, i);
    var u, c := Accept(w, i), ChargeFor(w, i);
    hide Good, Preface, Afford, ChargeFor, Accept, Shift;
    if c.Charge? {
      GapHold(w, u, |w.intents|, c.actor, c.amount, a);
    }
  }

  lemma ReconcileOneGap(w: World, id: nat, a: Actor)
    requires Good(w)
    ensures Gap(ReconcileOne(w, id), a) == Gap(w, a) && FundGap(ReconcileOne(w, id)) == FundGap(w)
  {
    if IsHeld(w, id) && !IsPending(w, id) {
      assert Backs(w, w.intents[id], w.escrows[id]);
      hide Good, NetOf, TaxTotal, Marked;
      HeldMarked(w, id, Released, a);
    }
  }

  lemma {:induction false} ReconcileGap(w: World, n: nat, a: Actor)
    requires Good(w)
    ensures Gap(ReconcileUpTo(w, n), a) == Gap(w, a) && FundGap(ReconcileUpTo(w, n)) == FundGap(w)
  {
    hide Good, Gap, FundGap, ReconcileOne;
    if n > 0 {
      ReconcileUpToGood(w, n - 1);
      ReconcileGap(w, n - 1, a);
      ReconcileOneGap(ReconcileUpTo(w, n - 1), n - 1, a);
    }
  }

  lemma MintGap(w: World, b: Actor, custodian: Option<string>, a: Actor)
    ensures Gap(Mint(w, b, custodian), a) == Gap(w, a) && FundGap(Mint(w, b, custodian)) == FundGap(w)
  {
    NetAppend(w.ledger, Row(MintEntry, Some(b), STARTER_GRANT), a);
    hide NetOf, TaxTotal;
  }

  /** The exact law of one step: nobody's baseline moves, but for the surplus of a sale. */
  lemma NextGap(w: World, s: Step, a: Actor)
    requires Good(w)
    ensures Gap(Next(w, s), a) == Gap(w, a) - StepLoss(w, s, a) && FundGap(Next(w, s)) == FundGap(w)
  {
    assert IsForest(w.messages);
    hide Submit, Adjudicate, Fault, ReconcileUpTo, Mint, Gap, FundGap, Good, Surplus;
    match s {
      case Submits(i) => SubmitGap(w, i, a);
      case Adjudicates(id, minted) => AdjudicateGap(w, id, minted, a);
      case Faults(id) => AdjudicateGap(w, id, "", a);
      case Reconciles => ReconcileGap(w, |w.intents|, a);
      case Mints(b, custodian) => MintGap(w, b, custodian, a);
      case SetsBody(soul, row) => GapFrame(w, SetBody(w, soul, row), a);
    }
  }

  // ---- Conservation over runs ----

  ghost function LossOver(w: World, steps: seq<Step>, a: Actor): nat
    requires Good(w)
  {
    if steps == [] then 0
    else
      var before := steps[..|steps| - 1];
      LossOver(w, before, a) + StepLoss(Run(w, before), steps[|steps| - 1], a)
  }

  /** Over any run, an actor's cached balance is its baseline plus its ledger total minus its held
      escrows, minus what it held beyond the price of the listings it bought; and the fund is its
      baseline plus all tax rows. */
  lemma {:induction false} RunConserves(w: World, steps: seq<Step>, a: Actor)
    requires Good(w)
    ensures Gap(Run(w, steps), a) == Gap(w, a) - LossOver(w, steps, a)
    ensures FundGap(Run(w, steps)) == FundGap(w)
  {
    if steps != [] {
      hide Gap, FundGap, Good, Next, StepLoss;
      var before := steps[..|steps| - 1];
      RunConserves(w, before, a);
      NextGap(Run(w, before), steps[|steps| - 1], a);
    }
  }

  /** So the balance is conserved exactly in the runs without a surplus. */
  lemma ConservedIff(w: World, steps: seq<Step>, a: Actor)
    requires Good(w)
    ensures Gap(Run(w, steps), a) == Gap(w, a) <==> LossOver(w, steps, a) == 0
  {
    hide Gap, Good;
    RunConserves(w, steps, a);
  }
}
