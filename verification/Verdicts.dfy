/** What the journal says of an adjudication: which event it writes, and that a reason is true. */
module Verdicts {
  import opened Options
  import opened Threads
  import opened Economy
  import opened Integrity
  import opened Outcomes
  import Plots

  /** The sender may still have the order settled. */
  predicate Entitled(w: World, i: Intent) {
    match i.order
    case List(seller, _, _, _, _) => Speaks(w, i, seller)
    case Buy(buyer, _) => Speaks(w, i, buyer)
    case Cancel(listing, _) => listing in w.listings && Speaks(w, i, Soul(w.listings[listing].seller.id))
    case Claim(claimant) => SpeaksAsItself(w, i, claimant)
    case Post(author, _, _) => Speaks(w, i, author)
    case Reply(author, _, _) => Speaks(w, i, author)
    case Edit(m, _) => i.custodian.None? || (m < |w.messages| && w.messages[m].author == i.soul)
    case Delete(m) => i.custodian.None? || (m < |w.messages| && w.messages[m].author == i.soul)
    case Feed(_, _) => i.custodian.None? || Keeps(w, i.custodian, i.soul)
  }

  /** Who must be awake when the order is settled: an author. */
  predicate AuthorSleeps(w: World, i: Intent) {
    match i.order
    case Post(author, _, _) => DormantActor(w, author)
    case Reply(author, _, _) => DormantActor(w, author)
    case Edit(m, _) => m < |w.messages| && !w.messages[m].byTamer && Dormant(w, w.messages[m].author)
    case Delete(m) => m < |w.messages| && !w.messages[m].byTamer && Dormant(w, w.messages[m].author)
    case _ => false
  }

  /** What a reason says about the order and the tables at the moment of its settlement. */
  predicate Because(w: World, id: nat, minted: string, why: Reason)
    requires id < |w.intents| && IsForest(w.messages)
  {
    var i := w.intents[id];
    match why
    case ActorNotFound =>
      (i.order.List? || i.order.Buy? || i.order.Claim? || i.order.Post? || i.order.Reply?) && ActingFor(i) !in w.wallets
    case CustodyDenied => !Entitled(w, i)
    case SoulIsDormant => AuthorSleeps(w, i)
    case InsufficientInventory => i.order.List? && Qty(w.items, i.order.seller, i.order.item) < i.order.qty
    case ListingGone => i.order.Buy? && i.order.listing !in w.listings
    case ListingNotFound => i.order.Cancel? && i.order.listing !in w.listings
    case EscrowShort => i.order.Buy? && i.order.listing in w.listings && id in w.escrows
                        && w.escrows[id].amount < w.listings[i.order.listing].price
    case NoPlotsLeft => i.order.Claim? && w.claims == |Plots.AllocationOrder(w.grid)|
    case InsufficientFunds => i.order.Claim? && id in w.escrows && !MayHavePlot(w, id) && w.claims < |Plots.AllocationOrder(w.grid)|
    case TitleRequired => i.order.Post? && i.order.title == ""
    case BadParent(ParentNotFound) => i.order.Reply? && i.order.answers >= |w.messages|
    case BadParent(ParentDeleted) =>
      i.order.Reply? && i.order.answers < |w.messages| && w.messages[i.order.answers].deleted
    case BadParent(DepthExceeded) =>
      i.order.Reply? && i.order.answers < |w.messages| && Depth(w.messages, i.order.answers) >= 25
    case MessageNotFound => (i.order.Edit? || i.order.Delete?) && i.order.message >= |w.messages|
    case MessageDeleted => i.order.Edit? && i.order.message < |w.messages| && w.messages[i.order.message].deleted
    case RecipientNotFound => i.order.Feed? && i.order.recipient !in w.souls
    case NotCollapsed => i.order.Feed? && i.order.recipient in w.souls && !w.souls[i.order.recipient].collapsed
    case AlreadyFed => i.order.Feed? && i.order.recipient in w.souls && w.souls[i.order.recipient].fed
    case Internal => i.order.List? && (if i.order.chosen.Some? then i.order.chosen.value else minted) in w.listings
    case _ => false
  }

  /** Settling a pending intent ends the journal with its verdict: that it went through, or that it was
      rejected for a reason that holds of it. */
  lemma VerdictIsTrue(w: World, id: nat, minted: string)
    requires Good(w) && IsPending(w, id)
    ensures IsForest(w.messages)
    ensures var u := Adjudicate(w, id, minted);
            && |u.intents| == |w.intents| && |u.journal| > 0 && u.intents[id].status != Pending
            && var e := u.journal[|u.journal| - 1];
               if u.intents[id].status == Adjudicated then
                 e == if w.intents[id].order.Feed? then SoulFed(id) else IntentAdjudicated(id)
               else e.IntentRejected? && e.id == id && Because(w, id, minted, e.reason)
  {
    assert IsForest(w.messages);
    hide Good, Because, FeedCheck, Release, Fed, Settle;
    ReleaseFrame(w, id);
    if w.intents[id].order.Feed? {
      FeedVerdict(w, id);
    } else {
      ApplyVerdict(w, id, minted);
      SettleVerdict(w, id, minted);
    }
  }

  lemma FeedVerdict(w: World, id: nat)
    requires Good(w) && IsPending(w, id) && w.intents[id].order.Feed?
    ensures IsForest(w.messages)
    ensures var why := FeedCheck(w, id, w.intents[id]); why.Some? ==> Because(w, id, "", why.value)
    ensures forall minted, why :: Because(w, id, "", why) ==> Because(w, id, minted, why)
  {
    OwnEscrow(w, id);
  }

  lemma SettleVerdict(w: World, id: nat, minted: string)
    requires IsForest(w.messages) && IsPending(w, id) && !w.intents[id].order.Feed?
    requires var o := Apply(w, id, w.intents[id], minted);
             && (o.Refuse? ==> Because(w, id, minted, o.reason)) && (o.Raised? ==> Because(w, id, minted, Internal))
    ensures var u := Settle(w, id, minted);
            && |u.intents| == |w.intents| && |u.journal| > 0 && u.intents[id].status != Pending
            && var e := u.journal[|u.journal| - 1];
               if u.intents[id].status == Adjudicated then e == IntentAdjudicated(id)
               else e.IntentRejected? && e.id == id && Because(w, id, minted, e.reason)
  {
    var o := Apply(w, id, w.intents[id], minted);
    ReleaseFrame(w, id);
    if o.Refuse? {
      ReleaseFrame(o.world, id);
    }
    hide Apply, Because, Release;
  }

  lemma ApplyVerdict(w: World, id: nat, minted: string)
    requires Good(w) && IsPending(w, id) && !w.intents[id].order.Feed?
    ensures IsForest(w.messages)
    ensures var o := Apply(w, id, w.intents[id], minted);
            && (o.Refuse? ==> Because(w, id, minted, o.reason)) && (o.Raised? ==> Because(w, id, minted, Internal))
  {
    assert IsForest(w.messages);
    var d := w.intents[id].order;
    hide *;
    if d.List? {
      ListVerdict(w, id, minted);
    } else if d.Buy? {
      BuyVerdict(w, id, minted);
    } else if d.Cancel? {
      CancelVerdict(w, id, minted);
    } else if d.Claim? {
      ClaimVerdict(w, id, minted);
    } else if d.Post? {
      PostVerdict(w, id, minted);
    } else if d.Reply? {
      ReplyVerdict(w, id, minted);
    } else {
      ChangeVerdict(w, id, minted);
    }
  }

  lemma ListVerdict(w: World, id: nat, minted: string)
    requires Good(w) && IsPending(w, id) && w.intents[id].order.List?
    ensures IsForest(w.messages)
    ensures var o := Apply(w, id, w.intents[id], minted);
            && (o.Refuse? ==> Because(w, id, minted, o.reason)) && (o.Raised? ==> Because(w, id, minted, Internal))
  {
    assert IsForest(w.messages);
    OwnEscrow(w, id);
    hide Good, Take, Give, Qty, Sold, Release, IsDormant;
  }

  lemma BuyVerdict(w: World, id: nat, minted: string)
    requires Good(w) && IsPending(w, id) && w.intents[id].order.Buy?
    ensures IsForest(w.messages)
    ensures var o := Apply(w, id, w.intents[id], minted);
            && (o.Refuse? ==> Because(w, id, minted, o.reason)) && !o.Raised?
  {
    assert IsForest(w.messages);
    OwnEscrow(w, id);
    hide Good, Take, Give, Qty, Sold, Release, IsDormant;
  }

  lemma CancelVerdict(w: World, id: nat, minted: string)
    requires Good(w) && IsPending(w, id) && w.intents[id].order.Cancel?
    ensures IsForest(w.messages)
    ensures var o := Apply(w, id, w.intents[id], minted);
            && (o.Refuse? ==> Because(w, id, minted, o.reason)) && !o.Raised?
  {
    assert IsForest(w.messages);
    OwnEscrow(w, id);
    hide Good, Take, Give, Qty, Sold, Release, IsDormant;
  }

  lemma ClaimVerdict(w: World, id: nat, minted: string)
    requires Good(w) && IsPending(w, id) && w.intents[id].order.Claim?
    ensures IsForest(w.messages)
    ensures var o := Apply(w, id, w.intents[id], minted);
            && (o.Refuse? ==> Because(w, id, minted, o.reason)) && !o.Raised?
  {
    assert IsForest(w.messages) && w.claims <= |Plots.AllocationOrder(w.grid)|;
    CoveredClaim(w, id);
    hide Good, NextPlot, FeeAt, NextFee, ToppedUp, Claimed, Release, IsDormant, Plots.AllocationOrder;
  }

  lemma PostVerdict(w: World, id: nat, minted: string)
    requires Good(w) && IsPending(w, id) && w.intents[id].order.Post?
    ensures IsForest(w.messages)
    ensures var o := Apply(w, id, w.intents[id], minted);
            && (o.Refuse? ==> Because(w, id, minted, o.reason)) && !o.Raised?
  {
    assert IsForest(w.messages);
    OwnEscrow(w, id);
    hide Good, Written, Depth, IsDormant;
  }

  lemma ReplyVerdict(w: World, id: nat, minted: string)
    requires Good(w) && IsPending(w, id) && w.intents[id].order.Reply?
    ensures IsForest(w.messages)
    ensures var o := Apply(w, id, w.intents[id], minted);
            && (o.Refuse? ==> Because(w, id, minted, o.reason)) && !o.Raised?
  {
    assert IsForest(w.messages);
    OwnEscrow(w, id);
    hide Good, Written, Depth, IsDormant;
  }

  lemma ChangeVerdict(w: World, id: nat, minted: string)
    requires Good(w) && IsPending(w, id) && (w.intents[id].order.Edit? || w.intents[id].order.Delete?)
    ensures IsForest(w.messages)
    ensures var o := Apply(w, id, w.intents[id], minted);
            && (o.Refuse? ==> Because(w, id, minted, o.reason)) && !o.Raised?
  {
    assert IsForest(w.messages);
    hide Good, IsDormant;
  }
}
