/** When orders go through, and exactly what changes hands when they do. */
module Outcomes {
  import opened Options
  import opened Threads
  import opened Economy
  import opened Integrity
  import opened Money
  import Plots

  /** Only the balances of `a` and possibly of the refunded actor differ. */
  ghost predicate Paid(w: World, u: World, a: Actor, amount: int) {
    forall b :: Balance(u, b) == Balance(w, b) + if b == a then amount else 0
  }

  lemma ShiftPays(w: World, a: Actor, amount: int)
    requires a in w.wallets
    ensures Paid(w, Shift(w, a, amount), a, amount)
  {
  }

  // ---- Buying ----

  /** The buyer's debit is the full price, the seller's credit and the tax add up to it. */
  function SaleRows(buyer: Actor, l: Listing): (rows: seq<Row>)
    ensures |rows| == 3 && rows[0].amount == rows[1].amount + rows[2].amount == l.price
  {
    [Row(Debit, Some(buyer), l.price), Row(Credit, Some(l.seller), l.price - TaxOn(l.price)), Row(Tax, None, TaxOn(l.price))]
  }

  /** A buy goes through exactly if the buyer may act, the listing is open and the escrow covers it.
      Then the listing is gone, its units are with the buyer, the seller has the price less tax and the
      fund has the tax. */
  lemma SaleOutcome(w: World, id: nat, minted: string)
    requires Good(w) && IsPending(w, id) && w.intents[id].order.Buy?
    ensures var u := Adjudicate(w, id, minted);
            |u.intents| == |w.intents| && (u.intents[id].status == Adjudicated <==> WillSell(w, id))
    ensures WillSell(w, id) ==>
              var u, d := Adjudicate(w, id, minted), w.intents[id].order;
              var l := w.listings[d.listing];
              && u.listings == w.listings - {d.listing}
              && u.items == w.items[Holding(d.buyer, l.item) := Qty(w.items, d.buyer, l.item) + l.qty]
              && Paid(w, u, l.seller, l.price - TaxOn(l.price)) && u.fund == w.fund + TaxOn(l.price)
              && u.escrows == w.escrows[id := w.escrows[id].(status := Applied)]
              && u.ledger == w.ledger + SaleRows(d.buyer, l)
  {
    assert IsForest(w.messages);
    OwnEscrow(w, id);
    hide Good, ActsAs, Paid, TaxOn, SaleRows;
    BuyDoneIff(w, id);
    if WillSell(w, id) {
      SaleEffects(w, id, minted);
    } else {
      hide ApplyBuy, WillSell, Release;
    }
  }

  lemma BuyDoneIff(w: World, id: nat)
    requires IsPending(w, id) && w.intents[id].order.Buy?
    ensures ApplyBuy(w, id, w.intents[id]).Done? <==> WillSell(w, id)
    ensures !ApplyBuy(w, id, w.intents[id]).Raised?
  {
    hide Sold, Release, ActsAs;
  }

  lemma SaleEffects(w: World, id: nat, minted: string)
    requires WillSell(w, id) && IsForest(w.messages) && w.listings[w.intents[id].order.listing].seller in w.wallets
    ensures var u, d := Adjudicate(w, id, minted), w.intents[id].order;
            var l := w.listings[d.listing];
            && |u.intents| == |w.intents| && u.intents[id].status == Adjudicated
            && u.listings == w.listings - {d.listing}
            && u.items == w.items[Holding(d.buyer, l.item) := Qty(w.items, d.buyer, l.item) + l.qty]
            && Paid(w, u, l.seller, l.price - TaxOn(l.price)) && u.fund == w.fund + TaxOn(l.price)
            && u.escrows == w.escrows[id := w.escrows[id].(status := Applied)]
            && u.ledger == w.ledger + SaleRows(d.buyer, l)
  {
    var d := w.intents[id].order;
    var l := w.listings[d.listing];
    hide Noted, TaxOn, ActsAs, Shift, Sold, SaleRows;
    ShiftPays(w, l.seller, l.price - TaxOn(l.price));
    SoldOutcome(w, w.(listings := w.listings - {d.listing}), id, d.buyer, l);
  }

  lemma SoldOutcome(w: World, v: World, id: nat, buyer: Actor, l: Listing)
    requires v.wallets == w.wallets && v.journal == w.journal && v.fund == w.fund && v.escrows == w.escrows && v.items == w.items
    requires IsHeld(w, id)
    ensures var u := Sold(v, id, buyer, l);
            && u.wallets == Shift(w, l.seller, l.price - TaxOn(l.price)).wallets && u.fund == w.fund + TaxOn(l.price)
            && u.items == w.items[Holding(buyer, l.item) := Qty(w.items, buyer, l.item) + l.qty]
            && u.escrows == w.escrows[id := w.escrows[id].(status := Applied)] && u.listings == v.listings
            && u.ledger == v.ledger + SaleRows(buyer, l)
  {
    hide TaxOn, Noted;
  }

  // ---- Listing and cancelling ----

  /** The seller is known, the sender speaks for it, it holds the units, and the listing id is free. */
  predicate MayList(w: World, i: Intent, minted: string)
    requires i.order.List?
  {
    var d := i.order;
    && d.seller in w.wallets && Speaks(w, i, d.seller) && Qty(w.items, d.seller, d.item) >= d.qty
    && (if d.chosen.Some? then d.chosen.value else minted) !in w.listings
  }

  /** An order to list goes through exactly if it may.  Then the listing is open under the chosen id, or
      else the minted one, with the seller, the item, the units and the one price of the order, and the
      units have left the seller's hands; otherwise nothing is listed and nothing taken. */
  lemma ListOutcome(w: World, id: nat, minted: string)
    requires Good(w) && IsPending(w, id) && w.intents[id].order.List?
    ensures IsForest(w.messages)
    ensures var u, i := Adjudicate(w, id, minted), w.intents[id];
            var d := i.order;
            && |u.intents| == |w.intents| && u.wallets == w.wallets && u.escrows == w.escrows
            && (u.intents[id].status == Adjudicated <==> MayList(w, i, minted))
            && (if MayList(w, i, minted) then
                  var l := Listing(seller := d.seller, item := d.item, qty := d.qty, price := d.price);
                  && u.listings == w.listings[(if d.chosen.Some? then d.chosen.value else minted) := l]
                  && Qty(u.items, d.seller, d.item) == Qty(w.items, d.seller, d.item) - d.qty
                  && (forall h :: h != Holding(d.seller, d.item) ==> Qty(u.items, h.actor, h.item) == Qty(w.items, h.actor, h.item))
                  && u.ledger == w.ledger + [Row(Memo, Some(d.seller), 0)]
                else u.listings == w.listings && u.items == w.items && u.ledger == w.ledger)
  {
    assert IsForest(w.messages);
    ListDone(w, w.intents[id], minted);
    hide Good, Speaks, ApplyList, Qty, MayList;
  }

  lemma ListDone(w: World, i: Intent, minted: string)
    requires i.order.List?
    ensures var o, d := ApplyList(w, i, minted), i.order;
            && (o.Done? <==> MayList(w, i, minted))
            && (o.Refuse? ==> o.world == w)
            && (o.Done? ==>
                  var l := Listing(seller := d.seller, item := d.item, qty := d.qty, price := d.price);
                  && o.world.listings == w.listings[(if d.chosen.Some? then d.chosen.value else minted) := l]
                  && o.world.wallets == w.wallets && o.world.escrows == w.escrows
                  && Qty(o.world.items, d.seller, d.item) == Qty(w.items, d.seller, d.item) - d.qty
                  && (forall h :: h != Holding(d.seller, d.item) ==>
                        Qty(o.world.items, h.actor, h.item) == Qty(w.items, h.actor, h.item))
                  && o.world.ledger == w.ledger + [Row(Memo, Some(d.seller), 0)])
  {
  }

  /** Cancelling a fresh listing gives the seller exactly what listing it took. */
  lemma ListThenCancel(w: World, i: Intent, minted: string, c: Intent)
    requires i.order.List? && ApplyList(w, i, minted).Done?
    requires c.order.Cancel? && c.order.listing == (if i.order.chosen.Some? then i.order.chosen.value else minted)
    requires ApplyCancel(ApplyList(w, i, minted).world, c).Done?
    ensures var u := ApplyCancel(ApplyList(w, i, minted).world, c).world;
            && u.items == w.items && u.listings == w.listings && u.wallets == w.wallets && u.escrows == w.escrows
            && |u.ledger| == |w.ledger| + 2
  {
    hide ActsAs, MayCancel;
    var d := i.order;
    var taken := Take(w.items, d.seller, d.item, d.qty);
    assert Give(taken, d.seller, d.item, d.qty) == w.items;
    assert (w.listings[c.order.listing := Listing(d.seller, d.item, d.qty, d.price)]) - {c.order.listing} == w.listings;
  }

  // ---- Writing ----

  /** What a soul is charged for a post or a reply. */
  function CostOf(d: Order): nat
    requires d.Post? || d.Reply?
  {
    if d.Post? then POST_COST else REPLY_COST
  }

  /** The author is known and awake, the sender speaks for it, and there is a title, or a live message to
      answer that is not yet 25 deep. */
  predicate MayWrite(w: World, i: Intent)
    requires IsForest(w.messages) && (i.order.Post? || i.order.Reply?)
  {
    var d := i.order;
    && d.author in w.wallets && Speaks(w, i, d.author) && !DormantActor(w, d.author)
    && (if d.Post? then d.title != ""
        else d.answers < |w.messages| && !w.messages[d.answers].deleted && Depth(w.messages, d.answers) < 25)
  }

  /** The message that a post or a reply asks for. */
  predicate IsWhatWasAsked(m: Message, d: Order)
    requires d.Post? || d.Reply?
  {
    && m.parent == (if d.Reply? then Some(d.answers) else None)
    && m.byTamer == d.author.Tamer? && m.author == d.author.id
    && m.title == (if d.Post? then d.title else "") && m.body == d.body && !m.deleted
  }

  /** One message was added, the one asked for; a soul's escrow was applied and booked. */
  predicate Published(w: World, u: World, id: nat, d: Order)
    requires d.Post? || d.Reply?
  {
    var n := |w.messages|;
    && |u.messages| == n + 1 && u.messages[..n] == w.messages && IsWhatWasAsked(u.messages[n], d)
    && u.wallets == w.wallets
    && (if d.author.Tamer? then u.escrows == w.escrows && u.ledger == w.ledger
        else
          && IsHeld(w, id) && u.escrows == w.escrows[id := w.escrows[id].(status := Applied)]
          && u.ledger == w.ledger + [Row(Debit, Some(d.author), if d.Post? then 2000 else 800)])
  }

  /** No message was added; a soul has its money back. */
  ghost predicate Unpublished(w: World, u: World, id: nat, d: Order)
    requires d.Post? || d.Reply?
  {
    && u.messages == w.messages && u.ledger == w.ledger
    && (if d.author.Tamer? then u.wallets == w.wallets && u.escrows == w.escrows
        else
          && IsHeld(w, id) && u.escrows == w.escrows[id := w.escrows[id].(status := EscrowStatus.Released)]
          && Paid(w, u, d.author, if d.Post? then 2000 else 800))
  }

  /** A pending post or reply, of a soul or of a tamer, is published exactly if it may be written. */
  lemma WritingOutcome(w: World, id: nat, minted: string)
    requires Good(w) && IsPending(w, id) && (w.intents[id].order.Post? || w.intents[id].order.Reply?)
    ensures IsForest(w.messages)
    ensures var u, i := Adjudicate(w, id, minted), w.intents[id];
            && |u.intents| == |w.intents|
            && (u.intents[id].status == Adjudicated <==> MayWrite(w, i))
            && (if MayWrite(w, i) then Published(w, u, id, i.order) else Unpublished(w, u, id, i.order))
  {
    var i := w.intents[id];
    hide *;
    WriterPaid(w, id);
    WritingDone(w, id, i);
    RefundOrNothing(w, id);
    WritingSettled(w, id, minted);
  }

  lemma WriterPaid(w: World, id: nat)
    requires Good(w) && IsPending(w, id) && (w.intents[id].order.Post? || w.intents[id].order.Reply?)
    ensures IsForest(w.messages)
    ensures var d := w.intents[id].order;
            if d.author.Tamer? then !IsHeld(w, id)
            else IsHeld(w, id) && w.escrows[id].actor == d.author && d.author in w.wallets
                 && w.escrows[id].amount == if d.Post? then 2000 else 800
  {
    OwnEscrow(w, id);
  }

  lemma RefundOrNothing(w: World, id: nat)
    requires IsPending(w, id) && (w.intents[id].order.Post? || w.intents[id].order.Reply?)
    requires var d := w.intents[id].order;
             if d.author.Tamer? then !IsHeld(w, id)
             else IsHeld(w, id) && w.escrows[id].actor == d.author && d.author in w.wallets
                  && w.escrows[id].amount == if d.Post? then 2000 else 800
    ensures Unpublished(w, Release(w, id), id, w.intents[id].order) && Release(w, id).intents == w.intents
  {
    hide Noted;
  }

  lemma WritingDone(w: World, id: nat, i: Intent)
    requires IsForest(w.messages) && (i.order.Post? || i.order.Reply?) && (i.order.author.Soul? ==> IsHeld(w, id))
    ensures var o := if i.order.Post? then ApplyPost(w, id, i) else ApplyReply(w, id, i);
            && !o.Raised? && (o.Done? <==> MayWrite(w, i)) && (o.Refuse? ==> o.world == w)
            && (o.Done? ==> Published(w, o.world, id, i.order))
  {
    hide Depth, Dormant;
  }

  lemma WritingSettled(w: World, id: nat, minted: string)
    requires IsForest(w.messages) && IsPending(w, id) && (w.intents[id].order.Post? || w.intents[id].order.Reply?)
    requires var i := w.intents[id];
             var o := if i.order.Post? then ApplyPost(w, id, i) else ApplyReply(w, id, i);
             && !o.Raised? && (o.Done? <==> MayWrite(w, i)) && (o.Refuse? ==> o.world == w)
             && (o.Done? ==> Published(w, o.world, id, i.order))
    requires Unpublished(w, Release(w, id), id, w.intents[id].order) && Release(w, id).intents == w.intents
    ensures var u, i := Adjudicate(w, id, minted), w.intents[id];
            && |u.intents| == |w.intents|
            && (u.intents[id].status == Adjudicated <==> MayWrite(w, i))
            && (if MayWrite(w, i) then Published(w, u, id, i.order) else Unpublished(w, u, id, i.order))
  {
    hide ApplyPost, ApplyReply, Release, MayWrite, IsWhatWasAsked;
  }

  lemma HoldDrains(w: World, i: Intent)
    requires Good(w) && (i.order.Post? || i.order.Reply?) && i.order.author.Soul?
    requires Submit(w, i).1 == Ack(|w.intents|, true)
    ensures var u, a := Submit(w, i).0, i.order.author;
            && IsPending(u, |w.intents|) && u.intents[|w.intents|].order == i.order && u.intents[|w.intents|].custodian == i.custodian
            && u.intents[|w.intents|].soul == i.soul && u.messages == w.messages && u.souls == w.souls
            && a in w.wallets && u.wallets == w.wallets[a := w.wallets[a] - CostOf(i.order)]
            && Preface(w, i).None? && Malformed(i).None?
  {
    AcceptFrame(w, i);
    hide ActsAs, DormantActor, ParentCheck, Malformed, Good, FindKey;
  }

  /** A post or reply that is adjudicated right after it was accepted is published exactly if its author
      owned more than it costs: one who owned just the cost is dormant by then, and is refused. */
  lemma PublishedIff(w: World, i: Intent, minted: string)
    requires Good(w) && (i.order.Post? || i.order.Reply?) && i.order.author.Soul?
    requires Submit(w, i).1 == Ack(|w.intents|, true)
    ensures var u := Submit(w, i).0;
            && IsForest(u.messages) && i.order.author in w.wallets
            && var v := Adjudicate(u, |w.intents|, minted);
               && |v.intents| > |w.intents|
               && (v.intents[|w.intents|].status == Adjudicated <==> w.wallets[i.order.author] > CostOf(i.order))
               && (v.messages != u.messages <==> v.intents[|w.intents|].status == Adjudicated)
  {
    SubmitGood(w, i);
    HoldDrains(w, i);
    var u, id := Submit(w, i).0, |w.intents|;
    OwnEscrow(u, id);
    assert IsForest(u.messages);
    hide Good, Submit;
    WritingAllowed(w, u, i, id);
    ReleaseFrame(u, id);
    hide ActsAs, ParentCheck, Release, Marked, DormantActor;
  }

  /** What the preface checked still holds, except that the author may have been drained. */
  lemma WritingAllowed(w: World, u: World, i: Intent, id: nat)
    requires (i.order.Post? || i.order.Reply?) && i.order.author.Soul? && IsForest(w.messages) && IsPending(u, id)
    requires u.messages == w.messages && u.souls == w.souls && i.order.author in w.wallets
    requires u.wallets == w.wallets[i.order.author := w.wallets[i.order.author] - CostOf(i.order)]
    requires u.intents[id].order == i.order && u.intents[id].custodian == i.custodian && u.intents[id].soul == i.soul
    requires Preface(w, i).None? && Malformed(i).None?
    ensures ActsAs(u, u.intents[id], i.order.author).None?
    ensures DormantActor(u, i.order.author) <==> w.wallets[i.order.author] <= CostOf(i.order)
    ensures i.order.Reply? ==> ParentCheck(u, i.order.answers).None?
    ensures i.order.Post? ==> i.order.title != ""
  {
    hide CheckParent;
  }

  // ---- Claiming ----

  /** A claim that is adjudicated right after it was accepted goes through, at the fee it held, for the
      next plot of the allocation order. */
  lemma ClaimOutcome(w: World, i: Intent, minted: string)
    requires Good(w) && i.order.Claim? && Submit(w, i).1 == Ack(|w.intents|, true)
    ensures w.claims < |Plots.AllocationOrder(w.grid)| && IsForest(Submit(w, i).0.messages)
    ensures var v, fee := Adjudicate(Submit(w, i).0, |w.intents|, minted), FeeAt(w.grid, w.claims);
            && |v.intents| > |w.intents| && v.intents[|w.intents|].status == Adjudicated
            && v.owners == w.owners[Plots.AllocationOrder(w.grid)[w.claims] := i.order.claimant]
            && v.claims == w.claims + 1 && v.fund == w.fund + fee && Paid(w, v, Soul(i.order.claimant), 0 - fee)
  {
    SubmitGood(w, i);
    ClaimHeld(w, i);
    var u, id := Submit(w, i).0, |w.intents|;
    assert IsForest(u.messages);
    NextIsClaims(u);
    hide Good, Submit, NextPlot, FeeAt, Plots.AllocationOrder;
    ClaimGranted(u, id);
  }

  lemma ClaimHeld(w: World, i: Intent)
    requires Good(w) && i.order.Claim? && Submit(w, i).1 == Ack(|w.intents|, true)
    ensures w.claims < |Plots.AllocationOrder(w.grid)|
    ensures var u, id, fee := Submit(w, i).0, |w.intents|, FeeAt(w.grid, w.claims);
            && IsPending(u, id) && u.intents[id].order == i.order && MayClaim(u, u.intents[id], i.order.claimant).None?
            && IsHeld(u, id) && u.escrows[id].amount == fee && Soul(i.order.claimant) in u.wallets
            && u.grid == w.grid && u.owners == w.owners && u.claims == w.claims && u.fund == w.fund
            && Paid(w, u, Soul(i.order.claimant), 0 - fee)
  {
    NextIsClaims(w);
    AcceptFrame(w, i);
    ChargeFits(w, i);
    hide Good, NextPlot, FeeAt, FindKey, Noted, Plots.AllocationOrder;
  }

  lemma ClaimGranted(u: World, id: nat)
    requires IsForest(u.messages) && IsPending(u, id) && u.intents[id].order.Claim? && IsHeld(u, id)
    requires MayClaim(u, u.intents[id], u.intents[id].order.claimant).None? && Soul(u.intents[id].order.claimant) in u.wallets
    requires u.claims < |Plots.AllocationOrder(u.grid)| && NextPlot(u) == Some(u.claims)
    requires u.escrows[id].amount == FeeAt(u.grid, u.claims)
    ensures var v := Settle(u, id, "");
            && |v.intents| == |u.intents| && v.intents[id].status == Adjudicated
            && v.owners == u.owners[Plots.AllocationOrder(u.grid)[u.claims] := u.intents[id].order.claimant]
            && v.claims == u.claims + 1 && v.fund == u.fund + FeeAt(u.grid, u.claims) && v.wallets == u.wallets
    ensures forall minted :: Settle(u, id, minted) == Settle(u, id, "")
  {
    hide NextPlot, FeeAt, MayClaim, Marked, Plots.AllocationOrder;
  }

  /** A pending claim, whenever it is settled, goes through exactly if the sender may claim, the claimant is
      known, a plot is left, and the claimant can add what the fee of that plot (50.00 a ring) exceeds the
      held amount by. */
  predicate MayHavePlot(w: World, id: nat)
    requires id < |w.intents| && w.intents[id].order.Claim? && id in w.escrows
  {
    var i := w.intents[id];
    && SpeaksAsItself(w, i, i.order.claimant) && Soul(i.order.claimant) in w.wallets
    && w.claims < |Plots.AllocationOrder(w.grid)|
    && (w.escrows[id].amount < NextFee(w) ==> w.wallets[Soul(i.order.claimant)] >= NextFee(w) - w.escrows[id].amount)
  }

  function NextFee(w: World): int
    requires w.claims < |Plots.AllocationOrder(w.grid)|
  {
    5000 * (Plots.RingOf(w.grid, Plots.AllocationOrder(w.grid)[w.claims]) + 1)
  }

  /** The plot after the last claimed one is the claimant's, the fund has the fee, and the claimant has paid
      in all just that. */
  ghost predicate Granted(w: World, u: World, id: nat, a: string)
    requires w.claims < |Plots.AllocationOrder(w.grid)| && id in w.escrows
  {
    && u.owners == w.owners[Plots.AllocationOrder(w.grid)[w.claims] := a] && u.claims == w.claims + 1
    && u.fund == w.fund + NextFee(w) && Paid(w, u, Soul(a), w.escrows[id].amount - NextFee(w))
    && u.escrows == w.escrows[id := w.escrows[id].(status := Applied)]
    && u.ledger == w.ledger + [Row(Debit, Some(Soul(a)), NextFee(w))] + [Row(Tax, None, NextFee(w))]
  }

  predicate Ungranted(w: World, u: World) {
    u.owners == w.owners && u.claims == w.claims && u.fund == w.fund && u.ledger == w.ledger
  }

  /** Every pending claim is granted the next plot exactly if it may have it; otherwise no plot, fund or
      ledger row is touched. */
  lemma LaterClaimOutcome(w: World, id: nat, minted: string)
    requires Good(w) && IsPending(w, id) && w.intents[id].order.Claim?
    ensures IsForest(w.messages) && IsHeld(w, id)
    ensures var u, a := Adjudicate(w, id, minted), w.intents[id].order.claimant;
            && |u.intents| == |w.intents|
            && (u.intents[id].status == Adjudicated <==> MayHavePlot(w, id))
            && (if MayHavePlot(w, id) then Granted(w, u, id, a) else Ungranted(w, u))
  {
    hide *;
    CoveredClaim(w, id);
    ClaimDone(w, id);
    ClaimSettled(w, id, minted);
  }

  lemma CoveredClaim(w: World, id: nat)
    requires Good(w) && IsPending(w, id) && w.intents[id].order.Claim?
    ensures IsForest(w.messages) && IsHeld(w, id)
    ensures NextPlot(w) == if w.claims < |Plots.AllocationOrder(w.grid)| then Some(w.claims) else None
    ensures w.claims < |Plots.AllocationOrder(w.grid)| ==> FeeAt(w.grid, w.claims) == NextFee(w) >= w.escrows[id].amount
  {
    OwnEscrow(w, id);
    NextIsClaims(w);
    hide Plots.AllocationOrder, NextPlot, Plots.RingOf;
  }

  lemma ClaimSettled(w: World, id: nat, minted: string)
    requires IsForest(w.messages) && IsPending(w, id) && w.intents[id].order.Claim? && IsHeld(w, id)
    requires var o := ApplyClaim(w, id, w.intents[id]);
             && !o.Raised? && (o.Done? <==> MayHavePlot(w, id))
             && (if o.Done? then Granted(w, o.world, id, w.intents[id].order.claimant) else Ungranted(w, o.world))
    ensures var u := Adjudicate(w, id, minted);
            && |u.intents| == |w.intents| && (u.intents[id].status == Adjudicated <==> MayHavePlot(w, id))
            && (if MayHavePlot(w, id) then Granted(w, u, id, w.intents[id].order.claimant) else Ungranted(w, u))
  {
    hide ApplyClaim, Release, MayHavePlot;
  }

  lemma ToppingUpPays(w: World, a: Actor, extra: nat)
    requires a in w.wallets
    ensures var u := ToppedUp(w, a, extra);
            && Paid(w, u, a, 0 - extra) && u.owners == w.owners && u.fund == w.fund && u.escrows == w.escrows
            && u.ledger == w.ledger && u.grid == w.grid
  {
    hide Noted;
  }

  lemma PaidFrame(w: World, v: World, u: World, a: Actor, amount: int)
    requires u.wallets == v.wallets && Paid(w, v, a, amount)
    ensures Paid(w, u, a, amount)
  {
  }

  lemma ClaimDone(w: World, id: nat)
    requires IsPending(w, id) && w.intents[id].order.Claim? && IsHeld(w, id)
    requires NextPlot(w) == if w.claims < |Plots.AllocationOrder(w.grid)| then Some(w.claims) else None
    requires w.claims < |Plots.AllocationOrder(w.grid)| ==> FeeAt(w.grid, w.claims) == NextFee(w) >= w.escrows[id].amount
    ensures var o, a := ApplyClaim(w, id, w.intents[id]), w.intents[id].order.claimant;
            && !o.Raised? && (o.Done? <==> MayHavePlot(w, id))
            && (if o.Done? then Granted(w, o.world, id, a) else Ungranted(w, o.world))
  {
    var a := Soul(w.intents[id].order.claimant);
    Released(w, id);
    hide Noted, Paid, NextPlot, FeeAt, NextFee, Plots.AllocationOrder, Release, ToppedUp;
    if MayHavePlot(w, id) {
      var extra := NextFee(w) - w.escrows[id].amount;
      ToppingUpPays(w, a, extra);
      PaidFrame(w, ToppedUp(w, a, extra), ApplyClaim(w, id, w.intents[id]).world, a, 0 - extra);
    }
  }

  // ---- Refusals ----

  /** The identity behind a buy or a claim may act as its payer. */
  predicate MayPay(w: World, i: Intent)
    requires i.order.Buy? || i.order.Claim?
  {
    if i.order.Buy? then ActsAs(w, i, i.order.buyer).None? else MayClaim(w, i, i.order.claimant).None?
  }

  /** A refused buy or claim writes no ledger row, pays nothing into the fund and grants no plot; its
      escrow is released exactly if the refusal was not one of custody. */
  lemma RefusalReleasesIff(w: World, id: nat, minted: string)
    requires Good(w) && IsPending(w, id) && (w.intents[id].order.Buy? || w.intents[id].order.Claim?)
    ensures var u := Adjudicate(w, id, minted);
            |u.intents| == |w.intents| &&
            (u.intents[id].status == Rejected ==>
               && u.ledger == w.ledger && u.fund == w.fund && u.owners == w.owners && u.claims == w.claims
               && (IsHeld(u, id) <==> !MayPay(w, w.intents[id])))
  {
    assert IsForest(w.messages);
    OwnEscrow(w, id);
    var i := w.intents[id];
    hide Good, ActsAs, MayClaim, ApplyBuy, ApplyClaim, Settle, LeftHeld, Release;
    if i.order.Buy? {
      RefusedBuy(w, id, i);
    } else {
      RefusedClaim(w, id, i);
    }
    RefusedSettles(w, id, minted, !MayPay(w, i));
  }

  lemma RefusedSettles(w: World, id: nat, minted: string, held: bool)
    requires IsForest(w.messages) && IsPending(w, id) && (w.intents[id].order.Buy? || w.intents[id].order.Claim?)
    requires LeftHeld(w, Apply(w, id, w.intents[id], minted), id, held)
    ensures var u := Settle(w, id, minted);
            |u.intents| == |w.intents| &&
            (u.intents[id].status == Rejected ==>
               && u.ledger == w.ledger && u.fund == w.fund && u.owners == w.owners && u.claims == w.claims
               && (IsHeld(u, id) <==> held))
  {
    hide Apply;
  }

  /** The refusal left everything but wallets, listings and the escrow, which is held or not. */
  ghost predicate LeftHeld(w: World, o: Outcome, id: nat, held: bool) {
    && !o.Raised?
    && (o.Refuse? ==>
          && o.world.ledger == w.ledger && o.world.fund == w.fund && o.world.owners == w.owners && o.world.claims == w.claims
          && (IsHeld(o.world, id) <==> held))
  }

  lemma Released(w: World, id: nat)
    ensures var v := Release(w, id);
            && !IsHeld(v, id) && v.ledger == w.ledger && v.fund == w.fund && v.owners == w.owners && v.claims == w.claims
  {
    hide Noted;
  }

  lemma RefusedBuy(w: World, id: nat, i: Intent)
    requires i.order.Buy? && IsHeld(w, id)
    ensures LeftHeld(w, ApplyBuy(w, id, i), id, ActsAs(w, i, i.order.buyer).Some?)
  {
    hide ActsAs, Sold, Release;
    Released(w, id);
    if i.order.listing in w.listings {
      Released(w.(listings := w.listings - {i.order.listing}), id);
    }
  }

  lemma RefusedClaim(w: World, id: nat, i: Intent)
    requires i.order.Claim? && IsHeld(w, id)
    ensures LeftHeld(w, ApplyClaim(w, id, i), id, MayClaim(w, i, i.order.claimant).Some?)
  {
    hide MayClaim, Claimed, ToppedUp, Release, NextPlot, FeeAt;
    Released(w, id);
  }

  // ---- Faults and births ----

  /** An adjudication that raises rejects its intent and touches no table but escrows, wallets and the
      journal.  It refunds the payer in full, unless the intent is a feed: that escrow is left held. */
  lemma FaultOutcome(w: World, id: nat)
    requires Good(w) && IsPending(w, id)
    ensures var u, d := Fault(w, id), w.intents[id].order;
            && u.intents == w.intents[id := w.intents[id].(status := Rejected)]
            && u.items == w.items && u.listings == w.listings && u.ledger == w.ledger && u.fund == w.fund
            && u.owners == w.owners && u.messages == w.messages && u.souls == w.souls
            && (if Charged(d) && !d.Feed? then
                  && IsHeld(w, id) && u.escrows == w.escrows[id := w.escrows[id].(status := EscrowStatus.Released)]
                  && Paid(w, u, w.escrows[id].actor, w.escrows[id].amount)
                else u.escrows == w.escrows && u.wallets == w.wallets)
  {
    OwnEscrow(w, id);
    hide Good, Paid;
    if IsHeld(w, id) {
      FullRefund(w, id);
    }
    hide Release;
  }

  lemma FullRefund(w: World, id: nat)
    requires IsHeld(w, id) && w.escrows[id].actor in w.wallets
    ensures var u := Release(w, id);
            && Paid(w, u, w.escrows[id].actor, w.escrows[id].amount)
            && u.escrows == w.escrows[id := w.escrows[id].(status := EscrowStatus.Released)]
            && u.messages == w.messages && u.ledger == w.ledger && u.intents == w.intents && u.fund == w.fund
            && u.owners == w.owners && u.claims == w.claims && u.souls == w.souls && u.items == w.items && u.listings == w.listings
  {
    hide Noted;
  }

  /** A new actor is born awake with 100.00, one ledger row behind it, and for a soul a body in custody;
      who is there already gets nothing. */
  lemma BirthOutcome(w: World, a: Actor, custodian: Option<string>)
    ensures var u := Mint(w, a, custodian);
            if a in w.wallets then u == w
            else
              && Paid(w, u, a, 10000) && !DormantActor(u, a) && a in u.wallets
              && u.ledger == w.ledger + [Row(MintEntry, Some(a), 10000)]
              && (a.Soul? ==> a.id in u.souls && u.souls[a.id] == SoulRow(custodian, false, false))
              && (forall s :: a != Soul(s) ==> (s in u.souls <==> s in w.souls) && (s in w.souls ==> u.souls[s] == w.souls[s]))
  {
  }

  // ---- Feeding ----

  /** The recipient lies collapsed and hungry, and the sender speaks for the feeder. */
  predicate MayBeFed(w: World, i: Intent)
    requires i.order.Feed?
  {
    var r := i.order.recipient;
    (i.custodian.None? || Keeps(w, i.custodian, i.soul)) && r in w.souls && w.souls[r].collapsed && !w.souls[r].fed
  }

  /** A pending feed goes through exactly if the recipient is collapsed and not yet fed and custody still
      holds.  Then the gift is the recipient's, who is marked as fed, and two rows that cancel out are
      written; otherwise the feeder has it back and nothing else changes. */
  lemma FeedOutcome(w: World, id: nat, minted: string)
    requires Good(w) && IsPending(w, id) && w.intents[id].order.Feed?
    ensures IsForest(w.messages)
    ensures var u, i := Adjudicate(w, id, minted), w.intents[id];
            && |u.intents| == |w.intents| && !IsHeld(u, id)
            && (u.intents[id].status == Adjudicated <==> MayBeFed(w, i))
            && (MayBeFed(w, i) ==>
                  && Paid(w, u, Soul(i.order.recipient), FEED_COST)
                  && u.souls == w.souls[i.order.recipient := w.souls[i.order.recipient].(fed := true)]
                  && u.ledger == w.ledger + [Row(FeedDebit, Some(Soul(i.soul)), 0 - FEED_COST)]
                                 + [Row(FeedCredit, Some(Soul(i.order.recipient)), FEED_COST)])
            && (!MayBeFed(w, i) ==> Paid(w, u, Soul(i.soul), FEED_COST) && u.souls == w.souls && u.ledger == w.ledger)
  {
    assert IsForest(w.messages);
    OwnEscrow(w, id);
    var i := w.intents[id];
    assert WalletsSound(w);
    ReleaseFrame(w, id);
    assert FeedCheck(w, id, i).None? <==> MayBeFed(w, i);
    hide Good, Noted, Marked, MayBeFed;
    ShiftPays(w, Soul(i.soul), FEED_COST);
    if FeedCheck(w, id, i).None? {
      ShiftPays(w, Soul(i.order.recipient), FEED_COST);
    }
    hide FeedCheck;
  }

  // ---- Who may submit what ----

  /** The actor in whose name an order is given. */
  function ActingFor(i: Intent): Actor {
    match i.order
    case List(seller, _, _, _, _) => seller
    case Buy(buyer, _) => buyer
    case Claim(claimant) => Soul(claimant)
    case Post(author, _, _) => author
    case Reply(author, _, _) => author
    case _ => Soul(i.soul)
  }

  /** The soul is there, and in that custody. */
  predicate Keeps(w: World, custodian: Option<string>, soul: string) {
    soul in w.souls && w.souls[soul].custodian == custodian
  }

  /** The operator, the actor itself, and the custodian of a soul. */
  predicate Speaks(w: World, i: Intent, a: Actor) {
    i.custodian.None? || a.id == i.soul || (a.Soul? && Keeps(w, i.custodian, a.id))
  }

  /** Plots and meals are bought by a custodian only for the soul that authenticated. */
  predicate SpeaksAsItself(w: World, i: Intent, soul: string) {
    i.custodian.None? || (soul == i.soul && Keeps(w, i.custodian, soul))
  }

  /** Who may give which order.  Edits and deletions are checked when they are adjudicated. */
  predicate MayGive(w: World, i: Intent) {
    match i.order
    case List(seller, _, _, _, _) => Speaks(w, i, seller)
    case Buy(buyer, _) => Speaks(w, i, buyer)
    case Cancel(listing, _) => listing in w.listings && Speaks(w, i, Soul(w.listings[listing].seller.id))
    case Claim(claimant) => SpeaksAsItself(w, i, claimant)
    case Post(author, _, _) => Speaks(w, i, author)
    case Reply(author, _, _) => Speaks(w, i, author)
    case Edit(_, _) => true
    case Delete(_) => true
    case Feed(feeder, _) => SpeaksAsItself(w, i, feeder) && !(i.soul in w.souls && w.souls[i.soul].collapsed)
  }

  /** A new intent is accepted only in the name of an actor who is awake and for whom its sender may
      speak.  A refused submission writes nothing; an accepted one takes the charge from the payer. */
  lemma AcceptedMeansAllowed(w: World, i: Intent)
    requires Good(w)
    ensures IsForest(w.messages)
    ensures var (u, answer) := Submit(w, i);
            && (answer.Refused? || !answer.created ==> u == w)
            && (answer.Ack? && answer.created ==>
                  && !DormantActor(w, ActingFor(i))
                  && MayGive(w, i)
                  && (match ChargeFor(w, i)
                      case Charge(a, amount) => a in w.wallets && w.wallets[a] >= amount && Paid(w, u, a, 0 - amount)
                      case Free => u.wallets == w.wallets))
  {
    assert IsForest(w.messages);
    AcceptFrame(w, i);
    AllowedByPreface(w, i);
    hide Good, Preface, Accept, ChargeFor, Malformed, ActingFor, DormantActor, MayGive, FindKey;
  }

  lemma AllowedByPreface(w: World, i: Intent)
    requires IsForest(w.messages)
    ensures Preface(w, i).None? ==>
              && !DormantActor(w, ActingFor(i))
              && MayGive(w, i)
  {
    hide ParentCheck, NextPlot, IsDormant;
  }

  // ---- Cancelling, editing, deleting ----

  /** A cancellation goes through exactly if the listing is open and the sender speaks for the seller's
      id; the reserved units are then the seller's again. */
  lemma CancelOutcome(w: World, id: nat, minted: string)
    requires Good(w) && IsPending(w, id) && w.intents[id].order.Cancel?
    ensures IsForest(w.messages)
    ensures var u, i := Adjudicate(w, id, minted), w.intents[id];
            var open := i.order.listing in w.listings;
            && |u.intents| == |w.intents| && u.wallets == w.wallets && u.escrows == w.escrows
            && (u.intents[id].status == Adjudicated <==> open && Speaks(w, i, Soul(w.listings[i.order.listing].seller.id)))
            && (u.intents[id].status != Adjudicated ==>
                  u.listings == w.listings && u.items == w.items && u.ledger == w.ledger)
            && (u.intents[id].status == Adjudicated ==>
                  var l := w.listings[i.order.listing];
                  && u.listings == w.listings - {i.order.listing}
                  && u.ledger == w.ledger + [Row(Memo, Some(if i.order.byTamer then Tamer(i.soul) else Soul(i.soul)), 0)]
                  && Qty(u.items, l.seller, l.item) == Qty(w.items, l.seller, l.item) + l.qty
                  && forall h :: h != Holding(l.seller, l.item) ==> Qty(u.items, h.actor, h.item) == Qty(w.items, h.actor, h.item))
  {
    assert IsForest(w.messages);
    CancelDone(w, w.intents[id]);
    hide Good, Speaks, ApplyCancel;
  }

  lemma CancelDone(w: World, i: Intent)
    requires i.order.Cancel?
    ensures var o, open := ApplyCancel(w, i), i.order.listing in w.listings;
            && !o.Raised? && o.world.wallets == w.wallets && o.world.escrows == w.escrows
            && (o.Done? <==> open && Speaks(w, i, Soul(w.listings[i.order.listing].seller.id)))
            && (o.Refuse? ==> o.world == w)
            && (o.Done? ==>
                  var l := w.listings[i.order.listing];
                  && o.world.listings == w.listings - {i.order.listing}
                  && o.world.ledger == w.ledger + [Row(Memo, Some(if i.order.byTamer then Tamer(i.soul) else Soul(i.soul)), 0)]
                  && Qty(o.world.items, l.seller, l.item) == Qty(w.items, l.seller, l.item) + l.qty
                  && forall h :: h != Holding(l.seller, l.item) ==>
                       Qty(o.world.items, h.actor, h.item) == Qty(w.items, h.actor, h.item))
  {
  }

  /** Only its author or the operator changes a message, only while the authoring soul is awake, and
      nothing but the body of that one live message. */
  lemma EditOutcome(w: World, id: nat, minted: string)
    requires Good(w) && IsPending(w, id) && w.intents[id].order.Edit?
    ensures IsForest(w.messages)
    ensures var u, i := Adjudicate(w, id, minted), w.intents[id];
            var m := i.order.message;
            && |u.intents| == |w.intents|
            && (u.intents[id].status == Adjudicated <==>
                  && m < |w.messages| && !w.messages[m].deleted && (w.messages[m].byTamer || !Dormant(w, w.messages[m].author))
                  && (i.custodian.None? || w.messages[m].author == i.soul))
            && (u.intents[id].status == Adjudicated ==> u.messages == w.messages[m := w.messages[m].(body := i.order.body)])
            && (u.intents[id].status != Adjudicated ==> u.messages == w.messages)
  {
    assert IsForest(w.messages);
    EditDone(w, w.intents[id]);
    hide Good, Dormant, ApplyEdit;
  }

  lemma EditDone(w: World, i: Intent)
    requires i.order.Edit?
    ensures var o, m := ApplyEdit(w, i), i.order.message;
            && !o.Raised?
            && (o.Done? <==>
                  && m < |w.messages| && !w.messages[m].deleted && (w.messages[m].byTamer || !Dormant(w, w.messages[m].author))
                  && (i.custodian.None? || w.messages[m].author == i.soul))
            && (o.Done? ==> o.world.messages == w.messages[m := w.messages[m].(body := i.order.body)])
            && (!o.Done? ==> o.world.messages == w.messages)
  {
    hide Dormant;
  }

  /** The same for a deletion, which marks the message and may be repeated. */
  lemma DeleteOutcome(w: World, id: nat, minted: string)
    requires Good(w) && IsPending(w, id) && w.intents[id].order.Delete?
    ensures IsForest(w.messages)
    ensures var u, i := Adjudicate(w, id, minted), w.intents[id];
            var m := i.order.message;
            && |u.intents| == |w.intents|
            && (u.intents[id].status == Adjudicated <==>
                  && m < |w.messages| && (w.messages[m].byTamer || !Dormant(w, w.messages[m].author))
                  && (i.custodian.None? || w.messages[m].author == i.soul))
            && (u.intents[id].status == Adjudicated ==> u.messages == w.messages[m := w.messages[m].(deleted := true)])
            && (u.intents[id].status != Adjudicated ==> u.messages == w.messages)
  {
    assert IsForest(w.messages);
    DeleteDone(w, w.intents[id]);
    hide Good, Dormant, ApplyDelete;
  }

  lemma DeleteDone(w: World, i: Intent)
    requires i.order.Delete?
    ensures var o, m := ApplyDelete(w, i), i.order.message;
            && !o.Raised?
            && (o.Done? <==>
                  && m < |w.messages| && (w.messages[m].byTamer || !Dormant(w, w.messages[m].author))
                  && (i.custodian.None? || w.messages[m].author == i.soul))
            && (o.Done? ==> o.world.messages == w.messages[m := w.messages[m].(deleted := true)])
            && (!o.Done? ==> o.world.messages == w.messages)
  {
    hide Dormant;
  }
}
