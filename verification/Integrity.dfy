/** The structural invariant of the economy and the proof that every step keeps it. */
module Integrity {
  import opened Options
  import opened Threads
  import opened Economy
  import Plots

  // ---- The invariant ----

  /** No wallet is overdrawn, and the soul rows are the soul wallets. */
  ghost predicate WalletsSound(w: World) {
    && (forall a :: a in w.wallets ==> w.wallets[a] >= 0)
    && forall s :: s in w.souls <==> Soul(s) in w.wallets
  }

  predicate Charged(o: Order) {
    o.Buy? || o.Claim? || o.Feed? || (o.Post? && o.author.Soul?) || (o.Reply? && o.author.Soul?)
  }

  /** Who pays for an order, and how much where that is fixed. */
  predicate PaysFor(i: Intent, e: Escrow) {
    match i.order
    case Buy(buyer, _) => e.actor == buyer
    case Claim(claimant) => e.actor == Soul(claimant)
    case Post(author, _, _) => e.actor == author && e.amount == POST_COST
    case Reply(author, _, _) => e.actor == author && e.amount == REPLY_COST
    case Feed(_, _) => e.actor == Soul(i.soul) && e.amount == FEED_COST
    case _ => false
  }

  /** A pending intent's escrow is held, an adjudicated one's is not; outside feeding, an escrow is
      applied exactly when its intent was adjudicated. */
  predicate StatusesAgree(i: Intent, e: Escrow) {
    && (i.status == Pending ==> e.status == Held)
    && (e.status == Held ==> i.status != Adjudicated)
    && (!i.order.Feed? ==> (e.status == Applied <==> i.status == Adjudicated))
  }

  predicate Backs(w: World, i: Intent, e: Escrow) {
    e.actor in w.wallets && PaysFor(i, e) && StatusesAgree(i, e)
  }

  /** Exactly the charged intents have an escrow, and it fits. */
  ghost predicate Matched(w: World) {
    && (forall id: nat :: id in w.escrows <==> id < |w.intents| && Charged(w.intents[id].order))
    && forall id :: id in w.escrows ==> Backs(w, w.intents[id], w.escrows[id])
  }

  ghost predicate KeysUnique(intents: seq<Intent>) {
    forall i, j :: 0 <= i < j < |intents| ==> !SameKey(intents[i], intents[j])
  }

  /** The owned plots are the first `claims` of the allocation order. */
  ghost predicate ClaimsInOrder(w: World) {
    && w.claims <= |Plots.AllocationOrder(w.grid)|
    && forall c :: c in w.owners <==> c in Plots.AllocationOrder(w.grid)[..w.claims]
  }

  /** No pending claim holds more than the next plot costs. */
  ghost predicate ClaimsCovered(w: World) {
    w.claims < |Plots.AllocationOrder(w.grid)| ==>
      forall id :: id in w.escrows && IsPending(w, id) && w.intents[id].order.Claim? ==>
        w.escrows[id].amount <= FeeAt(w.grid, w.claims)
  }

  ghost predicate SellersKnown(w: World) {
    forall l :: l in w.listings ==> w.listings[l].seller in w.wallets
  }

  ghost predicate Good(w: World) {
    && WalletsSound(w) && Matched(w) && KeysUnique(w.intents) && ClaimsInOrder(w) && ClaimsCovered(w)
    && SellersKnown(w) && Sound(w.messages)
  }

  // ---- What adjudication writes ----

  /** `v` differs from `w` in at most one escrow, `id`, which has left the held state. */
  predicate EscrowStep(w: World, v: World, id: nat) {
    v.escrows == w.escrows || v.escrows == Marked(w.escrows, id, Applied) || v.escrows == Marked(w.escrows, id, Released)
  }

  /** The same actors, with no wallet overdrawn and no seller unknown. */
  ghost predicate SameActors(w: World, v: World) {
    v.wallets.Keys == w.wallets.Keys && v.grid == w.grid && WalletsSound(v) && SellersKnown(v)
  }

  lemma ShiftSound(w: World, a: Actor, delta: int)
    requires WalletsSound(w) && SellersKnown(w) && (a in w.wallets ==> w.wallets[a] + delta >= 0)
    ensures SameActors(w, Shift(w, a, delta))
  {
  }

  /** Inventories, messages, plots, the fund, the ledger and one listing do not matter. */
  lemma ActorsFrame(w: World, v: World, u: World)
    requires SameActors(w, v) && u.wallets == v.wallets && u.souls == v.souls && u.grid == v.grid
    requires forall l :: l in u.listings ==>
               u.listings[l].seller in u.wallets || (l in v.listings && u.listings[l] == v.listings[l])
    ensures SameActors(w, u)
  {
  }

  lemma ActorsSelf(w: World)
    requires Good(w)
    ensures SameActors(w, w)
  {
  }

  lemma ReleaseSound(w: World, id: nat)
    requires WalletsSound(w) && SellersKnown(w)
    ensures SameActors(w, Release(w, id)) && Release(w, id).escrows == Marked(w.escrows, id, Released)
  {
    if IsHeld(w, id) {
      ShiftSound(w, w.escrows[id].actor, w.escrows[id].amount);
    }
  }

  /** What one apply step may do. */
  ghost predicate FitOutcome(w: World, o: Outcome, id: nat) {
    match o
    case Done(v) =>
      SameActors(w, v) && v.escrows == Marked(w.escrows, id, Applied) && Sound(v.messages) && ClaimsAdvance(w, v, id)
    case Refuse(v, _) =>
      && SameActors(w, v) && (v.escrows == w.escrows || v.escrows == Marked(w.escrows, id, Released))
      && v.messages == w.messages && v.owners == w.owners && v.claims == w.claims
    case Raised => true
  }

  /** Plots change hands only as the next one of the order goes to the claimant of `id`. */
  ghost predicate ClaimsAdvance(w: World, v: World, id: nat) {
    var order := Plots.AllocationOrder(w.grid);
    || (v.owners == w.owners && v.claims == w.claims)
    || (&& w.claims < |order| && id < |w.intents| && w.intents[id].order.Claim?
        && v.claims == w.claims + 1 && v.owners == w.owners[order[w.claims] := w.intents[id].order.claimant])
  }

  /** The scan finds the first unowned plot of the order from its start on, or none if all are owned. */
  lemma {:induction false} ScanFindsFirst(order: seq<Plots.Cell>, owners: map<Plots.Cell, string>, n: nat)
    requires n <= |order|
    ensures var found := NextFrom(order, owners, n);
            && (forall k :: n <= k < (if found.Some? then found.value else |order|) ==> order[k] in owners)
            && (found.Some? ==> n <= found.value < |order| && order[found.value] !in owners)
    decreases |order| - n
  {
    if n < |order| && order[n] in owners {
      ScanFindsFirst(order, owners, n + 1);
    }
  }

  /** With the first plots owned, the next free one is the one after them. */
  lemma NextIsClaims(w: World)
    requires ClaimsInOrder(w)
    ensures NextPlot(w) == if w.claims < |Plots.AllocationOrder(w.grid)| then Some(w.claims) else None
  {
    var order := Plots.AllocationOrder(w.grid);
    if w.claims < |order| {
      forall k | 0 <= k < w.claims ensures order[k] != order[w.claims] {
        OrderDistinct(w.grid, k, w.claims);
      }
    }
  }

  lemma OrderDistinct(g: Plots.Grid, i: nat, j: nat)
    requires i < j < |Plots.AllocationOrder(g)|
    ensures Plots.AllocationOrder(g)[i] != Plots.AllocationOrder(g)[j]
  {
    Plots.AllocationOrderCorrect(g);
    assert Plots.Before(g, Plots.AllocationOrder(g)[i], Plots.AllocationOrder(g)[j]);
  }

  lemma OwnEscrow(w: World, id: nat)
    requires Matched(w) && IsPending(w, id)
    ensures IsHeld(w, id) <==> Charged(w.intents[id].order)
    ensures id in w.escrows ==> IsHeld(w, id) && Backs(w, w.intents[id], w.escrows[id])
  {
  }

  /** A refusal that wrote nothing, or only the refund. */
  lemma FitRefusal(w: World, id: nat, why: Reason)
    requires Good(w)
    ensures FitOutcome(w, Refuse(w, why), id) && FitOutcome(w, Refuse(Release(w, id), why), id)
  {
    ActorsSelf(w);
    ReleaseSound(w, id);
    hide Good, SameActors, Noted;
  }

  lemma FitList(w: World, id: nat, minted: string)
    requires Good(w) && IsPending(w, id) && w.intents[id].order.List?
    ensures FitOutcome(w, ApplyList(w, w.intents[id], minted), id)
  {
    OwnEscrow(w, id);
    ActorsSelf(w);
    hide Qty, Take, Matched, ClaimsInOrder, ClaimsCovered, KeysUnique, Sound, SameActors, WalletsSound, SellersKnown;
    var o := ApplyList(w, w.intents[id], minted);
    if o.Done? {
      ActorsFrame(w, w, o.world);
    }
  }

  /** Booking a sale keeps all but the wallets, inventories, fund, ledger and the escrow. */
  lemma SoldFrame(v: World, id: nat, buyer: Actor, l: Listing)
    ensures var u, v1 := Sold(v, id, buyer, l), Shift(v, l.seller, l.price - TaxOn(l.price));
            && u.wallets == v1.wallets && u.journal == v1.journal && u.escrows == Marked(v.escrows, id, Applied)
            && u.souls == v.souls && u.listings == v.listings && u.grid == v.grid && u.messages == v.messages
            && u.owners == v.owners && u.claims == v.claims
  {
    hide TaxOn, Give, Noted;
  }

  lemma FitSold(w: World, v: World, id: nat, buyer: Actor, l: Listing)
    requires SameActors(w, v)
    ensures SameActors(w, Sold(v, id, buyer, l))
  {
    ShiftSound(v, l.seller, l.price - TaxOn(l.price));
    SoldFrame(v, id, buyer, l);
    hide WalletsSound, SellersKnown, Sold, TaxOn, Noted;
    ActorsFrame(v, Shift(v, l.seller, l.price - TaxOn(l.price)), Sold(v, id, buyer, l));
  }

  lemma FitBuy(w: World, id: nat)
    requires Good(w) && IsPending(w, id) && w.intents[id].order.Buy?
    ensures FitOutcome(w, ApplyBuy(w, id, w.intents[id]), id)
  {
    var i := w.intents[id];
    var o := ApplyBuy(w, id, i);
    if i.order.listing !in w.listings || ActsAs(w, i, i.order.buyer).Some? {
      hide FitOutcome, Good, Release, ActsAs, Shift, Sold;
      FitRefusal(w, id, if o.Refuse? then o.reason else Internal);
    } else {
      FitPurchase(w, id);
    }
  }

  lemma FitPurchase(w: World, id: nat)
    requires Good(w) && IsPending(w, id) && w.intents[id].order.Buy? && w.intents[id].order.listing in w.listings
    requires ActsAs(w, w.intents[id], w.intents[id].order.buyer).None?
    ensures FitOutcome(w, ApplyBuy(w, id, w.intents[id]), id)
  {
    ActorsSelf(w);
    var i := w.intents[id];
    var w1 := w.(listings := w.listings - {i.order.listing});
    ActorsFrame(w, w, w1);
    assert Sound(w.messages) && WalletsSound(w1) && SellersKnown(w1);
    var l := w.listings[i.order.listing];
    hide Good, Sold, Shift, Release, ActsAs, TaxOn, Sound, SellersKnown, WalletsSound;
    if Funded(w1, id, l.price) {
      FitSold(w, w1, id, i.order.buyer, l);
      SoldFrame(w1, id, i.order.buyer, l);
    } else {
      ReleaseSound(w1, id);
      ReleaseFrame(w1, id);
    }
  }

  lemma FitCancel(w: World, id: nat)
    requires Good(w) && IsPending(w, id) && w.intents[id].order.Cancel?
    ensures FitOutcome(w, ApplyCancel(w, w.intents[id]), id)
  {
    OwnEscrow(w, id);
    ActorsSelf(w);
    hide Give, MayCancel, Matched, ClaimsInOrder, ClaimsCovered, KeysUnique, Sound, SameActors, WalletsSound, SellersKnown;
    var o := ApplyCancel(w, w.intents[id]);
    if o.Done? {
      ActorsFrame(w, w, o.world);
    }
  }

  lemma FitClaimed(w: World, v: World, id: nat)
    requires SameActors(w, v) && IsHeld(v, id) && IsPending(w, id) && w.intents[id].order.Claim?
    requires w.claims < |Plots.AllocationOrder(w.grid)| && v.owners == w.owners && v.escrows == w.escrows
    requires Sound(v.messages)
    ensures var u := Claimed(v, id, w.intents[id].order.claimant, w.claims);
            FitOutcome(w, Done(u), id)
  {
    hide FeeAt, WalletsSound, SellersKnown, Sound, Plots.AllocationOrder;
    ActorsFrame(w, v, Claimed(v, id, w.intents[id].order.claimant, w.claims));
  }

  lemma FitClaim(w: World, id: nat)
    requires Good(w) && IsPending(w, id) && w.intents[id].order.Claim?
    ensures FitOutcome(w, ApplyClaim(w, id, w.intents[id]), id)
  {
    NextIsClaims(w);
    hide FitOutcome, Good, NextPlot, FeeAt, Claimed, MayClaim, Release, ToppedUp, Plots.AllocationOrder;
    var o := ApplyClaim(w, id, w.intents[id]);
    if o.Refuse? {
      FitRefusal(w, id, o.reason);
    } else {
      var extra := FeeAt(w.grid, w.claims) - w.escrows[id].amount;
      var claimant := Soul(w.intents[id].order.claimant);
      FitTopUp(w, claimant, extra);
      FitClaimed(w, ToppedUp(w, claimant, extra), id);
    }
  }

  lemma FitTopUp(w: World, a: Actor, extra: int)
    requires Good(w) && a in w.wallets && (extra <= 0 || w.wallets[a] >= extra)
    ensures var v := ToppedUp(w, a, extra);
            SameActors(w, v) && v.owners == w.owners && v.escrows == w.escrows && Sound(v.messages)
  {
    ActorsSelf(w);
    if extra > 0 {
      ShiftSound(w, a, 0 - extra);
    }
    hide SameActors, Noted, Sound;
  }

  lemma FitWritten(w: World, id: nat, m: Message, author: Actor, cost: nat)
    requires SameActors(w, w) && Sound(w.messages + [m])
    requires IsHeld(w, id) <==> author.Soul?
    ensures FitOutcome(w, Done(Written(w, id, m, author, cost)), id)
  {
    hide Sound, WalletsSound, SellersKnown, SameActors;
    ActorsFrame(w, w, Written(w, id, m, author, cost));
  }

  lemma FitPost(w: World, id: nat)
    requires Good(w) && IsPending(w, id) && w.intents[id].order.Post?
    ensures FitOutcome(w, ApplyPost(w, id, w.intents[id]), id)
  {
    OwnEscrow(w, id);
    ActorsSelf(w);
    var d := w.intents[id].order;
    var m := Message(None, d.author.Tamer?, d.author.id, d.title, d.body, false);
    AddKeepsSound(w.messages, m);
    hide Matched, ClaimsInOrder, ClaimsCovered, KeysUnique, Sound, Written, ActsAs, DormantActor, SameActors, WalletsSound;
    FitWritten(w, id, m, d.author, POST_COST);
  }

  lemma FitReply(w: World, id: nat)
    requires Good(w) && IsPending(w, id) && w.intents[id].order.Reply?
    ensures FitOutcome(w, ApplyReply(w, id, w.intents[id]), id)
  {
    OwnEscrow(w, id);
    ActorsSelf(w);
    var d := w.intents[id].order;
    hide Matched, ClaimsInOrder, ClaimsCovered, KeysUnique, Sound, Written, ActsAs, DormantActor, SameActors, WalletsSound;
    hide CheckParent;
    if CheckParent(w.messages, d.answers) == Fine {
      var m := Message(Some(d.answers), d.author.Tamer?, d.author.id, "", d.body, false);
      AddKeepsSound(w.messages, m);
      FitWritten(w, id, m, d.author, REPLY_COST);
    }
  }

  /** Changing the content of one message. */
  lemma FitChanged(w: World, id: nat, m: nat, change: Message)
    requires Good(w) && !IsHeld(w, id) && m < |w.messages| && change.parent == w.messages[m].parent
    ensures FitOutcome(w, Done(w.(messages := w.messages[m := change])), id)
  {
    ContentKeepsSound(w.messages, w.messages[m := change]);
    ActorsSelf(w);
    hide Matched, ClaimsInOrder, ClaimsCovered, KeysUnique, Sound, SameActors, WalletsSound, SellersKnown;
    ActorsFrame(w, w, w.(messages := w.messages[m := change]));
  }

  lemma FitEdit(w: World, id: nat)
    requires Good(w) && IsPending(w, id) && w.intents[id].order.Edit?
    ensures FitOutcome(w, ApplyEdit(w, w.intents[id]), id)
  {
    OwnEscrow(w, id);
    ActorsSelf(w);
    hide Good, MutationCheck, SameActors;
    var m := w.intents[id].order.message;
    if m < |w.messages| {
      FitChanged(w, id, m, w.messages[m].(body := w.intents[id].order.body));
    }
  }

  lemma FitDelete(w: World, id: nat)
    requires Good(w) && IsPending(w, id) && w.intents[id].order.Delete?
    ensures FitOutcome(w, ApplyDelete(w, w.intents[id]), id)
  {
    OwnEscrow(w, id);
    ActorsSelf(w);
    hide Good, MutationCheck, SameActors;
    var m := w.intents[id].order.message;
    if m < |w.messages| {
      FitChanged(w, id, m, w.messages[m].(deleted := true));
    }
  }

  lemma FitApply(w: World, id: nat, minted: string)
    requires Good(w) && IsPending(w, id) && !w.intents[id].order.Feed?
    ensures FitOutcome(w, Apply(w, id, w.intents[id], minted), id)
  {
    hide FitOutcome, Good, ApplyList, ApplyBuy, ApplyCancel, ApplyClaim, ApplyPost, ApplyReply, ApplyEdit, ApplyDelete;
    match w.intents[id].order
    case List(_, _, _, _, _) => FitList(w, id, minted);
    case Buy(_, _) => FitBuy(w, id);
    case Cancel(_, _) => FitCancel(w, id);
    case Claim(_) => FitClaim(w, id);
    case Post(_, _, _) => FitPost(w, id);
    case Reply(_, _, _) => FitReply(w, id);
    case Edit(_, _) => FitEdit(w, id);
    case Delete(_) => FitDelete(w, id);
  }

  // ---- Settling one intent ----

  /** The intent `id` gets its final status and at most its own escrow leaves the held state. */
  ghost predicate Moves(w: World, u: World, id: nat) {
    && id < |w.intents| == |u.intents| && u.intents[id].status != Pending
    && u.intents == w.intents[id := w.intents[id].(status := u.intents[id].status)]
    && SameActors(w, u) && EscrowStep(w, u, id) && ClaimsAdvance(w, u, id) && Sound(u.messages)
    && (id in u.escrows ==> StatusesAgree(u.intents[id], u.escrows[id]))
  }

  lemma MovesMatched(w: World, u: World, id: nat)
    requires Matched(w) && Moves(w, u, id)
    ensures Matched(u)
  {
    hide Sound, ClaimsAdvance, WalletsSound, SellersKnown;
    forall k | k in u.escrows ensures Backs(u, u.intents[k], u.escrows[k]) {
      assert Backs(w, w.intents[k], w.escrows[k]);
    }
  }

  lemma MovesKeys(w: World, u: World, id: nat)
    requires KeysUnique(w.intents) && Moves(w, u, id)
    ensures KeysUnique(u.intents)
  {
    hide Sound, ClaimsAdvance, SameActors, EscrowStep;
    forall i, j | 0 <= i < j < |u.intents| ensures !SameKey(u.intents[i], u.intents[j]) {
      assert !SameKey(w.intents[i], w.intents[j]);
    }
  }

  lemma MovesClaims(w: World, u: World, id: nat)
    requires Matched(w) && ClaimsInOrder(w) && ClaimsCovered(w) && Moves(w, u, id)
    ensures ClaimsInOrder(u) && ClaimsCovered(u)
  {
    hide Sound, WalletsSound, SellersKnown;
    var order := Plots.AllocationOrder(w.grid);
    if u.claims == w.claims + 1 {
      assert order[..u.claims] == order[..w.claims] + [order[w.claims]];
    }
    CoveredLater(w, u, id);
  }

  lemma CoveredLater(w: World, u: World, id: nat)
    requires Matched(w) && ClaimsCovered(w) && Moves(w, u, id) && w.claims <= u.claims
    ensures ClaimsCovered(u)
  {
    hide Sound, WalletsSound, SellersKnown, ClaimsAdvance, Plots.AllocationOrder;
    if u.claims < |Plots.AllocationOrder(w.grid)| {
      assert FeeAt(w.grid, w.claims) <= FeeAt(w.grid, u.claims) by {
        Plots.FeeNeverFalls(w.grid, w.claims, u.claims);
      }
      hide FeeAt;
      forall k | k in u.escrows && IsPending(u, k) && u.intents[k].order.Claim?
        ensures u.escrows[k].amount <= FeeAt(u.grid, u.claims) {
        assert k in w.escrows && IsPending(w, k) && w.escrows[k] == u.escrows[k];
      }
    }
  }

  lemma MovesGood(w: World, u: World, id: nat)
    requires Good(w) && Moves(w, u, id)
    ensures Good(u)
  {
    MovesMatched(w, u, id);
    MovesKeys(w, u, id);
    MovesClaims(w, u, id);
    hide Matched, KeysUnique, ClaimsInOrder, ClaimsCovered, Sound, WalletsSound, SellersKnown, EscrowStep;
  }

  lemma CompensateMoves(w: World, id: nat)
    requires Good(w) && IsPending(w, id) && !w.intents[id].order.Feed?
    ensures Moves(w, Compensate(w, id), id)
  {
    ReleaseSound(w, id);
    OwnEscrow(w, id);
    ActorsSelf(w);
    hide Good, SameActors, Release, Sound;
    ReleaseFrame(w, id);
  }

  lemma ReleaseFrame(w: World, id: nat)
    ensures var v := Release(w, id);
            && v.intents == w.intents && v.messages == w.messages && v.owners == w.owners && v.claims == w.claims
            && v.souls == w.souls && v.grid == w.grid && v.listings == w.listings && v.items == w.items
            && v.fund == w.fund && v.ledger == w.ledger
  {
  }

  lemma ConcludeMoves(w: World, v: World, id: nat, status: Status, event: Event)
    requires id < |w.intents| && v.intents == w.intents && status != Pending
    requires SameActors(w, v) && EscrowStep(w, v, id) && ClaimsAdvance(w, v, id) && Sound(v.messages)
    requires id in v.escrows ==> StatusesAgree(w.intents[id].(status := status), v.escrows[id])
    ensures Moves(w, Conclude(v, id, status, event), id)
  {
    hide Sound, WalletsSound, SellersKnown, EscrowStep, ClaimsAdvance;
    ActorsFrame(w, v, Conclude(v, id, status, event));
    var u := Conclude(v, id, status, event);
    assert EscrowStep(w, u, id) by { StepFrame(w, v, u, id); }
    assert ClaimsAdvance(w, u, id) by { StepFrame(w, v, u, id); }
  }

  lemma StepFrame(w: World, v: World, u: World, id: nat)
    requires v.escrows == u.escrows && v.owners == u.owners && v.claims == u.claims
    ensures EscrowStep(w, v, id) <==> EscrowStep(w, u, id)
    ensures ClaimsAdvance(w, v, id) <==> ClaimsAdvance(w, u, id)
  {
  }

  lemma SettleMoves(w: World, id: nat, minted: string)
    requires Good(w) && IsPending(w, id) && !w.intents[id].order.Feed?
    ensures Moves(w, Settle(w, id, minted), id)
  {
    FitApply(w, id, minted);
    OwnEscrow(w, id);
    var o := Apply(w, id, w.intents[id], minted);
    hide Good, Apply, Conclude, Moves, SameActors, Sound, Compensate, Release, FitOutcome, RefundsOnRefusal;
    match o
    case Done(v) => DoneMoves(w, v, id);
    case Refuse(v, why) => RefuseMoves(w, v, id, why);
    case Raised => CompensateMoves(w, id);
  }

  lemma DoneMoves(w: World, v: World, id: nat)
    requires Good(w) && IsPending(w, id) && !w.intents[id].order.Feed? && v.intents == w.intents
    requires FitOutcome(w, Done(v), id)
    ensures Moves(w, Conclude(v, id, Adjudicated, IntentAdjudicated(id)), id)
  {
    OwnEscrow(w, id);
    hide Good, SameActors, Sound, ClaimsAdvance, Moves, Conclude;
    ConcludeMoves(w, v, id, Adjudicated, IntentAdjudicated(id));
  }

  lemma RefuseMoves(w: World, v: World, id: nat, why: Reason)
    requires Good(w) && IsPending(w, id) && !w.intents[id].order.Feed? && v.intents == w.intents
    requires FitOutcome(w, Refuse(v, why), id)
    ensures Moves(w, Conclude(v, id, Rejected, IntentRejected(id, why)), id)
    ensures Moves(w, Conclude(Release(v, id), id, Rejected, IntentRejected(id, why)), id)
  {
    OwnEscrow(w, id);
    ReleaseSound(v, id);
    ReleaseFrame(v, id);
    hide WalletsSound, SellersKnown, Matched, ClaimsInOrder, ClaimsCovered, KeysUnique, Sound, Moves, Conclude, Release;
    ConcludeMoves(w, v, id, Rejected, IntentRejected(id, why));
    ConcludeMoves(w, Release(v, id), id, Rejected, IntentRejected(id, why));
  }

  lemma FedFrame(w: World, id: nat, recipient: string)
    requires Good(w) && recipient in w.souls
    ensures forall feeder :: SameActors(w, Fed(w, id, feeder, recipient))
    ensures forall feeder :: var u := Fed(w, id, feeder, recipient);
              && u.intents == w.intents && u.escrows == Marked(w.escrows, id, Applied) && u.messages == w.messages
              && u.owners == w.owners && u.claims == w.claims
  {
    ActorsSelf(w);
    ShiftSound(w, Soul(recipient), FEED_COST);
    hide Matched, ClaimsInOrder, ClaimsCovered, KeysUnique, Sound, Noted;
  }

  /** Feeding moves its intent too, whatever the status was before. */
  lemma FeedMoves(w: World, id: nat)
    requires Good(w) && id < |w.intents| && w.intents[id].order.Feed?
    ensures Moves(w, AdjudicateFeed(w, id), id)
  {
    var i := w.intents[id];
    ReleaseSound(w, id);
    ReleaseFrame(w, id);
    if i.order.recipient in w.souls {
      FedFrame(w, id, i.order.recipient);
    }
    hide Good, SameActors, WalletsSound, SellersKnown, Moves, Conclude, Release, Fed;
    assert Sound(w.messages) && id in w.escrows;
    hide Sound;
    if FeedCheck(w, id, i).Some? {
      ConcludeMoves(w, Release(w, id), id, Rejected, IntentRejected(id, FeedCheck(w, id, i).value));
    } else {
      ConcludeMoves(w, Fed(w, id, i.soul, i.order.recipient), id, Adjudicated, SoulFed(id));
    }
  }

  lemma FeedFaultMoves(w: World, id: nat)
    requires Good(w) && id < |w.intents| && w.intents[id].order.Feed?
    ensures Moves(w, Fault(w, id), id)
  {
    ActorsSelf(w);
    hide Good, SameActors, Sound, Moves, Conclude;
    ConcludeMoves(w, w, id, Rejected, IntentRejected(id, Internal));
  }

  lemma ReconcileMoves(w: World, id: nat)
    requires Good(w) && IsHeld(w, id) && !IsPending(w, id)
    ensures Moves(w, ReconcileOne(w, id), id)
  {
    assert Backs(w, w.intents[id], w.escrows[id]);
    hide Matched, ClaimsInOrder, ClaimsCovered, KeysUnique, Sound;
  }

  lemma AdjudicateMoves(w: World, id: nat, minted: string)
    requires Good(w)
    ensures Adjudicate(w, id, minted) == w || Moves(w, Adjudicate(w, id, minted), id)
    ensures Fault(w, id) == w || Moves(w, Fault(w, id), id)
  {
    if id < |w.intents| && w.intents[id].order.Feed? {
      hide Good, Moves, AdjudicateFeed, Conclude;
      FeedMoves(w, id);
      FeedFaultMoves(w, id);
    } else if IsPending(w, id) {
      hide Good, Moves, Settle, Compensate;
      SettleMoves(w, id, minted);
      CompensateMoves(w, id);
    }
  }

  // ---- New intents ----

  /** What a passed preface tells about the charge. */
  lemma ChargeFits(w: World, i: Intent)
    requires Good(w) && Preface(w, i).None? && Afford(w, ChargeFor(w, i)).None?
    ensures Charged(i.order) <==> ChargeFor(w, i).Charge?
    ensures ChargeFor(w, i).Charge? ==>
              var c := ChargeFor(w, i);
              && c.actor in w.wallets && w.wallets[c.actor] >= c.amount && PaysFor(i, Escrow(c.actor, c.amount, Held))
    ensures i.order.Claim? ==> w.claims < |Plots.AllocationOrder(w.grid)| && ChargeFor(w, i).amount == FeeAt(w.grid, w.claims)
  {
    NextIsClaims(w);
    hide Good, NextPlot, FeeAt, ActsAs, MayCancel, MayClaim, ParentCheck, Dormant, DormantActor, FeederCheck, InCustody;
    hide Plots.AllocationOrder;
  }

  /** The accepted state, field by field. */
  lemma AcceptFrame(w: World, i: Intent)
    ensures var u, c := Accept(w, i), ChargeFor(w, i);
            && u.intents == w.intents + [i.(status := Pending)]
            && u.escrows == (if c.Charge? then w.escrows[|w.intents| := Escrow(c.actor, c.amount, Held)] else w.escrows)
            && u.wallets == (if c.Charge? then Shift(w, c.actor, 0 - c.amount).wallets else w.wallets)
            && u.journal == (if c.Charge? then Shift(w, c.actor, 0 - c.amount).journal else w.journal)
            && u.souls == w.souls && u.items == w.items && u.listings == w.listings && u.ledger == w.ledger
            && u.fund == w.fund && u.owners == w.owners && u.claims == w.claims && u.messages == w.messages && u.grid == w.grid
  {
    hide ChargeFor, Shift;
    if ChargeFor(w, i).Charge? {
      ShiftFrame(w, ChargeFor(w, i).actor, 0 - ChargeFor(w, i).amount);
    }
  }

  lemma ShiftFrame(w: World, a: Actor, delta: int)
    ensures var v := Shift(w, a, delta);
            && v.souls == w.souls && v.items == w.items && v.listings == w.listings && v.ledger == w.ledger
            && v.intents == w.intents && v.escrows == w.escrows && v.fund == w.fund && v.owners == w.owners
            && v.claims == w.claims && v.messages == w.messages && v.grid == w.grid
  {
    hide Noted;
  }

  lemma AcceptGood(w: World, i: Intent)
    requires Good(w) && Preface(w, i).None? && Afford(w, ChargeFor(w, i)).None?
    requires forall k :: 0 <= k < |w.intents| ==> !SameKey(w.intents[k], i)
    ensures Good(Accept(w, i))
  {
    ChargeFits(w, i);
    AcceptFrame(w, i);
    ActorsSelf(w);
    var u, c := Accept(w, i), ChargeFor(w, i);
    if c.Charge? {
      ShiftSound(w, c.actor, 0 - c.amount);
      ActorsFrame(w, Shift(w, c.actor, 0 - c.amount), u);
    } else {
      ActorsFrame(w, w, u);
    }
    assert SameActors(w, u);
    hide Preface, Afford, Accept, Shift, Sound;
    AcceptMatched(w, u, i, c);
    AcceptClaims(w, u, i, c);
    hide *;
    GoodParts(w, u, i);
  }

  lemma AcceptMatched(w: World, u: World, i: Intent, c: Charge)
    requires Matched(w) && SameActors(w, u) && u.intents == w.intents + [i.(status := Pending)]
    requires Charged(i.order) <==> c.Charge?
    requires c.Charge? ==> c.actor in w.wallets && PaysFor(i, Escrow(c.actor, c.amount, Held))
    requires u.escrows == if c.Charge? then w.escrows[|w.intents| := Escrow(c.actor, c.amount, Held)] else w.escrows
    ensures Matched(u)
  {
    forall k | k in u.escrows ensures Backs(u, u.intents[k], u.escrows[k]) {
      if k < |w.intents| {
        assert Backs(w, w.intents[k], w.escrows[k]);
      }
    }
  }

  lemma AcceptClaims(w: World, u: World, i: Intent, c: Charge)
    requires Matched(w) && ClaimsInOrder(w) && ClaimsCovered(w) && u.intents == w.intents + [i.(status := Pending)]
    requires u.escrows == if c.Charge? then w.escrows[|w.intents| := Escrow(c.actor, c.amount, Held)] else w.escrows
    requires u.grid == w.grid && u.owners == w.owners && u.claims == w.claims
    requires i.order.Claim? ==> w.claims < |Plots.AllocationOrder(w.grid)| && c.Charge? && c.amount == FeeAt(w.grid, w.claims)
    ensures ClaimsInOrder(u) && ClaimsCovered(u)
  {
    hide FeeAt, Plots.AllocationOrder;
  }

  lemma GoodParts(w: World, u: World, i: Intent)
    requires Good(w) && SameActors(w, u) && Matched(u) && ClaimsInOrder(u) && ClaimsCovered(u) && u.messages == w.messages
    requires u.intents == w.intents + [i.(status := Pending)]
    requires forall k :: 0 <= k < |w.intents| ==> !SameKey(w.intents[k], i)
    ensures Good(u)
  {
    hide Matched, ClaimsInOrder, ClaimsCovered, Sound;
  }

  lemma SubmitGood(w: World, i: Intent)
    requires Good(w)
    ensures Good(Submit(w, i).0)
  {
    assert IsForest(w.messages);
    hide Good, Preface, Afford, ChargeFor, Accept, Malformed;
    if FindKey(w.intents, i, |w.intents|).None? && Preface(w, i).None? && Afford(w, ChargeFor(w, i)).None? {
      AcceptGood(w, i);
    }
  }

  lemma MintGood(w: World, a: Actor, custodian: Option<string>)
    requires Good(w)
    ensures Good(Mint(w, a, custodian))
  {
    var u := Mint(w, a, custodian);
    assert Matched(u) by {
      forall k | k in u.escrows ensures Backs(u, u.intents[k], u.escrows[k]) {
        assert Backs(w, w.intents[k], w.escrows[k]);
      }
    }
    hide Matched, KeysUnique, Sound, Plots.AllocationOrder;
  }

  lemma SetBodyGood(w: World, soul: string, row: SoulRow)
    requires Good(w)
    ensures Good(SetBody(w, soul, row))
  {
    var u := SetBody(w, soul, row);
    assert Matched(u) by {
      forall k | k in u.escrows ensures Backs(u, u.intents[k], u.escrows[k]) {
        assert Backs(w, w.intents[k], w.escrows[k]);
      }
    }
    hide Matched, KeysUnique, Sound, Plots.AllocationOrder;
  }

  lemma ReconcileOneGood(w: World, id: nat)
    requires Good(w)
    ensures Good(ReconcileOne(w, id)) && ReconcileOne(w, id).intents == w.intents
  {
    if IsHeld(w, id) && !IsPending(w, id) {
      ReconcileMoves(w, id);
      hide Good, Moves;
      MovesGood(w, ReconcileOne(w, id), id);
    }
  }

  lemma {:induction false} ReconcileUpToGood(w: World, n: nat)
    requires Good(w)
    ensures Good(ReconcileUpTo(w, n)) && ReconcileUpTo(w, n).intents == w.intents
  {
    if n > 0 {
      hide Good, ReconcileOne;
      ReconcileUpToGood(w, n - 1);
      ReconcileOneGood(ReconcileUpTo(w, n - 1), n - 1);
    }
  }

  /** Every step of the protocol keeps the invariant. */
  lemma NextGood(w: World, s: Step)
    requires Good(w)
    ensures Good(Next(w, s))
  {
    hide Submit, Adjudicate, Fault, ReconcileUpTo, Mint, SetBody, Moves;
    assert IsForest(w.messages);
    match s {
      case Submits(i) => SubmitGood(w, i);
      case Adjudicates(id, minted) =>
        AdjudicateMoves(w, id, minted);
        if Adjudicate(w, id, minted) != w { MovesGood(w, Adjudicate(w, id, minted), id); }
      case Faults(id) =>
        AdjudicateMoves(w, id, "");
        if Fault(w, id) != w { MovesGood(w, Fault(w, id), id); }
      case Reconciles => ReconcileUpToGood(w, |w.intents|);
      case Mints(a, custodian) => MintGood(w, a, custodian);
      case SetsBody(soul, row) => SetBodyGood(w, soul, row);
    }
  }

  // ---- Runs ----

  /** The state after `steps`, in any interleaving of submits, pumps, crashes and boot sweeps. */
  ghost function Run(w: World, steps: seq<Step>): (u: World)
    requires Good(w)
    ensures Good(u)
  {
    if steps == [] then w
    else
      var v := Run(w, steps[..|steps| - 1]);
      NextGood(v, steps[|steps| - 1]);
      Next(v, steps[|steps| - 1])
  }

  /** The Hub before anything happened. */
  function Genesis(g: Plots.Grid): World {
    World(g, map[], map[], map[], map[], [], map[], [], 0, map[], 0, [], [])
  }

  lemma GenesisGood(g: Plots.Grid)
    ensures Good(Genesis(g))
  {
    assert Plots.AllocationOrder(g)[..0] == [];
  }
}
