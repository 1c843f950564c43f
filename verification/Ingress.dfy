/** What the ingress accepts: for every kind of order the exact terms under which `server/market.py`,
    `server/plots.py`, `server/social.py` and `server/biology.py` write an intent, and what they write. */
module Ingress {
  import opened Options
  import opened Threads
  import opened Economy
  import opened Integrity
  import opened Outcomes
  import Plots

  /** Nobody has used the (session, nonce) key of `i` yet. */
  ghost predicate NewKey(w: World, i: Intent) {
    forall k :: 0 <= k < |w.intents| ==> w.intents[k].session != i.session || w.intents[k].nonce != i.nonce
  }

  /** Cancelling, editing and deleting need no wallet. */
  predicate ActorKnown(w: World, i: Intent) {
    i.order.Cancel? || i.order.Edit? || i.order.Delete? || ActingFor(i) in w.wallets
  }

  /** What the kind of order asks for beyond identity and money. */
  predicate OrderFits(w: World, i: Intent)
    requires IsForest(w.messages)
  {
    match i.order
    case List(_, _, _, _, _) => true
    case Buy(_, listing) => listing in w.listings
    case Cancel(listing, _) => listing in w.listings
    case Claim(_) => w.claims < |Plots.AllocationOrder(w.grid)|
    case Post(_, title, _) => title != ""
    case Reply(_, parent, _) => parent < |w.messages| && !w.messages[parent].deleted && Depth(w.messages, parent) < 25
    case Edit(_, body) => body != ""
    case Delete(_) => true
    case Feed(_, _) => true
  }

  /** Tamers write for nothing; listing, cancelling, editing and deleting cost nobody anything. */
  predicate Pays(i: Intent) {
    match i.order
    case Buy(_, _) => true
    case Claim(_) => true
    case Feed(_, _) => true
    case Post(author, _, _) => author.Soul?
    case Reply(author, _, _) => author.Soul?
    case _ => false
  }

  /** What an order costs its actor, in cents: the price, 50.00 a ring for the next plot, or 20.00, 8.00
      and 10.00 for a post, a reply and a meal. */
  function Cost(w: World, i: Intent): int
    requires IsForest(w.messages) && OrderFits(w, i) && Pays(i)
  {
    match i.order
    case Buy(_, listing) => w.listings[listing].price
    case Claim(_) => 5000 * (Plots.RingOf(w.grid, Plots.AllocationOrder(w.grid)[w.claims]) + 1)
    case Post(_, _, _) => 2000
    case Reply(_, _, _) => 800
    case Feed(_, _) => 1000
  }

  predicate CanPay(w: World, i: Intent)
    requires IsForest(w.messages) && OrderFits(w, i)
  {
    Pays(i) ==> ActingFor(i) in w.wallets && w.wallets[ActingFor(i)] >= Cost(w, i)
  }

  /** All that the code asks of an order with a new key. */
  predicate Acceptable(w: World, i: Intent)
    requires IsForest(w.messages)
  {
    && ActorKnown(w, i) && !DormantActor(w, ActingFor(i)) && MayGive(w, i) && OrderFits(w, i) && CanPay(w, i)
  }

  /** An order with a new key is accepted exactly if its actor is known and awake, its sender may give it,
      it fits what is on sale, left or live, and its actor can pay. */
  lemma AcceptedIff(w: World, i: Intent)
    requires Good(w) && NewKey(w, i)
    ensures IsForest(w.messages)
    ensures Submit(w, i).1 == Ack(|w.intents|, true) <==> Acceptable(w, i)
    ensures !Acceptable(w, i) ==> Submit(w, i).1.Refused? && Submit(w, i).0 == w
  {
    assert IsForest(w.messages);
    NewKeyNotFound(w, i);
    NextIsClaims(w);
    hide FindKey, Accept, Good, MayGive, DormantActor;
    PassesIff(w, i);
  }

  lemma NewKeyNotFound(w: World, i: Intent)
    requires NewKey(w, i)
    ensures FindKey(w.intents, i, |w.intents|).None?
  {
  }

  /** The checks of the code, in its order, against the terms. */
  lemma PassesIff(w: World, i: Intent)
    requires Good(w)
    ensures IsForest(w.messages)
    ensures Malformed(i).None? && Preface(w, i).None? && Afford(w, ChargeFor(w, i)).None? <==> Acceptable(w, i)
  {
    assert IsForest(w.messages) && WalletsSound(w);
    NextIsClaims(w);
    hide Good, IsDormant, NextPlot, Plots.AllocationOrder, Plots.RingOf, Depth;
  }

  /** What acceptance writes: the pending row; the cost, out of the actor's wallet into an escrow of the
      same number; and nothing else but the flip of the actor's dormancy. */
  lemma AcceptedWrites(w: World, i: Intent)
    requires Good(w) && NewKey(w, i) && Submit(w, i).1 == Ack(|w.intents|, true)
    ensures IsForest(w.messages) && Acceptable(w, i)
    ensures var u, n, a := Submit(w, i).0, |w.intents|, ActingFor(i);
            && u.intents == w.intents + [i.(status := Pending)]
            && (if Pays(i) then
                  && u.wallets == w.wallets[a := w.wallets[a] - Cost(w, i)]
                  && u.escrows == w.escrows[n := Escrow(a, Cost(w, i), Held)]
                  && u.journal == w.journal
                       + if a.Soul? && 0 < w.wallets[a] == Cost(w, i) then [SoulDormant(a.id)] else []
                else u.wallets == w.wallets && u.escrows == w.escrows && u.journal == w.journal)
            && u.souls == w.souls && u.items == w.items && u.listings == w.listings && u.ledger == w.ledger && u.fund == w.fund
            && u.owners == w.owners && u.claims == w.claims && u.messages == w.messages && u.grid == w.grid
  {
    AcceptedIff(w, i);
    AcceptFrame(w, i);
    Charges(w, i);
    hide FindKey, Accept, Good, MayGive, Preface, Afford, ChargeFor, Malformed, OrderFits, Cost;
  }

  lemma Charges(w: World, i: Intent)
    requires Good(w) && IsForest(w.messages) && Acceptable(w, i)
    ensures ChargeFor(w, i) == if Pays(i) then Charge(ActingFor(i), Cost(w, i)) else Free
    ensures WalletsSound(w)
  {
    NextIsClaims(w);
    hide MayGive, DormantActor, NextPlot, Plots.AllocationOrder, Plots.RingOf, Depth;
  }

  /** What the reason of a refusal says about the order. */
  predicate Explains(w: World, i: Intent, why: Reason)
    requires IsForest(w.messages)
  {
    match why
    case ListingNotFound => (i.order.Buy? || i.order.Cancel?) && i.order.listing !in w.listings
    case InsufficientFunds => ActorKnown(w, i) && MayGive(w, i) && OrderFits(w, i) && !CanPay(w, i)
    case ActorNotFound => !ActorKnown(w, i)
    case SoulIsDormant => DormantActor(w, ActingFor(i))
    case CustodyDenied => !MayGive(w, i)
    case FeederCollapsed => i.order.Feed? && i.soul in w.souls && w.souls[i.soul].collapsed
    case NoPlotsLeft => i.order.Claim? && w.claims == |Plots.AllocationOrder(w.grid)|
    case TitleRequired => i.order.Post? && i.order.title == ""
    case BadPayload => i.order.Edit? && i.order.body == ""
    case BadParent(ParentNotFound) => i.order.Reply? && i.order.answers >= |w.messages|
    case BadParent(ParentDeleted) =>
      i.order.Reply? && i.order.answers < |w.messages| && w.messages[i.order.answers].deleted
    case BadParent(DepthExceeded) =>
      i.order.Reply? && i.order.answers < |w.messages| && Depth(w.messages, i.order.answers) >= 25
    case _ => false
  }

  /** A refusal says what is wrong. */
  lemma RefusalIsTrue(w: World, i: Intent)
    requires Good(w) && NewKey(w, i) && !Acceptable(w, i)
    ensures IsForest(w.messages) && Submit(w, i).1.Refused? && Explains(w, i, Submit(w, i).1.reason)
  {
    AcceptedIff(w, i);
    NewKeyNotFound(w, i);
    assert IsForest(w.messages);
    MalformedExplains(w, i);
    PrefaceExplains(w, i);
    FundsExplain(w, i);
    hide FindKey, Accept, Good, Preface, Afford, ChargeFor, Malformed, Acceptable, Explains;
  }

  lemma MalformedExplains(w: World, i: Intent)
    requires IsForest(w.messages)
    ensures Malformed(i).Some? ==> Explains(w, i, Malformed(i).value)
  {
  }

  lemma PrefaceExplains(w: World, i: Intent)
    requires Good(w)
    ensures IsForest(w.messages)
    ensures Preface(w, i).Some? ==> Explains(w, i, Preface(w, i).value)
  {
    hide *;
    if i.order.List? || i.order.Buy? || i.order.Cancel? {
      TradeExplains(w, i);
    } else if i.order.Post? || i.order.Reply? {
      WritingExplains(w, i);
    } else {
      OtherExplains(w, i);
    }
  }

  lemma TradeExplains(w: World, i: Intent)
    requires Good(w) && (i.order.List? || i.order.Buy? || i.order.Cancel?)
    ensures IsForest(w.messages)
    ensures Preface(w, i).Some? ==> Explains(w, i, Preface(w, i).value)
  {
    assert IsForest(w.messages) && w.claims <= |Plots.AllocationOrder(w.grid)|;
    NextIsClaims(w);
    hide Good, IsDormant, NextPlot, Plots.AllocationOrder, Plots.RingOf, Depth, CanPay, OrderFits;
  }

  lemma WritingExplains(w: World, i: Intent)
    requires Good(w) && (i.order.Post? || i.order.Reply?)
    ensures IsForest(w.messages)
    ensures Preface(w, i).Some? ==> Explains(w, i, Preface(w, i).value)
  {
    assert IsForest(w.messages) && w.claims <= |Plots.AllocationOrder(w.grid)|;
    NextIsClaims(w);
    hide Good, IsDormant, NextPlot, Plots.AllocationOrder, Plots.RingOf, Depth, CanPay, OrderFits;
  }

  lemma OtherExplains(w: World, i: Intent)
    requires Good(w) && !(i.order.List? || i.order.Buy? || i.order.Cancel? || i.order.Post? || i.order.Reply?)
    ensures IsForest(w.messages)
    ensures Preface(w, i).Some? ==> Explains(w, i, Preface(w, i).value)
  {
    assert IsForest(w.messages) && w.claims <= |Plots.AllocationOrder(w.grid)|;
    NextIsClaims(w);
    hide Good, IsDormant, NextPlot, Plots.AllocationOrder, Plots.RingOf, Depth, CanPay, OrderFits;
  }

  lemma FundsExplain(w: World, i: Intent)
    requires Good(w)
    ensures IsForest(w.messages)
    ensures Malformed(i).None? && Preface(w, i).None? && Afford(w, ChargeFor(w, i)).Some? ==>
              Explains(w, i, Afford(w, ChargeFor(w, i)).value)
  {
    assert IsForest(w.messages) && WalletsSound(w);
    NextIsClaims(w);
    hide Good, IsDormant, NextPlot, Plots.AllocationOrder, Plots.RingOf, Depth;
  }
}
