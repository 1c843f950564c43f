/** The tables updated row by row, as the source does it, against the transactions of Economy. */
module Hub {
  import opened Options
  import opened Threads
  import E = Economy
  import opened Economy
  import Integrity
  import Plots
  import Protocol

  /** How an apply step ended. */
  datatype Result = Settled | RefusedFor(reason: Reason) | Failed

  /** The step ended as the specification says, with the state it says; after an exception the
      transaction is rolled back, so the state does not matter. */
  ghost predicate EndsAs(o: Outcome, r: Result, after: World) {
    match o
    case Done(v) => r == Settled && after == v
    case Refuse(v, why) => r == RefusedFor(why) && after == v
    case Raised => r == Failed
  }

  class Database {
    const grid: Plots.Grid
    var souls: map<string, SoulRow>
    var wallets: map<Actor, int>
    var items: map<Holding, nat>
    var listings: map<string, Listing>
    var intents: seq<Intent>
    var escrows: map<nat, Escrow>
    var ledger: seq<Row>
    var fund: int
    var owners: map<Plots.Cell, string>
    var claims: nat
    var messages: Table
    var journal: seq<Event>

    function State(): World
      reads this
    {
      World(grid, souls, wallets, items, listings, intents, escrows, ledger, fund, owners, claims, messages, journal)
    }

    constructor (g: Plots.Grid)
      ensures State() == World(g, map[], map[], map[], map[], [], map[], [], 0, map[], 0, [], [])
    {
      grid := g;
      souls, wallets, items, listings := map[], map[], map[], map[];
      intents, escrows, ledger, fund := [], map[], [], 0;
      owners, claims, messages, journal := map[], 0, [], [];
    }

    /** ROLLBACK to the state at BEGIN. */
    method Rollback(w: World)
      requires w.grid == grid
      modifies this
      ensures State() == w
    {
      RestoreActors(w);
      RestoreRecords(w);
      RestorePlaces(w);
    }

    method RestoreActors(w: World)
      modifies this`souls, this`wallets, this`items, this`listings
      ensures souls == w.souls && wallets == w.wallets && items == w.items && listings == w.listings
    {
      souls, wallets, items, listings := w.souls, w.wallets, w.items, w.listings;
    }

    method RestoreRecords(w: World)
      modifies this`intents, this`escrows, this`ledger, this`fund
      ensures intents == w.intents && escrows == w.escrows && ledger == w.ledger && fund == w.fund
    {
      intents, escrows, ledger, fund := w.intents, w.escrows, w.ledger, w.fund;
    }

    method RestorePlaces(w: World)
      modifies this`owners, this`claims, this`messages, this`journal
      ensures owners == w.owners && claims == w.claims && messages == w.messages && journal == w.journal
    {
      owners, claims, messages, journal := w.owners, w.claims, w.messages, w.journal;
    }

    // ---- wallets.py ----

    method DebitWallet(a: Actor, amount: int) returns (ok: bool)
      modifies this`wallets
      ensures ok == (a in old(wallets) && old(wallets)[a] >= amount)
      ensures wallets == if ok then old(wallets)[a := old(wallets)[a] - amount] else old(wallets)
    {
      ok := a in wallets && wallets[a] >= amount;
      if ok {
        wallets := wallets[a := wallets[a] - amount];
      }
    }

    method CreditWallet(a: Actor, amount: int) returns (ok: bool)
      modifies this`wallets
      ensures ok == (a in old(wallets))
      ensures wallets == if ok then old(wallets)[a := old(wallets)[a] + amount] else old(wallets)
    {
      ok := a in wallets;
      if ok {
        wallets := wallets[a := wallets[a] + amount];
      }
    }

    // ---- inventory.py ----

    method AddItem(a: Actor, item: string, n: Quantity)
      modifies this`items
      ensures items == Give(old(items), a, item, n)
    {
      var h := Holding(a, item);
      if h !in items {
        items := items[h := n];
      } else {
        items := items[h := items[h] + n];
      }
    }

    method RemoveItem(a: Actor, item: string, n: Quantity) returns (ok: bool)
      modifies this`items
      ensures ok == (Qty(old(items), a, item) >= n)
      ensures items == if ok then Take(old(items), a, item, n) else old(items)
    {
      var h := Holding(a, item);
      if h !in items || items[h] < n {
        return false;
      }
      var remaining := items[h] - n;
      if remaining <= 0 {
        items := items - {h};
      } else {
        items := items[h := remaining];
      }
      return true;
    }

    // ---- dormancy.py ----

    method NoteEssenceChange(soul: string, before: int)
      modifies this`journal
      ensures journal == if Soul(soul) in wallets then Noted(old(journal), Soul(soul), before, wallets[Soul(soul)])
                         else old(journal)
    {
      if Soul(soul) !in wallets { return; }
      var after := wallets[Soul(soul)];
      if IsDormant(before) == IsDormant(after) { return; }
      if IsDormant(after) {
        journal := journal + [SoulDormant(soul)];
      } else {
        journal := journal + [SoulWoke(soul)];
      }
    }

    /** A funding refresh: credit a wallet and note what that does to a soul's dormancy. */
    method Refresh(a: Actor, amount: int)
      modifies this`wallets, this`journal
      ensures State() == Shift(old(State()), a, amount)
    {
      var before := if a in wallets then wallets[a] else 0;
      var credited := CreditWallet(a, amount);
      if credited && a.Soul? {
        NoteEssenceChange(a.id, before);
      }
    }

    // ---- Escrows ----

    method HoldEscrow(id: nat, a: Actor, amount: nat) returns (refusal: Option<Reason>)
      modifies this`wallets, this`journal, this`escrows
      ensures refusal == Afford(old(State()), Charge(a, amount))
      ensures State() == if refusal.None? then Hold(old(State()), id, a, amount) else old(State())
    {
      var before := if a in wallets then wallets[a] else 0;
      var known := a in wallets;
      var ok := DebitWallet(a, amount);
      if !ok {
        return Some(if known then InsufficientFunds else ActorNotFound);
      }
      if a.Soul? {
        NoteEssenceChange(a.id, before);
      }
      escrows := escrows[id := Escrow(a, amount, Held)];
      return None;
    }

    method MarkEscrow(id: nat, status: EscrowStatus)
      modifies this`escrows
      ensures escrows == Marked(old(escrows), id, status)
    {
      if id in escrows && escrows[id].status == Held {
        escrows := escrows[id := escrows[id].(status := status)];
      }
    }

    method ReleaseEscrow(id: nat)
      modifies this`wallets, this`journal, this`escrows
      ensures State() == Release(old(State()), id)
    {
      if id !in escrows || escrows[id].status != Held { return; }
      var a, amount := escrows[id].actor, escrows[id].amount;
      Refresh(a, amount);
      MarkEscrow(id, Released);
    }

    // ---- Submitting ----

    /** The intent row, the checks and the hold in one transaction. */
    method Enqueue(i: Intent) returns (answer: Answer)
      requires IsForest(messages)
      modifies this
      ensures (State(), answer) == Submit(old(State()), i)
    {
      hide Preface, ChargeFor, Shift, Malformed;
      var start := State();
      if Malformed(i).Some? {
        return Refused(Malformed(i).value);
      }
      var id, existing := FindIntent(i);
      if existing {
        return Ack(id, false);
      }
      intents := intents + [i.(status := Pending)];
      var refusal := Preface(start, i);
      if refusal.None? && ChargeFor(start, i).Charge? {
        HoldCommutes(start, intents, id, ChargeFor(start, i).actor, ChargeFor(start, i).amount);
        refusal := HoldEscrow(id, ChargeFor(start, i).actor, ChargeFor(start, i).amount);
      }
      if refusal.Some? {
        Rollback(start);
        return Refused(refusal.value);
      }
      return Ack(id, true);
    }

    /** The row with this key, or the number the next row will get. */
    method FindIntent(i: Intent) returns (id: nat, found: bool)
      ensures FindKey(intents, i, |intents|) == if found then Some(id) else None
      ensures id == |intents| || found
    {
      id := 0;
      while id < |intents|
        invariant id <= |intents| && FindKey(intents, i, id).None?
      {
        if SameKey(intents[id], i) {
          FoundKeyStays(intents, i, id + 1, |intents|);
          return id, true;
        }
        id := id + 1;
      }
      return id, false;
    }

    // ---- Applying ----

    method ApplyList(i: Intent, minted: string) returns (r: Result)
      requires i.order.List?
      modifies this`items, this`listings, this`ledger
      ensures EndsAs(E.ApplyList(old(State()), i, minted), r, State())
    {
      var d := i.order;
      var refusal := ActsAs(State(), i, d.seller);
      if refusal.Some? {
        return RefusedFor(refusal.value);
      }
      var listing := if d.chosen.Some? then d.chosen.value else minted;
      var ok := RemoveItem(d.seller, d.item, d.qty);
      if !ok {
        return RefusedFor(InsufficientInventory);
      }
      if listing in listings {
        return Failed;
      }
      listings := listings[listing := Listing(d.seller, d.item, d.qty, d.price)];
      ledger := ledger + [Row(Memo, Some(d.seller), 0)];
      return Settled;
    }

    method ApplyBuy(id: nat, i: Intent) returns (r: Result)
      requires i.order.Buy?
      modifies this`wallets, this`journal, this`items, this`listings, this`escrows, this`ledger, this`fund
      ensures EndsAs(E.ApplyBuy(old(State()), id, i), r, State())
    {
      hide ActsAs;
      var d := i.order;
      var refusal := ActsAs(State(), i, d.buyer);
      if refusal.Some? {
        return RefusedFor(refusal.value);
      }
      if d.listing !in listings {
        ReleaseEscrow(id);
        return RefusedFor(ListingGone);
      }
      var l := listings[d.listing];
      listings := listings - {d.listing};
      if id !in escrows || escrows[id].status != Held || escrows[id].amount < l.price {
        hide Release;
        ReleaseEscrow(id);
        return RefusedFor(EscrowShort);
      }
      hide Release;
      SettleSale(id, d.buyer, l);
      return Settled;
    }

    method SettleSale(id: nat, buyer: Actor, l: Listing)
      modifies this`wallets, this`journal, this`items, this`escrows, this`ledger, this`fund
      ensures State() == Sold(old(State()), id, buyer, l)
    {
      hide TaxOn, Give, Noted, Marked;
      var tax := TaxOn(l.price);
      Refresh(l.seller, l.price - tax);
      AddItem(buyer, l.item, l.qty);
      fund := fund + tax;
      MarkEscrow(id, Applied);
      ledger := ledger + [Row(Debit, Some(buyer), l.price)] + [Row(Credit, Some(l.seller), l.price - tax)]
                + [Row(Tax, None, tax)];
    }

    method ApplyCancel(i: Intent) returns (r: Result)
      requires i.order.Cancel?
      modifies this`items, this`listings, this`ledger
      ensures EndsAs(E.ApplyCancel(old(State()), i), r, State())
    {
      hide MayCancel, Give;
      var d := i.order;
      if d.listing !in listings {
        return RefusedFor(ListingNotFound);
      }
      var l := listings[d.listing];
      if MayCancel(State(), i, l.seller.id).Some? {
        return RefusedFor(CustodyDenied);
      }
      listings := listings - {d.listing};
      AddItem(l.seller, l.item, l.qty);
      ledger := ledger + [Row(Memo, Some(if d.byTamer then Tamer(i.soul) else Soul(i.soul)), 0)];
      return Settled;
    }

    /** Scan forward from the counter for the next unowned plot. */
    method NextAvailablePlot() returns (found: Option<nat>)
      ensures found == NextPlot(State())
    {
      var order := Plots.ComputeAllocationOrder(grid);
      hide Plots.AllocationOrder;
      var n := claims;
      while n < |order|
        invariant NextFrom(order, owners, n) == NextPlot(State())
        decreases |order| - n
      {
        if order[n] !in owners {
          return Some(n);
        }
        n := n + 1;
      }
      return None;
    }

    method ApplyClaim(id: nat, i: Intent) returns (r: Result)
      requires i.order.Claim?
      modifies this`wallets, this`journal, this`owners, this`claims, this`escrows, this`ledger, this`fund
      ensures EndsAs(E.ApplyClaim(old(State()), id, i), r, State())
    {
      hide MayClaim, NextPlot, FeeAt, Release, Plots.AllocationOrder, Claimed, ToppedUp;
      var claimant := Soul(i.order.claimant);
      if MayClaim(State(), i, claimant.id).Some? {
        return RefusedFor(CustodyDenied);
      }
      if claimant !in wallets {
        ReleaseEscrow(id);
        return RefusedFor(ActorNotFound);
      }
      if id !in escrows || escrows[id].status != Held {
        return RefusedFor(EscrowMissing);
      }
      var found := NextAvailablePlot();
      if found.None? {
        ReleaseEscrow(id);
        return RefusedFor(NoPlotsLeft);
      }
      var fee := FeeAt(grid, found.value);
      var ok := TopUp(claimant, fee - escrows[id].amount);
      if !ok {
        ReleaseEscrow(id);
        return RefusedFor(InsufficientFunds);
      }
      GrantPlot(id, claimant.id, found.value);
      return Settled;
    }

    /** Charge what the fee has risen above the held amount. */
    method TopUp(a: Actor, extra: int) returns (ok: bool)
      requires a in wallets && a.Soul?
      modifies this`wallets, this`journal
      ensures ok == !(extra > 0 && old(wallets)[a] < extra)
      ensures State() == if ok then ToppedUp(old(State()), a, extra) else old(State())
    {
      if extra <= 0 {
        return true;
      }
      var before := wallets[a];
      ok := DebitWallet(a, extra);
      if ok {
        NoteEssenceChange(a.id, before);
      }
    }

    /** The plot cannot have been taken: the scan has just found it free in the same transaction. */
    method GrantPlot(id: nat, claimant: string, n: nat)
      requires n < |Plots.AllocationOrder(grid)| && Plots.AllocationOrder(grid)[n] !in owners
      modifies this`owners, this`claims, this`escrows, this`ledger, this`fund
      ensures State() == Claimed(old(State()), id, claimant, n)
    {
      hide FeeAt, Plots.AllocationOrder;
      var order := Plots.ComputeAllocationOrder(grid);
      var fee := FeeAt(grid, n);
      if order[n] in owners {
        assert false;
      }
      owners := owners[order[n] := claimant];
      claims := n + 1;
      MarkEscrow(id, Applied);
      fund := fund + fee;
      ledger := ledger + [Row(Debit, Some(Soul(claimant)), fee)] + [Row(Tax, None, fee)];
    }

    method ApplyPost(id: nat, i: Intent) returns (r: Result)
      requires i.order.Post?
      modifies this`messages, this`escrows, this`ledger
      ensures EndsAs(E.ApplyPost(old(State()), id, i), r, State())
    {
      hide ActsAs, Dormant, Written;
      var d := i.order;
      if ActsAs(State(), i, d.author).Some? {
        return RefusedFor(ActsAs(State(), i, d.author).value);
      }
      if d.author.Soul? && Dormant(State(), d.author.id) {
        return RefusedFor(SoulIsDormant);
      }
      if d.title == "" {
        return RefusedFor(TitleRequired);
      }
      if d.author.Soul? && (id !in escrows || escrows[id].status != Held) {
        return RefusedFor(EscrowMissing);
      }
      WriteMessage(id, Message(None, d.author.Tamer?, d.author.id, d.title, d.body, false), d.author, POST_COST);
      return Settled;
    }

    method ApplyReply(id: nat, i: Intent) returns (r: Result)
      requires i.order.Reply? && IsForest(messages)
      modifies this`messages, this`escrows, this`ledger
      ensures EndsAs(E.ApplyReply(old(State()), id, i), r, State())
    {
      hide ActsAs, Dormant, Written, CheckParent;
      var d := i.order;
      if ActsAs(State(), i, d.author).Some? {
        return RefusedFor(ActsAs(State(), i, d.author).value);
      }
      if CheckParent(messages, d.answers) != Fine {
        return RefusedFor(BadParent(CheckParent(messages, d.answers)));
      }
      if d.author.Soul? && Dormant(State(), d.author.id) {
        return RefusedFor(SoulIsDormant);
      }
      if d.author.Soul? && (id !in escrows || escrows[id].status != Held) {
        return RefusedFor(EscrowMissing);
      }
      WriteMessage(id, Message(Some(d.answers), d.author.Tamer?, d.author.id, "", d.body, false), d.author, REPLY_COST);
      return Settled;
    }

    method WriteMessage(id: nat, m: Message, author: Actor, cost: nat)
      modifies this`messages, this`escrows, this`ledger
      ensures State() == Written(old(State()), id, m, author, cost)
    {
      messages := messages + [m];
      if author.Soul? {
        MarkEscrow(id, Applied);
        ledger := ledger + [Row(Debit, Some(author), cost)];
      }
    }

    method ApplyEdit(i: Intent) returns (r: Result)
      requires i.order.Edit?
      modifies this`messages
      ensures EndsAs(E.ApplyEdit(old(State()), i), r, State())
    {
      hide MutationCheck;
      var m := i.order.message;
      if m >= |messages| {
        return RefusedFor(MessageNotFound);
      }
      if messages[m].deleted {
        return RefusedFor(MessageDeleted);
      }
      if MutationCheck(State(), i, m).Some? {
        return RefusedFor(MutationCheck(State(), i, m).value);
      }
      messages := messages[m := messages[m].(body := i.order.body)];
      return Settled;
    }

    method ApplyDelete(i: Intent) returns (r: Result)
      requires i.order.Delete?
      modifies this`messages
      ensures EndsAs(E.ApplyDelete(old(State()), i), r, State())
    {
      hide MutationCheck;
      var m := i.order.message;
      if m >= |messages| {
        return RefusedFor(MessageNotFound);
      }
      if MutationCheck(State(), i, m).Some? {
        return RefusedFor(MutationCheck(State(), i, m).value);
      }
      messages := messages[m := messages[m].(deleted := true)];
      return Settled;
    }

    // ---- Settling ----

    method Apply(id: nat, i: Intent, minted: string) returns (r: Result)
      requires IsForest(messages) && !i.order.Feed?
      modifies this
      ensures EndsAs(E.Apply(old(State()), id, i, minted), r, State())
    {
      hide E.ApplyList, E.ApplyBuy, E.ApplyCancel, E.ApplyClaim, E.ApplyPost, E.ApplyReply, E.ApplyEdit, E.ApplyDelete;
      match i.order
      case List(_, _, _, _, _) => r := ApplyList(i, minted);
      case Buy(_, _) => r := ApplyBuy(id, i);
      case Cancel(_, _) => r := ApplyCancel(i);
      case Claim(_) => r := ApplyClaim(id, i);
      case Post(_, _, _) => r := ApplyPost(id, i);
      case Reply(_, _, _) => r := ApplyReply(id, i);
      case Edit(_, _) => r := ApplyEdit(i);
      case Delete(_) => r := ApplyDelete(i);
    }

    method Finish(id: nat, status: Status, event: Event)
      requires id < |intents|
      modifies this`intents, this`journal
      ensures State() == Conclude(old(State()), id, status, event)
    {
      intents := intents[id := intents[id].(status := status)];
      journal := journal + [event];
    }

    method CompensateReject(id: nat)
      modifies this
      ensures State() == Compensate(old(State()), id)
    {
      if id >= |intents| || intents[id].status != Pending { return; }
      hide Release;
      if RefundsOnFault(intents[id].order) {
        ReleaseFrame(State(), id);
        ReleaseEscrow(id);
      }
      Finish(id, Rejected, IntentRejected(id, Internal));
    }

    /** The status is read again inside the transaction. */
    method SettleOnce(id: nat, minted: string)
      requires IsForest(messages) && (id < |intents| ==> !intents[id].order.Feed?)
      modifies this
      ensures State() == Settle(old(State()), id, minted)
    {
      if id >= |intents| || intents[id].status != Pending { return; }
      hide E.Apply, Release, Compensate, Conclude;
      var start, i := State(), intents[id];
      var r := Apply(id, i, minted);
      match r
      case Settled =>
        Finish(id, Adjudicated, IntentAdjudicated(id));
      case RefusedFor(why) =>
        if RefundsOnRefusal(i.order) {
          ReleaseFrame(State(), id);
          ReleaseEscrow(id);
        }
        Finish(id, Rejected, IntentRejected(id, why));
      case Failed =>
        Rollback(start);
        CompensateReject(id);
    }

    /** `adjudicate_feed_soul`. */
    method AdjudicateFeedSoul(id: nat)
      requires id < |intents| && intents[id].order.Feed?
      modifies this
      ensures State() == AdjudicateFeed(old(State()), id)
    {
      hide Release, Conclude, FeedCheck, Fed;
      var i := intents[id];
      var refusal := FeedCheck(State(), id, i);
      if refusal.Some? {
        ReleaseFrame(State(), id);
        ReleaseEscrow(id);
        Finish(id, Rejected, IntentRejected(id, refusal.value));
      } else {
        RecipientKnown(State(), id, i);
        GiveMeal(id, i.soul, i.order.recipient);
        Finish(id, Adjudicated, SoulFed(id));
      }
    }

    method GiveMeal(id: nat, feeder: string, recipient: string)
      requires recipient in souls
      modifies this`souls, this`wallets, this`journal, this`escrows, this`ledger
      ensures State() == Fed(old(State()), id, feeder, recipient) && intents == old(intents)
    {
      souls := souls[recipient := souls[recipient].(fed := true)];
      hide Noted, Marked;
      Refresh(Soul(recipient), FEED_COST);
      MarkEscrow(id, Applied);
      ledger := ledger + [Row(FeedDebit, Some(Soul(feeder)), 0 - FEED_COST)]
                + [Row(FeedCredit, Some(Soul(recipient)), FEED_COST)];
    }

    method AdjudicateOne(id: nat, minted: string)
      requires IsForest(messages)
      modifies this
      ensures State() == Adjudicate(old(State()), id, minted)
    {
      hide Settle, AdjudicateFeed;
      if id < |intents| && intents[id].order.Feed? {
        AdjudicateFeedSoul(id);
      } else {
        SettleOnce(id, minted);
      }
    }

    method PendingIntents() returns (ids: seq<nat>)
      ensures ids == Protocol.ReadIds(intents)
    {
      ids := [];
      for id := 0 to |intents|
        invariant ids == Protocol.PendingIds(intents[..id])
      {
        assert intents[..id + 1][..id] == intents[..id];
        if intents[id].status == Pending {
          ids := ids + [id];
        }
      }
      assert intents[..|intents|] == intents;
      if |ids| > Protocol.PUMP_LIMIT {
        ids := ids[..Protocol.PUMP_LIMIT];
      }
    }

    /** One pump of the tick loop over the rows it has read; `minted` gives the ids drawn for listings. */
    method PumpIntents(minted: nat -> string)
      requires Integrity.Good(State())
      modifies this
      ensures Integrity.Good(old(State()))
      ensures State() == Integrity.Run(old(State()), Protocol.PumpSteps(Protocol.ReadIds(old(intents)), minted))
    {
      var ids := PendingIntents();
      ghost var start, steps := State(), Protocol.PumpSteps(ids, minted);
      hide Integrity.Good, Adjudicate, Protocol.ReadIds, State;
      NoSteps(start, steps);
      for k := 0 to |ids|
        invariant Integrity.Good(start) && State() == Integrity.Run(start, steps[..k])
      {
        OneMore(start, steps, k);
        GoodForest(this);
        AdjudicateOne(ids[k], minted(ids[k]));
      }
      assert steps[..|ids|] == steps;
    }

    // ---- The boot sweep ----

    method ReconcileEscrow(id: nat)
      modifies this`wallets, this`escrows
      ensures State() == ReconcileOne(old(State()), id)
    {
      hide Marked;
      if id !in escrows || escrows[id].status != Held { return; }
      if id < |intents| && intents[id].status == Pending { return; }
      if id < |intents| && intents[id].status == Adjudicated {
        MarkEscrow(id, Applied);
      } else {
        var _ := CreditWallet(escrows[id].actor, escrows[id].amount);
        MarkEscrow(id, Released);
      }
    }

    /** One transaction an escrow. */
    method ReconcileEscrows()
      modifies this`wallets, this`escrows
      ensures State() == Reconcile(old(State()))
    {
      hide ReconcileOne;
      for id := 0 to |intents|
        invariant State() == ReconcileUpTo(old(State()), id)
      {
        ReconcileEscrow(id);
      }
    }

    method MintStarterGrant(a: Actor, custodian: Option<string>)
      modifies this
      ensures State() == Mint(old(State()), a, custodian)
    {
      if a in wallets { return; }
      if a.Soul? {
        souls := souls[a.id := SoulRow(custodian, false, false)];
      }
      wallets := wallets[a := STARTER_GRANT];
      ledger := ledger + [Row(MintEntry, Some(a), STARTER_GRANT)];
    }
  }

  lemma NoSteps(w: World, steps: seq<Step>)
    requires Integrity.Good(w)
    ensures Integrity.Run(w, steps[..0]) == w
  {
  }

  lemma OneMore(w: World, steps: seq<Step>, k: nat)
    requires Integrity.Good(w) && k < |steps| && steps[k].Adjudicates?
    ensures var v := Integrity.Run(w, steps[..k]);
            IsForest(v.messages) && Integrity.Run(w, steps[..k + 1]) == Adjudicate(v, steps[k].id, steps[k].minted)
  {
    assert steps[..k + 1][..k] == steps[..k];
    hide Adjudicate;
  }

  lemma GoodForest(db: Database)
    requires Integrity.Good(db.State())
    ensures IsForest(db.messages)
  {
  }

  lemma ReleaseFrame(w: World, id: nat)
    ensures Release(w, id).intents == w.intents
  {
  }

  lemma RecipientKnown(w: World, id: nat, i: Intent)
    requires i.order.Feed? && FeedCheck(w, id, i).None?
    ensures i.order.recipient in w.souls
  {
  }

  lemma HoldCommutes(w: World, intents: seq<Intent>, id: nat, a: Actor, amount: nat)
    ensures Hold(w.(intents := intents), id, a, amount) == Hold(w, id, a, amount).(intents := intents)
    ensures Afford(w.(intents := intents), Charge(a, amount)) == Afford(w, Charge(a, amount))
  {
    hide Noted;
  }

  lemma {:induction false} FoundKeyStays(intents: seq<Intent>, i: Intent, n: nat, m: nat)
    requires n <= m <= |intents| && FindKey(intents, i, n).Some?
    ensures FindKey(intents, i, m) == FindKey(intents, i, n)
  {
    if n < m {
      FoundKeyStays(intents, i, n, m - 1);
    }
  }
}
