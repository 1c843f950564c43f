/** The escrowed intent economy of `server/market.py`, `server/plots.py`, `server/social.py` and the
    feeding part of `server/biology.py`: each committed transaction is one function on the state. */
module Economy {
  import opened Options
  import opened Threads
  import Plots

  /** Souls and tamers both own a wallet and an inventory. */
  datatype Actor = Soul(id: string) | Tamer(id: string)

  datatype Holding = Holding(actor: Actor, item: string)

  /** A listing never carries fewer than one unit. */
  type Quantity = n: int | n >= 1 witness 1

  datatype SoulRow = SoulRow(custodian: Option<string>, collapsed: bool, fed: bool)

  /** Money is counted in cents. */
  datatype Listing = Listing(seller: Actor, item: string, qty: Quantity, price: nat)

  datatype EscrowStatus = Held | Applied | Released

  datatype Escrow = Escrow(actor: Actor, amount: nat, status: EscrowStatus)

  datatype Order =
    | List(seller: Actor, item: string, qty: Quantity, price: nat, chosen: Option<string>)
    | Buy(buyer: Actor, listing: string)
    | Cancel(listing: string, byTamer: bool)
    | Claim(claimant: string)
    | Post(author: Actor, title: string, body: string)
    | Reply(author: Actor, answers: nat, body: string)
    | Edit(message: nat, body: string)
    | Delete(message: nat)
    | Feed(feeder: string, recipient: string)

  datatype Status = Pending | Adjudicated | Rejected

  /** `custodian` is None for the operator; `soul` is the identity that authenticated. */
  datatype Intent = Intent(session: string, nonce: string, custodian: Option<string>, soul: string, order: Order, status: Status)

  datatype Entry = Debit | Credit | Tax | Memo | MintEntry | FeedDebit | FeedCredit

  datatype Row = Row(entry: Entry, actor: Option<Actor>, amount: int)

  datatype Reason =
    | ListingNotFound | ListingGone | InsufficientFunds | ActorNotFound | CustodyDenied | EscrowShort
    | EscrowMissing | SoulIsDormant | InsufficientInventory | NoPlotsLeft | BadParent(check: Check)
    | MessageNotFound | MessageDeleted | TitleRequired | BadPayload | FeederCollapsed
    | RecipientNotFound | NotCollapsed | AlreadyFed | Internal

  datatype Event =
    | SoulDormant(soul: string)
    | SoulWoke(soul: string)
    | IntentAdjudicated(id: nat)
    | IntentRejected(id: nat, reason: Reason)
    | SoulFed(id: nat)

  /** The tables.  Intents are identified by their row number, escrows by their intent's. */
  datatype World = World(
    grid: Plots.Grid,
    souls: map<string, SoulRow>,
    wallets: map<Actor, int>,
    items: map<Holding, nat>,
    listings: map<string, Listing>,
    intents: seq<Intent>,
    escrows: map<nat, Escrow>,
    ledger: seq<Row>,
    fund: int,
    owners: map<Plots.Cell, string>,
    claims: nat,
    messages: Table,
    journal: seq<Event>)

  const STARTER_GRANT: nat := 10000
  const POST_COST: nat := 2000
  const REPLY_COST: nat := 800
  const FEED_COST: nat := 1000

  /** The 2% fund tax, rounded to the nearest cent. */
  function TaxOn(price: nat): (tax: nat)
    ensures tax <= price && price - 25 < 50 * tax <= price + 25
  {
    (price + 25) / 50
  }

  // ---- Wallets, dormancy and escrows ----

  predicate IsDormant(balance: int) {
    balance <= 0
  }

  /** A missing soul is not dormant. */
  predicate Dormant(w: World, soul: string) {
    Soul(soul) in w.wallets && IsDormant(w.wallets[Soul(soul)])
  }

  predicate DormantActor(w: World, a: Actor) {
    a.Soul? && Dormant(w, a.id)
  }

  /** `note_essence_change`: a crossing of the threshold is journaled. */
  function Noted(journal: seq<Event>, a: Actor, before: int, after: int): seq<Event> {
    if a.Tamer? || IsDormant(before) == IsDormant(after) then journal
    else journal + [if IsDormant(after) then SoulDormant(a.id) else SoulWoke(a.id)]
  }

  /** Change a cached balance and note the change; a missing wallet is left alone. */
  function Shift(w: World, a: Actor, delta: int): World {
    if a !in w.wallets then w
    else
      var after := w.wallets[a] + delta;
      w.(wallets := w.wallets[a := after], journal := Noted(w.journal, a, w.wallets[a], after))
  }

  function Hold(w: World, id: nat, a: Actor, amount: nat): World {
    Shift(w, a, 0 - amount).(escrows := w.escrows[id := Escrow(a, amount, Held)])
  }

  predicate IsHeld(w: World, id: nat) {
    id in w.escrows && w.escrows[id].status == Held
  }

  /** The escrow of `id` leaves the held state; any other escrow is left alone. */
  function Marked(escrows: map<nat, Escrow>, id: nat, status: EscrowStatus): map<nat, Escrow> {
    if id in escrows && escrows[id].status == Held then escrows[id := escrows[id].(status := status)] else escrows
  }

  function Release(w: World, id: nat): World {
    if IsHeld(w, id) then
      Shift(w, w.escrows[id].actor, w.escrows[id].amount).(escrows := Marked(w.escrows, id, Released))
    else w
  }

  // ---- Inventories ----

  function Qty(items: map<Holding, nat>, a: Actor, item: string): nat {
    if Holding(a, item) in items then items[Holding(a, item)] else 0
  }

  function Give(items: map<Holding, nat>, a: Actor, item: string, n: Quantity): map<Holding, nat> {
    items[Holding(a, item) := Qty(items, a, item) + n]
  }

  /** Emptied rows vanish. */
  function Take(items: map<Holding, nat>, a: Actor, item: string, n: Quantity): map<Holding, nat>
    requires Qty(items, a, item) >= n
  {
    if Qty(items, a, item) == n then items - {Holding(a, item)}
    else items[Holding(a, item) := Qty(items, a, item) - n]
  }

  // ---- Plots ----

  /** The first unowned plot of `order` from position `n` on. */
  function NextFrom(order: seq<Plots.Cell>, owners: map<Plots.Cell, string>, n: nat): (found: Option<nat>)
    decreases |order| - n
    ensures found.Some? ==> n <= found.value < |order| && order[found.value] !in owners
  {
    if n >= |order| then None
    else if order[n] !in owners then Some(n)
    else NextFrom(order, owners, n + 1)
  }

  function NextPlot(w: World): (found: Option<nat>)
    ensures found.Some? ==>
              var order := Plots.AllocationOrder(w.grid);
              w.claims <= found.value < |order| && order[found.value] !in w.owners
  {
    NextFrom(Plots.AllocationOrder(w.grid), w.owners, w.claims)
  }

  function FeeAt(g: Plots.Grid, n: nat): nat
    requires n < |Plots.AllocationOrder(g)|
  {
    Plots.ClaimFee(Plots.RingOf(g, Plots.AllocationOrder(g)[n]))
  }

  // ---- Custody ----

  predicate InCustody(w: World, soul: string, custodian: Option<string>) {
    soul in w.souls && w.souls[soul].custodian == custodian
  }

  /** Operators name anyone; souls and tamers act as themselves; custodians act as their souls. */
  function ActsAs(w: World, i: Intent, a: Actor): Option<Reason> {
    if a !in w.wallets then Some(ActorNotFound)
    else if i.custodian.None? || a.id == i.soul || (a.Soul? && InCustody(w, a.id, i.custodian)) then None
    else Some(CustodyDenied)
  }

  /** Cancelling compares the seller's raw id, whatever kind of actor sold. */
  function MayCancel(w: World, i: Intent, seller: string): Option<Reason> {
    if i.custodian.None? || i.soul == seller || InCustody(w, seller, i.custodian) then None
    else Some(CustodyDenied)
  }

  function MayClaim(w: World, i: Intent, claimant: string): Option<Reason> {
    if i.custodian.None? || (claimant == i.soul && InCustody(w, claimant, i.custodian)) then None
    else Some(CustodyDenied)
  }

  function MayMutate(i: Intent, m: Message): Option<Reason> {
    if i.custodian.None? || m.author == i.soul then None else Some(CustodyDenied)
  }

  function First(a: Option<Reason>, b: Option<Reason>): Option<Reason> {
    if a.Some? then a else b
  }

  function When(refused: bool, why: Reason): Option<Reason> {
    if refused then Some(why) else None
  }

  function ParentCheck(w: World, parent: nat): Option<Reason>
    requires IsForest(w.messages)
  {
    When(CheckParent(w.messages, parent) != Fine, BadParent(CheckParent(w.messages, parent)))
  }

  // ---- Submitting ----

  datatype Charge = Free | Charge(actor: Actor, amount: nat)

  /** What is held when the order is accepted; tamers write for nothing. */
  function ChargeFor(w: World, i: Intent): Charge {
    match i.order
    case Buy(buyer, listing) => if listing in w.listings then Charge(buyer, w.listings[listing].price) else Free
    case Claim(claimant) =>
      (match NextPlot(w) case Some(n) => Charge(Soul(claimant), FeeAt(w.grid, n)) case None => Free)
    case Post(author, _, _) => if author.Soul? then Charge(author, POST_COST) else Free
    case Reply(author, _, _) => if author.Soul? then Charge(author, REPLY_COST) else Free
    case Feed(_, _) => Charge(Soul(i.soul), FEED_COST)
    case _ => Free
  }

  function Afford(w: World, charge: Charge): Option<Reason> {
    match charge
    case Free => None
    case Charge(a, amount) =>
      if a !in w.wallets then Some(ActorNotFound) else When(w.wallets[a] < amount, InsufficientFunds)
  }

  /** Refusals that need no look at the tables. */
  function Malformed(i: Intent): Option<Reason> {
    match i.order
    case Post(_, title, _) => When(title == "", TitleRequired)
    case Edit(_, body) => When(body == "", BadPayload)
    case _ => None
  }

  function FeederCheck(w: World, i: Intent): Option<Reason>
    requires i.order.Feed?
  {
    if Soul(i.soul) !in w.wallets then Some(ActorNotFound)
    else if i.custodian.Some? && (i.order.feeder != i.soul || !InCustody(w, i.soul, i.custodian)) then Some(CustodyDenied)
    else When(i.soul in w.souls && w.souls[i.soul].collapsed, FeederCollapsed)
  }

  function Preface(w: World, i: Intent): Option<Reason>
    requires IsForest(w.messages)
  {
    match i.order
    case List(seller, _, _, _, _) => First(ActsAs(w, i, seller), When(DormantActor(w, seller), SoulIsDormant))
    case Buy(buyer, listing) =>
      First(ActsAs(w, i, buyer), First(When(DormantActor(w, buyer), SoulIsDormant),
        When(listing !in w.listings, ListingNotFound)))
    case Cancel(listing, _) =>
      First(When(Dormant(w, i.soul), SoulIsDormant),
        if listing !in w.listings then Some(ListingNotFound) else MayCancel(w, i, w.listings[listing].seller.id))
    case Claim(claimant) =>
      First(MayClaim(w, i, claimant), First(When(Dormant(w, claimant), SoulIsDormant), When(NextPlot(w).None?, NoPlotsLeft)))
    case Post(author, _, _) => First(When(DormantActor(w, author), SoulIsDormant), ActsAs(w, i, author))
    case Reply(author, parent, _) =>
      First(When(DormantActor(w, author), SoulIsDormant), First(ActsAs(w, i, author), ParentCheck(w, parent)))
    case Edit(_, _) => When(Dormant(w, i.soul), SoulIsDormant)
    case Delete(_) => When(Dormant(w, i.soul), SoulIsDormant)
    case Feed(_, _) => First(FeederCheck(w, i), When(Dormant(w, i.soul), SoulIsDormant))
  }

  predicate SameKey(i: Intent, j: Intent) {
    i.session == j.session && i.nonce == j.nonce
  }

  /** The first intent with the key of `i` among the first `n`. */
  function FindKey(intents: seq<Intent>, i: Intent, n: nat): (found: Option<nat>)
    requires n <= |intents|
    ensures found.Some? ==> found.value < n && SameKey(intents[found.value], i)
    ensures found.None? ==> forall k :: 0 <= k < n ==> !SameKey(intents[k], i)
  {
    if n == 0 then None
    else
      var earlier := FindKey(intents, i, n - 1);
      if earlier.Some? then earlier
      else if SameKey(intents[n - 1], i) then Some(n - 1)
      else None
  }

  datatype Answer = Ack(id: nat, created: bool) | Refused(reason: Reason)

  /** The intent row and the hold are one transaction. */
  function Accept(w: World, i: Intent): World {
    var intents := w.intents + [i.(status := Pending)];
    match ChargeFor(w, i)
    case Free => w.(intents := intents)
    case Charge(a, amount) => Hold(w, |w.intents|, a, amount).(intents := intents)
  }

  function Submit(w: World, i: Intent): (World, Answer)
    requires IsForest(w.messages)
  {
    if Malformed(i).Some? then (w, Refused(Malformed(i).value))
    else
      var existing := FindKey(w.intents, i, |w.intents|);
      if existing.Some? then (w, Ack(existing.value, false))
      else
        var refusal := First(Preface(w, i), Afford(w, ChargeFor(w, i)));
        if refusal.Some? then (w, Refused(refusal.value))
        else (Accept(w, i), Ack(|w.intents|, true))
  }

  // ---- Adjudication ----

  /** What an apply step leaves behind: its writes, a refusal with the writes made before it, or an
      exception, after which nothing of it is kept. */
  datatype Outcome = Done(world: World) | Refuse(world: World, reason: Reason) | Raised

  /** Adjudication leaves the intent rows to the settlement. */
  predicate LeavesIntents(w: World, o: Outcome) {
    o.Raised? || o.world.intents == w.intents
  }

  function ApplyList(w: World, i: Intent, minted: string): (o: Outcome)
    requires i.order.List?
    ensures LeavesIntents(w, o)
  {
    var d := i.order;
    var listing := if d.chosen.Some? then d.chosen.value else minted;
    if ActsAs(w, i, d.seller).Some? then Refuse(w, ActsAs(w, i, d.seller).value)
    else if Qty(w.items, d.seller, d.item) < d.qty then Refuse(w, InsufficientInventory)
    else if listing in w.listings then Raised
    else Done(w.(items := Take(w.items, d.seller, d.item, d.qty),
                 listings := w.listings[listing := Listing(d.seller, d.item, d.qty, d.price)],
                 ledger := w.ledger + [Row(Memo, Some(d.seller), 0)]))
  }

  /** The held escrow covers `price`. */
  predicate Funded(w: World, id: nat, price: nat) {
    IsHeld(w, id) && w.escrows[id].amount >= price
  }

  function ApplyBuy(w: World, id: nat, i: Intent): (o: Outcome)
    requires i.order.Buy?
    ensures LeavesIntents(w, o)
  {
    var d := i.order;
    if ActsAs(w, i, d.buyer).Some? then Refuse(w, ActsAs(w, i, d.buyer).value)
    else if d.listing !in w.listings then Refuse(Release(w, id), ListingGone)
    else
      var l := w.listings[d.listing];
      var w1 := w.(listings := w.listings - {d.listing});
      if !Funded(w, id, l.price) then Refuse(Release(w1, id), EscrowShort)
      else Done(Sold(w1, id, d.buyer, l))
  }

  /** The seller is credited net of tax, the fund gets the tax, the buyer gets the item. */
  function Sold(w: World, id: nat, buyer: Actor, l: Listing): World {
    var tax := TaxOn(l.price);
    Shift(w, l.seller, l.price - tax).(
      items := Give(w.items, buyer, l.item, l.qty),
      fund := w.fund + tax,
      escrows := Marked(w.escrows, id, Applied),
      ledger := w.ledger + [Row(Debit, Some(buyer), l.price)] + [Row(Credit, Some(l.seller), l.price - tax)]
                + [Row(Tax, None, tax)])
  }

  function ApplyCancel(w: World, i: Intent): (o: Outcome)
    requires i.order.Cancel?
    ensures LeavesIntents(w, o)
  {
    var d := i.order;
    if d.listing !in w.listings then Refuse(w, ListingNotFound)
    else
      var l := w.listings[d.listing];
      if MayCancel(w, i, l.seller.id).Some? then Refuse(w, CustodyDenied)
      else Done(w.(items := Give(w.items, l.seller, l.item, l.qty),
                   listings := w.listings - {d.listing},
                   ledger := w.ledger + [Row(Memo, Some(if d.byTamer then Tamer(i.soul) else Soul(i.soul)), 0)]))
  }

  function ApplyClaim(w: World, id: nat, i: Intent): (o: Outcome)
    requires i.order.Claim?
    ensures LeavesIntents(w, o)
  {
    var claimant := Soul(i.order.claimant);
    if MayClaim(w, i, claimant.id).Some? then Refuse(w, CustodyDenied)
    else if claimant !in w.wallets then Refuse(Release(w, id), ActorNotFound)
    else if !IsHeld(w, id) then Refuse(w, EscrowMissing)
    else
      var found := NextPlot(w);
      if found.None? then Refuse(Release(w, id), NoPlotsLeft)
      else
        var extra := FeeAt(w.grid, found.value) - w.escrows[id].amount;
        if extra > 0 && w.wallets[claimant] < extra then Refuse(Release(w, id), InsufficientFunds)
        else Done(Claimed(ToppedUp(w, claimant, extra), id, claimant.id, found.value))
  }

  /** A fee above the held amount is charged on top of it. */
  function ToppedUp(w: World, a: Actor, extra: int): World {
    if extra > 0 then Shift(w, a, 0 - extra) else w
  }

  function Claimed(w: World, id: nat, claimant: string, n: nat): World
    requires n < |Plots.AllocationOrder(w.grid)|
  {
    var fee := FeeAt(w.grid, n);
    w.(owners := w.owners[Plots.AllocationOrder(w.grid)[n] := claimant],
       claims := n + 1,
       fund := w.fund + fee,
       escrows := Marked(w.escrows, id, Applied),
       ledger := w.ledger + [Row(Debit, Some(Soul(claimant)), fee)] + [Row(Tax, None, fee)])
  }

  /** A post or a reply; `cost` is what its author was charged. */
  function Written(w: World, id: nat, m: Message, author: Actor, cost: nat): World {
    if author.Tamer? then w.(messages := w.messages + [m])
    else w.(messages := w.messages + [m], escrows := Marked(w.escrows, id, Applied),
            ledger := w.ledger + [Row(Debit, Some(author), cost)])
  }

  function ApplyPost(w: World, id: nat, i: Intent): (o: Outcome)
    requires i.order.Post?
    ensures LeavesIntents(w, o)
  {
    var d := i.order;
    var refusal := First(ActsAs(w, i, d.author), First(When(DormantActor(w, d.author), SoulIsDormant),
      First(When(d.title == "", TitleRequired), When(d.author.Soul? && !IsHeld(w, id), EscrowMissing))));
    if refusal.Some? then Refuse(w, refusal.value)
    else Done(Written(w, id, Message(None, d.author.Tamer?, d.author.id, d.title, d.body, false), d.author, POST_COST))
  }

  function ApplyReply(w: World, id: nat, i: Intent): (o: Outcome)
    requires i.order.Reply? && IsForest(w.messages)
    ensures LeavesIntents(w, o)
  {
    var d := i.order;
    var refusal := First(ActsAs(w, i, d.author), First(ParentCheck(w, d.answers),
      First(When(DormantActor(w, d.author), SoulIsDormant), When(d.author.Soul? && !IsHeld(w, id), EscrowMissing))));
    if refusal.Some? then Refuse(w, refusal.value)
    else Done(Written(w, id, Message(Some(d.answers), d.author.Tamer?, d.author.id, "", d.body, false), d.author, REPLY_COST))
  }

  /** Why the author of message `m`, or the operator, may not change it. */
  function MutationCheck(w: World, i: Intent, m: nat): Option<Reason>
    requires m < |w.messages|
  {
    First(When(!w.messages[m].byTamer && Dormant(w, w.messages[m].author), SoulIsDormant), MayMutate(i, w.messages[m]))
  }

  function ApplyEdit(w: World, i: Intent): (o: Outcome)
    requires i.order.Edit?
    ensures LeavesIntents(w, o)
  {
    var m := i.order.message;
    if m >= |w.messages| then Refuse(w, MessageNotFound)
    else if w.messages[m].deleted then Refuse(w, MessageDeleted)
    else if MutationCheck(w, i, m).Some? then Refuse(w, MutationCheck(w, i, m).value)
    else Done(w.(messages := w.messages[m := w.messages[m].(body := i.order.body)]))
  }

  /** Deleting again is an idempotent success. */
  function ApplyDelete(w: World, i: Intent): (o: Outcome)
    requires i.order.Delete?
    ensures LeavesIntents(w, o)
  {
    var m := i.order.message;
    if m >= |w.messages| then Refuse(w, MessageNotFound)
    else if MutationCheck(w, i, m).Some? then Refuse(w, MutationCheck(w, i, m).value)
    else Done(w.(messages := w.messages[m := w.messages[m].(deleted := true)]))
  }

  function Apply(w: World, id: nat, i: Intent, minted: string): (o: Outcome)
    requires IsForest(w.messages) && !i.order.Feed?
    ensures LeavesIntents(w, o)
  {
    match i.order
    case List(_, _, _, _, _) => ApplyList(w, i, minted)
    case Buy(_, _) => ApplyBuy(w, id, i)
    case Cancel(_, _) => ApplyCancel(w, i)
    case Claim(_) => ApplyClaim(w, id, i)
    case Post(_, _, _) => ApplyPost(w, id, i)
    case Reply(_, _, _) => ApplyReply(w, id, i)
    case Edit(_, _) => ApplyEdit(w, i)
    case Delete(_) => ApplyDelete(w, i)
  }

  /** Set the status of an intent and journal the outcome. */
  function Conclude(w: World, id: nat, status: Status, event: Event): World
    requires id < |w.intents|
  {
    w.(intents := w.intents[id := w.intents[id].(status := status)], journal := w.journal + [event])
  }

  predicate IsPending(w: World, id: nat) {
    id < |w.intents| && w.intents[id].status == Pending
  }

  /** A refused post or reply is refunded by the settlement, other refusals where they arise. */
  predicate RefundsOnRefusal(o: Order) {
    o.Post? || o.Reply?
  }

  predicate RefundsOnFault(o: Order) {
    o.Buy? || o.Claim? || o.Post? || o.Reply?
  }

  /** Last resort after an exception. */
  function Compensate(w: World, id: nat): World {
    if !IsPending(w, id) then w
    else
      var w1 := if RefundsOnFault(w.intents[id].order) then Release(w, id) else w;
      Conclude(w1, id, Rejected, IntentRejected(id, Internal))
  }

  /** `_settle_once` under `adjudicate_*_intent`; `minted` is the listing id drawn for this intent. */
  function Settle(w: World, id: nat, minted: string): World
    requires IsForest(w.messages) && (id < |w.intents| ==> !w.intents[id].order.Feed?)
  {
    if !IsPending(w, id) then w
    else match Apply(w, id, w.intents[id], minted)
      case Done(w1) => Conclude(w1, id, Adjudicated, IntentAdjudicated(id))
      case Refuse(w1, why) =>
        var w2 := if RefundsOnRefusal(w.intents[id].order) then Release(w1, id) else w1;
        Conclude(w2, id, Rejected, IntentRejected(id, why))
      case Raised => Compensate(w, id)
  }

  function FeedCheck(w: World, id: nat, i: Intent): Option<Reason>
    requires i.order.Feed?
  {
    var r := i.order.recipient;
    if Soul(i.soul) !in w.wallets then Some(ActorNotFound)
    else if i.custodian.Some? && !InCustody(w, i.soul, i.custodian) then Some(CustodyDenied)
    else if r !in w.souls then Some(RecipientNotFound)
    else if !w.souls[r].collapsed then Some(NotCollapsed)
    else if w.souls[r].fed then Some(AlreadyFed)
    else When(!Funded(w, id, FEED_COST), EscrowShort)
  }

  function Fed(w: World, id: nat, feeder: string, recipient: string): World
    requires recipient in w.souls
  {
    Shift(w, Soul(recipient), FEED_COST).(
      souls := w.souls[recipient := w.souls[recipient].(fed := true)],
      escrows := Marked(w.escrows, id, Applied),
      ledger := w.ledger + [Row(FeedDebit, Some(Soul(feeder)), 0 - FEED_COST)]
                + [Row(FeedCredit, Some(Soul(recipient)), FEED_COST)])
  }

  /** `adjudicate_feed_soul`, which does not look at the intent's status. */
  function AdjudicateFeed(w: World, id: nat): World
    requires id < |w.intents| && w.intents[id].order.Feed?
  {
    var i := w.intents[id];
    var refusal := FeedCheck(w, id, i);
    if refusal.Some? then Conclude(Release(w, id), id, Rejected, IntentRejected(id, refusal.value))
    else Conclude(Fed(w, id, i.soul, i.order.recipient), id, Adjudicated, SoulFed(id))
  }

  /** `_adjudicate_one`. */
  function Adjudicate(w: World, id: nat, minted: string): World
    requires IsForest(w.messages)
  {
    if id < |w.intents| && w.intents[id].order.Feed? then AdjudicateFeed(w, id) else Settle(w, id, minted)
  }

  /** What remains of an adjudication that raised.  A feed is rejected whatever its status is by
      then, and its escrow is left for the boot sweep. */
  function Fault(w: World, id: nat): World {
    if id < |w.intents| && w.intents[id].order.Feed? then Conclude(w, id, Rejected, IntentRejected(id, Internal))
    else Compensate(w, id)
  }

  // ---- Boot sweep, births and bodies ----

  /** One escrow of `reconcile_escrows`.  The refund does not note an essence change. */
  function ReconcileOne(w: World, id: nat): World {
    if !IsHeld(w, id) || IsPending(w, id) then w
    else if id < |w.intents| && w.intents[id].status == Adjudicated then w.(escrows := Marked(w.escrows, id, Applied))
    else
      var e := w.escrows[id];
      w.(wallets := if e.actor in w.wallets then w.wallets[e.actor := w.wallets[e.actor] + e.amount] else w.wallets,
         escrows := Marked(w.escrows, id, Released))
  }

  /** The sweep over the first `n` escrows. */
  function ReconcileUpTo(w: World, n: nat): World {
    if n == 0 then w else ReconcileOne(ReconcileUpTo(w, n - 1), n - 1)
  }

  function Reconcile(w: World): World {
    ReconcileUpTo(w, |w.intents|)
  }

  /** A new soul or tamer is born with the starter grant. */
  function Mint(w: World, a: Actor, custodian: Option<string>): World {
    if a in w.wallets then w
    else
      w.(souls := if a.Soul? then w.souls[a.id := SoulRow(custodian, false, false)] else w.souls,
         wallets := w.wallets[a := STARTER_GRANT],
         ledger := w.ledger + [Row(MintEntry, Some(a), STARTER_GRANT)])
  }

  /** Custody changes, collapses and recoveries come from elsewhere. */
  function SetBody(w: World, soul: string, row: SoulRow): World {
    if soul in w.souls then w.(souls := w.souls[soul := row]) else w
  }

  // ---- Runs ----

  datatype Step =
    | Submits(intent: Intent)
    | Adjudicates(id: nat, minted: string)
    | Faults(id: nat)
    | Reconciles
    | Mints(actor: Actor, custodian: Option<string>)
    | SetsBody(soul: string, row: SoulRow)

  function Next(w: World, s: Step): World
    requires IsForest(w.messages)
  {
    match s
    case Submits(i) => Submit(w, i).0
    case Adjudicates(id, minted) => Adjudicate(w, id, minted)
    case Faults(id) => Fault(w, id)
    case Reconciles => Reconcile(w)
    case Mints(a, custodian) => Mint(w, a, custodian)
    case SetsBody(soul, row) => SetBody(w, soul, row)
  }
}
