/** Runs from an empty Hub in which the code does not do what it is documented to do: the cases that
    the exact conditions elsewhere shut out do arise. */
module Witnesses {
  import opened Options
  import opened Threads
  import opened Economy
  import opened Integrity
  import opened Money
  import opened Dormancy
  import opened Outcomes
  import opened Audit
  import Market
  import Plots
  import Protocol

  lemma RunOn(w: World, steps: seq<Step>, s: Step)
    requires Good(w)
    ensures IsForest(Run(w, steps).messages) && Run(w, steps + [s]) == Next(Run(w, steps), s)
  {
    assert (steps + [s])[..|steps|] == steps;
  }

  lemma RunMint(w: World, steps: seq<Step>, a: Actor, custodian: Option<string>)
    requires Good(w)
    ensures Run(w, steps + [Mints(a, custodian)]) == Mint(Run(w, steps), a, custodian)
  {
    hide Good, Mint, Run;
    RunOn(w, steps, Mints(a, custodian));
  }

  lemma RunSubmit(w: World, steps: seq<Step>, i: Intent)
    requires Good(w)
    ensures IsForest(Run(w, steps).messages) && Run(w, steps + [Submits(i)]) == Submit(Run(w, steps), i).0
  {
    hide Good, Submit, Run;
    RunOn(w, steps, Submits(i));
  }

  lemma RunSetBody(w: World, steps: seq<Step>, soul: string, row: SoulRow)
    requires Good(w)
    ensures Run(w, steps + [SetsBody(soul, row)]) == SetBody(Run(w, steps), soul, row)
  {
    hide Good, SetBody, Run;
    RunOn(w, steps, SetsBody(soul, row));
  }

  lemma RunAdjudicate(w: World, steps: seq<Step>, id: nat)
    requires Good(w)
    ensures IsForest(Run(w, steps).messages) && Run(w, steps + [Adjudicates(id, "")]) == Adjudicate(Run(w, steps), id, "")
  {
    hide Good, Adjudicate, Run;
    RunOn(w, steps, Adjudicates(id, ""));
  }

  // ---- A claim whose soul changes hands ----

  const GRID := Plots.Grid(3, 3)

  /** The first plot of a three by three grid costs just what a soul is born with. */
  lemma FirstPlot()
    ensures |Plots.AllocationOrder(GRID)| > 0 && FeeAt(GRID, 0) == STARTER_GRANT
  {
    var order := Plots.AllocationOrder(GRID);
    Plots.AllocationOrderCorrect(GRID);
    var corner := Plots.Cell(0, 0);
    assert Plots.IsClaimable(GRID, corner);
    assert corner in order;
    assert order[0] in order && Plots.IsClaimable(GRID, order[0]);
    assert Plots.RingOf(GRID, order[0]) == 1;
  }

  function Claiming(): Intent {
    Intent("s", "1", Some("c"), "b", Claim("b"), Pending)
  }

  /** The custodian "c" claims a plot for the soul "b", which passes to "d" before the claim is settled;
      then the Hub restarts. */
  function HandedOver(k: nat): seq<Step>
    requires k <= 5
  {
    if k == 0 then []
    else
      HandedOver(k - 1) +
      [if k == 1 then Mints(Soul("b"), Some("c"))
       else if k == 2 then Submits(Claiming())
       else if k == 3 then SetsBody("b", SoulRow(Some("d"), false, false))
       else if k == 4 then Adjudicates(0, "")
       else Reconciles]
  }

  /** The soul, its purse and its escrow along that run. */
  ghost predicate Stage(w: World, custodian: string, purse: int, escrow: EscrowStatus, status: Status, journal: seq<Event>) {
    && w.grid == GRID && w.souls == map["b" := SoulRow(Some(custodian), false, false)] && w.wallets == map[Soul("b") := purse]
    && w.intents == [Claiming().(status := status)] && w.escrows == map[0 := Escrow(Soul("b"), STARTER_GRANT, escrow)]
    && w.messages == [] && w.journal == journal
  }

  lemma ClaimIsHeld()
    ensures var w := Mint(Genesis(GRID), Soul("b"), Some("c"));
            IsForest(w.messages) && Stage(Submit(w, Claiming()).0, "c", 0, Held, Pending, [SoulDormant("b")])
  {
    var w := Mint(Genesis(GRID), Soul("b"), Some("c"));
    FirstPlot();
    hide Plots.AllocationOrder, FeeAt;
    assert NextPlot(w) == Some(0);
    AcceptFrame(w, Claiming());
    hide NextPlot;
  }

  lemma HandingOver(w: World)
    requires Stage(w, "c", 0, Held, Pending, [SoulDormant("b")])
    ensures Stage(SetBody(w, "b", SoulRow(Some("d"), false, false)), "d", 0, Held, Pending, [SoulDormant("b")])
  {
  }

  lemma ClaimIsRefused(w: World)
    requires Stage(w, "d", 0, Held, Pending, [SoulDormant("b")])
    ensures IsForest(w.messages)
    ensures Stage(Adjudicate(w, 0, ""), "d", 0, Held, Rejected, [SoulDormant("b"), IntentRejected(0, CustodyDenied)])
  {
    assert ['d'][0] != ['c'][0];
  }

  lemma ClaimIsSwept(w: World)
    requires Stage(w, "d", 0, Held, Rejected, [SoulDormant("b"), IntentRejected(0, CustodyDenied)])
    ensures Stage(Reconcile(w), "d", STARTER_GRANT, Released, Rejected, [SoulDormant("b"), IntentRejected(0, CustodyDenied)])
  {
    assert ReconcileUpTo(w, 0) == w;
    assert ReconcileUpTo(w, 1) == ReconcileOne(ReconcileUpTo(w, 0), 0);
  }

  lemma HandedOverSteps()
    ensures HandedOver(1) == HandedOver(0) + [Mints(Soul("b"), Some("c"))]
    ensures HandedOver(2) == HandedOver(1) + [Submits(Claiming())]
    ensures HandedOver(3) == HandedOver(2) + [SetsBody("b", SoulRow(Some("d"), false, false))]
    ensures HandedOver(4) == HandedOver(3) + [Adjudicates(0, "")] && HandedOver(5) == HandedOver(4) + [Reconciles]
  {
  }

  lemma BornAndClaiming()
    ensures Good(Genesis(GRID))
    ensures Stage(Run(Genesis(GRID), HandedOver(2)), "c", 0, Held, Pending, [SoulDormant("b")])
  {
    GenesisGood(GRID);
    var g := Genesis(GRID);
    assert Run(g, HandedOver(0)) == g;
    hide *;
    HandedOverSteps();
    ClaimIsHeld();
    RunMint(g, HandedOver(0), Soul("b"), Some("c"));
    RunSubmit(g, HandedOver(1), Claiming());
  }

  lemma ClaimedAndRefused()
    ensures Good(Genesis(GRID))
    ensures Stage(Run(Genesis(GRID), HandedOver(4)), "d", 0, Held, Rejected, [SoulDormant("b"), IntentRejected(0, CustodyDenied)])
  {
    hide *;
    BornAndClaiming();
    HandedOverSteps();
    var g := Genesis(GRID);
    HandingOver(Run(g, HandedOver(2)));
    RunSetBody(g, HandedOver(2), "b", SoulRow(Some("d"), false, false));
    ClaimIsRefused(Run(g, HandedOver(3)));
    RunAdjudicate(g, HandedOver(3), 0);
  }

  /** The refusal leaves the escrow held; the sweep after it gives the soul its money back and journals
      no waking, so the journal says dormant of a soul that owns 100. */
  lemma HandedOverRun()
    ensures Good(Genesis(GRID))
    ensures var refused := Run(Genesis(GRID), HandedOver(4));
            IsHeld(refused, 0) && |refused.intents| == 1 && refused.intents[0].status == Rejected
    ensures var swept := Run(Genesis(GRID), HandedOver(5));
            !Dormant(swept, "b") && Flips(swept.journal, "b") == [true] && !Agrees(swept)
  {
    ClaimedAndRefused();
    hide Good, Run, Reconcile, Genesis, Flips, Agrees;
    var g := Genesis(GRID);
    ClaimIsSwept(Run(g, HandedOver(4)));
    RunOn(g, HandedOver(4), Reconciles);
    SweptDisagrees(Run(g, HandedOver(5)));
  }

  lemma SweptDisagrees(w: World)
    requires Stage(w, "d", STARTER_GRANT, Released, Rejected, [SoulDormant("b"), IntentRejected(0, CustodyDenied)])
    ensures !Dormant(w, "b") && Flips(w.journal, "b") == [true] && !Agrees(w)
  {
    FlipsAppend([], SoulDormant("b"), "b");
    FlipsAppend([SoulDormant("b")], IntentRejected(0, CustodyDenied), "b");
    assert [] + [SoulDormant("b")] == [SoulDormant("b")];
    assert [SoulDormant("b")] + [IntentRejected(0, CustodyDenied)] == w.journal;
    hide Flips;
    assert !Follows(Flips(w.journal, "b"), Dormant(w, "b"));
  }

  // ---- A soul that spends its last money on a post ----

  function Nonce(k: nat): (nonce: string)
    ensures |nonce| == k
  {
    if k == 0 then "" else Nonce(k - 1) + "x"
  }

  function Posting(k: nat): Intent {
    Intent("s", Nonce(k), None, "a", Post(Soul("a"), "t", ""), Pending)
  }

  /** A soul is born and posts `k` times; each post is settled before the next. */
  function Posts(k: nat): seq<Step> {
    if k == 0 then [Mints(Soul("a"), None)] else Posts(k - 1) + [Submits(Posting(k - 1))] + [Adjudicates(k - 1, "")]
  }

  ghost predicate Posted(w: World, k: nat) {
    && w.wallets == map[Soul("a") := STARTER_GRANT - k * POST_COST] && |w.intents| == k && |w.messages| == k
    && (forall j :: 0 <= j < k ==> w.intents[j] == Posting(j).(status := Adjudicated))
    && (k == 0 ==> w.ledger == [Row(MintEntry, Some(Soul("a")), STARTER_GRANT)]) && w.listings == map[]
  }

  ghost predicate Waiting(w: World, k: nat) {
    && w.wallets == map[Soul("a") := STARTER_GRANT - (k + 1) * POST_COST] && |w.intents| == k + 1 && |w.messages| == k
    && (forall j :: 0 <= j < k ==> w.intents[j] == Posting(j).(status := Adjudicated)) && w.intents[k] == Posting(k)
    && k in w.escrows && w.escrows[k] == Escrow(Soul("a"), POST_COST, Held)
    && (k == 0 ==> w.ledger == [Row(MintEntry, Some(Soul("a")), STARTER_GRANT)]) && w.listings == map[]
  }

  lemma PostIsHeld(w: World, k: nat)
    requires Posted(w, k) && k < 5 && IsForest(w.messages)
    ensures Waiting(Submit(w, Posting(k)).0, k) && Submit(w, Posting(k)).1 == Ack(k, true)
  {
    var i := Posting(k);
    forall j | 0 <= j < k ensures !SameKey(w.intents[j], i) {
    }
    hide Nonce, FindKey;
    PostAllowed(w, k);
    AcceptFrame(w, i);
    hide Noted, Accept, Preface, ChargeFor, Malformed;
    assert FindKey(w.intents, i, k).None?;
  }

  lemma PostAllowed(w: World, k: nat)
    requires Posted(w, k) && k < 5 && IsForest(w.messages)
    ensures Malformed(Posting(k)).None? && Preface(w, Posting(k)).None?
    ensures ChargeFor(w, Posting(k)) == Charge(Soul("a"), POST_COST)
  {
    hide Nonce;
  }

  lemma PostIsPublished(w: World, k: nat)
    requires Waiting(w, k) && k < 4 && IsForest(w.messages)
    ensures Posted(Adjudicate(w, k, ""), k + 1)
  {
    hide Nonce;
  }

  lemma {:induction false} PostsAreHeld(k: nat)
    requires k <= 4
    ensures Good(Genesis(GRID)) && IsForest(Run(Genesis(GRID), Posts(k)).messages)
    ensures Posted(Run(Genesis(GRID), Posts(k)), k)
    ensures Waiting(Run(Genesis(GRID), Posts(k) + [Submits(Posting(k))]), k)
  {
    hide *;
    GenesisGood(GRID);
    var g := Genesis(GRID);
    if k == 0 {
      FirstPosted();
    } else {
      PostsAreHeld(k - 1);
      NextPosts(k);
      var sent := Posts(k - 1) + [Submits(Posting(k - 1))];
      RunAdjudicate(g, sent, k - 1);
      PostIsPublished(Run(g, sent), k - 1);
    }
    RunSubmit(g, Posts(k), Posting(k));
    PostIsHeld(Run(g, Posts(k)), k);
  }

  lemma NextPosts(k: nat)
    requires k > 0
    ensures Posts(k) == Posts(k - 1) + [Submits(Posting(k - 1))] + [Adjudicates(k - 1, "")]
  {
  }

  lemma FirstPosted()
    requires Good(Genesis(GRID))
    ensures Posted(Run(Genesis(GRID), Posts(0)), 0)
  {
    var g := Genesis(GRID);
    assert Run(g, []) == g && Posts(0) == [] + [Mints(Soul("a"), None)];
    hide *;
    RunMint(g, [], Soul("a"), None);
    BornWithNothingPosted();
  }

  lemma BornWithNothingPosted()
    ensures Posted(Mint(Genesis(GRID), Soul("a"), None), 0)
  {
  }

  /** Of five posts, each settled before the next, four are published; the fifth takes the last of the
      soul's money, and is refused because the soul then has none. */
  lemma LastPostIsRefused()
    ensures Good(Genesis(GRID))
    ensures var w, u := Run(Genesis(GRID), Posts(4)), Run(Genesis(GRID), Posts(5));
            && |w.messages| == 4 && |w.intents| == 4 && (forall j :: 0 <= j < 4 ==> w.intents[j].status == Adjudicated)
            && |u.intents| == 5 && u.intents[4].status == Rejected && u.messages == w.messages
  {
    PostsAreHeld(4);
    NextPosts(5);
    hide *;
    var g := Genesis(GRID);
    var w, sent := Run(g, Posts(4)), Posts(4) + [Submits(Posting(4))];
    RunSubmit(g, Posts(4), Posting(4));
    RunAdjudicate(g, sent, 4);
    FourPublished(w);
    SubmitKeepsMessages(w, Posting(4));
    FifthIsRefused(Run(g, sent));
  }

  lemma FourPublished(w: World)
    requires Posted(w, 4)
    ensures |w.messages| == 4 && |w.intents| == 4 && (forall j :: 0 <= j < 4 ==> w.intents[j].status == Adjudicated)
  {
  }

  lemma SubmitKeepsMessages(w: World, i: Intent)
    requires IsForest(w.messages)
    ensures Submit(w, i).0.messages == w.messages
  {
    AcceptFrame(w, i);
    hide Accept, Preface, ChargeFor, Malformed, Afford, FindKey;
  }

  lemma FifthIsRefused(w: World)
    requires Waiting(w, 4) && IsForest(w.messages)
    ensures var u := Adjudicate(w, 4, "");
            |u.intents| == 5 && u.intents[4].status == Rejected && u.messages == w.messages
  {
    ReleaseFrame(w, 4);
    hide Nonce, Release;
  }

  // ---- A repair while money is held ----

  /** The soul is born, the audit takes its baseline, the soul posts, and the audit repairs: it gives the
      soul back the 20 that are still held.  When the post is then refused, the soul owns 120. */
  lemma RepairInflates()
    ensures Good(Genesis(GRID))
    ensures var w, v := Run(Genesis(GRID), Posts(0)), Run(Genesis(GRID), Posts(0) + [Submits(Posting(0))]);
            var bases := map[Soul("a") := BaseOf(map[], w, Soul("a"))];
            var u := v.(wallets := map[Soul("a") := STARTER_GRANT]);
            && Drift(bases, v, Soul("a")) == 0 - POST_COST && Repaired(v, u, bases)
            && Balance(Fault(u, 0), Soul("a")) == STARTER_GRANT + POST_COST
            && NetOf(Fault(u, 0).ledger, Soul("a")) == STARTER_GRANT
  {
    PostsAreHeld(0);
    var w, v := Run(Genesis(GRID), Posts(0)), Run(Genesis(GRID), Posts(0) + [Submits(Posting(0))]);
    hide Run, Good, Genesis, Posts;
    Inflated(w, v);
  }

  lemma Inflated(w: World, v: World)
    requires Posted(w, 0) && Waiting(v, 0)
    ensures var bases := map[Soul("a") := BaseOf(map[], w, Soul("a"))];
            var u := v.(wallets := map[Soul("a") := STARTER_GRANT]);
            && Drift(bases, v, Soul("a")) == 0 - POST_COST && Repaired(v, u, bases)
            && Balance(Fault(u, 0), Soul("a")) == STARTER_GRANT + POST_COST
            && NetOf(Fault(u, 0).ledger, Soul("a")) == STARTER_GRANT
  {
    var a := Soul("a");
    var u := v.(wallets := map[a := STARTER_GRANT]);
    OneMint(w.ledger);
    HasMint(v.ledger);
    assert v.intents[0] == Posting(0) && 0 in v.escrows;
    hide HasRows, CountedOf, NetOf, Noted, Nonce;
  }

  lemma HasMint(ledger: seq<Row>)
    requires ledger == [Row(MintEntry, Some(Soul("a")), STARTER_GRANT)]
    ensures HasRows(ledger, Soul("a"))
  {
    assert ledger[0].actor == Some(Soul("a"));
  }

  lemma OneMint(ledger: seq<Row>)
    requires ledger == [Row(MintEntry, Some(Soul("a")), STARTER_GRANT)]
    ensures CountedOf(ledger, Soul("a")) == NetOf(ledger, Soul("a")) == STARTER_GRANT
  {
    assert ledger[..0] == [];
  }

  // ---- A feed that fails after its commit ----

  function Feeding(): Intent {
    Intent("s", "1", None, "a", Feed("a", "r"), Pending)
  }

  /** Two souls are born, one collapses, the other feeds it; after the commit an exception is raised. */
  function Meal(k: nat): seq<Step>
    requires k <= 6
  {
    if k == 0 then []
    else
      Meal(k - 1) +
      [if k == 1 then Mints(Soul("a"), None)
       else if k == 2 then Mints(Soul("r"), None)
       else if k == 3 then SetsBody("r", SoulRow(None, true, false))
       else if k == 4 then Submits(Feeding())
       else if k == 5 then Adjudicates(0, "")
       else Faults(0)]
  }

  ghost predicate Served(w: World) {
    && w.intents == [Feeding()] && w.escrows == map[0 := Escrow(Soul("a"), FEED_COST, Held)] && w.messages == []
    && w.souls == map["a" := SoulRow(None, false, false), "r" := SoulRow(None, true, false)]
    && w.wallets == map[Soul("a") := STARTER_GRANT - FEED_COST, Soul("r") := STARTER_GRANT]
  }

  ghost predicate Hungry(w: World) {
    && w.intents == [] && w.escrows == map[] && w.messages == []
    && w.souls == map["a" := SoulRow(None, false, false), "r" := SoulRow(None, true, false)]
    && w.wallets == map[Soul("a") := STARTER_GRANT, Soul("r") := STARTER_GRANT]
  }

  lemma SoulsAreBorn()
    ensures var w := Mint(Mint(Genesis(GRID), Soul("a"), None), Soul("r"), None);
            Hungry(SetBody(w, "r", SoulRow(None, true, false)))
  {
    assert "a"[0] != "r"[0];
  }

  lemma MealSteps()
    ensures Meal(1) == Meal(0) + [Mints(Soul("a"), None)] && Meal(2) == Meal(1) + [Mints(Soul("r"), None)]
    ensures Meal(3) == Meal(2) + [SetsBody("r", SoulRow(None, true, false))] && Meal(4) == Meal(3) + [Submits(Feeding())]
    ensures Meal(5) == Meal(4) + [Adjudicates(0, "")] && Meal(6) == Meal(5) + [Faults(0)]
  {
  }

  lemma MealIsServed()
    ensures Good(Genesis(GRID)) && Served(Run(Genesis(GRID), Meal(4)))
  {
    GenesisGood(GRID);
    var g := Genesis(GRID);
    assert Run(g, Meal(0)) == g;
    hide *;
    MealSteps();
    SoulsAreBorn();
    RunMint(g, Meal(0), Soul("a"), None);
    RunMint(g, Meal(1), Soul("r"), None);
    RunSetBody(g, Meal(2), "r", SoulRow(None, true, false));
    RunSubmit(g, Meal(3), Feeding());
    FeedIsHeld(Run(g, Meal(3)));
  }

  lemma FeedIsHeld(w: World)
    requires Hungry(w)
    ensures IsForest(w.messages) && Served(Submit(w, Feeding()).0)
  {
    AcceptFrame(w, Feeding());
    hide Noted;
  }

  /** The adjudication feeds the recipient; the handler of the exception says that it was rejected. */
  lemma FedAndRejected()
    ensures Good(Genesis(GRID))
    ensures var once, after := Run(Genesis(GRID), Meal(5)), Run(Genesis(GRID), Meal(6));
            && |once.intents| == 1 == |after.intents|
            && once.intents[0].status == Adjudicated && after.intents[0].status == Rejected
            && after.wallets == once.wallets && 0 in after.escrows && after.escrows[0].status == Applied
            && "r" in after.souls && after.souls["r"].fed
  {
    MealIsServed();
    hide Good, Run, Genesis, AdjudicateFeed, Served, Meal, Fault;
    var g := Genesis(GRID);
    var w, once := Run(g, Meal(4)), Run(g, Meal(5));
    MealSteps();
    RunAdjudicate(g, Meal(4), 0);
    RunOn(g, Meal(5), Faults(0));
    FirstFeed(w);
    FeedFaults(once);
  }

  lemma FeedFaults(w: World)
    requires |w.intents| == 1 && w.intents[0].order.Feed?
    ensures Fault(w, 0) == Conclude(w, 0, Rejected, IntentRejected(0, Internal))
  {
  }

  lemma FirstFeed(w: World)
    requires Served(w)
    ensures |w.intents| == 1 && w.intents[0].order.Feed? && w.messages == []
    ensures var u := AdjudicateFeed(w, 0);
            && |u.intents| == 1 && u.intents[0] == Feeding().(status := Adjudicated)
            && u.escrows == map[0 := Escrow(Soul("a"), FEED_COST, Applied)] && u.messages == []
            && "r" in u.souls && u.souls["r"].fed
  {
    hide Noted;
  }

  // ---- A soul that spends its last money on feeds ----

  function Helping(k: nat): Intent {
    Feeding().(nonce := Nonce(k))
  }

  /** A soul is born and sends `k` feeds. */
  function Helpings(k: nat): seq<Step> {
    if k == 0 then [Mints(Soul("a"), None)] else Helpings(k - 1) + [Submits(Helping(k - 1))]
  }

  ghost predicate Helped(w: World, k: nat) {
    && w.wallets == map[Soul("a") := STARTER_GRANT - k * FEED_COST] && |w.intents| == k && w.messages == []
    && (forall j :: 0 <= j < k ==> w.intents[j] == Helping(j))
    && (k > 0 ==> 0 in w.escrows && w.escrows[0] == Escrow(Soul("a"), FEED_COST, Held))
    && w.souls == map["a" := SoulRow(None, false, false)]
  }

  lemma HelpingIsHeld(w: World, k: nat)
    requires Helped(w, k) && k < 10
    ensures IsForest(w.messages) && Helped(Submit(w, Helping(k)).0, k + 1)
  {
    HelpingAllowed(w, k);
    HelpingAccepted(w, k);
    AcceptFrame(w, Helping(k));
    hide Nonce, Noted, Accept, Preface, ChargeFor, Malformed, Submit;
  }

  lemma HelpingAccepted(w: World, k: nat)
    requires Helped(w, k) && k < 10 && IsForest(w.messages)
    ensures Submit(w, Helping(k)).0 == Accept(w, Helping(k))
  {
    var i := Helping(k);
    forall j | 0 <= j < k ensures !SameKey(w.intents[j], i) {
    }
    hide Nonce, FindKey;
    HelpingAllowed(w, k);
    hide Noted, Accept, Preface, ChargeFor, Malformed;
    assert FindKey(w.intents, i, k).None?;
  }

  lemma HelpingAllowed(w: World, k: nat)
    requires Helped(w, k) && k < 10
    ensures IsForest(w.messages) && Malformed(Helping(k)).None? && Preface(w, Helping(k)).None?
    ensures ChargeFor(w, Helping(k)) == Charge(Soul("a"), FEED_COST)
  {
    hide Nonce;
  }

  lemma {:induction false} HelpingsAreHeld(k: nat)
    requires k <= 10
    ensures Good(Genesis(GRID)) && Helped(Run(Genesis(GRID), Helpings(k)), k)
    ensures NoSilentWakes(Genesis(GRID), Helpings(k))
  {
    hide *;
    GenesisGood(GRID);
    var g := Genesis(GRID);
    if k == 0 {
      FirstHelped();
      NoneYet(g);
      BirthFirst();
      QuietExtends(g, [], Mints(Soul("a"), None));
    } else {
      HelpingsAreHeld(k - 1);
      QuietExtends(g, Helpings(k - 1), Submits(Helping(k - 1)));
      NextHelpings(k);
      HelpingIsHeld(Run(g, Helpings(k - 1)), k - 1);
      RunSubmit(g, Helpings(k - 1), Helping(k - 1));
    }
  }

  lemma NextHelpings(k: nat)
    requires k > 0
    ensures Helpings(k) == Helpings(k - 1) + [Submits(Helping(k - 1))]
  {
  }

  lemma NoneYet(w: World)
    requires Good(w)
    ensures NoSilentWakes(w, [])
  {
  }

  lemma BirthFirst()
    ensures Helpings(0) == [] + [Mints(Soul("a"), None)]
  {
  }

  lemma FirstHelped()
    requires Good(Genesis(GRID))
    ensures Helped(Run(Genesis(GRID), Helpings(0)), 0)
  {
    var g := Genesis(GRID);
    assert Run(g, []) == g && Helpings(0) == [] + [Mints(Soul("a"), None)];
    hide *;
    RunMint(g, [], Soul("a"), None);
    BornWithNothingSent();
  }

  lemma BornWithNothingSent()
    ensures Helped(Mint(Genesis(GRID), Soul("a"), None), 0)
  {
  }

  /** The tenth feed takes the last of the soul's money.  The adjudication of the first raises, which
      leaves its escrow held, and the Hub restarts: the sweep wakes the soul, and the journal has lost it. */
  lemma SweptAwake()
    ensures Good(Genesis(GRID))
    ensures var failed, swept := Run(Genesis(GRID), Helpings(10) + [Faults(0)]), Run(Genesis(GRID), Helpings(10) + [Faults(0)] + [Reconciles]);
            WakesSilently(failed, 0) && Dormant(failed, "a") && !Dormant(swept, "a") && Lost(swept, "a") && !Agrees(swept)
  {
    hide *;
    HelpingsAreHeld(10);
    var g, sent := Genesis(GRID), Helpings(10) + [Faults(0)];
    RunOn(g, Helpings(10), Faults(0));
    FirstHelpingFails(Run(g, Helpings(10)));
    QuietExtends(g, Helpings(10), Faults(0));
    JournalFollowsFromGenesis(GRID, sent);
    RunOn(g, sent, Reconciles);
    SilentWakeLoses(Run(g, sent), 0);
    LostDisagrees(Run(g, sent + [Reconciles]), "a");
  }

  lemma FirstHelpingFails(w: World)
    requires Helped(w, 10)
    ensures IsForest(w.messages)
    ensures var u := Next(w, Faults(0));
            WakesSilently(u, 0) && Dormant(u, "a") && IsHeld(u, 0) && u.escrows[0].actor == Soul("a")
  {
    hide Nonce;
  }
}
