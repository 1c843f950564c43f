/** The life of a message over whole runs: what never changes, and who has changed the rest. */
module Forum {
  import opened Options
  import opened Threads
  import opened Economy
  import opened Integrity
  import opened Outcomes

  /** Parent, author and title are fixed when a message is written, and a deleted message stays as it is. */
  predicate MessageAdvances(m: Message, n: Message) {
    n.(body := m.body, deleted := m.deleted) == m && (m.deleted ==> n == m)
  }

  ghost predicate TableAdvances(t: Table, u: Table) {
    |t| <= |u| && forall m :: 0 <= m < |t| ==> MessageAdvances(t[m], u[m])
  }

  /** The step changes the content of message `m`: it settles a pending edit or deletion of it by its
      author or the operator, while the authoring soul is awake. */
  predicate Authorised(w: World, s: Step, m: nat)
    requires m < |w.messages|
  {
    && s.Adjudicates? && IsPending(w, s.id)
    && var i := w.intents[s.id];
       && ((i.order.Edit? && i.order.message == m && !w.messages[m].deleted) || (i.order.Delete? && i.order.message == m))
       && (i.custodian.None? || w.messages[m].author == i.soul)
       && (w.messages[m].byTamer || !Dormant(w, w.messages[m].author))
  }

  // ---- One step ----

  /** Orders that are neither edits nor deletions leave what is written alone. */
  lemma OthersKeepMessages(w: World, id: nat, minted: string)
    requires Good(w) && IsPending(w, id)
    requires var d := w.intents[id].order; !d.Edit? && !d.Delete? && !d.Feed?
    ensures IsForest(w.messages)
    ensures w.messages <= Adjudicate(w, id, minted).messages
  {
    assert IsForest(w.messages);
    FitApply(w, id, minted);
    var o := Apply(w, id, w.intents[id], minted);
    CompensateKeepsMessages(w, id);
    if o.Done? {
      DoneAppends(w, id, minted);
    }
    if o.Refuse? {
      ReleaseFrame(o.world, id);
    }
    hide Good, Apply, Compensate, Release, Sound, SameActors, ClaimsAdvance;
  }

  lemma CompensateKeepsMessages(w: World, id: nat)
    ensures Compensate(w, id).messages == w.messages
  {
    ReleaseFrame(w, id);
    hide Release;
  }

  lemma DoneAppends(w: World, id: nat, minted: string)
    requires IsForest(w.messages) && IsPending(w, id)
    requires var d := w.intents[id].order; !d.Edit? && !d.Delete? && !d.Feed?
    requires Apply(w, id, w.intents[id], minted).Done?
    ensures w.messages <= Apply(w, id, w.intents[id], minted).world.messages
  {
    var i := w.intents[id];
    hide ApplyList, ApplyBuy, ApplyCancel, ApplyClaim, ApplyPost, ApplyReply;
    if i.order.Post? || i.order.Reply? {
      WritingAppends(w, id, i);
    } else if i.order.Buy? {
      BuyKeepsMessages(w, id, i);
    } else if i.order.Claim? {
      ClaimKeepsMessages(w, id, i);
    } else {
      TradeKeepsMessages(w, i, minted);
    }
  }

  lemma WritingAppends(w: World, id: nat, i: Intent)
    requires IsForest(w.messages)
    ensures i.order.Post? && ApplyPost(w, id, i).Done? ==> w.messages <= ApplyPost(w, id, i).world.messages
    ensures i.order.Reply? && ApplyReply(w, id, i).Done? ==> w.messages <= ApplyReply(w, id, i).world.messages
  {
    hide Marked, ActsAs, CheckParent, DormantActor, When, First;
  }

  lemma BuyKeepsMessages(w: World, id: nat, i: Intent)
    requires i.order.Buy? && ApplyBuy(w, id, i).Done?
    ensures ApplyBuy(w, id, i).world.messages == w.messages
  {
    if i.order.listing in w.listings {
      SoldFrame(w.(listings := w.listings - {i.order.listing}), id, i.order.buyer, w.listings[i.order.listing]);
    }
    hide Sold, Release, ActsAs;
  }

  lemma ClaimKeepsMessages(w: World, id: nat, i: Intent)
    requires i.order.Claim? && ApplyClaim(w, id, i).Done?
    ensures ApplyClaim(w, id, i).world.messages == w.messages
  {
    hide Release, Noted, NextPlot, FeeAt, MayClaim, Marked;
  }

  lemma TradeKeepsMessages(w: World, i: Intent, minted: string)
    ensures i.order.List? && ApplyList(w, i, minted).Done? ==> ApplyList(w, i, minted).world.messages == w.messages
    ensures i.order.Cancel? && ApplyCancel(w, i).Done? ==> ApplyCancel(w, i).world.messages == w.messages
  {
    hide Qty, Take, Give, ActsAs, MayCancel;
  }

  lemma FeedKeepsMessages(w: World, id: nat)
    requires id < |w.intents| && w.intents[id].order.Feed?
    ensures AdjudicateFeed(w, id).messages == w.messages
  {
    ReleaseFrame(w, id);
    hide Release, Noted, Marked;
  }

  lemma {:induction false} ReconcileKeepsMessages(w: World, n: nat)
    ensures ReconcileUpTo(w, n).messages == w.messages
  {
    if n > 0 {
      ReconcileKeepsMessages(w, n - 1);
    }
  }

  lemma AppendAdvances(t: Table, u: Table)
    requires t <= u
    ensures TableAdvances(t, u) && forall m :: 0 <= m < |t| ==> u[m] == t[m]
  {
  }

  /** What one step does to what has been written. */
  ghost predicate StepAdvances(w: World, s: Step, u: World) {
    TableAdvances(w.messages, u.messages) &&
    forall m :: 0 <= m < |w.messages| && u.messages[m] != w.messages[m] ==> Authorised(w, s, m)
  }

  lemma AdjudicateAdvances(w: World, id: nat, minted: string)
    requires Good(w)
    ensures IsForest(w.messages)
    ensures StepAdvances(w, Adjudicates(id, minted), Adjudicate(w, id, minted))
  {
    assert IsForest(w.messages);
    var u := Adjudicate(w, id, minted);
    if id < |w.intents| && w.intents[id].order.Feed? {
      FeedKeepsMessages(w, id);
      AppendAdvances(w.messages, u.messages);
    } else if IsPending(w, id) {
      hide Good, Adjudicate;
      if w.intents[id].order.Edit? {
        EditOutcome(w, id, minted);
      } else if w.intents[id].order.Delete? {
        DeleteOutcome(w, id, minted);
      } else {
        OthersKeepMessages(w, id, minted);
        AppendAdvances(w.messages, u.messages);
      }
    } else {
      AppendAdvances(w.messages, u.messages);
    }
  }

  lemma NextAdvances(w: World, s: Step)
    requires Good(w)
    ensures StepAdvances(w, s, Next(w, s))
  {
    assert IsForest(w.messages);
    var u := Next(w, s);
    if s.Adjudicates? {
      AdjudicateAdvances(w, s.id, s.minted);
      hide Good, Adjudicate, StepAdvances;
    } else {
      assert u.messages == w.messages by { OthersLeaveMessages(w, s); }
      hide Good, Next;
      AppendAdvances(w.messages, u.messages);
    }
  }

  lemma OthersLeaveMessages(w: World, s: Step)
    requires IsForest(w.messages) && !s.Adjudicates?
    ensures Next(w, s).messages == w.messages
  {
    match s
    case Submits(i) =>
      AcceptFrame(w, i);
      hide Accept, Preface, Afford, ChargeFor, Malformed, FindKey;
    case Faults(id) =>
      CompensateKeepsMessages(w, id);
      hide Compensate;
    case Reconciles => ReconcileKeepsMessages(w, |w.intents|);
    case Mints(_, _) =>
    case SetsBody(_, _) =>
  }

  // ---- Whole runs ----

  lemma TableTransitive(t: Table, u: Table, v: Table)
    requires TableAdvances(t, u) && TableAdvances(u, v)
    ensures TableAdvances(t, v)
  {
    forall m | 0 <= m < |t| ensures MessageAdvances(t[m], v[m]) {
      assert MessageAdvances(t[m], u[m]) && MessageAdvances(u[m], v[m]);
    }
  }

  /** Over any run no message disappears or changes its parent, author or title, and a deleted one never
      comes back or changes at all. */
  lemma {:induction false} MessagesAdvance(w: World, steps: seq<Step>)
    requires Good(w)
    ensures TableAdvances(w.messages, Run(w, steps).messages)
  {
    if steps == [] {
      AppendAdvances(w.messages, w.messages);
    } else {
      var before, last := steps[..|steps| - 1], steps[|steps| - 1];
      MessagesAdvance(w, before);
      var v := Run(w, before);
      NextAdvances(v, last);
      hide Good, Next, TableAdvances;
      TableTransitive(w.messages, v.messages, Next(v, last).messages);
    }
  }

  /** Step `k` of the run is an authorised change of message `m`. */
  ghost predicate AuthorisedAt(w: World, steps: seq<Step>, k: nat, m: nat)
    requires Good(w) && k < |steps|
  {
    var v := Run(w, steps[..k]);
    m < |v.messages| && Authorised(v, steps[k], m)
  }

  lemma StepChanges(v: World, s: Step, m: nat)
    requires Good(v) && m < |v.messages|
    ensures IsForest(v.messages) && m < |Next(v, s).messages|
    ensures Next(v, s).messages[m] != v.messages[m] ==> Authorised(v, s, m)
  {
    NextAdvances(v, s);
    hide Next;
  }

  lemma AuthorisedLater(w: World, steps: seq<Step>, before: seq<Step>, k: nat, m: nat)
    requires Good(w) && k < |before| < |steps| && before == steps[..|before|] && AuthorisedAt(w, before, k, m)
    ensures AuthorisedAt(w, steps, k, m)
  {
    assert before[..k] == steps[..k];
    hide Run, Authorised, Good;
  }

  /** Over any run, a message that has changed was edited or deleted on the way by its author, awake, or
      by the operator. */
  lemma {:induction false} ChangesAreAuthorised(w: World, steps: seq<Step>, m: nat)
    requires Good(w) && m < |w.messages|
    ensures m < |Run(w, steps).messages|
    ensures Run(w, steps).messages[m] != w.messages[m] ==> exists k :: 0 <= k < |steps| && AuthorisedAt(w, steps, k, m)
  {
    hide Good, Next, Authorised;
    if steps != [] {
      var before, last := steps[..|steps| - 1], steps[|steps| - 1];
      var v := Run(w, before);
      ChangesAreAuthorised(w, before, m);
      StepChanges(v, last, m);
      if v.messages[m] != w.messages[m] {
        var k :| 0 <= k < |before| && AuthorisedAt(w, before, k, m);
        AuthorisedLater(w, steps, before, k, m);
      } else if Run(w, steps).messages[m] != v.messages[m] {
        assert AuthorisedAt(w, steps, |before|, m);
      }
    }
  }
}
