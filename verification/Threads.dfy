/** The message forest of `server/social.py`: depth, the parent check, and the tree builder. */
module Threads {
  import opened Options

  /** A row of `messages`.  A message's id is its rowid; `parent` refers to another row's id. */
  datatype Message = Message(parent: Option<nat>, byTamer: bool, author: string, title: string, body: string, deleted: bool)

  type Table = seq<Message>

  const MAX_DEPTH := 25
  const TOMBSTONE := "[deleted]"

  /** The parent row of `m`, if it has one that exists. */
  function ParentOf(t: Table, m: nat): Option<nat>
    requires m < |t|
  {
    if t[m].parent.Some? && t[m].parent.value < |t| then t[m].parent else None
  }

  /** No message was written before the one it answers. */
  ghost predicate IsForest(t: Table) {
    forall m :: 0 <= m < |t| && ParentOf(t, m).Some? ==> ParentOf(t, m).value < m
  }

  /** `message_depth`: a root has depth 0; a dangling parent still counts as one level. */
  function Depth(t: Table, m: nat): nat
    requires IsForest(t) && m < |t|
    decreases m
  {
    if t[m].parent.None? then 0
    else if ParentOf(t, m).None? then 1
    else 1 + Depth(t, ParentOf(t, m).value)
  }

  /** From a message that answers none in the table, each answered by the next. */
  ghost predicate IsThread(t: Table, thread: seq<nat>) {
    && thread != [] && (forall i :: 0 <= i < |thread| ==> thread[i] < |t|)
    && (t[thread[0]].parent == None || t[thread[0]].parent.value >= |t|)
    && forall i :: 0 <= i < |thread| - 1 ==> t[thread[i + 1]].parent == Some(thread[i])
  }

  /** The depth of a message is the number of messages above it in its thread, and one more if the first of
      them answers a message that is gone. */
  lemma {:induction false} DepthCountsAnswers(t: Table, thread: seq<nat>)
    requires IsForest(t) && IsThread(t, thread)
    ensures Depth(t, thread[|thread| - 1]) == |thread| - 1 + if t[thread[0]].parent == None then 0 else 1
  {
    var init, m := thread[..|thread| - 1], thread[|thread| - 1];
    if init != [] {
      assert t[thread[|init| - 1 + 1]].parent == Some(thread[|init| - 1]);
      DepthCountsAnswers(t, init);
    }
  }

  /** Every message stands at the end of one. */
  lemma {:induction false} HasThread(t: Table, m: nat) returns (thread: seq<nat>)
    requires IsForest(t) && m < |t|
    ensures IsThread(t, thread) && thread[|thread| - 1] == m
    decreases m
  {
    if ParentOf(t, m).None? {
      thread := [m];
    } else {
      var above := HasThread(t, ParentOf(t, m).value);
      thread := above + [m];
    }
  }

  datatype Check = Fine | ParentNotFound | ParentDeleted | DepthExceeded

  /** `_check_parent`. */
  function CheckParent(t: Table, parent: nat): Check
    requires IsForest(t)
  {
    if parent >= |t| then ParentNotFound
    else if t[parent].deleted then ParentDeleted
    else if Depth(t, parent) + 1 > MAX_DEPTH then DepthExceeded
    else Fine
  }

  /** Every parent exists, was written earlier, and no message lies deeper than the cap. */
  ghost predicate Sound(t: Table) {
    && (forall m :: 0 <= m < |t| && t[m].parent.Some? ==> t[m].parent.value < m)
    && IsForest(t)
    && forall m :: 0 <= m < |t| ==> Depth(t, m) <= MAX_DEPTH
  }

  /** The depth of a message does not depend on messages written later. */
  lemma {:induction false} DepthStable(t: Table, more: Table, m: nat)
    requires Sound(t) && IsForest(t + more) && m < |t|
    ensures Depth(t + more, m) == Depth(t, m)
    decreases m
  {
    if t[m].parent.Some? {
      assert ParentOf(t + more, m) == ParentOf(t, m);
      DepthStable(t, more, t[m].parent.value);
    }
  }

  /** A post, or a reply that passes the parent check, keeps the forest sound. */
  lemma AddKeepsSound(t: Table, m: Message)
    requires Sound(t)
    requires m.parent.Some? ==> CheckParent(t, m.parent.value) == Fine
    ensures Sound(t + [m])
  {
    var t' := t + [m];
    assert forall k :: 0 <= k < |t| ==> t'[k] == t[k];
    assert IsForest(t');
    forall k | 0 <= k < |t'| ensures Depth(t', k) <= MAX_DEPTH {
      if k < |t| {
        DepthStable(t, [m], k);
      } else if m.parent.Some? {
        DepthStable(t, [m], m.parent.value);
      }
    }
  }

  /** Edits and soft deletes leave the shape alone. */
  lemma {:induction false} ContentKeepsDepth(t: Table, u: Table, m: nat)
    requires |t| == |u| && IsForest(t) && IsForest(u) && m < |t|
    requires forall k :: 0 <= k < |t| ==> t[k].parent == u[k].parent
    ensures Depth(u, m) == Depth(t, m)
    decreases m
  {
    if ParentOf(t, m).Some? {
      ContentKeepsDepth(t, u, ParentOf(t, m).value);
    }
  }

  lemma ContentKeepsSound(t: Table, u: Table)
    requires Sound(t) && |t| == |u| && forall k :: 0 <= k < |t| ==> t[k].parent == u[k].parent
    ensures Sound(u)
  {
    assert IsForest(u) by {
      forall m | 0 <= m < |u| ensures ParentOf(u, m) == ParentOf(t, m) {
      }
    }
    forall m | 0 <= m < |u| ensures Depth(u, m) <= MAX_DEPTH {
      ContentKeepsDepth(t, u, m);
    }
  }

  // ---- The tree ----

  /** What a reader sees of a message: deleted ones render as tombstones. */
  datatype View = View(parent: Option<nat>, byTamer: bool, author: string, title: Option<string>, body: string, deleted: bool)

  function ViewOf(m: Message): View {
    if m.deleted then View(m.parent, m.byTamer, m.author, None, TOMBSTONE, true)
    else View(m.parent, m.byTamer, m.author, Some(m.title), m.body, false)
  }

  /** A deleted message shows who wrote it and where, but neither title nor text. */
  predicate Renders(v: View, m: Message) {
    && v.parent == m.parent && v.byTamer == m.byTamer && v.author == m.author && v.deleted == m.deleted
    && (m.deleted ==> v.title == None && v.body == "[deleted]")
    && (!m.deleted ==> v.title == Some(m.title) && v.body == m.body)
  }

  /** The roots and the replies of `p`, in the order in which the rows are read. */
  function Roots(t: Table, order: seq<nat>): seq<nat>
    requires forall i :: 0 <= i < |order| ==> order[i] < |t|
  {
    if order == [] then []
    else
      var last := order[|order| - 1];
      Roots(t, order[..|order| - 1]) + if ParentOf(t, last).None? then [last] else []
  }

  function Replies(t: Table, order: seq<nat>, p: nat): seq<nat>
    requires forall i :: 0 <= i < |order| ==> order[i] < |t|
  {
    if order == [] then []
    else
      var last := order[|order| - 1];
      Replies(t, order[..|order| - 1], p) + if ParentOf(t, last) == Some(p) then [last] else []
  }

  /** The order of a SELECT: every row exactly once. */
  ghost predicate Lists(order: seq<nat>, n: nat) {
    && (forall i :: 0 <= i < |order| ==> order[i] < n)
    && (forall m :: 0 <= m < n ==> m in order)
    && (forall i, j :: 0 <= i < j < |order| ==> order[i] != order[j])
  }

  /** The linking pass has read `order`: every node has its replies so far, the rest are roots. */
  ghost predicate Linked(t: Table, order: seq<nat>, roots: seq<nat>, replies: map<nat, seq<nat>>)
    requires forall i :: 0 <= i < |order| ==> order[i] < |t|
  {
    && roots == Roots(t, order)
    && (forall m: nat :: m in replies <==> m < |t|)
    && forall m: nat :: m < |t| ==> replies[m] == Replies(t, order, m)
  }

  /** The replies of a message are the rows that name it as their parent; the roots are the rows that name
      none, or one that does not exist. */
  lemma {:induction false} RepliesAnswer(t: Table, order: seq<nat>, p: nat, m: nat)
    requires p < |t| && forall i :: 0 <= i < |order| ==> order[i] < |t|
    ensures m in Replies(t, order, p) <==> m in order && t[m].parent == Some(p)
    ensures m in Roots(t, order) <==> m in order && (t[m].parent == None || t[m].parent.value >= |t|)
  {
    if order != [] {
      RepliesAnswer(t, order[..|order| - 1], p, m);
      assert order == order[..|order| - 1] + [order[|order| - 1]];
    }
  }

  lemma NoRows(t: Table, p: nat)
    ensures Replies(t, [], p) == [] == Roots(t, [])
  {
  }

  lemma OneMoreRow(t: Table, order: seq<nat>, p: nat, m: nat)
    requires (forall i :: 0 <= i < |order| ==> order[i] < |t|) && m < |t|
    ensures Replies(t, order + [m], p) == Replies(t, order, p) + if ParentOf(t, m) == Some(p) then [m] else []
    ensures Roots(t, order + [m]) == Roots(t, order) + if ParentOf(t, m).None? then [m] else []
  {
    assert (order + [m])[..|order|] == order;
  }

  /** Replies stand in the order in which the rows were read, and so do the roots. */
  lemma {:induction false} RepliesInOrder(t: Table, order: seq<nat>, p: nat, more: seq<nat>)
    requires (forall i :: 0 <= i < |order| ==> order[i] < |t|) && forall i :: 0 <= i < |more| ==> more[i] < |t|
    ensures forall i :: 0 <= i < |order + more| ==> (order + more)[i] < |t|
    ensures Replies(t, order + more, p) == Replies(t, order, p) + Replies(t, more, p)
    ensures Roots(t, order + more) == Roots(t, order) + Roots(t, more)
  {
    hide ParentOf, Replies, Roots;
    if more == [] {
      NoRows(t, p);
      assert order + more == order;
    } else {
      var init, m := more[..|more| - 1], more[|more| - 1];
      RepliesInOrder(t, order, p, init);
      OneMoreRow(t, order + init, p, m);
      OneMoreRow(t, init, p, m);
      assert order + more == order + init + [m] && more == init + [m];
    }
  }

  lemma LinkNext(t: Table, order: seq<nat>, m: nat, roots: seq<nat>, replies: map<nat, seq<nat>>)
    requires (forall i :: 0 <= i < |order| ==> order[i] < |t|) && m < |t| && Linked(t, order, roots, replies)
    ensures var p := ParentOf(t, m);
            if p.Some? then Linked(t, order + [m], roots, replies[p.value := replies[p.value] + [m]])
            else Linked(t, order + [m], roots + [m], replies)
  {
    assert (order + [m])[..|order|] == order;
    assert roots + [] == roots && forall k :: k in replies ==> replies[k] + [] == replies[k];
  }

  /** `build_tree`: one node a row, each appended to its parent's replies or to the roots. */
  method BuildTree(t: Table, order: seq<nat>)
    returns (nodes: map<nat, View>, roots: seq<nat>, replies: map<nat, seq<nat>>)
    requires Lists(order, |t|)
    ensures forall m: nat :: m in nodes <==> m < |t|
    ensures forall m: nat :: m < |t| ==> Renders(nodes[m], t[m])
    ensures Linked(t, order, roots, replies)
  {
    nodes := MakeNodes(t, order);
    roots, replies := [], map m | m in nodes :: [];
    for i := 0 to |order|
      invariant Linked(t, order[..i], roots, replies)
    {
      hide Roots, Replies;
      var m := order[i];
      LinkNext(t, order[..i], m, roots, replies);
      assert order[..i + 1] == order[..i] + [m];
      var parent := nodes[m].parent;
      if parent.Some? && parent.value in nodes {
        replies := replies[parent.value := replies[parent.value] + [m]];
      } else {
        roots := roots + [m];
      }
    }
    assert order[..|order|] == order;
  }

  method MakeNodes(t: Table, order: seq<nat>) returns (nodes: map<nat, View>)
    requires Lists(order, |t|)
    ensures forall m: nat :: m in nodes <==> m < |t|
    ensures forall m: nat :: m < |t| ==> Renders(nodes[m], t[m])
  {
    hide ViewOf, Renders;
    nodes := map[];
    for i := 0 to |order|
      invariant forall m: nat :: m in nodes <==> m in order[..i]
      invariant forall m :: m in nodes ==> m < |t| && Renders(nodes[m], t[m])
    {
      ViewRenders(t[order[i]]);
      assert order[..i + 1] == order[..i] + [order[i]];
      nodes := nodes[order[i] := ViewOf(t[order[i]])];
    }
    assert order[..|order|] == order;
  }

  lemma ViewRenders(m: Message)
    ensures Renders(ViewOf(m), m)
  {
  }

  /** Depth-first reading of the tree below `m`. */
  function Flatten(t: Table, order: seq<nat>, m: nat): seq<nat>
    requires IsForest(t) && Lists(order, |t|) && m < |t|
    decreases |t| - m, 1, 0
  {
    RepliesAfter(t, order, m);
    [m] + FlattenAll(t, order, Replies(t, order, m), m + 1)
  }

  function FlattenAll(t: Table, order: seq<nat>, ms: seq<nat>, from: nat): seq<nat>
    requires IsForest(t) && Lists(order, |t|) && from <= |t|
    requires forall i :: 0 <= i < |ms| ==> from <= ms[i] < |t|
    decreases |t| - from, 2, |ms|
  {
    if ms == [] then []
    else FlattenAll(t, order, ms[..|ms| - 1], from) + Flatten(t, order, ms[|ms| - 1])
  }

  lemma {:induction false} RepliesAfter(t: Table, order: seq<nat>, p: nat)
    requires IsForest(t) && forall i :: 0 <= i < |order| ==> order[i] < |t|
    ensures forall i :: 0 <= i < |Replies(t, order, p)| ==>
              p < Replies(t, order, p)[i] < |t| && ParentOf(t, Replies(t, order, p)[i]) == Some(p)
  {
    if order != [] {
      RepliesAfter(t, order[..|order| - 1], p);
    }
  }

  function Count(s: seq<nat>, m: nat): nat {
    if s == [] then 0 else Count(s[..|s| - 1], m) + if s[|s| - 1] == m then 1 else 0
  }

  lemma {:induction false} CountConcat(a: seq<nat>, b: seq<nat>, m: nat)
    ensures Count(a + b, m) == Count(a, m) + Count(b, m)
  {
    if b == [] {
      assert a + b == a;
    } else {
      CountConcat(a, b[..|b| - 1], m);
      assert (a + b)[..|a + b| - 1] == a + b[..|b| - 1];
    }
  }

  /** `a` is `m` or lies above it. */
  predicate Above(t: Table, a: nat, m: nat)
    requires IsForest(t) && m < |t|
    decreases m
  {
    a == m || (ParentOf(t, m).Some? && Above(t, a, ParentOf(t, m).value))
  }

  /** The child of `a` on the way down to `m`; the root above `m` when `a` is None. */
  function Toward(t: Table, a: Option<nat>, m: nat): nat
    requires IsForest(t) && m < |t|
    decreases m
  {
    if ParentOf(t, m) == a || ParentOf(t, m).None? then m else Toward(t, a, ParentOf(t, m).value)
  }

  lemma {:induction false} AboveIsEarlier(t: Table, a: nat, m: nat)
    requires IsForest(t) && m < |t| && Above(t, a, m)
    ensures a <= m
    decreases m
  {
    if a != m {
      AboveIsEarlier(t, a, ParentOf(t, m).value);
    }
  }

  /** Exactly one of the children of `a` (or of the roots) lies above a message below it. */
  lemma {:induction false} OneWayDown(t: Table, a: Option<nat>, k: nat, m: nat)
    requires IsForest(t) && m < |t| && k < |t| && ParentOf(t, k) == a
    ensures a.Some? ==> (Above(t, k, m) <==> Above(t, a.value, m) && a.value != m && k == Toward(t, a, m))
    ensures a.None? ==> (Above(t, k, m) <==> k == Toward(t, a, m))
    decreases m
  {
    var p := ParentOf(t, m);
    if p.Some? {
      if p == a {
        if Above(t, k, p.value) {
          AboveIsEarlier(t, k, p.value);
        }
      } else {
        OneWayDown(t, a, k, p.value);
        if a.Some? && a.value == m && Above(t, k, p.value) {
          AboveIsEarlier(t, k, p.value);
        }
      }
    }
  }

  lemma {:induction false} TowardIsChild(t: Table, a: Option<nat>, m: nat)
    requires IsForest(t) && m < |t|
    requires a.Some? ==> Above(t, a.value, m) && a.value != m
    ensures Toward(t, a, m) < |t| && ParentOf(t, Toward(t, a, m)) == a
    decreases m
  {
    var p := ParentOf(t, m);
    if p.Some? && p != a {
      TowardIsChild(t, a, p.value);
    }
  }

  lemma {:induction false} ListsEachOnce(t: Table, order: seq<nat>, a: Option<nat>, ms: seq<nat>)
    requires forall i :: 0 <= i < |order| ==> order[i] < |t|
    requires forall i, j :: 0 <= i < j < |order| ==> order[i] != order[j]
    requires ms == if a.Some? then Replies(t, order, a.value) else Roots(t, order)
    ensures forall k :: k in ms <==> k in order && ParentOf(t, k) == a
    ensures forall i, j :: 0 <= i < j < |ms| ==> ms[i] != ms[j]
  {
    if order != [] {
      var init, last := order[..|order| - 1], order[|order| - 1];
      var before := if a.Some? then Replies(t, init, a.value) else Roots(t, init);
      assert order == init + [last] && last !in init;
      ListsEachOnce(t, init, a, before);
      assert ms == before + if ParentOf(t, last) == a then [last] else [];
    }
  }

  /** The flattening below `x` holds `m` once if `x` is `m` or lies above it, and not otherwise. */
  lemma {:induction false} FlattenCounts(t: Table, order: seq<nat>, x: nat, m: nat)
    requires IsForest(t) && Lists(order, |t|) && x < |t| && m < |t|
    ensures Count(Flatten(t, order, x), m) == if Above(t, x, m) then 1 else 0
    decreases |t| - x, 1, 0
  {
    RepliesAfter(t, order, x);
    var kids := Replies(t, order, x);
    ListsEachOnce(t, order, Some(x), kids);
    if Above(t, x, m) && x != m {
      TowardIsChild(t, Some(x), m);
    }
    if Above(t, x, m) {
      AboveIsEarlier(t, x, m);
    }
    FlattenAllCounts(t, order, kids, x + 1, Some(x), m);
    CountConcat([x], FlattenAll(t, order, kids, x + 1), m);
    assert Count([x], m) == Count([], m) + if x == m then 1 else 0;
  }

  lemma {:induction false} FlattenAllCounts(t: Table, order: seq<nat>, ms: seq<nat>, from: nat, a: Option<nat>, m: nat)
    requires IsForest(t) && Lists(order, |t|) && from <= |t| && m < |t|
    requires forall i :: 0 <= i < |ms| ==> from <= ms[i] < |t| && ParentOf(t, ms[i]) == a
    requires forall i, j :: 0 <= i < j < |ms| ==> ms[i] != ms[j]
    ensures Count(FlattenAll(t, order, ms, from), m)
         == if Toward(t, a, m) in ms && (a.Some? ==> Above(t, a.value, m) && a.value != m) then 1 else 0
    decreases |t| - from, 2, |ms|
  {
    if ms != [] {
      var init, last := ms[..|ms| - 1], ms[|ms| - 1];
      FlattenAllCounts(t, order, init, from, a, m);
      FlattenCounts(t, order, last, m);
      OneWayDown(t, a, last, m);
      CountConcat(FlattenAll(t, order, init, from), Flatten(t, order, last), m);
      assert ms == init + [last] && last !in init;
    }
  }

  /** Reading the tree from its roots meets every message exactly once, deleted ones included. */
  lemma TreeHoldsEveryMessageOnce(t: Table, order: seq<nat>, m: nat)
    requires IsForest(t) && Lists(order, |t|) && m < |t|
    ensures forall i :: 0 <= i < |Roots(t, order)| ==> 0 <= Roots(t, order)[i] < |t|
    ensures Count(FlattenAll(t, order, Roots(t, order), 0), m) == 1
  {
    var roots := Roots(t, order);
    ListsEachOnce(t, order, None, roots);
    forall i | 0 <= i < |roots| ensures roots[i] < |t| && ParentOf(t, roots[i]) == None {
      assert roots[i] in roots;
    }
    TowardIsChild(t, None, m);
    FlattenAllCounts(t, order, roots, 0, None, m);
  }
}
