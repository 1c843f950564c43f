/** The downstream side of `server/viewport.py`: queued ops, move coalescing, numbered frames, the
    bounded replay ring, and resume after a lost connection. */
module Viewport {
  import opened Options

  datatype Point = Point(x: real, y: real)

  /** A wire op: a move or a removal of a soul, a field of some other domain, or a speech bubble. */
  datatype Op =
    | Move(soul: string, at: Point, snap: bool)
    | Remove(soul: string)
    | Put(key: string, value: string)
    | Bubble(text: string)

  /** What a client has folded so far. */
  datatype Client = Client(positions: map<string, Point>, fields: map<string, string>)

  const EMPTY := Client(map[], map[])

  function Apply(c: Client, op: Op): Client {
    match op
    case Move(s, at, _) => c.(positions := c.positions[s := at])
    case Remove(s) => c.(positions := c.positions - {s})
    case Put(k, v) => c.(fields := c.fields[k := v])
    case Bubble(_) => c
  }

  function ApplyOps(c: Client, ops: seq<Op>): Client {
    if ops == [] then c else Apply(ApplyOps(c, ops[..|ops| - 1]), ops[|ops| - 1])
  }

  lemma ApplyLast(c: Client, ops: seq<Op>, op: Op)
    ensures ApplyOps(c, ops + [op]) == Apply(ApplyOps(c, ops), op)
  {
    assert (ops + [op])[..|ops|] == ops;
  }

  lemma {:induction false} ApplyConcat(c: Client, a: seq<Op>, b: seq<Op>)
    ensures ApplyOps(c, a + b) == ApplyOps(ApplyOps(c, a), b)
  {
    if b == [] {
      assert a + b == a;
    } else {
      ApplyConcat(c, a, b[..|b| - 1]);
      assert (a + b)[..|a + b| - 1] == a + b[..|b| - 1];
    }
  }

  // ---- Coalescing ----

  /** The index of the pending move of `soul`, or the length when there is none. */
  function Pending(moves: seq<Op>, soul: string): nat {
    if moves == [] then 0
    else if moves[0].Move? && moves[0].soul == soul then 0
    else 1 + Pending(moves[1..], soul)
  }

  predicate HasPending(moves: seq<Op>, soul: string) {
    exists i :: 0 <= i < |moves| && moves[i].Move? && moves[i].soul == soul
  }

  /** At most one pending move a soul, and nothing else. */
  ghost predicate OneEach(moves: seq<Op>) {
    && (forall i :: 0 <= i < |moves| ==> moves[i].Move?)
    && (forall i, j :: 0 <= i < j < |moves| ==> moves[i].soul != moves[j].soul)
  }

  /** Sending the priority ops and then the coalesced moves leaves a client where sending
      everything in the order it was queued would. */
  ghost predicate Faithful(queued: seq<Op>, priority: seq<Op>, moves: seq<Op>) {
    forall c :: ApplyOps(c, priority + moves) == ApplyOps(c, queued)
  }

  lemma {:induction false} PendingFinds(moves: seq<Op>, soul: string)
    ensures Pending(moves, soul) <= |moves|
    ensures HasPending(moves, soul) <==> Pending(moves, soul) < |moves|
    ensures Pending(moves, soul) < |moves| ==>
              moves[Pending(moves, soul)].Move? && moves[Pending(moves, soul)].soul == soul
  {
    if moves != [] && !(moves[0].Move? && moves[0].soul == soul) {
      PendingFinds(moves[1..], soul);
      if HasPending(moves, soul) {
        var i :| 0 <= i < |moves| && moves[i].Move? && moves[i].soul == soul;
        assert moves[1..][i - 1] == moves[i];
      }
      if HasPending(moves[1..], soul) {
        var i :| 0 <= i < |moves[1..]| && moves[1..][i].Move? && moves[1..][i].soul == soul;
        assert moves[i + 1] == moves[1..][i];
      }
    }
  }

  /** Replacing a soul's pending move in place is as good as sending the new one last. */
  lemma {:induction false} ReplaceIsAppend(c: Client, moves: seq<Op>, i: nat, op: Op)
    requires i < |moves| && OneEach(moves) && op.Move? && moves[i].soul == op.soul
    ensures ApplyOps(c, moves[i := op]) == Apply(ApplyOps(c, moves), op)
  {
    var init, last := moves[..|moves| - 1], moves[|moves| - 1];
    if i == |moves| - 1 {
      assert moves[i := op] == init + [op];
      ApplyLast(c, init, op);
    } else {
      ReplaceIsAppend(c, init, i, op);
      assert moves[i := op] == init[i := op] + [last];
      ApplyLast(c, init[i := op], last);
      Commute(ApplyOps(c, init), op, last);
    }
  }

  /** A move commutes with whatever concerns another soul or no soul's position. */
  lemma Commute(c: Client, a: Op, b: Op)
    requires b.Move?
    requires (a.Move? || a.Remove?) ==> a.soul != b.soul
    ensures Apply(Apply(c, a), b) == Apply(Apply(c, b), a)
  {
  }

  /** A priority op that overtakes the pending moves does no harm unless it removes one of them. */
  lemma {:induction false} OvertakeMoves(c: Client, moves: seq<Op>, op: Op)
    requires OneEach(moves) && !op.Move? && !(op.Remove? && HasPending(moves, op.soul))
    ensures ApplyOps(Apply(c, op), moves) == Apply(ApplyOps(c, moves), op)
  {
    if moves != [] {
      var init, last := moves[..|moves| - 1], moves[|moves| - 1];
      if op.Remove? {
        PendingInInit(moves, op.soul);
      }
      OvertakeMoves(c, init, op);
      assert moves[|moves| - 1] == last;
      Commute(ApplyOps(c, init), op, last);
    }
  }

  lemma PendingInInit(moves: seq<Op>, soul: string)
    requires moves != []
    ensures HasPending(moves[..|moves| - 1], soul) ==> HasPending(moves, soul)
  {
    var init := moves[..|moves| - 1];
    assert forall i :: 0 <= i < |init| ==> init[i] == moves[i];
  }

  lemma {:induction false} PendingSurvives(c: Client, moves: seq<Op>, soul: string)
    requires OneEach(moves) && HasPending(moves, soul)
    ensures soul in ApplyOps(c, moves).positions
  {
    var init, last := moves[..|moves| - 1], moves[|moves| - 1];
    if last.soul != soul {
      var i :| 0 <= i < |moves| && moves[i].Move? && moves[i].soul == soul;
      assert init[i] == moves[i];
      PendingSurvives(c, init, soul);
    }
  }

  function Coalesced(moves: seq<Op>, op: Op): seq<Op>
    requires op.Move?
  {
    var i := Pending(moves, op.soul);
    if i < |moves| then moves[i := if moves[i].Move? && moves[i].snap then op.(snap := true) else op] else moves + [op]
  }

  /** The newest move of a soul takes the place of its pending one, and snaps if either does; the moves of
      other souls stay, and a soul without one is appended. */
  lemma CoalescedInPlace(moves: seq<Op>, op: Op)
    requires op.Move? && OneEach(moves)
    ensures var after := Coalesced(moves, op);
            if HasPending(moves, op.soul) then
              && |after| == |moves|
              && forall i :: 0 <= i < |moves| ==>
                   after[i] == if moves[i].soul == op.soul then Move(op.soul, op.at, op.snap || moves[i].snap) else moves[i]
            else after == moves + [op]
  {
    PendingFinds(moves, op.soul);
  }

  /** Queueing a move keeps the queue faithful. */
  lemma MoveKeepsFaithful(queued: seq<Op>, priority: seq<Op>, moves: seq<Op>, op: Op)
    requires op.Move? && OneEach(moves) && Faithful(queued, priority, moves)
    ensures OneEach(Coalesced(moves, op)) && Faithful(queued + [op], priority, Coalesced(moves, op))
  {
    PendingFinds(moves, op.soul);
    var i := Pending(moves, op.soul);
    forall c ensures ApplyOps(c, priority + Coalesced(moves, op)) == ApplyOps(c, queued + [op]) {
      ApplyLast(c, queued, op);
      ApplyConcat(c, priority, moves);
      ApplyConcat(c, priority, Coalesced(moves, op));
      var d := ApplyOps(c, priority);
      if i < |moves| {
        ReplaceIsAppend(d, moves, i, if moves[i].snap then op.(snap := true) else op);
      } else {
        ApplyLast(d, moves, op);
      }
    }
  }

  /** Queueing anything else keeps it faithful exactly when it does not remove a soul whose move
      is still pending: the priority ops go out first, so that move would bring the soul back. */
  lemma PriorityKeepsFaithfulIff(queued: seq<Op>, priority: seq<Op>, moves: seq<Op>, op: Op)
    requires !op.Move? && OneEach(moves) && Faithful(queued, priority, moves)
    ensures Faithful(queued + [op], priority + [op], moves) <==> !(op.Remove? && HasPending(moves, op.soul))
  {
    forall c ensures ApplyOps(c, priority + [op] + moves) == ApplyOps(Apply(ApplyOps(c, priority), op), moves)
             ensures ApplyOps(c, queued + [op]) == Apply(ApplyOps(ApplyOps(c, priority), moves), op) {
      ApplyConcat(c, priority + [op], moves);
      ApplyLast(c, priority, op);
      ApplyLast(c, queued, op);
      ApplyConcat(c, priority, moves);
    }
    if op.Remove? && HasPending(moves, op.soul) {
      PendingSurvives(Apply(ApplyOps(EMPTY, priority), op), moves, op.soul);
      assert ApplyOps(EMPTY, priority + [op] + moves) != ApplyOps(EMPTY, queued + [op]);
    } else {
      forall c ensures ApplyOps(c, priority + [op] + moves) == ApplyOps(c, queued + [op]) {
        OvertakeMoves(ApplyOps(c, priority), moves, op);
      }
    }
  }

  // ---- Frames, the ring and resume ----

  /** What was sent under one frame number: a whole snapshot or a delta. */
  datatype Sent = Snap(client: Client) | Delta(ops: seq<Op>)

  datatype Frame = Frame(seqNo: int, baseSeq: nat, tick: nat, ops: seq<Op>)

  /** The ops without the bubbles. */
  function Silent(ops: seq<Op>): seq<Op> {
    if ops == [] then []
    else Silent(ops[..|ops| - 1]) + if ops[|ops| - 1].Bubble? then [] else [ops[|ops| - 1]]
  }

  lemma {:induction false} BubblesLeaveNoTrace(c: Client, ops: seq<Op>)
    ensures ApplyOps(c, Silent(ops)) == ApplyOps(c, ops)
  {
    if ops != [] {
      var init, last := ops[..|ops| - 1], ops[|ops| - 1];
      BubblesLeaveNoTrace(c, init);
      if last.Bubble? {
        assert Silent(ops) == Silent(init);
      } else {
        ApplyLast(c, Silent(init), last);
      }
    }
  }

  /** The state of a client that received everything in `history`. */
  function Fold(c: Client, history: seq<Sent>): Client {
    if history == [] then c
    else
      match history[|history| - 1]
      case Snap(s) => s
      case Delta(ops) => ApplyOps(Fold(c, history[..|history| - 1]), ops)
  }

  /** The state of a client that applies the ops of a list of frames. */
  function FoldFrames(c: Client, frames: seq<Frame>): Client {
    if frames == [] then c else ApplyOps(FoldFrames(c, frames[..|frames| - 1]), frames[|frames| - 1].ops)
  }

  /** The frame numbers from `from` on that carry deltas, with bubbles removed. */
  function Deltas(history: seq<Sent>, from: int): seq<(int, seq<Op>)> {
    if history == [] || |history| <= from then []
    else
      Deltas(history[..|history| - 1], from)
      + match history[|history| - 1]
        case Snap(_) => []
        case Delta(ops) => [(|history| - 1, Silent(ops))]
  }

  function Pairs(ring: seq<Frame>): seq<(int, seq<Op>)> {
    seq(|ring|, i requires 0 <= i < |ring| => (ring[i].seqNo, ring[i].ops))
  }

  /** The ring holds the newest deltas, as many as fit. */
  ghost predicate RingHolds(ring: seq<Frame>, history: seq<Sent>, size: nat) {
    var all := Deltas(history, 0);
    |ring| == (if |all| <= size then |all| else size) && Pairs(ring) == all[|all| - |ring|..]
  }

  ghost predicate NoSnap(history: seq<Sent>, from: int) {
    forall i :: from <= i < |history| && 0 <= i ==> history[i].Delta?
  }

  /** Frame numbers in ascending order, all in `[from, to)`. */
  ghost predicate Numbered(d: seq<(int, seq<Op>)>, from: int, to: int) {
    && (forall i :: 0 <= i < |d| ==> from <= d[i].0 < to)
    && (forall i, j :: 0 <= i < j < |d| ==> d[i].0 < d[j].0)
  }

  lemma {:induction false} DeltasNumbered(history: seq<Sent>, from: int)
    ensures Numbered(Deltas(history, from), if from > 0 then from else 0, |history|)
  {
    if history != [] && |history| > from {
      DeltasNumbered(history[..|history| - 1], from);
      DeltasStep(history, from);
    }
  }

  lemma DeltasStep(history: seq<Sent>, from: int)
    requires history != [] && |history| > from
    ensures var before, last := Deltas(history[..|history| - 1], from), history[|history| - 1];
            Deltas(history, from) == if last.Snap? then before else before + [(|history| - 1, Silent(last.ops))]
  {
  }

  /** The entries numbered after `last`. */
  function After(d: seq<(int, seq<Op>)>, last: int): seq<(int, seq<Op>)> {
    if d == [] then [] else After(d[..|d| - 1], last) + if d[|d| - 1].0 > last then [d[|d| - 1]] else []
  }

  lemma {:induction false} AfterNone(d: seq<(int, seq<Op>)>, last: int)
    requires forall i :: 0 <= i < |d| ==> d[i].0 <= last
    ensures After(d, last) == []
  {
    if d != [] {
      AfterNone(d[..|d| - 1], last);
    }
  }

  lemma {:induction false} AfterSkipsPrefix(a: seq<(int, seq<Op>)>, b: seq<(int, seq<Op>)>, last: int)
    requires forall i :: 0 <= i < |a| ==> a[i].0 <= last
    ensures After(a + b, last) == After(b, last)
  {
    if b == [] {
      assert a + b == a;
      AfterNone(a, last);
    } else {
      AfterSkipsPrefix(a, b[..|b| - 1], last);
      assert (a + b)[..|a + b| - 1] == a + b[..|b| - 1];
    }
  }

  lemma {:induction false} AfterIsDeltas(history: seq<Sent>, last: int)
    ensures After(Deltas(history, 0), last) == Deltas(history, last + 1)
  {
    DeltasNumbered(history, 0);
    if |history| <= last + 1 {
      AfterNone(Deltas(history, 0), last);
    } else if history != [] {
      AfterIsDeltas(history[..|history| - 1], last);
      DeltasStep(history, 0);
      DeltasStep(history, last + 1);
      if history[|history| - 1].Delta? {
        var before := Deltas(history[..|history| - 1], 0);
        assert Deltas(history, 0)[..|before|] == before;
      }
    }
  }

  /** With no snapshot in between, the deltas from `from` on carry every number, in order. */
  lemma {:induction false} DeltasAreContiguous(history: seq<Sent>, from: int)
    requires 0 <= from <= |history|
    ensures |Deltas(history, from)| <= |history| - from
    ensures |Deltas(history, from)| == |history| - from <==> NoSnap(history, from)
    ensures NoSnap(history, from) ==> forall i :: 0 <= i < |history| - from ==> Deltas(history, from)[i].0 == from + i
  {
    if |history| > from {
      var init := history[..|history| - 1];
      DeltasAreContiguous(init, from);
      if NoSnap(init, from) && history[|history| - 1].Delta? {
        assert forall i :: from <= i < |history| ==> i == |history| - 1 || history[i] == init[i];
      }
      if NoSnap(history, from) {
        assert forall i :: from <= i < |init| ==> init[i] == history[i];
      }
    }
  }

  /** Folding the replayed frames over the state of a client that had everything up to `from`
      reaches the state of a client that was never disconnected. */
  lemma {:induction false} ReplayReaches(history: seq<Sent>, from: int, frames: seq<Frame>)
    requires 0 <= from <= |history| && NoSnap(history, from)
    requires |frames| == |Deltas(history, from)|
    requires forall i :: 0 <= i < |frames| ==> frames[i].ops == Deltas(history, from)[i].1
    ensures FoldFrames(Fold(EMPTY, history[..from]), frames) == Fold(EMPTY, history)
  {
    if |history| == from {
      assert history[..from] == history;
    } else {
      var init := history[..|history| - 1];
      assert history[|history| - 1].Delta?;
      assert forall i :: from <= i < |init| ==> init[i] == history[i];
      assert init[..from] == history[..from];
      ReplayReaches(init, from, frames[..|frames| - 1]);
      BubblesLeaveNoTrace(Fold(EMPTY, init), history[|history| - 1].ops);
    }
  }

  /** The frames of the ring that a client which saw `last` has missed. */
  function FramesAfter(ring: seq<Frame>, last: int): seq<Frame> {
    if ring == [] then []
    else FramesAfter(ring[..|ring| - 1], last) + if ring[|ring| - 1].seqNo > last then [ring[|ring| - 1]] else []
  }

  lemma {:induction false} FramesAfterPairs(ring: seq<Frame>, last: int)
    ensures Pairs(FramesAfter(ring, last)) == After(Pairs(ring), last)
  {
    if ring != [] {
      FramesAfterPairs(ring[..|ring| - 1], last);
      assert Pairs(ring)[..|ring| - 1] == Pairs(ring[..|ring| - 1]);
      var rest := FramesAfter(ring[..|ring| - 1], last);
      assert Pairs(rest + [ring[|ring| - 1]]) == Pairs(rest) + [(ring[|ring| - 1].seqNo, ring[|ring| - 1].ops)];
      assert rest + [] == rest;
    }
  }

  /** The server's test for answering from the ring. */
  predicate RingReaches(ring: seq<Frame>, nextSeq: nat, last: int) {
    if ring == [] then last == nextSeq - 1 else ring[0].seqNo - 1 <= last < nextSeq
  }

  /** When the test passes, the frames taken from the ring are all the deltas after `last`, despite
      evictions. */
  lemma RingSuffices(ring: seq<Frame>, history: seq<Sent>, size: nat, last: int)
    requires RingHolds(ring, history, size) && RingReaches(ring, |history|, last)
    ensures Pairs(FramesAfter(ring, last)) == Deltas(history, last + 1)
  {
    hide Deltas, FramesAfter, After;
    var all := Deltas(history, 0);
    var cut := |all| - |ring|;
    FramesAfterPairs(ring, last);
    DeltasNumbered(history, 0);
    assert all == all[..cut] + Pairs(ring);
    if ring != [] {
      assert Pairs(ring)[0] == all[cut];
      assert forall i :: 0 <= i < cut ==> all[i].0 < all[cut].0;
    }
    AfterSkipsPrefix(all[..cut], Pairs(ring), last);
    AfterIsDeltas(history, last);
  }

  /** One more delta enters the ring and, when the ring is full, the oldest leaves. */
  function Pushed(ring: seq<Frame>, f: Frame, size: nat): seq<Frame> {
    var longer := ring + [f];
    if |longer| <= size then longer else longer[|longer| - size..]
  }

  lemma PushKeepsRing(ring: seq<Frame>, history: seq<Sent>, size: nat, f: Frame, ops: seq<Op>)
    requires RingHolds(ring, history, size) && f.seqNo == |history| && f.ops == Silent(ops)
    ensures RingHolds(Pushed(ring, f, size), history + [Delta(ops)], size)
  {
    var history' := history + [Delta(ops)];
    assert history'[..|history|] == history;
    DeltasStep(history', 0);
    var all, all' := Deltas(history, 0), Deltas(history', 0);
    assert all' == all + [(f.seqNo, f.ops)];
    var pushed := Pushed(ring, f, size);
    assert Pairs(ring + [f]) == Pairs(ring) + [(f.seqNo, f.ops)];
    assert Pairs(pushed) == Pairs(ring + [f])[|ring| + 1 - |pushed|..];
  }

  lemma SnapKeepsRing(ring: seq<Frame>, history: seq<Sent>, size: nat, c: Client)
    requires RingHolds(ring, history, size)
    ensures RingHolds(ring, history + [Snap(c)], size)
  {
    assert (history + [Snap(c)])[..|history|] == history;
    DeltasStep(history + [Snap(c)], 0);
  }

  class ViewportSession {
    var nextSeq: nat
    var ring: seq<Frame>
    const ringSize: nat
    var pendingMoves: seq<Op>
    var pendingPriority: seq<Op>
    var slowFlushes: nat
    var committed: map<string, Point>
    ghost var history: seq<Sent>
    ghost var queued: seq<Op>

    ghost predicate Valid()
      reads this
    {
      |history| == nextSeq && RingHolds(ring, history, ringSize) && OneEach(pendingMoves)
    }

    constructor (ringSize: nat)
      ensures Valid() && history == [] && nextSeq == 0 && this.ringSize == ringSize && fresh(this)
      ensures Faithful(queued, pendingPriority, pendingMoves) && queued == [] && committed == map[]
    {
      committed := map[];
      this.ringSize := ringSize;
      nextSeq, ring, pendingMoves, pendingPriority, slowFlushes, history, queued := 0, [], [], [], 0, [], [];
    }

    /** `enqueue`: moves coalesce per soul, everything else is appended.  The queue stays faithful
        to the order of the calls unless a soul is removed while its move is pending. */
    method Enqueue(op: Op)
      requires Valid()
      modifies this`pendingMoves, this`pendingPriority, this`queued
      ensures Valid() && queued == old(queued) + [op]
      ensures pendingMoves == if op.Move? then Coalesced(old(pendingMoves), op) else old(pendingMoves)
      ensures pendingPriority == old(pendingPriority) + if op.Move? then [] else [op]
      ensures old(Faithful(queued, pendingPriority, pendingMoves)) ==>
                (Faithful(queued, pendingPriority, pendingMoves) <==>
                   !(op.Remove? && HasPending(old(pendingMoves), op.soul)))
    {
      hide Faithful;
      PendingFinds(pendingMoves, if op.Move? then op.soul else "");
      if op.Move? {
        if old(Faithful(queued, pendingPriority, pendingMoves)) {
          MoveKeepsFaithful(queued, pendingPriority, pendingMoves, op);
        }
        var i := Pending(pendingMoves, op.soul);
        var newest := op;
        if i < |pendingMoves| {
          if pendingMoves[i].snap {
            newest := op.(snap := true);
          }
          pendingMoves := pendingMoves[i := newest];
        } else {
          pendingMoves := pendingMoves + [newest];
        }
      } else {
        if old(Faithful(queued, pendingPriority, pendingMoves)) {
          PriorityKeepsFaithfulIff(queued, pendingPriority, pendingMoves, op);
        }
        pendingPriority := pendingPriority + [op];
      }
      queued := queued + [op];
    }

    /** `flush`: nothing to do, saturated (the ops stay queued), closed, or one delta frame that
        carries the whole queue; its copy in the ring has no bubbles.  Only then are the positions
        that the queue was made from committed. */
    method Flush(positions: map<string, Point>, tick: nat, highWater: nat, maxSlow: nat) returns (status: string, sent: Option<Frame>)
      requires Valid()
      modifies this
      ensures Valid()
      ensures sent.None? ==> nextSeq == old(nextSeq) && ring == old(ring) && history == old(history)
      ensures sent.None? ==> pendingMoves == old(pendingMoves) && pendingPriority == old(pendingPriority)
      ensures sent.None? ==> queued == old(queued) && committed == old(committed)
      ensures sent.Some? ==> committed == positions
      ensures sent.Some? ==> sent.value.seqNo == old(nextSeq) && pendingMoves == [] == pendingPriority == queued
      ensures sent.Some? ==> sent.value.ops == old(pendingPriority + pendingMoves)
      ensures sent.Some? ==> history == old(history) + [Delta(sent.value.ops)]
      ensures sent.Some? <==> 0 < old(|pendingMoves| + |pendingPriority|) <= highWater
      ensures status == "closed" ==> old(|pendingMoves| + |pendingPriority|) > highWater && slowFlushes >= maxSlow
    {
      sent := None;
      var count := |pendingMoves| + |pendingPriority|;
      if count == 0 {
        slowFlushes := 0;
        return "ok", None;
      }
      if count > highWater {
        slowFlushes := slowFlushes + 1;
        if slowFlushes >= maxSlow {
          return "closed", None;
        }
        return "saturated", None;
      }
      var ops := pendingPriority + pendingMoves;
      pendingPriority, pendingMoves, queued := [], [], [];
      var base := if nextSeq > 0 then nextSeq - 1 else 0;
      Push(tick, Silent(ops), ops);
      committed, slowFlushes := positions, 0;
      return "ok", Some(Frame(nextSeq - 1, base, tick, ops));
    }

    /** Numbers a delta frame and puts its silent copy into the ring. */
    method Push(tick: nat, silent: seq<Op>, ghost ops: seq<Op>)
      requires Valid() && silent == Silent(ops)
      modifies this`nextSeq, this`ring, this`history
      ensures Valid() && nextSeq == old(nextSeq) + 1 && history == old(history) + [Delta(ops)]
    {
      hide RingHolds, OneEach, Silent;
      var f := Frame(nextSeq, if nextSeq > 0 then nextSeq - 1 else 0, tick, silent);
      PushKeepsRing(ring, history, ringSize, f, ops);
      ring := ring + [f];
      if |ring| > ringSize {
        ring := ring[|ring| - ringSize..];
      }
      nextSeq, history := nextSeq + 1, history + [Delta(ops)];
    }

    /** `build_snapshot`: takes a frame number but leaves no copy in the ring. */
    method BuildSnapshot(c: Client) returns (seqNo: nat)
      requires Valid()
      modifies this`nextSeq, this`history, this`committed
      ensures Valid() && seqNo == old(nextSeq) && nextSeq == seqNo + 1 && history == old(history) + [Snap(c)]
      ensures committed == c.positions
    {
      SnapKeepsRing(ring, history, ringSize, c);
      seqNo := nextSeq;
      nextSeq, history, committed := nextSeq + 1, history + [Snap(c)], c.positions;
    }
  }

  /** `resume`: `old` is the session found for the connection id, `last` the last frame number the
      client saw.  "Replayed" means that the ring reached back far enough; the frames that are then
      resent, under the new session's numbers, are exactly the old deltas after `last`. */
  method Resume(former: ViewportSession, session: ViewportSession, last: int) returns (replayed: bool, resent: seq<Frame>)
    requires former.Valid() && session.Valid()
    modifies session
    ensures session.Valid()
    ensures replayed <==>
              var ring := old(former.ring);
              if ring == [] then last + 1 == old(former.nextSeq) else ring[0].seqNo <= last + 1 && last < old(former.nextSeq)
    ensures !replayed ==> resent == [] && session.nextSeq == old(session.nextSeq)
    ensures replayed ==> Pairs(resent) == Deltas(old(former.history), last + 1)
    ensures session.nextSeq == old(session.nextSeq) + |resent|
    ensures session.committed == old(if replayed then former.committed else session.committed)
  {
    replayed, resent := RingReaches(former.ring, former.nextSeq, last), [];
    if !replayed {
      return;
    }
    RingSuffices(former.ring, former.history, former.ringSize, last);
    resent := FramesAfter(former.ring, last);
    ghost var missed := Deltas(former.history, last + 1);
    for i := 0 to |resent|
      invariant session.Valid() && session.nextSeq == old(session.nextSeq) + i
      invariant Pairs(resent) == missed
      invariant session.committed == old(session.committed) && former.committed == old(former.committed)
    {
      AlreadySilent(old(former.history), last + 1, i);
      assert Pairs(resent)[i] == (resent[i].seqNo, resent[i].ops);
      session.Push(resent[i].tick, resent[i].ops, resent[i].ops);
    }
    session.committed := former.committed;
  }

  /** The ops in the ring have no bubbles left to strip. */
  lemma {:induction false} AlreadySilent(history: seq<Sent>, from: int, i: nat)
    requires i < |Deltas(history, from)|
    ensures Silent(Deltas(history, from)[i].1) == Deltas(history, from)[i].1
  {
    DeltasStep(history, from);
    var last := history[|history| - 1];
    if i < |Deltas(history[..|history| - 1], from)| {
      AlreadySilent(history[..|history| - 1], from, i);
    } else {
      SilentTwice(last.ops);
    }
  }

  lemma {:induction false} SilentTwice(ops: seq<Op>)
    ensures Silent(Silent(ops)) == Silent(ops)
  {
    if ops != [] {
      var init, last := ops[..|ops| - 1], ops[|ops| - 1];
      SilentTwice(init);
      if last.Bubble? {
        assert Silent(ops) == Silent(init);
      } else {
        assert (Silent(init) + [last])[..|Silent(init)|] == Silent(init);
      }
    }
  }

  /** A resumed client ends where a client that was never disconnected is, for every session whose
      snapshots all lie at or before the last frame the client saw. */
  lemma ResumeIsSeamless(ring: seq<Frame>, history: seq<Sent>, size: nat, last: int)
    requires RingHolds(ring, history, size) && RingReaches(ring, |history|, last)
    requires -1 <= last && NoSnap(history, last + 1)
    ensures last + 1 <= |history|
    ensures FoldFrames(Fold(EMPTY, history[..last + 1]), FramesAfter(ring, last)) == Fold(EMPTY, history)
  {
    RingSuffices(ring, history, size, last);
    var frames := FramesAfter(ring, last);
    forall i | 0 <= i < |frames| ensures frames[i].ops == Deltas(history, last + 1)[i].1 {
      assert Pairs(frames)[i] == (frames[i].seqNo, frames[i].ops);
    }
    assert |Pairs(frames)| == |frames|;
    ReplayReaches(history, last + 1, frames);
  }

  /** In general the resent frames carry every number the client missed exactly when no snapshot
      was sent in between: a snapshot takes a number but is not in the ring, and the server does
      not notice. */
  lemma ResumeCoversIff(ring: seq<Frame>, history: seq<Sent>, size: nat, last: int)
    requires RingHolds(ring, history, size) && RingReaches(ring, |history|, last) && -1 <= last
    ensures var numbers := seq(|FramesAfter(ring, last)|, i requires 0 <= i < |FramesAfter(ring, last)| =>
                               FramesAfter(ring, last)[i].seqNo);
            last + 1 <= |history| &&
            (numbers == seq(|history| - 1 - last, i => last + 1 + i) <==> NoSnap(history, last + 1))
  {
    RingSuffices(ring, history, size, last);
    DeltasAreContiguous(history, last + 1);
    var frames := FramesAfter(ring, last);
    assert |Pairs(frames)| == |frames|;
    forall i | 0 <= i < |frames| ensures frames[i].seqNo == Deltas(history, last + 1)[i].0 {
      assert Pairs(frames)[i] == (frames[i].seqNo, frames[i].ops);
    }
    var numbers := seq(|frames|, i requires 0 <= i < |frames| => frames[i].seqNo);
    if NoSnap(history, last + 1) {
      assert numbers == seq(|history| - 1 - last, i => last + 1 + i);
    }
  }

  /** A session that was resynchronised with a snapshot after the client went away: the resume is
      answered "replayed", nothing is resent, and the client never learns of the snapshot. */
  lemma SnapshotIsMissed()
    ensures exists ring: seq<Frame>, history: seq<Sent> :: RingHolds(ring, history, 64) && RingReaches(ring, |history|, 1) &&
              (forall k :: 0 <= k < |history| && history[k].Delta? ==> history[k].ops != []) &&
              2 <= |history| && FoldFrames(Fold(EMPTY, history[..2]), FramesAfter(ring, 1)) != Fold(EMPTY, history)
  {
    var late := Client(map["a" := Point(1.0, 2.0)], map[]);
    var ops := [Put("k", "v")];
    var history := [Snap(EMPTY), Delta(ops), Snap(late)];
    var ring := [Frame(1, 0, 0, ops)];
    assert ops[..0] == [] && Silent(ops) == ops;
    assert history[..2][..1] == [Snap(EMPTY)] && history[..1] == [Snap(EMPTY)] && history[..2] == [Snap(EMPTY), Delta(ops)];
    assert Deltas(history[..1], 0) == [];
    assert Deltas(history[..2], 0) == [(1, ops)];
    assert Deltas(history, 0) == [(1, ops)];
    assert Pairs(ring) == [(1, ops)];
    assert FramesAfter(ring, 1) == [];
    assert ApplyOps(EMPTY, ops) == Apply(EMPTY, ops[0]);
    assert Fold(EMPTY, history[..2]) == Apply(EMPTY, ops[0]);
    assert Fold(EMPTY, history[..2]).positions == map[];
    assert "a" in late.positions && "a" !in Fold(EMPTY, history[..2]).positions;
    assert RingHolds(ring, history, 64) && RingReaches(ring, |history|, 1);
  }

  /** If a soul moved and were then removed within one frame, it would be back on the client: the
      removal goes out first.  No pass of the pump does that. */
  lemma RemovedSoulComesBack(soul: string, at: Point)
    ensures var move, remove := Move(soul, at, false), Remove(soul);
            && soul in ApplyOps(EMPTY, [remove, move]).positions
            && soul !in ApplyOps(EMPTY, [move, remove]).positions
            && Faithful([move], [], [move]) && !Faithful([move] + [remove], [] + [remove], [move])
  {
    var move, remove := Move(soul, at, false), Remove(soul);
    AlwaysFaithful([move]);
    assert [move][0].Move? && [move][0].soul == soul;
    assert OneEach([move]) && HasPending([move], soul);
    hide Faithful, OneEach, HasPending;
    PriorityKeepsFaithfulIff([move], [], [move], remove);
    LastOp(remove, move);
    LastOp(move, remove);
  }

  lemma LastOp(first: Op, last: Op)
    ensures ApplyOps(EMPTY, [first, last]) == Apply(ApplyOps(EMPTY, [first]), last)
  {
    assert [first, last] == [first] + [last];
    ApplyLast(EMPTY, [first], last);
  }

  lemma AlwaysFaithful(moves: seq<Op>)
    ensures Faithful(moves, [], moves)
  {
    assert [] + moves == moves;
  }
}
