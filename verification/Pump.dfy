/** The viewport pump of `server/routers/websockets.py`: pass after pass it diffs the positions
    against what is committed, queues the ops and flushes them to the client. */
module Pump {
  import opened Options
  import opened Viewport

  const EPSILON_SQUARED := 0.25
  const SNAP_SQUARED := 62500.0

  function Apart(p: Point, q: Point): real {
    (p.x - q.x) * (p.x - q.x) + (p.y - q.y) * (p.y - q.y)
  }

  /** The op a pass queues for a soul: none if it moved by the epsilon of half a pixel or less. */
  function OpFor(soul: string, current: map<string, Point>, committed: map<string, Point>): Option<Op> {
    if soul !in current then
      if soul in committed then Some(Remove(soul)) else None
    else if soul !in committed then Some(Move(soul, current[soul], true))
    else
      var apart := Apart(current[soul], committed[soul]);
      if apart > EPSILON_SQUARED then Some(Move(soul, current[soul], apart > SNAP_SQUARED)) else None
  }

  ghost predicate OneOpEach(ops: seq<Op>) {
    && (forall i :: 0 <= i < |ops| ==> ops[i].Move? || ops[i].Remove?)
    && (forall i, j :: 0 <= i < j < |ops| ==> ops[i].soul != ops[j].soul)
  }

  /** The ops of the souls in `among`, one each, in some order. */
  ghost predicate DiffOf(ops: seq<Op>, among: set<string>, current: map<string, Point>, committed: map<string, Point>) {
    && OneOpEach(ops)
    && (forall i :: 0 <= i < |ops| ==> ops[i].soul in among && OpFor(ops[i].soul, current, committed) == Some(ops[i]))
    && (forall soul :: soul in among && OpFor(soul, current, committed).Some? ==> OpFor(soul, current, committed).value in ops)
  }

  ghost predicate IsDiff(ops: seq<Op>, current: map<string, Point>, committed: map<string, Point>) {
    DiffOf(ops, current.Keys + committed.Keys, current, committed)
  }

  /** In plain numbers: a soul that is new or has moved by more than half a pixel is moved to where it is, with a
      snap if it is new or has moved by more than 250; one that is gone is removed; nothing else is queued. */
  lemma DiffInNumbers(ops: seq<Op>, current: map<string, Point>, committed: map<string, Point>, soul: string, at: Point, snap: bool)
    requires IsDiff(ops, current, committed)
    ensures Move(soul, at, snap) in ops
       <==> && soul in current && current[soul] == at
            && (if soul in committed then
                  var dx, dy := at.x - committed[soul].x, at.y - committed[soul].y;
                  dx * dx + dy * dy > 0.5 * 0.5 && (snap <==> dx * dx + dy * dy > 250.0 * 250.0)
                else snap)
    ensures Remove(soul) in ops <==> soul in committed && soul !in current
    ensures forall op :: op in ops ==> op.Move? || op.Remove?
  {
    if soul in current && soul in committed {
      var dx, dy := current[soul].x - committed[soul].x, current[soul].y - committed[soul].y;
      assert Apart(current[soul], committed[soul]) == dx * dx + dy * dy;
    }
    var op := OpFor(soul, current, committed);
    hide Apart;
    forall other: Op | other in ops && (other.Move? || other.Remove?) && other.soul == soul ensures op == Some(other) {
      var i :| 0 <= i < |ops| && ops[i] == other;
    }
    assert op.Some? ==> op.value in ops;
    forall op | op in ops ensures op.Move? || op.Remove? {
      var i :| 0 <= i < |ops| && ops[i] == op;
    }
  }

  lemma DiffMore(ops: seq<Op>, among: set<string>, soul: string, current: map<string, Point>, committed: map<string, Point>)
    requires DiffOf(ops, among, current, committed) && soul !in among
    ensures var op := OpFor(soul, current, committed);
            DiffOf(if op.Some? then ops + [op.value] else ops, among + {soul}, current, committed)
  {
    var op := OpFor(soul, current, committed);
    if op.Some? {
      var more := ops + [op.value];
      assert more[|ops|] == op.value;
      assert forall i :: 0 <= i < |ops| ==> more[i] == ops[i];
    }
  }

  /** `diff_positions`: first the souls that are there, then those that are gone. */
  method DiffPositions(current: map<string, Point>, committed: map<string, Point>) returns (ops: seq<Op>)
    ensures IsDiff(ops, current, committed)
  {
    ops := [];
    var left := current.Keys;
    while left != {}
      invariant left <= current.Keys && DiffOf(ops, current.Keys - left, current, committed)
    {
      hide DiffOf;
      var soul :| soul in left;
      DiffMore(ops, current.Keys - left, soul, current, committed);
      assert current.Keys - left + {soul} == current.Keys - (left - {soul});
      if soul !in committed {
        ops := ops + [Move(soul, current[soul], true)];
      } else {
        var apart := Apart(current[soul], committed[soul]);
        if apart > SNAP_SQUARED {
          ops := ops + [Move(soul, current[soul], true)];
        } else if apart > EPSILON_SQUARED {
          ops := ops + [Move(soul, current[soul], false)];
        }
      }
      left := left - {soul};
    }
    left := committed.Keys - current.Keys;
    assert current.Keys - {} == current.Keys + committed.Keys - left;
    while left != {}
      invariant left <= committed.Keys - current.Keys
      invariant DiffOf(ops, current.Keys + committed.Keys - left, current, committed)
    {
      hide DiffOf;
      var soul :| soul in left;
      DiffMore(ops, current.Keys + committed.Keys - left, soul, current, committed);
      assert current.Keys + committed.Keys - left + {soul} == current.Keys + committed.Keys - (left - {soul});
      ops := ops + [Remove(soul)];
      left := left - {soul};
    }
    assert current.Keys + committed.Keys - {} == current.Keys + committed.Keys;
  }

  // ---- A session and its client ----

  /** A session's queue, the order of the calls that filled it, what it has committed, and the
      client that has folded every frame sent. */
  datatype Channel = Channel(
    priority: seq<Op>, moves: seq<Op>, queued: seq<Op>, committed: map<string, Point>, client: Client)

  function Count(ch: Channel): nat {
    |ch.moves| + |ch.priority|
  }

  function Enqueued(ch: Channel, op: Op): Channel {
    if op.Move? then ch.(moves := Coalesced(ch.moves, op), queued := ch.queued + [op])
    else ch.(priority := ch.priority + [op], queued := ch.queued + [op])
  }

  function EnqueuedAll(ch: Channel, ops: seq<Op>): Channel {
    if ops == [] then ch else Enqueued(EnqueuedAll(ch, ops[..|ops| - 1]), ops[|ops| - 1])
  }

  predicate Sends(ch: Channel, highWater: nat) {
    0 < Count(ch) <= highWater
  }

  function Flushed(ch: Channel, positions: map<string, Point>, highWater: nat): Channel {
    if Sends(ch, highWater) then Channel([], [], [], positions, ApplyOps(ch.client, ch.priority + ch.moves)) else ch
  }

  /** One pass of the pump, a notification from elsewhere, or a snapshot. */
  datatype Step =
    | Pass(ops: seq<Op>, positions: map<string, Point>)
    | Notify(op: Op)
    | Snapshot(client: Client)

  function Next(ch: Channel, s: Step, highWater: nat): Channel {
    match s
    case Pass(ops, positions) => Flushed(EnqueuedAll(ch, ops), positions, highWater)
    case Notify(op) => Enqueued(ch, op)
    case Snapshot(c) => ch.(committed := c.positions, client := c)
  }

  function Run(ch: Channel, steps: seq<Step>, highWater: nat): Channel {
    if steps == [] then ch else Next(Run(ch, steps[..|steps| - 1], highWater), steps[|steps| - 1], highWater)
  }

  /** Ops that concern no soul's position: fields of other domains and speech bubbles. */
  predicate Plain(ops: seq<Op>) {
    forall i :: 0 <= i < |ops| ==> ops[i].Put? || ops[i].Bubble?
  }

  /** What a step queues: a pass the diff of the positions and then ops of the other domains, a
      notification an op of another domain. */
  ghost predicate Legal(ch: Channel, s: Step) {
    match s
    case Pass(ops, positions) =>
      exists n :: 0 <= n <= |ops| && IsDiff(ops[..n], positions, ch.committed) && Plain(ops[n..])
    case Notify(op) => Plain([op])
    case Snapshot(_) => true
  }

  ghost predicate AllLegal(ch: Channel, steps: seq<Step>, highWater: nat) {
    steps == [] ||
    (var before := steps[..|steps| - 1];
     AllLegal(ch, before, highWater) && Legal(Run(ch, before, highWater), steps[|steps| - 1]))
  }

  // ---- No pass removes a soul it has moved ----

  /** No soul is removed after it was moved. */
  ghost predicate NoneUndone(ops: seq<Op>) {
    forall i, j :: 0 <= i < j < |ops| && ops[i].Move? && ops[j].Remove? ==> ops[i].soul != ops[j].soul
  }

  ghost predicate Honest(ch: Channel) {
    OneEach(ch.moves) && Faithful(ch.queued, ch.priority, ch.moves)
  }

  lemma OneGrows(ch: Channel, op: Op)
    ensures var after := Enqueued(ch, op);
            && Count(after) >= Count(ch) && Count(after) > 0 && after.queued == ch.queued + [op]
            && after.client == ch.client && after.committed == ch.committed
  {
    hide Pending;
  }

  lemma {:induction false} EnqueueGrows(ch: Channel, ops: seq<Op>)
    ensures Count(EnqueuedAll(ch, ops)) >= Count(ch) && (ops != [] ==> Count(EnqueuedAll(ch, ops)) > 0)
    ensures EnqueuedAll(ch, ops).queued == ch.queued + ops
    ensures EnqueuedAll(ch, ops).client == ch.client && EnqueuedAll(ch, ops).committed == ch.committed
  {
    hide Enqueued, Count;
    if ops != [] {
      EnqueueGrows(ch, ops[..|ops| - 1]);
      OneGrows(EnqueuedAll(ch, ops[..|ops| - 1]), ops[|ops| - 1]);
      assert ops[..|ops| - 1] + [ops[|ops| - 1]] == ops;
    } else {
      EmptyStays(ch);
    }
  }

  lemma EmptyStays(ch: Channel)
    ensures ch.queued + [] == ch.queued
  {
  }

  /** Every pending move was queued. */
  lemma {:induction false} PendingWasQueued(ch: Channel, ops: seq<Op>, soul: string)
    requires ch.moves == [] && HasPending(EnqueuedAll(ch, ops).moves, soul)
    ensures exists i :: 0 <= i < |ops| && ops[i].Move? && ops[i].soul == soul
  {
    if ops != [] {
      var init, last := ops[..|ops| - 1], ops[|ops| - 1];
      var moves := EnqueuedAll(ch, init).moves;
      if HasPending(moves, soul) {
        PendingWasQueued(ch, init, soul);
        var i :| 0 <= i < |init| && init[i].Move? && init[i].soul == soul;
        assert ops[i] == init[i];
      } else {
        PendingFinds(moves, last.soul);
        var after := EnqueuedAll(ch, ops).moves;
        var i :| 0 <= i < |after| && after[i].Move? && after[i].soul == soul;
        assert ops[|ops| - 1] == last;
      }
    }
  }

  /** A queue filled from empty moves without undoing one is faithful to the order of the calls. */
  lemma {:induction false} QueueIsHonest(ch: Channel, ops: seq<Op>)
    requires ch.moves == [] && Honest(ch) && NoneUndone(ops)
    ensures Honest(EnqueuedAll(ch, ops))
  {
    if ops != [] {
      var init, last := ops[..|ops| - 1], ops[|ops| - 1];
      assert forall i :: 0 <= i < |init| ==> init[i] == ops[i];
      QueueIsHonest(ch, init);
      var before := EnqueuedAll(ch, init);
      if last.Move? {
        MoveKeepsFaithful(before.queued, before.priority, before.moves, last);
      } else {
        if last.Remove? && HasPending(before.moves, last.soul) {
          PendingWasQueued(ch, init, last.soul);
        }
        PriorityKeepsFaithfulIff(before.queued, before.priority, before.moves, last);
      }
    }
  }

  /** Nothing of a pass is undone: the diff has one op a soul, the other domains none. */
  lemma PassUndoesNone(ops: seq<Op>, n: nat)
    requires n <= |ops| && OneOpEach(ops[..n]) && Plain(ops[n..])
    ensures NoneUndone(ops)
  {
    forall j | n <= j < |ops| ensures !ops[j].Remove? {
      assert ops[n..][j - n] == ops[j];
    }
    forall i | 0 <= i < n ensures ops[i] == ops[..n][i] {
    }
  }

  // ---- What the client shows ----

  lemma {:induction false} PlainKeepsPositions(c: Client, ops: seq<Op>)
    requires Plain(ops)
    ensures ApplyOps(c, ops).positions == c.positions
  {
    if ops != [] {
      PlainKeepsPositions(c, ops[..|ops| - 1]);
    }
  }

  lemma {:induction false} UntouchedStays(c: Client, ops: seq<Op>, soul: string)
    requires OneOpEach(ops) && forall i :: 0 <= i < |ops| ==> ops[i].soul != soul
    ensures soul in ApplyOps(c, ops).positions <==> soul in c.positions
    ensures soul in c.positions ==> ApplyOps(c, ops).positions[soul] == c.positions[soul]
  {
    if ops != [] {
      UntouchedStays(c, ops[..|ops| - 1], soul);
    }
  }

  lemma {:induction false} TouchedFollows(c: Client, ops: seq<Op>, k: nat)
    requires OneOpEach(ops) && k < |ops|
    ensures var after := ApplyOps(c, ops).positions;
            if ops[k].Move? then ops[k].soul in after && after[ops[k].soul] == ops[k].at else ops[k].soul !in after
  {
    var init := ops[..|ops| - 1];
    if k < |init| {
      assert init[k] == ops[k];
      TouchedFollows(c, init, k);
    }
  }

  /** What a client that showed `shown` shows after a frame: the present souls, and of those no nearer
      than the epsilon to the committed position the present one. */
  function Shown(shown: map<string, Point>, committed: map<string, Point>, current: map<string, Point>): map<string, Point>
    requires shown.Keys == committed.Keys
  {
    map soul | soul in current ::
      if soul in committed && Apart(current[soul], committed[soul]) <= EPSILON_SQUARED then shown[soul] else current[soul]
  }

  lemma DiffShows(c: Client, ops: seq<Op>, current: map<string, Point>, committed: map<string, Point>)
    requires IsDiff(ops, current, committed) && c.positions.Keys == committed.Keys
    ensures ApplyOps(c, ops).positions == Shown(c.positions, committed, current)
  {
    var after, wanted := ApplyOps(c, ops).positions, Shown(c.positions, committed, current);
    forall soul: string
      ensures soul in after <==> soul in wanted
      ensures soul in after && soul in wanted ==> after[soul] == wanted[soul]
    {
      if k :| 0 <= k < |ops| && ops[k].soul == soul {
        TouchedFollows(c, ops, k);
      } else {
        UntouchedStays(c, ops, soul);
      }
    }
  }

  // ---- Over runs ----

  /** Between steps a queue that can still be sent holds ops of the other domains only; and the client
      shows exactly the committed souls. */
  ghost predicate Sound(ch: Channel, highWater: nat) {
    && (Count(ch) > highWater || (ch.moves == [] && ch.queued == ch.priority && Plain(ch.priority)))
    && ch.client.positions.Keys == ch.committed.Keys
  }

  /** A pass whose frame goes out is faithful to the order of the calls, and the client then shows the
      present souls.  A saturated queue sends nothing, then or later. */
  lemma PassIsFaithful(ch: Channel, ops: seq<Op>, positions: map<string, Point>, highWater: nat)
    requires Sound(ch, highWater) && Legal(ch, Pass(ops, positions))
    ensures var queue, after := EnqueuedAll(ch, ops), Next(ch, Pass(ops, positions), highWater);
            && Sound(after, highWater)
            && (Sends(queue, highWater) ==>
                  && Faithful(queue.queued, queue.priority, queue.moves)
                  && after.committed == positions
                  && after.client.positions == Shown(ch.client.positions, ch.committed, positions))
            && (!Sends(queue, highWater) ==> after.client == ch.client && after.committed == ch.committed)
            && (Count(queue) == 0 ==> ops == [])
  {
    var n := DiffIn(ch, ops, positions);
    hide *;
    UnsentIsUnchanged(ch, ops, positions, highWater);
    if Sends(EnqueuedAll(ch, ops), highWater) {
      SentIsFaithful(ch, ops, n, positions, highWater);
    }
  }

  lemma DiffIn(ch: Channel, ops: seq<Op>, positions: map<string, Point>) returns (n: nat)
    requires Legal(ch, Pass(ops, positions))
    ensures n <= |ops| && IsDiff(ops[..n], positions, ch.committed) && Plain(ops[n..])
  {
    n :| 0 <= n <= |ops| && IsDiff(ops[..n], positions, ch.committed) && Plain(ops[n..]);
  }

  lemma UnsentIsUnchanged(ch: Channel, ops: seq<Op>, positions: map<string, Point>, highWater: nat)
    requires Sound(ch, highWater)
    ensures var queue, after := EnqueuedAll(ch, ops), Next(ch, Pass(ops, positions), highWater);
            && (!Sends(queue, highWater) ==> Sound(after, highWater) && after.client == ch.client && after.committed == ch.committed)
            && (Count(queue) == 0 ==> ops == [])
  {
    EnqueueGrows(ch, ops);
  }

  lemma SentIsFaithful(ch: Channel, ops: seq<Op>, n: nat, positions: map<string, Point>, highWater: nat)
    requires Sound(ch, highWater) && Sends(EnqueuedAll(ch, ops), highWater)
    requires n <= |ops| && IsDiff(ops[..n], positions, ch.committed) && Plain(ops[n..])
    ensures var queue, after := EnqueuedAll(ch, ops), Next(ch, Pass(ops, positions), highWater);
            && Sound(after, highWater) && Faithful(queue.queued, queue.priority, queue.moves) && after.committed == positions
            && after.client.positions == Shown(ch.client.positions, ch.committed, positions)
  {
    EnqueueGrows(ch, ops);
    PlainIsHonest(ch);
    hide OneOpEach, Faithful, NoneUndone, ApplyOps, EnqueuedAll, OneEach;
    PassUndoesNone(ops, n);
    QueueIsHonest(ch, ops);
    QueueShows(ch, ops, n, positions);
    SentInOrder(EnqueuedAll(ch, ops));
  }

  lemma PlainIsHonest(ch: Channel)
    requires ch.moves == [] && ch.queued == ch.priority
    ensures Honest(ch)
  {
    assert ch.priority + ch.moves == ch.queued;
  }

  lemma SentInOrder(ch: Channel)
    requires Honest(ch)
    ensures ApplyOps(ch.client, ch.priority + ch.moves) == ApplyOps(ch.client, ch.queued)
  {
  }

  lemma QueueShows(ch: Channel, ops: seq<Op>, n: nat, positions: map<string, Point>)
    requires n <= |ops| && IsDiff(ops[..n], positions, ch.committed) && Plain(ops[n..]) && Plain(ch.queued)
    requires ch.client.positions.Keys == ch.committed.Keys
    ensures ApplyOps(ch.client, ch.queued + ops).positions == Shown(ch.client.positions, ch.committed, positions)
  {
    hide IsDiff, Plain, Shown;
    var before := ApplyOps(ch.client, ch.queued);
    PlainKeepsPositions(ch.client, ch.queued);
    DiffShows(before, ops[..n], positions, ch.committed);
    PlainKeepsPositions(ApplyOps(before, ops[..n]), ops[n..]);
    ApplyConcat(before, ops[..n], ops[n..]);
    ApplyConcat(ch.client, ch.queued, ops);
    assert ops[..n] + ops[n..] == ops;
  }

  lemma NextSound(ch: Channel, s: Step, highWater: nat)
    requires Sound(ch, highWater) && Legal(ch, s)
    ensures Sound(Next(ch, s, highWater), highWater)
  {
    if s.Pass? {
      PassIsFaithful(ch, s.ops, s.positions, highWater);
    } else if s.Notify? {
      assert [s.op][0] == s.op;
    }
  }

  lemma {:induction false} RunSound(ch: Channel, steps: seq<Step>, highWater: nat)
    requires Sound(ch, highWater) && AllLegal(ch, steps, highWater)
    ensures Sound(Run(ch, steps, highWater), highWater)
  {
    hide Sound, Legal, Next;
    if steps != [] {
      RunSound(ch, steps[..|steps| - 1], highWater);
      NextSound(Run(ch, steps[..|steps| - 1], highWater), steps[|steps| - 1], highWater);
    }
  }

  /** A new session with its first snapshot. */
  function Opened(c: Client): Channel {
    Channel([], [], [], c.positions, c)
  }

  /** In every session, after any passes, notifications and snapshots: the frame a pass sends leaves
      the client where the ops in the order of the calls would, showing exactly the souls that are
      present. */
  lemma EveryFrameIsFaithful(c: Client, steps: seq<Step>, ops: seq<Op>, positions: map<string, Point>, highWater: nat)
    requires AllLegal(Opened(c), steps, highWater) && Legal(Run(Opened(c), steps, highWater), Pass(ops, positions))
    ensures var ch := Run(Opened(c), steps, highWater);
            var queue, after := EnqueuedAll(ch, ops), Next(ch, Pass(ops, positions), highWater);
            Sends(queue, highWater) ==>
              && Faithful(queue.queued, queue.priority, queue.moves)
              && after.client == ApplyOps(ch.client, queue.queued)
              && after.client.positions.Keys == positions.Keys
  {
    hide Faithful, Legal;
    RunSound(Opened(c), steps, highWater);
    var ch := Run(Opened(c), steps, highWater);
    PassIsFaithful(ch, ops, positions, highWater);
    var queue := EnqueuedAll(ch, ops);
    EnqueueGrows(ch, ops);
    if Sends(queue, highWater) {
      FaithfulAt(queue, queue.client);
    }
  }

  lemma FaithfulAt(ch: Channel, c: Client)
    requires Faithful(ch.queued, ch.priority, ch.moves)
    ensures ApplyOps(c, ch.priority + ch.moves) == ApplyOps(c, ch.queued)
  {
  }

  lemma {:induction false} StaysSaturated(ch: Channel, steps: seq<Step>, highWater: nat)
    requires Count(ch) > highWater
    ensures Count(Run(ch, steps, highWater)) > highWater
  {
    if steps != [] {
      var v := Run(ch, steps[..|steps| - 1], highWater);
      StaysSaturated(ch, steps[..|steps| - 1], highWater);
      match steps[|steps| - 1]
      case Pass(ops, _) => EnqueueGrows(v, ops);
      case Notify(op) =>
      case Snapshot(_) =>
    }
  }

  /** Once over the mark a queue is never sent again, however often the pump comes back: only its own
      flush empties it, so the session can only be closed. */
  lemma SaturationLasts(ch: Channel, steps: seq<Step>, ops: seq<Op>, highWater: nat)
    requires Count(ch) > highWater
    ensures !Sends(EnqueuedAll(Run(ch, steps, highWater), ops), highWater)
  {
    StaysSaturated(ch, steps, highWater);
    EnqueueGrows(Run(ch, steps, highWater), ops);
  }

  // ---- How far the client's positions are from the server's ----

  /** The client shows every soul where it is committed. */
  predicate Exact(ch: Channel) {
    ch.client.positions == ch.committed
  }

  /** A soul has moved, but too little to be sent. */
  predicate Creeps(soul: string, current: map<string, Point>, committed: map<string, Point>) {
    soul in current && soul in committed && current[soul] != committed[soul]
    && Apart(current[soul], committed[soul]) <= EPSILON_SQUARED
  }

  ghost predicate NobodyCreeps(current: map<string, Point>, committed: map<string, Point>) {
    forall soul :: !Creeps(soul, current, committed)
  }

  /** From a client that shows every soul where it is committed, a pass keeps it so exactly if it sends
      nothing or no soul has made an unsent move: a sent frame commits those moves too. */
  lemma PassKeepsExactIff(ch: Channel, ops: seq<Op>, positions: map<string, Point>, highWater: nat)
    requires Sound(ch, highWater) && Exact(ch) && Legal(ch, Pass(ops, positions))
    ensures Exact(Next(ch, Pass(ops, positions), highWater))
            <==> !Sends(EnqueuedAll(ch, ops), highWater) || NobodyCreeps(positions, ch.committed)
  {
    PassIsFaithful(ch, ops, positions, highWater);
    hide Sound, Legal, EnqueuedAll, Sends, Faithful;
    var shown := Shown(ch.client.positions, ch.committed, positions);
    if soul :| Creeps(soul, positions, ch.committed) {
      assert shown[soul] == ch.committed[soul];
    } else {
      forall soul | soul in positions ensures shown[soul] == positions[soul] {
        assert !Creeps(soul, positions, ch.committed);
      }
    }
  }

  lemma ExactIsNotApart(ch: Channel, ops: seq<Op>, positions: map<string, Point>, highWater: nat, soul: string)
    requires Sound(ch, highWater) && Exact(ch) && Legal(ch, Pass(ops, positions)) && soul in positions
    requires Count(EnqueuedAll(ch, ops)) <= highWater
    ensures var after := Next(ch, Pass(ops, positions), highWater).client.positions;
            soul in after && Apart(positions[soul], after[soul]) <= EPSILON_SQUARED
  {
    PassIsFaithful(ch, ops, positions, highWater);
    hide Sound, Faithful, Next, EnqueuedAll, Apart, Legal;
    NoneApart(positions[soul]);
    if Count(EnqueuedAll(ch, ops)) == 0 {
      QuietIsNear(ch, ops, positions, soul);
    }
  }

  /** As long as the client shows every soul where it is committed, a pass that is not saturated leaves
      it within half a pixel of every soul. */
  lemma ExactIsNear(ch: Channel, ops: seq<Op>, positions: map<string, Point>, highWater: nat, soul: string)
    requires Sound(ch, highWater) && Exact(ch) && Legal(ch, Pass(ops, positions)) && soul in positions
    requires Count(EnqueuedAll(ch, ops)) <= highWater
    ensures var after := Next(ch, Pass(ops, positions), highWater).client.positions;
            && soul in after
            && var dx, dy := positions[soul].x - after[soul].x, positions[soul].y - after[soul].y; dx * dx + dy * dy <= 0.5 * 0.5
  {
    ExactIsNotApart(ch, ops, positions, highWater, soul);
    hide Sound, Exact, Legal, Next, EnqueuedAll;
  }

  lemma NoneApart(p: Point)
    ensures Apart(p, p) <= EPSILON_SQUARED
  {
  }

  lemma QuietIsNear(ch: Channel, ops: seq<Op>, positions: map<string, Point>, soul: string)
    requires Legal(ch, Pass(ops, positions)) && ops == [] && soul in positions
    ensures soul in ch.committed && Apart(positions[soul], ch.committed[soul]) <= EPSILON_SQUARED
  {
    var n := DiffIn(ch, ops, positions);
    assert ops[..n] == [];
  }

  // ---- The pump over a session ----

  ghost function View(session: ViewportSession): Channel
    reads session
  {
    Channel(session.pendingPriority, session.pendingMoves, session.queued, session.committed, Fold(EMPTY, session.history))
  }

  /** One pass of `_viewport_pump`; `others` are the ops of the other domains. */
  method RunPass(session: ViewportSession, positions: map<string, Point>, others: seq<Op>,
                 tick: nat, highWater: nat, maxSlow: nat) returns (status: string, ghost ops: seq<Op>)
    requires session.Valid() && Plain(others)
    modifies session
    ensures session.Valid() && Legal(old(View(session)), Pass(ops, positions))
    ensures View(session) == Next(old(View(session)), Pass(ops, positions), highWater)
  {
    var diff := DiffPositions(positions, session.committed);
    ops := diff + others;
    assert ops[..|diff|] == diff && ops[|diff|..] == others;
    EnqueueEach(session, diff + others);
    ghost var history := session.history;
    var sent;
    status, sent := session.Flush(positions, tick, highWater, maxSlow);
    assert sent.Some? ==> session.history[..|history|] == history;
  }

  method EnqueueEach(session: ViewportSession, ops: seq<Op>)
    requires session.Valid()
    modifies session`pendingMoves, session`pendingPriority, session`queued
    ensures session.Valid() && View(session) == EnqueuedAll(old(View(session)), ops)
  {
    ghost var ch := View(session);
    for i := 0 to |ops|
      invariant session.Valid() && View(session) == EnqueuedAll(ch, ops[..i])
    {
      assert ops[..i + 1][..i] == ops[..i];
      session.Enqueue(ops[i]);
    }
    assert ops[..|ops|] == ops;
  }
}
