/** The write-behind dirty set of `server/persistence.py` over the `souls` table, and the tick loop
    of `server/world_tick.py` that moves souls through it. */
module WriteBehind {
  import opened Options
  import opened Motion

  /** An unflushed entry: each column is absent or holds the newest value.  A present target may
      itself be None, which clears the column. */
  datatype Entry = Entry(position: Option<Vec>, velocity: Option<Vec>, target: Option<Option<Vec>>)

  const NOTHING := Entry(None, None, None)

  /** The columns present in `newer` replace those of `older`. */
  function Merge(older: Entry, newer: Entry): Entry {
    Entry(if newer.position.Some? then newer.position else older.position,
          if newer.velocity.Some? then newer.velocity else older.velocity,
          if newer.target.Some? then newer.target else older.target)
  }

  /** A row with the entry laid over it. */
  function Overlay(row: Kin, e: Entry): Kin {
    Kin(if e.position.Some? then e.position.value else row.position,
        if e.velocity.Some? then e.velocity.value else row.velocity,
        if e.target.Some? then e.target.value else row.target)
  }

  /** What readers see: every row, overlaid with its entry if it has one. */
  function Seen(rows: map<string, Kin>, entries: map<string, Entry>): map<string, Kin> {
    map id | id in rows :: if id in entries then Overlay(rows[id], entries[id]) else rows[id]
  }

  /** The reference: a plain table that is written directly. */
  function Written(table: map<string, Kin>, id: string, e: Entry): map<string, Kin> {
    if id in table then table[id := Overlay(table[id], e)] else table
  }

  lemma OverlayMerge(row: Kin, older: Entry, newer: Entry)
    ensures Overlay(row, Merge(older, newer)) == Overlay(Overlay(row, older), newer)
  {
  }

  class Store {
    var rows: map<string, Kin>
    var entries: map<string, Entry>

    ghost function View(): map<string, Kin>
      reads this
    {
      Seen(rows, entries)
    }

    ghost function Now(): Cached
      reads this
    {
      Cached(rows, entries)
    }

    constructor (rows: map<string, Kin>)
      ensures View() == rows && entries == map[]
    {
      this.rows, entries := rows, map[];
    }

    /** `DirtySet.mark`: to readers, a direct write of the given columns. */
    method Mark(id: string, e: Entry)
      modifies this`entries
      ensures View() == Written(old(View()), id, e)
      ensures Now() == Step(old(Now()), Op.Mark(id, e))
    {
      var entry := if id in entries then entries[id] else NOTHING;
      if e.position.Some? {
        entry := entry.(position := e.position);
      }
      if e.velocity.Some? {
        entry := entry.(velocity := e.velocity);
      }
      if e.target.Some? {
        entry := entry.(target := e.target);
      }
      entries := entries[id := entry];
    }

    method Drain() returns (drained: map<string, Entry>)
      modifies this`entries
      ensures drained == old(entries) && entries == map[]
    {
      drained := entries;
      entries := map[];
    }

    /** `flush_dirty` with nothing marked while it runs: readers never notice, whether the transaction
        commits or not.  A commit makes the table itself what readers saw; a rollback keeps every
        unflushed column. */
    method Flush(commits: bool) returns (flushed: nat)
      modifies this
      ensures View() == old(View()) && flushed == |old(entries)|
      ensures Now() == Step(old(Now()), if commits then FlushOk else FlushFailed)
    {
      hide Seen, Committed, RolledBack;
      QuietFlush(Now());
      var drained := Drain();
      flushed := |drained|;
      if commits {
        WriteDrained(drained);
      } else {
        Remark(drained);
      }
    }

    /** The transaction: every drained row that still exists is written. */
    method WriteDrained(drained: map<string, Entry>)
      modifies this`rows
      ensures Now() == Committed(old(Now()), drained)
    {
      var written := rows;
      var todo := drained.Keys;
      while todo != {}
        invariant todo <= drained.Keys && written.Keys == rows.Keys
        invariant forall id :: id in rows ==>
                    written[id] == if id in drained && id !in todo then Overlay(rows[id], drained[id]) else rows[id]
      {
        var id :| id in todo;
        if id in rows {
          written := written[id := Overlay(rows[id], drained[id])];
        }
        todo := todo - {id};
      }
      rows := written;
    }

    /** The rollback branch: every drained entry is marked again, over whatever was marked since. */
    method Remark(drained: map<string, Entry>)
      modifies this`entries
      ensures Now() == RolledBack(old(Now()), drained)
    {
      var todo := drained.Keys;
      ghost var since := entries;
      while todo != {}
        invariant todo <= drained.Keys
        invariant forall id :: id in entries <==> id in since || (id in drained && id !in todo)
        invariant forall id :: id in entries ==>
                    entries[id] == if id in drained && id !in todo then MarkedAgain(since, id, drained[id]) else since[id]
      {
        var id :| id in todo;
        Mark(id, drained[id]);
        todo := todo - {id};
      }
      assert entries == RolledBack(Cached(rows, since), drained).entries;
    }

    /** A REST upsert writes the row directly and then invalidates the dirty entry. */
    method WriteThenInvalidate(id: string, row: Kin)
      modifies this
      ensures View() == old(View())[id := row]
      ensures Now() == Step(old(Now()), Upsert(id, row))
    {
      rows := rows[id := row];
      entries := map other | other in entries && other != id :: entries[other];
    }

    /** An adjudicated `move_to`: the row's velocity and target are committed, then the entry is
        marked with the position the adjudication read. */
    method AdjudicateMove(id: string, velocity: Vec, target: Option<Vec>)
      requires id in rows
      modifies this
      ensures View() == old(View())[id := old(View())[id].(velocity := velocity, target := target)]
    {
      var at := rows[id].position;
      if id in entries && entries[id].position.Some? {
        at := entries[id].position.value;
      }
      rows := rows[id := rows[id].(velocity := velocity, target := target)];
      Mark(id, Entry(Some(at), Some(velocity), Some(target)));
    }

    /** `read_state_through`: the table overlaid with the dirty set. */
    method ReadStateThrough() returns (state: map<string, Kin>)
      ensures state == View()
    {
      state := rows;
      var todo := entries.Keys;
      while todo != {}
        invariant todo <= entries.Keys && state.Keys == rows.Keys
        invariant forall id :: id in rows ==>
                    state[id] == if id in entries && id !in todo then Overlay(rows[id], entries[id]) else rows[id]
      {
        var id :| id in todo;
        if id in state {
          state := state[id := Overlay(state[id], entries[id])];
        }
        todo := todo - {id};
      }
    }

    /** The integration loop of a tick, for souls that are neither dormant nor carried: a soul at
        rest is skipped, every other one is moved and marked. */
    method IntegrateAll(dt: real, bounds: Vec)
      modifies this`entries
      ensures View() == map id | id in old(View()) :: IntegrateSoul(old(View())[id], dt, bounds)
    {
      var todo := rows.Keys;
      ghost var before := View();
      while todo != {}
        invariant todo <= rows.Keys
        invariant forall id :: id in rows ==>
                    View()[id] == if id in todo then before[id] else IntegrateSoul(before[id], dt, bounds)
      {
        var id :| id in todo;
        var k := if id in entries then Overlay(rows[id], entries[id]) else rows[id];
        if k.velocity != ZERO {
          var moved := IntegrateSoul(k, dt, bounds);
          Mark(id, Entry(Some(moved.position), Some(moved.velocity), Some(moved.target)));
        }
        todo := todo - {id};
      }
    }
  }

  // ---- Any run refines the plain table ----

  datatype Op =
    | Mark(id: string, entry: Entry)
    | FlushOk
    | FlushFailed
    | Upsert(id: string, row: Kin)

  datatype Cached = Cached(rows: map<string, Kin>, entries: map<string, Entry>)

  /** One step of the cache, as the class performs it. */
  function Step(c: Cached, op: Op): Cached {
    match op
    case Mark(id, e) =>
      c.(entries := c.entries[id := Merge(if id in c.entries then c.entries[id] else NOTHING, e)])
    case FlushOk => Cached(Seen(c.rows, c.entries), map[])
    case FlushFailed => c
    case Upsert(id, row) => Cached(c.rows[id := row], map other | other in c.entries && other != id :: c.entries[other])
  }

  /** The commit of a flush that drained `drained`. */
  function Committed(c: Cached, drained: map<string, Entry>): Cached {
    c.(rows := Seen(c.rows, drained))
  }

  function MarkedAgain(entries: map<string, Entry>, id: string, e: Entry): Entry {
    Merge(if id in entries then entries[id] else NOTHING, e)
  }

  /** The rollback of a flush that drained `drained`: the drained values are the newest again. */
  function RolledBack(c: Cached, drained: map<string, Entry>): Cached {
    c.(entries := map id | id in c.entries.Keys + drained.Keys ::
                    if id in drained then MarkedAgain(c.entries, id, drained[id]) else c.entries[id])
  }

  function PlainStep(table: map<string, Kin>, op: Op): map<string, Kin> {
    match op
    case Mark(id, e) => Written(table, id, e)
    case FlushOk => table
    case FlushFailed => table
    case Upsert(id, row) => table[id := row]
  }

  function Run(c: Cached, ops: seq<Op>): Cached {
    if ops == [] then c else Step(Run(c, ops[..|ops| - 1]), ops[|ops| - 1])
  }

  function PlainRun(table: map<string, Kin>, ops: seq<Op>): map<string, Kin> {
    if ops == [] then table else PlainStep(PlainRun(table, ops[..|ops| - 1]), ops[|ops| - 1])
  }

  lemma StepRefines(c: Cached, op: Op)
    ensures var after := Step(c, op);
            Seen(after.rows, after.entries) == PlainStep(Seen(c.rows, c.entries), op)
  {
    var after := Step(c, op);
    match op
    case Mark(id, e) =>
      if id in c.rows && id in c.entries {
        OverlayMerge(c.rows[id], c.entries[id], e);
      }
    case FlushOk =>
    case FlushFailed =>
    case Upsert(id, row) =>
  }

  /** Whatever the order of partial marks, flushes, failed flushes and upserts, readers see the
      table that direct writes would have left. */
  lemma {:induction false} CacheRefinesDirectWrites(c: Cached, ops: seq<Op>)
    ensures var after := Run(c, ops);
            Seen(after.rows, after.entries) == PlainRun(Seen(c.rows, c.entries), ops)
  {
    if ops != [] {
      CacheRefinesDirectWrites(c, ops[..|ops| - 1]);
      StepRefines(Run(c, ops[..|ops| - 1]), ops[|ops| - 1]);
    }
  }

  // ---- Column by column ----

  predicate SetsPosition(op: Op, id: string) {
    (op.Mark? && op.id == id && op.entry.position.Some?) || (op.Upsert? && op.id == id)
  }

  predicate SetsVelocity(op: Op, id: string) {
    (op.Mark? && op.id == id && op.entry.velocity.Some?) || (op.Upsert? && op.id == id)
  }

  predicate SetsTarget(op: Op, id: string) {
    (op.Mark? && op.id == id && op.entry.target.Some?) || (op.Upsert? && op.id == id)
  }

  /** Readers see of each column what was marked or written for it last, however it was flushed since and
      whatever was marked for the other columns. */
  lemma {:induction false} LastMarkIsRead(c: Cached, ops: seq<Op>, id: string, k: nat)
    requires k < |ops| && id in c.rows
    ensures var after := Run(c, ops);
            var seen, op := Seen(after.rows, after.entries), ops[k];
            && id in seen
            && (SetsPosition(op, id) && (forall j :: k < j < |ops| ==> !SetsPosition(ops[j], id)) ==>
                  seen[id].position == if op.Mark? then op.entry.position.value else op.row.position)
            && (SetsVelocity(op, id) && (forall j :: k < j < |ops| ==> !SetsVelocity(ops[j], id)) ==>
                  seen[id].velocity == if op.Mark? then op.entry.velocity.value else op.row.velocity)
            && (SetsTarget(op, id) && (forall j :: k < j < |ops| ==> !SetsTarget(ops[j], id)) ==>
                  seen[id].target == if op.Mark? then op.entry.target.value else op.row.target)
  {
    var init, last := ops[..|ops| - 1], ops[|ops| - 1];
    StepRefines(Run(c, init), last);
    OthersStay(c, init, id);
    hide Seen, Step, Run, SetsPosition, SetsVelocity, SetsTarget;
    RunLast(c, ops);
    if k < |init| {
      LastMarkIsRead(c, init, id, k);
      assert init[k] == ops[k] && forall j :: k < j < |init| ==> init[j] == ops[j];
      assert ops[|init|] == last;
      OneStepReads(Seen(Run(c, init).rows, Run(c, init).entries), last, id);
    } else {
      OneStepReads(Seen(Run(c, init).rows, Run(c, init).entries), last, id);
    }
  }

  lemma RunLast(c: Cached, ops: seq<Op>)
    requires ops != []
    ensures Run(c, ops) == Step(Run(c, ops[..|ops| - 1]), ops[|ops| - 1])
  {
  }

  lemma OneStepReads(table: map<string, Kin>, op: Op, id: string)
    requires id in table
    ensures var u := PlainStep(table, op);
            && id in u
            && u[id].position == (if SetsPosition(op, id) then if op.Mark? then op.entry.position.value else op.row.position
                                  else table[id].position)
            && u[id].velocity == (if SetsVelocity(op, id) then if op.Mark? then op.entry.velocity.value else op.row.velocity
                                  else table[id].velocity)
            && u[id].target == (if SetsTarget(op, id) then if op.Mark? then op.entry.target.value else op.row.target
                                else table[id].target)
  {
  }

  /** A column that nothing sets keeps the value that readers saw at the start. */
  lemma {:induction false} OthersStay(c: Cached, ops: seq<Op>, id: string)
    requires id in c.rows
    ensures var after := Run(c, ops);
            var before, seen := Seen(c.rows, c.entries), Seen(after.rows, after.entries);
            && id in seen && id in before
            && ((forall j :: 0 <= j < |ops| ==> !SetsPosition(ops[j], id)) ==> seen[id].position == before[id].position)
            && ((forall j :: 0 <= j < |ops| ==> !SetsVelocity(ops[j], id)) ==> seen[id].velocity == before[id].velocity)
            && ((forall j :: 0 <= j < |ops| ==> !SetsTarget(ops[j], id)) ==> seen[id].target == before[id].target)
  {
    if ops != [] {
      var init, last := ops[..|ops| - 1], ops[|ops| - 1];
      OthersStay(c, init, id);
      StepRefines(Run(c, init), last);
      hide Seen, Step, SetsPosition, SetsVelocity, SetsTarget;
      OneStepReads(Seen(Run(c, init).rows, Run(c, init).entries), last, id);
      assert forall j :: 0 <= j < |init| ==> init[j] == ops[j];
    }
  }

  /** Flushes are invisible: leaving them all out of a run changes nothing for readers. */
  function WithoutFlushes(ops: seq<Op>): seq<Op> {
    if ops == [] then []
    else
      var last := ops[|ops| - 1];
      WithoutFlushes(ops[..|ops| - 1]) + if last.FlushOk? || last.FlushFailed? then [] else [last]
  }

  lemma {:induction false} FlushesAreInvisible(c: Cached, ops: seq<Op>)
    ensures var a, b := Run(c, ops), Run(c, WithoutFlushes(ops));
            Seen(a.rows, a.entries) == Seen(b.rows, b.entries)
  {
    CacheRefinesDirectWrites(c, ops);
    CacheRefinesDirectWrites(c, WithoutFlushes(ops));
    PlainIgnoresFlushes(Seen(c.rows, c.entries), ops);
  }

  lemma {:induction false} PlainIgnoresFlushes(table: map<string, Kin>, ops: seq<Op>)
    ensures PlainRun(table, ops) == PlainRun(table, WithoutFlushes(ops))
  {
    if ops != [] {
      var init, last := ops[..|ops| - 1], ops[|ops| - 1];
      PlainIgnoresFlushes(table, init);
      if last.FlushOk? || last.FlushFailed? {
        assert WithoutFlushes(ops) == WithoutFlushes(init);
      } else {
        assert WithoutFlushes(ops)[..|WithoutFlushes(ops)| - 1] == WithoutFlushes(init);
      }
    }
  }

  /** A flush during which nothing is marked. */
  lemma QuietFlush(c: Cached)
    ensures var drained := Cached(c.rows, map[]);
            && Committed(drained, c.entries) == Step(c, FlushOk) && RolledBack(drained, c.entries) == Step(c, FlushFailed)
    ensures Seen(Step(c, FlushOk).rows, map[]) == Seen(c.rows, c.entries)
  {
    assert RolledBack(Cached(c.rows, map[]), c.entries).entries == c.entries;
  }

  // ---- Marks made while a flush is running ----

  ghost predicate AllMarks(ops: seq<Op>) {
    forall k :: 0 <= k < |ops| ==> ops[k].Mark?
  }

  lemma {:induction false} MarksKeepRows(c: Cached, marks: seq<Op>)
    requires AllMarks(marks)
    ensures Run(c, marks).rows == c.rows
  {
    if marks != [] {
      MarksKeepRows(c, marks[..|marks| - 1]);
    }
  }

  /** What the marks made since the drain say about `id`. */
  function Since(rows: map<string, Kin>, marks: seq<Op>, id: string): Entry {
    var since := Run(Cached(rows, map[]), marks).entries;
    if id in since then since[id] else NOTHING
  }

  /** Marks laid over a table are the direct writes of the same columns. */
  lemma {:induction false} MarksAreWrites(rows: map<string, Kin>, table: map<string, Kin>, marks: seq<Op>)
    requires AllMarks(marks) && table.Keys == rows.Keys
    ensures PlainRun(table, marks) == map id | id in table :: Overlay(table[id], Since(rows, marks, id))
  {
    if marks != [] {
      var init, last := marks[..|marks| - 1], marks[|marks| - 1];
      MarksAreWrites(rows, table, init);
      if last.id in table {
        OverlayMerge(table[last.id], Since(rows, init, last.id), last.entry);
      }
      forall id | id in table
        ensures PlainRun(table, marks)[id] == Overlay(table[id], Since(rows, marks, id)) {
      }
    }
  }

  /** A flush that commits needs no lock: it is invisible afterwards, whatever was marked between its
      drain and its commit. */
  lemma SplitFlushCommits(c: Cached, marks: seq<Op>)
    requires AllMarks(marks)
    ensures var after := Committed(Run(Cached(c.rows, map[]), marks), c.entries);
            Seen(after.rows, after.entries) == PlainRun(Seen(c.rows, c.entries), marks)
  {
    MarksKeepRows(Cached(c.rows, map[]), marks);
    MarksAreWrites(c.rows, Seen(c.rows, c.entries), marks);
  }

  /** A column marked since the drain keeps its value if the drained entry has none for it, or the same. */
  predicate Undisturbed<T(==)>(since: Option<T>, drained: Option<T>) {
    since.None? || drained.None? || since == drained
  }

  predicate EntryUndisturbed(since: Entry, drained: Entry) {
    && Undisturbed(since.position, drained.position) && Undisturbed(since.velocity, drained.velocity)
    && Undisturbed(since.target, drained.target)
  }

  /** Why a flush needs the step lock, under which nothing is marked while it runs.  A flush that fails
      marks its drained values again, over newer ones: with marks in between, readers would see what
      direct writes would have left exactly if no drained column of an existing row was marked with
      another value. */
  lemma SplitFlushFailsIff(c: Cached, marks: seq<Op>)
    requires AllMarks(marks)
    ensures var after := RolledBack(Run(Cached(c.rows, map[]), marks), c.entries);
            Seen(after.rows, after.entries) == PlainRun(Seen(c.rows, c.entries), marks)
            <==> forall id :: id in c.rows && id in c.entries ==> EntryUndisturbed(Since(c.rows, marks, id), c.entries[id])
  {
    var table := Seen(c.rows, c.entries);
    var after := RolledBack(Run(Cached(c.rows, map[]), marks), c.entries);
    MarksKeepRows(Cached(c.rows, map[]), marks);
    MarksAreWrites(c.rows, table, marks);
    var a, b := Seen(after.rows, after.entries), PlainRun(table, marks);
    forall id | id in c.rows
      ensures id in a && id in b
      ensures a[id] == b[id] <==> (id in c.entries ==> EntryUndisturbed(Since(c.rows, marks, id), c.entries[id]))
    {
      if id in c.entries {
        RemarkedIff(c.rows[id], Since(c.rows, marks, id), c.entries[id]);
      }
    }
    if forall id :: id in c.rows && id in c.entries ==> EntryUndisturbed(Since(c.rows, marks, id), c.entries[id]) {
      assert a == b;
    }
  }

  lemma RemarkedIff(row: Kin, since: Entry, drained: Entry)
    ensures Overlay(row, Merge(since, drained)) == Overlay(Overlay(row, drained), since) <==> EntryUndisturbed(since, drained)
  {
  }

  /** Without the lock: a mark made during a failing flush would be undone. */
  lemma UnlockedFlushTurnsBack()
    ensures var row := Kin(ZERO, ZERO, None);
            var c := Cached(map["a" := row], map["a" := Entry(Some(Vec(1.0, 0.0)), None, None)]);
            var marks := [Op.Mark("a", Entry(Some(Vec(2.0, 0.0)), None, None))];
            var after := RolledBack(Run(Cached(c.rows, map[]), marks), c.entries);
            && AllMarks(marks)
            && Seen(after.rows, after.entries) == map["a" := Kin(Vec(1.0, 0.0), ZERO, None)]
            && PlainRun(Seen(c.rows, c.entries), marks) == map["a" := Kin(Vec(2.0, 0.0), ZERO, None)]
  {
    var marks := [Op.Mark("a", Entry(Some(Vec(2.0, 0.0)), None, None))];
    assert marks[..0] == [];
    assert Run(Cached(map["a" := Kin(ZERO, ZERO, None)], map[]), marks)
        == Step(Run(Cached(map["a" := Kin(ZERO, ZERO, None)], map[]), []), marks[0]);
  }
}
