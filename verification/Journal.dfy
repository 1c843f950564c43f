/** The durable journal: append, snapshots and pruning of `server/persistence.py`, and the
    salience-weighted compaction of `server/recap.py`. */
module Journal {
  import opened Options

  /** A row's payload, reduced to what compaction reads: an explicit salience, or a rollup. */
  datatype Payload =
    | Plain(salience: Option<real>)
    | Rollup(day: int, n: nat, types: map<string, nat>, rolledSeqs: seq<nat>)

  datatype Row = Row(seqNo: nat, tick: nat, kind: string, payload: Payload, createdAt: real)

  datatype Snapshot = Snapshot(id: nat, tick: nat, journalSeq: nat)

  const EVENT_ROLLUP := "journal_rollup"
  const SALIENCE_KEEP := 0.5

  function DefaultSalience(kind: string): real {
    if kind == "tool.event" then 0.5
    else if kind == "loyalty_delta" then 0.7
    else if kind == "mailbag_unanswered" then 0.6
    else if kind == "soul_woke" then 0.6
    else if kind == "mailbag_answered" then 0.5
    else if kind == "recap_generated" then 0.9
    else if kind == "journal_rollup" then 1.0
    else if kind == "mailbag_expired" then 0.4
    else if kind == "mailbag_asked" then 0.4
    else if kind == "metering_debit_settled" then 0.3
    else if kind == "soul_dormant" then 0.3
    else 0.2
  }

  /** An explicit salience wins over the default of the kind; a rollup carries 1.0. */
  function Salience(r: Row): real {
    match r.payload
    case Plain(Some(s)) => s
    case Plain(None) => DefaultSalience(r.kind)
    case Rollup(_, _, _, _) => 1.0
  }

  predicate Kept(r: Row) {
    Salience(r) >= SALIENCE_KEEP || r.kind == EVENT_ROLLUP
  }

  function Day(createdAt: real): int {
    (createdAt / 86400.0).Floor
  }

  // ---- Rows in sequence order ----

  ghost predicate Ascending(rows: seq<Row>) {
    forall i, j :: 0 <= i < j < |rows| ==> rows[i].seqNo < rows[j].seqNo
  }

  ghost predicate Present(rows: seq<Row>, s: nat) {
    exists i :: 0 <= i < |rows| && rows[i].seqNo == s
  }

  /** MAX(seq), 0 for an empty journal. */
  function Head(rows: seq<Row>): nat {
    if rows == [] then 0 else rows[|rows| - 1].seqNo
  }

  /** COUNT(*) of the rows after `after`. */
  function CountAfter(rows: seq<Row>, after: nat): nat {
    if rows == [] then 0
    else CountAfter(rows[..|rows| - 1], after) + if rows[|rows| - 1].seqNo > after then 1 else 0
  }

  /** `journal_continuous`: a comparison of two numbers. */
  predicate JournalContinuous(rows: seq<Row>, after: nat, head: nat) {
    head <= after || CountAfter(rows, after) == head - after
  }

  ghost predicate GapFree(rows: seq<Row>, after: nat, head: nat) {
    forall s :: after < s <= head ==> Present(rows, s)
  }

  lemma {:induction false} CountBounds(rows: seq<Row>, after: nat)
    requires Ascending(rows)
    ensures Head(rows) <= after ==> CountAfter(rows, after) == 0
    ensures Head(rows) > after ==> CountAfter(rows, after) <= Head(rows) - after
    ensures Head(rows) > after && CountAfter(rows, after) == Head(rows) - after ==> GapFree(rows, after, Head(rows))
    ensures Head(rows) > after && GapFree(rows, after, Head(rows)) ==> CountAfter(rows, after) == Head(rows) - after
  {
    if rows != [] {
      var init, last := rows[..|rows| - 1], rows[|rows| - 1].seqNo;
      CountBounds(init, after);
      assert Head(init) < last || init == [];
      if last > after {
        if CountAfter(rows, after) == last - after {
          forall s | after < s <= last ensures Present(rows, s) {
            if s == last {
              assert rows[|rows| - 1].seqNo == s;
            } else {
              assert Present(init, s);
              PresentGrows(init, rows, s);
            }
          }
        }
        if GapFree(rows, after, last) {
          if last - 1 > after {
            assert Present(rows, last - 1);
            var i :| 0 <= i < |rows| && rows[i].seqNo == last - 1;
            assert i == |rows| - 2;
            forall s | after < s <= Head(init) ensures Present(init, s) {
              assert Present(rows, s);
              var k :| 0 <= k < |rows| && rows[k].seqNo == s;
              assert init[k].seqNo == s;
            }
          } else {
            assert Head(init) <= after;
          }
        }
      }
    }
  }

  lemma PresentGrows(a: seq<Row>, b: seq<Row>, s: nat)
    requires Present(a, s) && |a| <= |b| && b[..|a|] == a
    ensures Present(b, s)
  {
    var i :| 0 <= i < |a| && a[i].seqNo == s;
    assert b[i].seqNo == s;
  }

  /** The count test is the gap test: it succeeds exactly when every seq in the range is present. */
  lemma ContinuousIffGapFree(rows: seq<Row>, after: nat)
    requires Ascending(rows)
    ensures JournalContinuous(rows, after, Head(rows)) <==> GapFree(rows, after, Head(rows))
  {
    CountBounds(rows, after);
  }

  // ---- Where every event is ----

  function Occurrences(seqs: seq<nat>, s: nat): nat {
    if seqs == [] then 0 else Occurrences(seqs[..|seqs| - 1], s) + if seqs[|seqs| - 1] == s then 1 else 0
  }

  function RolledIn(r: Row): seq<nat> {
    if r.payload.Rollup? then r.payload.rolledSeqs else []
  }

  /** In how many places the journal accounts for seq `s`: as a row, or inside a rollup. */
  function Places(rows: seq<Row>, s: nat): nat {
    if rows == [] then 0
    else
      var last := rows[|rows| - 1];
      Places(rows[..|rows| - 1], s) + (if last.seqNo == s then 1 else 0) + Occurrences(RolledIn(last), s)
  }

  function SeqNos(rows: seq<Row>): seq<nat> {
    if rows == [] then [] else SeqNos(rows[..|rows| - 1]) + [rows[|rows| - 1].seqNo]
  }

  /** How many rows there are of each kind. */
  function KindCounts(rows: seq<Row>): map<string, nat> {
    if rows == [] then map[]
    else
      var counts, kind := KindCounts(rows[..|rows| - 1]), rows[|rows| - 1].kind;
      counts[kind := (if kind in counts then counts[kind] else 0) + 1]
  }

  function KindCount(rows: seq<Row>, kind: string): nat {
    if rows == [] then 0
    else KindCount(rows[..|rows| - 1], kind) + if rows[|rows| - 1].kind == kind then 1 else 0
  }

  lemma {:induction false} KindCountsCount(rows: seq<Row>, kind: string)
    ensures KindCount(rows, kind) == if kind in KindCounts(rows) then KindCounts(rows)[kind] else 0
  {
    if rows != [] {
      KindCountsCount(rows[..|rows| - 1], kind);
    }
  }

  /** The total of the counts, over the kinds in `kinds`. */
  ghost function Total(counts: map<string, nat>, kinds: set<string>): nat
    requires kinds <= counts.Keys
  {
    if kinds == {} then 0 else var k :| k in kinds; counts[k] + Total(counts, kinds - {k})
  }

  lemma {:induction false} TotalTakeOut(counts: map<string, nat>, kinds: set<string>, k: string)
    requires k in kinds && kinds <= counts.Keys
    ensures Total(counts, kinds) == counts[k] + Total(counts, kinds - {k})
  {
    var p :| p in kinds && Total(counts, kinds) == counts[p] + Total(counts, kinds - {p});
    if p != k {
      TotalTakeOut(counts, kinds - {p}, k);
      TotalTakeOut(counts, kinds - {k}, p);
      assert kinds - {p} - {k} == kinds - {k} - {p};
    }
  }

  lemma {:induction false} TotalSame(a: map<string, nat>, b: map<string, nat>, kinds: set<string>)
    requires kinds <= a.Keys && kinds <= b.Keys && forall k :: k in kinds ==> a[k] == b[k]
    ensures Total(a, kinds) == Total(b, kinds)
  {
    if kinds != {} {
      var k :| k in kinds;
      TotalTakeOut(a, kinds, k);
      TotalTakeOut(b, kinds, k);
      TotalSame(a, b, kinds - {k});
    }
  }

  /** The per-kind counts add up to the number of rows. */
  lemma {:induction false} KindCountsTotal(rows: seq<Row>)
    ensures Total(KindCounts(rows), KindCounts(rows).Keys) == |rows|
  {
    if rows != [] {
      var init, kind := rows[..|rows| - 1], rows[|rows| - 1].kind;
      KindCountsTotal(init);
      var a, b := KindCounts(init), KindCounts(rows);
      TotalTakeOut(b, b.Keys, kind);
      TotalSame(a, b, b.Keys - {kind});
      if kind in a {
        TotalTakeOut(a, a.Keys, kind);
        assert a.Keys - {kind} == b.Keys - {kind};
      } else {
        assert a.Keys == b.Keys - {kind};
      }
    }
  }

  // ---- Compaction as a function ----

  /** The rows a compaction may roll up: old, below every retained snapshot, and not worth keeping. */
  predicate Candidate(r: Row, floor: Option<nat>, cutoff: real) {
    r.createdAt < cutoff && (floor.Some? ==> r.seqNo < floor.value) && !Kept(r)
  }

  predicate OfDay(r: Row, floor: Option<nat>, cutoff: real, day: int) {
    Candidate(r, floor, cutoff) && Day(r.createdAt) == day
  }

  function Members(rows: seq<Row>, floor: Option<nat>, cutoff: real, day: int): seq<Row> {
    if rows == [] then []
    else
      Members(rows[..|rows| - 1], floor, cutoff, day)
      + if OfDay(rows[|rows| - 1], floor, cutoff, day) then [rows[|rows| - 1]] else []
  }

  function Others(rows: seq<Row>, floor: Option<nat>, cutoff: real, day: int): seq<Row> {
    if rows == [] then []
    else
      Others(rows[..|rows| - 1], floor, cutoff, day)
      + if OfDay(rows[|rows| - 1], floor, cutoff, day) then [] else [rows[|rows| - 1]]
  }

  function MakeRollup(seqNo: nat, tick: nat, day: int, members: seq<Row>, now: real): Row {
    Row(seqNo, tick, EVENT_ROLLUP, Rollup(day, |members|, KindCounts(members), SeqNos(members)), now)
  }

  /** The snapshot floor: the lowest journal seq any retained snapshot still needs. */
  function Floor(snapshots: seq<Snapshot>): Option<nat> {
    if snapshots == [] then None
    else
      var last := snapshots[|snapshots| - 1].journalSeq;
      match Floor(snapshots[..|snapshots| - 1])
      case None => Some(last)
      case Some(f) => Some(if last < f then last else f)
  }

  lemma {:induction false} FloorIsLowest(snapshots: seq<Snapshot>, i: nat)
    requires i < |snapshots|
    ensures Floor(snapshots).Some? && Floor(snapshots).value <= snapshots[i].journalSeq
  {
    if i < |snapshots| - 1 {
      FloorIsLowest(snapshots[..|snapshots| - 1], i);
    }
  }

  // ---- What every run keeps ----

  /** A rollup says the truth about the events it replaced, as `log` recorded them. */
  ghost predicate HonestRollup(log: seq<Row>, r: Row) {
    && r.kind == EVENT_ROLLUP && r.payload.Rollup?
    && r.payload.n == |r.payload.rolledSeqs|
    && (forall i :: 0 <= i < |r.payload.rolledSeqs| ==> 1 <= r.payload.rolledSeqs[i] < r.seqNo <= |log|)
    && (forall i :: 0 <= i < |r.payload.rolledSeqs| ==>
          && !Kept(log[r.payload.rolledSeqs[i] - 1])
          && Day(log[r.payload.rolledSeqs[i] - 1].createdAt) == r.payload.day)
    && r.payload.types == KindCounts(Recall(log, r.payload.rolledSeqs))
  }

  /** The events with the given seqs, out of the log. */
  ghost function Recall(log: seq<Row>, seqs: seq<nat>): seq<Row>
    requires forall i :: 0 <= i < |seqs| ==> 1 <= seqs[i] <= |log|
  {
    seq(|seqs|, i requires 0 <= i < |seqs| => log[seqs[i] - 1])
  }

  /** `log` holds every row ever inserted, in order.  The journal is in sequence order and ends
      with the newest row; what is left is verbatim; nothing worth keeping and no rollup is gone. */
  ghost predicate Sound(rows: seq<Row>, log: seq<Row>) {
    Ascending(rows) && Head(rows) == |log| && Numbered(log) && Verbatim(rows, log) && KeepsWorthy(rows, log)
  }

  ghost predicate Numbered(log: seq<Row>) {
    forall i :: 0 <= i < |log| ==> log[i].seqNo == i + 1 && (log[i].kind == EVENT_ROLLUP <==> log[i].payload.Rollup?)
  }

  ghost predicate Verbatim(rows: seq<Row>, log: seq<Row>) {
    forall i :: 0 <= i < |rows| ==> 1 <= rows[i].seqNo <= |log| && rows[i] == log[rows[i].seqNo - 1]
  }

  ghost predicate KeepsWorthy(rows: seq<Row>, log: seq<Row>) {
    forall i :: 0 <= i < |log| && Kept(log[i]) ==> Present(rows, i + 1)
  }

  ghost predicate Honest(log: seq<Row>) {
    forall i :: 0 <= i < |log| && log[i].payload.Rollup? ==> HonestRollup(log, log[i])
  }

  /** No event is lost and none is counted twice. */
  ghost predicate Accounted(rows: seq<Row>, log: seq<Row>) {
    forall s :: 1 <= s <= |log| ==> Places(rows, s) == 1
  }

  /** Every retained snapshot still has its whole journal tail. */
  ghost predicate TailsIntact(rows: seq<Row>, snapshots: seq<Snapshot>) {
    forall i :: 0 <= i < |snapshots| ==>
      snapshots[i].journalSeq <= Head(rows) && GapFree(rows, snapshots[i].journalSeq, Head(rows))
  }

  // ---- Appending ----

  lemma {:induction false} NoPlaceYet(rows: seq<Row>, log: seq<Row>, s: nat)
    requires s > |log|
    requires Honest(log)
    requires Verbatim(rows, log)
    ensures Places(rows, s) == 0
  {
    if rows != [] {
      NoPlaceYet(rows[..|rows| - 1], log, s);
      var last := rows[|rows| - 1];
      if last.payload.Rollup? {
        assert HonestRollup(log, log[last.seqNo - 1]);
        NotListed(RolledIn(last), s);
      }
    }
  }

  lemma {:induction false} NotListed(seqs: seq<nat>, s: nat)
    requires forall i :: 0 <= i < |seqs| ==> seqs[i] != s
    ensures Occurrences(seqs, s) == 0
  {
    if seqs != [] {
      NotListed(seqs[..|seqs| - 1], s);
    }
  }

  lemma PlacesAppend(rows: seq<Row>, r: Row, s: nat)
    ensures Places(rows + [r], s) == Places(rows, s) + (if r.seqNo == s then 1 else 0) + Occurrences(RolledIn(r), s)
  {
    assert (rows + [r])[..|rows|] == rows;
  }

  /** Appending the next row keeps the snapshots' tails whole. */
  lemma AppendKeepsTails(rows: seq<Row>, r: Row, snapshots: seq<Snapshot>)
    requires TailsIntact(rows, snapshots) && r.seqNo == Head(rows) + 1
    ensures TailsIntact(rows + [r], snapshots)
  {
    var rows' := rows + [r];
    forall i | 0 <= i < |snapshots| ensures GapFree(rows', snapshots[i].journalSeq, Head(rows')) {
      forall s | snapshots[i].journalSeq < s <= Head(rows') ensures Present(rows', s) {
        if s == r.seqNo {
          assert rows'[|rows|].seqNo == s;
        } else {
          PresentGrows(rows, rows', s);
        }
      }
    }
  }

  lemma HonestGrows(log: seq<Row>, r: Row)
    requires Honest(log) && (r.payload.Rollup? ==> HonestRollup(log + [r], r))
    ensures Honest(log + [r])
  {
    var log' := log + [r];
    forall i | 0 <= i < |log'| && log'[i].payload.Rollup? ensures HonestRollup(log', log'[i]) {
      if i < |log| {
        assert HonestRollup(log, log[i]);
        HonestLonger(log, r, log[i]);
      } else {
        assert log'[i] == r;
      }
    }
  }

  lemma HonestLonger(log: seq<Row>, r: Row, x: Row)
    requires HonestRollup(log, x)
    ensures HonestRollup(log + [r], x)
  {
    hide Kept, Day, KindCounts;
    var log', seqs := log + [r], x.payload.rolledSeqs;
    forall i | 0 <= i < |seqs|
      ensures 1 <= seqs[i] <= |log| && log'[seqs[i] - 1] == log[seqs[i] - 1]
      ensures !Kept(log'[seqs[i] - 1]) && Day(log'[seqs[i] - 1].createdAt) == x.payload.day
    {
    }
    assert Recall(log', seqs) == Recall(log, seqs);
    assert forall i :: 0 <= i < |seqs| ==> 1 <= seqs[i] < x.seqNo <= |log'|;
  }

  lemma AppendPlain(rows: seq<Row>, log: seq<Row>, r: Row)
    requires Sound(rows, log) && Honest(log) && Accounted(rows, log)
    requires r.seqNo == |log| + 1 && r.payload.Plain? && r.kind != EVENT_ROLLUP
    ensures Sound(rows + [r], log + [r]) && Honest(log + [r]) && Accounted(rows + [r], log + [r])
  {
    AppendSound(rows, log, r);
    HonestGrows(log, r);
    forall s | 1 <= s <= |log + [r]| ensures Places(rows + [r], s) == 1 {
      PlacesAppend(rows, r, s);
      if s == r.seqNo {
        NoPlaceYet(rows, log, s);
      }
    }
  }

  lemma AppendSound(rows: seq<Row>, log: seq<Row>, r: Row)
    requires Sound(rows, log) && r.seqNo == |log| + 1 && (r.kind == EVENT_ROLLUP <==> r.payload.Rollup?)
    ensures Sound(rows + [r], log + [r])
  {
    hide Kept;
    var rows', log' := rows + [r], log + [r];
    forall i | 0 <= i < |log'| && Kept(log'[i]) ensures Present(rows', i + 1) {
      if i < |log| {
        PresentGrows(rows, rows', i + 1);
      } else {
        assert rows'[|rows|].seqNo == i + 1;
      }
    }
  }

  // ---- Rolling up one day ----

  lemma {:induction false} OthersSubset(rows: seq<Row>, floor: Option<nat>, cutoff: real, day: int)
    ensures forall r :: r in Others(rows, floor, cutoff, day) <==> r in rows && !OfDay(r, floor, cutoff, day)
  {
    hide OfDay;
    if rows != [] {
      OthersSubset(rows[..|rows| - 1], floor, cutoff, day);
      assert rows == rows[..|rows| - 1] + [rows[|rows| - 1]];
    }
  }

  lemma {:induction false} OthersAscending(rows: seq<Row>, floor: Option<nat>, cutoff: real, day: int)
    requires Ascending(rows)
    ensures Ascending(Others(rows, floor, cutoff, day)) && Head(Others(rows, floor, cutoff, day)) <= Head(rows)
  {
    hide OfDay, Ascending;
    if rows != [] {
      var init, last := rows[..|rows| - 1], rows[|rows| - 1];
      AscendingInit(rows);
      OthersAscending(init, floor, cutoff, day);
      if OfDay(last, floor, cutoff, day) {
        assert Others(rows, floor, cutoff, day) == Others(init, floor, cutoff, day);
      } else {
        AscendingAppend(Others(init, floor, cutoff, day), last);
        assert Others(rows, floor, cutoff, day) == Others(init, floor, cutoff, day) + [last];
      }
    }
  }

  lemma AscendingInit(rows: seq<Row>)
    requires Ascending(rows) && rows != []
    ensures Ascending(rows[..|rows| - 1])
    ensures rows[..|rows| - 1] == [] || Head(rows[..|rows| - 1]) < Head(rows)
  {
  }

  lemma AscendingAppend(rows: seq<Row>, r: Row)
    requires Ascending(rows) && (rows == [] || Head(rows) < r.seqNo)
    ensures Ascending(rows + [r])
  {
  }

  lemma {:induction false} MembersSubset(rows: seq<Row>, floor: Option<nat>, cutoff: real, day: int)
    ensures forall r :: r in Members(rows, floor, cutoff, day) <==> r in rows && OfDay(r, floor, cutoff, day)
  {
    hide OfDay;
    if rows != [] {
      MembersSubset(rows[..|rows| - 1], floor, cutoff, day);
      assert rows == rows[..|rows| - 1] + [rows[|rows| - 1]];
    }
  }

  /** What leaves the rows turns up among the rolled seqs. */
  lemma {:induction false} PlacesMove(rows: seq<Row>, floor: Option<nat>, cutoff: real, day: int, s: nat)
    requires forall i :: 0 <= i < |rows| ==> (rows[i].kind == EVENT_ROLLUP <==> rows[i].payload.Rollup?)
    ensures Places(rows, s) == Places(Others(rows, floor, cutoff, day), s)
                             + Occurrences(SeqNos(Members(rows, floor, cutoff, day)), s)
  {
    if rows != [] {
      var init, last := rows[..|rows| - 1], rows[|rows| - 1];
      PlacesMove(init, floor, cutoff, day, s);
      if OfDay(last, floor, cutoff, day) {
        var m := Members(init, floor, cutoff, day);
        assert Members(rows, floor, cutoff, day) == m + [last];
        assert (m + [last])[..|m|] == m;
        assert SeqNos(m + [last]) == SeqNos(m) + [last.seqNo];
        assert (SeqNos(m) + [last.seqNo])[..|SeqNos(m)|] == SeqNos(m);
        assert Others(rows, floor, cutoff, day) == Others(init, floor, cutoff, day);
      } else {
        PlacesAppend(Others(init, floor, cutoff, day), last, s);
        assert Members(rows, floor, cutoff, day) == Members(init, floor, cutoff, day);
      }
    }
  }

  lemma {:induction false} SeqNosOf(rows: seq<Row>)
    ensures |SeqNos(rows)| == |rows| && forall i :: 0 <= i < |rows| ==> SeqNos(rows)[i] == rows[i].seqNo
  {
    if rows != [] {
      SeqNosOf(rows[..|rows| - 1]);
    }
  }

  /** The rows after one day has been rolled up under the next seq. */
  function RolledUp(rows: seq<Row>, r: Row, floor: Option<nat>, cutoff: real, day: int): seq<Row> {
    Others(rows, floor, cutoff, day) + [r]
  }

  lemma KeptNeverOfDay(r: Row, floor: Option<nat>, cutoff: real, day: int)
    ensures Kept(r) ==> !OfDay(r, floor, cutoff, day)
  {
  }

  lemma RollUpSound(rows: seq<Row>, log: seq<Row>, r: Row, floor: Option<nat>, cutoff: real, day: int)
    requires Sound(rows, log) && r.seqNo == |log| + 1 && r.kind == EVENT_ROLLUP && r.payload.Rollup?
    ensures Sound(RolledUp(rows, r, floor, cutoff, day), log + [r])
  {
    hide Kept, OfDay, Ascending, KeepsWorthy, Verbatim;
    OthersAscending(rows, floor, cutoff, day);
    AscendingAppend(Others(rows, floor, cutoff, day), r);
    RollUpVerbatim(rows, log, r, floor, cutoff, day);
    RollUpKeepsWorthy(rows, log, r, floor, cutoff, day);
  }

  lemma RollUpVerbatim(rows: seq<Row>, log: seq<Row>, r: Row, floor: Option<nat>, cutoff: real, day: int)
    requires Verbatim(rows, log) && r.seqNo == |log| + 1
    ensures Verbatim(RolledUp(rows, r, floor, cutoff, day), log + [r])
  {
    hide OfDay;
    OthersSubset(rows, floor, cutoff, day);
    var o := Others(rows, floor, cutoff, day);
    forall i | 0 <= i < |o| ensures 1 <= o[i].seqNo <= |log| && o[i] == log[o[i].seqNo - 1] {
      assert o[i] in rows;
    }
  }

  lemma RollUpKeepsWorthy(rows: seq<Row>, log: seq<Row>, r: Row, floor: Option<nat>, cutoff: real, day: int)
    requires Verbatim(rows, log) && Numbered(log) && KeepsWorthy(rows, log) && r.seqNo == |log| + 1
    ensures KeepsWorthy(RolledUp(rows, r, floor, cutoff, day), log + [r])
  {
    hide Kept, OfDay;
    OthersSubset(rows, floor, cutoff, day);
    var o := Others(rows, floor, cutoff, day);
    var rows', log' := o + [r], log + [r];
    forall i | 0 <= i < |log'| && Kept(log'[i]) ensures Present(rows', i + 1) {
      if i < |log| {
        KeptNeverOfDay(log[i], floor, cutoff, day);
        StillThere(rows, o, log[i]);
        PresentGrows(o, rows', i + 1);
      } else {
        assert rows'[|o|].seqNo == i + 1;
      }
    }
  }

  lemma StillThere(rows: seq<Row>, o: seq<Row>, kept: Row)
    requires Present(rows, kept.seqNo)
    requires forall r :: r in rows && r.seqNo == kept.seqNo ==> r in o
    ensures Present(o, kept.seqNo)
  {
    var i :| 0 <= i < |rows| && rows[i].seqNo == kept.seqNo;
    assert rows[i] in o;
  }

  /** Rows of one day's group, recorded in the log as they are. */
  ghost predicate Logged(log: seq<Row>, m: seq<Row>, floor: Option<nat>, cutoff: real, day: int) {
    forall i :: 0 <= i < |m| ==> 1 <= m[i].seqNo <= |log| && log[m[i].seqNo - 1] == m[i] && OfDay(m[i], floor, cutoff, day)
  }

  lemma MembersLogged(rows: seq<Row>, log: seq<Row>, floor: Option<nat>, cutoff: real, day: int)
    requires Sound(rows, log)
    ensures Logged(log, Members(rows, floor, cutoff, day), floor, cutoff, day)
  {
    var m := Members(rows, floor, cutoff, day);
    MembersSubset(rows, floor, cutoff, day);
    hide Members, Ascending, OfDay, Kept;
    forall i | 0 <= i < |m|
      ensures 1 <= m[i].seqNo <= |log| && log[m[i].seqNo - 1] == m[i] && OfDay(m[i], floor, cutoff, day)
    {
      assert m[i] in m && m[i] in rows;
    }
  }

  lemma MembersHonest(log: seq<Row>, m: seq<Row>, floor: Option<nat>, cutoff: real, day: int, tick: nat, now: real)
    requires Logged(log, m, floor, cutoff, day)
    ensures var r := MakeRollup(|log| + 1, tick, day, m, now); r.payload.Rollup? && HonestRollup(log + [r], r)
  {
    var log' := log + [MakeRollup(|log| + 1, tick, day, m, now)];
    SeqNosOf(m);
    forall i | 0 <= i < |m| ensures log'[m[i].seqNo - 1] == m[i] && !Kept(m[i]) && Day(m[i].createdAt) == day {
      assert OfDay(m[i], floor, cutoff, day);
    }
    hide KindCounts, Kept, Day, OfDay, DefaultSalience, SeqNos;
    assert Recall(log', SeqNos(m)) == m;
  }

  lemma RollUpHonest(rows: seq<Row>, log: seq<Row>, floor: Option<nat>, cutoff: real, day: int, tick: nat, now: real)
    requires Sound(rows, log) && Honest(log)
    ensures Honest(log + [MakeRollup(|log| + 1, tick, day, Members(rows, floor, cutoff, day), now)])
  {
    hide Members, MakeRollup, Sound, Honest, HonestRollup, Logged;
    var m := Members(rows, floor, cutoff, day);
    MembersLogged(rows, log, floor, cutoff, day);
    MembersHonest(log, m, floor, cutoff, day, tick, now);
    HonestGrows(log, MakeRollup(|log| + 1, tick, day, m, now));
  }

  lemma RollUpAccounted(rows: seq<Row>, log: seq<Row>, floor: Option<nat>, cutoff: real, day: int, r: Row)
    requires Sound(rows, log) && Honest(log) && Accounted(rows, log)
    requires r.seqNo == |log| + 1 && RolledIn(r) == SeqNos(Members(rows, floor, cutoff, day))
    ensures Accounted(RolledUp(rows, r, floor, cutoff, day), log + [r])
  {
    hide Kept, OfDay, Honest, Accounted, Ascending;
    var o, m := Others(rows, floor, cutoff, day), Members(rows, floor, cutoff, day);
    forall s | 1 <= s <= |log + [r]| ensures Places(o + [r], s) == 1 {
      PlacesMove(rows, floor, cutoff, day, s);
      PlacesAppend(o, r, s);
      if s <= |log| {
        AccountedAt(rows, log, s);
      } else {
        NoPlaceYet(rows, log, s);
      }
    }
    AccountedBy(o + [r], log + [r]);
  }

  lemma AccountedAt(rows: seq<Row>, log: seq<Row>, s: nat)
    requires Accounted(rows, log) && 1 <= s <= |log|
    ensures Places(rows, s) == 1
  {
  }

  lemma AccountedBy(rows: seq<Row>, log: seq<Row>)
    requires forall s :: 1 <= s <= |log| ==> Places(rows, s) == 1
    ensures Accounted(rows, log)
  {
  }

  lemma RollUpKeepsTails(rows: seq<Row>, snapshots: seq<Snapshot>, r: Row, cutoff: real, day: int)
    requires Ascending(rows) && TailsIntact(rows, snapshots) && r.seqNo == Head(rows) + 1
    ensures TailsIntact(RolledUp(rows, r, Floor(snapshots), cutoff, day), snapshots)
  {
    var floor := Floor(snapshots);
    OthersSubset(rows, floor, cutoff, day);
    OthersAscending(rows, floor, cutoff, day);
    var o := Others(rows, floor, cutoff, day);
    var rows' := o + [r];
    forall i | 0 <= i < |snapshots| ensures GapFree(rows', snapshots[i].journalSeq, Head(rows')) {
      FloorIsLowest(snapshots, i);
      forall s | snapshots[i].journalSeq < s <= Head(rows') ensures Present(rows', s) {
        if s == r.seqNo {
          assert rows'[|o|].seqNo == s;
        } else {
          assert Present(rows, s);
          var k :| 0 <= k < |rows| && rows[k].seqNo == s;
          assert rows[k] in o;
          PresentGrows(o, rows', s);
        }
      }
    }
  }

  // ---- A whole compaction ----

  /** The journal rows and, as a ghost of history, every row ever inserted. */
  datatype History = History(rows: seq<Row>, log: seq<Row>)

  ghost predicate Valid(h: History, snapshots: seq<Snapshot>) {
    && Sound(h.rows, h.log) && Honest(h.log) && Accounted(h.rows, h.log)
    && TailsIntact(h.rows, snapshots)
  }

  function InsertDay(days: seq<int>, day: int): seq<int> {
    if days == [] || days[|days| - 1] < day then days + [day]
    else if days[|days| - 1] == day then days
    else InsertDay(days[..|days| - 1], day) + [days[|days| - 1]]
  }

  /** The days of the candidates, each once and in ascending order. */
  function DaysOf(rows: seq<Row>, floor: Option<nat>, cutoff: real): seq<int> {
    if rows == [] then []
    else
      var days := DaysOf(rows[..|rows| - 1], floor, cutoff);
      if Candidate(rows[|rows| - 1], floor, cutoff) then InsertDay(days, Day(rows[|rows| - 1].createdAt)) else days
  }

  /** The highest tick among the candidates. */
  function MaxTick(rows: seq<Row>, floor: Option<nat>, cutoff: real): nat {
    if rows == [] then 0
    else
      var rest, last := MaxTick(rows[..|rows| - 1], floor, cutoff), rows[|rows| - 1];
      if Candidate(last, floor, cutoff) && last.tick > rest then last.tick else rest
  }

  function RollDay(h: History, day: int, floor: Option<nat>, cutoff: real, tick: nat, now: real): History {
    var r := MakeRollup(|h.log| + 1, tick, day, Members(h.rows, floor, cutoff, day), now);
    History(RolledUp(h.rows, r, floor, cutoff, day), h.log + [r])
  }

  function RollDays(h: History, days: seq<int>, floor: Option<nat>, cutoff: real, tick: nat, now: real): History {
    if days == [] then h
    else RollDay(RollDays(h, days[..|days| - 1], floor, cutoff, tick, now), days[|days| - 1], floor, cutoff, tick, now)
  }

  /** `compact_journal`: one rollup for each day that has candidates, in the order of the days. */
  function Compacted(h: History, floor: Option<nat>, cutoff: real, now: real): History {
    RollDays(h, DaysOf(h.rows, floor, cutoff), floor, cutoff, MaxTick(h.rows, floor, cutoff), now)
  }

  lemma RollDayValid(h: History, snapshots: seq<Snapshot>, day: int, cutoff: real, tick: nat, now: real)
    requires Valid(h, snapshots)
    ensures Valid(RollDay(h, day, Floor(snapshots), cutoff, tick, now), snapshots)
  {
    hide Honest, Accounted, TailsIntact, Ascending, Verbatim, Numbered, KeepsWorthy;
    var floor := Floor(snapshots);
    var r := MakeRollup(|h.log| + 1, tick, day, Members(h.rows, floor, cutoff, day), now);
    RollUpSound(h.rows, h.log, r, floor, cutoff, day);
    RollUpHonest(h.rows, h.log, floor, cutoff, day, tick, now);
    RollUpAccounted(h.rows, h.log, floor, cutoff, day, r);
    RollUpKeepsTails(h.rows, snapshots, r, cutoff, day);
  }

  lemma {:induction false} RollDaysValid(h: History, snapshots: seq<Snapshot>, days: seq<int>, cutoff: real,
                                         tick: nat, now: real)
    requires Valid(h, snapshots)
    ensures var after := RollDays(h, days, Floor(snapshots), cutoff, tick, now);
            Valid(after, snapshots) && |after.log| == |h.log| + |days| && after.log[..|h.log|] == h.log
  {
    hide Valid;
    if days != [] {
      RollDaysValid(h, snapshots, days[..|days| - 1], cutoff, tick, now);
      RollDayValid(RollDays(h, days[..|days| - 1], Floor(snapshots), cutoff, tick, now), snapshots,
                   days[|days| - 1], cutoff, tick, now);
    }
  }

  /** One compaction keeps the journal sound, accounts for every event exactly once, leaves every
      snapshot's tail whole, and never moves the head back. */
  lemma CompactionValid(h: History, snapshots: seq<Snapshot>, cutoff: real, now: real)
    requires Valid(h, snapshots)
    ensures var after := Compacted(h, Floor(snapshots), cutoff, now);
            Valid(after, snapshots) && Head(after.rows) >= Head(h.rows)
  {
    RollDaysValid(h, snapshots, DaysOf(h.rows, Floor(snapshots), cutoff), cutoff,
                  MaxTick(h.rows, Floor(snapshots), cutoff), now);
  }

  ghost predicate SortedDays(days: seq<int>) {
    forall i, j :: 0 <= i < j < |days| ==> days[i] < days[j]
  }

  lemma SortedAppend(days: seq<int>, day: int)
    requires SortedDays(days) && forall e :: e in days ==> e < day
    ensures SortedDays(days + [day])
  {
    assert forall i :: 0 <= i < |days| ==> days[i] in days;
  }

  lemma {:induction false} InsertDaySorted(days: seq<int>, day: int)
    requires SortedDays(days)
    ensures SortedDays(InsertDay(days, day))
    ensures forall e :: e in InsertDay(days, day) <==> e in days || e == day
  {
    if days != [] {
      var init, last := days[..|days| - 1], days[|days| - 1];
      assert days == init + [last];
      assert forall e :: e in init ==> e < last;
      if last < day {
        SortedAppend(days, day);
      } else if last > day {
        InsertDaySorted(init, day);
        SortedAppend(InsertDay(init, day), last);
      }
    }
  }

  lemma {:induction false} DaysOfSorted(rows: seq<Row>, floor: Option<nat>, cutoff: real)
    ensures SortedDays(DaysOf(rows, floor, cutoff))
    ensures forall r :: r in rows && Candidate(r, floor, cutoff) ==> Day(r.createdAt) in DaysOf(rows, floor, cutoff)
  {
    if rows != [] {
      hide Candidate, Day, SortedDays;
      DaysOfSorted(rows[..|rows| - 1], floor, cutoff);
      InsertDaySorted(DaysOf(rows[..|rows| - 1], floor, cutoff), Day(rows[|rows| - 1].createdAt));
      assert rows == rows[..|rows| - 1] + [rows[|rows| - 1]];
    }
  }

  lemma {:induction false} RollDaysLog(h: History, days: seq<int>, floor: Option<nat>, cutoff: real, tick: nat, now: real)
    ensures |RollDays(h, days, floor, cutoff, tick, now).log| == |h.log| + |days|
  {
    if days != [] {
      RollDaysLog(h, days[..|days| - 1], floor, cutoff, tick, now);
    }
  }

  lemma {:induction false} RollDaysRemove(h: History, days: seq<int>, floor: Option<nat>, cutoff: real, tick: nat,
                                          now: real, r: Row)
    requires r in h.rows && r.seqNo <= |h.log|
    ensures r in RollDays(h, days, floor, cutoff, tick, now).rows <==>
              !(Candidate(r, floor, cutoff) && Day(r.createdAt) in days)
  {
    hide Candidate, Day, RollDay;
    if days != [] {
      var init, day := days[..|days| - 1], days[|days| - 1];
      var b := RollDays(h, init, floor, cutoff, tick, now);
      RollDaysRemove(h, init, floor, cutoff, tick, now, r);
      RollDaysLog(h, init, floor, cutoff, tick, now);
      OneDayRemoves(b, day, floor, cutoff, tick, now, r);
      assert days == init + [day];
    }
  }

  lemma OneDayRemoves(b: History, day: int, floor: Option<nat>, cutoff: real, tick: nat, now: real, r: Row)
    requires r.seqNo <= |b.log|
    ensures r in RollDay(b, day, floor, cutoff, tick, now).rows <==>
              r in b.rows && !(Candidate(r, floor, cutoff) && Day(r.createdAt) == day)
  {
    OthersSubset(b.rows, floor, cutoff, day);
    RollupSeqNo(|b.log| + 1, tick, day, Members(b.rows, floor, cutoff, day), now);
    hide Candidate, Day, MakeRollup, Members;
  }

  lemma RollupSeqNo(seqNo: nat, tick: nat, day: int, members: seq<Row>, now: real)
    ensures MakeRollup(seqNo, tick, day, members, now).seqNo == seqNo
  {
  }

  /** Compaction deletes exactly the candidates and writes exactly one rollup a day. */
  lemma CompactionExact(h: History, floor: Option<nat>, cutoff: real, now: real)
    requires Sound(h.rows, h.log)
    ensures var after := Compacted(h, floor, cutoff, now);
            && (forall r :: r in h.rows ==> (r in after.rows <==> !Candidate(r, floor, cutoff)))
            && |after.log| == |h.log| + |DaysOf(h.rows, floor, cutoff)|
  {
    var days, tick := DaysOf(h.rows, floor, cutoff), MaxTick(h.rows, floor, cutoff);
    DaysOfSorted(h.rows, floor, cutoff);
    RollDaysLog(h, days, floor, cutoff, tick, now);
    forall r | r in h.rows ensures r in Compacted(h, floor, cutoff, now).rows <==> !Candidate(r, floor, cutoff) {
      RollDaysRemove(h, days, floor, cutoff, tick, now, r);
    }
  }

  // ---- What a compaction does, told without its parts ----

  /** Rollups, rows whose payload says at least a half, and the kinds that are worth as much unsaid. */
  predicate WorthKeeping(r: Row) {
    match r.payload
    case Rollup(_, _, _, _) => true
    case Plain(Some(s)) => s >= 0.5 || r.kind == "journal_rollup"
    case Plain(None) =>
      r.kind in {"tool.event", "loyalty_delta", "mailbag_unanswered", "soul_woke", "mailbag_answered", "recap_generated",
                 "journal_rollup"}
  }

  /** Worth keeping, young, or part of some retained snapshot's tail. */
  ghost predicate Stays(r: Row, snapshots: seq<Snapshot>, cutoff: real) {
    WorthKeeping(r) || r.createdAt >= cutoff || exists i :: 0 <= i < |snapshots| && snapshots[i].journalSeq <= r.seqNo
  }

  /** `x` is a rollup written at `now` for the day of `r`, and lists it. */
  predicate RollsUp(x: Row, r: Row, now: real) {
    && x.kind == "journal_rollup" && x.payload.Rollup? && x.createdAt == now
    && x.payload.day == (r.createdAt / 86400.0).Floor && r.seqNo in x.payload.rolledSeqs
  }

  /** A new rollup: it follows all old rows and lists nothing but rows that left. */
  ghost predicate IsNewRollup(x: Row, rows: seq<Row>, snapshots: seq<Snapshot>, cutoff: real, now: real) {
    && x.seqNo > Head(rows) && x.kind == "journal_rollup" && x.createdAt == now
    && x.payload.Rollup? && x.payload.n == |x.payload.rolledSeqs| > 0
    && forall s :: s in x.payload.rolledSeqs ==> exists r :: r in rows && r.seqNo == s && !Stays(r, snapshots, cutoff) && RollsUp(x, r, now)
  }

  /** Exactly the rows that should stay are still there; every other is listed in a rollup; whatever is new
      is such a rollup; and there is one a day. */
  ghost predicate CompactsTo(rows: seq<Row>, after: seq<Row>, snapshots: seq<Snapshot>, cutoff: real, now: real) {
    && (forall r :: r in rows ==> (r in after <==> Stays(r, snapshots, cutoff)))
    && (forall r :: r in rows && r !in after ==> exists x :: x in after && x !in rows && RollsUp(x, r, now))
    && (forall x :: x in after && x !in rows ==> IsNewRollup(x, rows, snapshots, cutoff, now))
    && OneADay(rows, after) && TicksCarried(rows, after)
  }

  /** The new rollups are of different days, and in the order of the days. */
  ghost predicate OneADay(rows: seq<Row>, after: seq<Row>) {
    forall x, y :: x in after && x !in rows && y in after && y !in rows && x.payload.Rollup? && y.payload.Rollup? ==>
      (x.payload.day == y.payload.day ==> x == y) && (x.payload.day < y.payload.day ==> x.seqNo < y.seqNo)
  }

  /** Every new rollup carries the highest tick of the rows that left. */
  ghost predicate TicksCarried(rows: seq<Row>, after: seq<Row>) {
    forall x :: x in after && x !in rows ==>
      && (forall r :: r in rows && r !in after ==> r.tick <= x.tick)
      && exists r :: r in rows && r !in after && r.tick == x.tick
  }

  /** A payload's own word counts; a kind is worth what the table says, a fifth if it is not in it; a rollup
      is worth one. */
  lemma SalienceInNumbers(r: Row)
    ensures Salience(r)
         == if r.payload.Rollup? then 1.0
            else if r.payload.salience.Some? then r.payload.salience.value
            else if r.kind == "journal_rollup" then 1.0 else if r.kind == "recap_generated" then 0.9
            else if r.kind == "loyalty_delta" then 0.7 else if r.kind in {"mailbag_unanswered", "soul_woke"} then 0.6
            else if r.kind in {"tool.event", "mailbag_answered"} then 0.5
            else if r.kind in {"mailbag_asked", "mailbag_expired"} then 0.4
            else if r.kind in {"metering_debit_settled", "soul_dormant"} then 0.3 else 0.2
  {
  }

  lemma KeptIsWorthKeeping(r: Row)
    ensures Kept(r) <==> WorthKeeping(r)
  {
  }

  lemma {:induction false} FloorIsOne(snapshots: seq<Snapshot>)
    ensures snapshots == [] ==> Floor(snapshots).None?
    ensures snapshots != [] ==> Floor(snapshots).Some? && exists i :: 0 <= i < |snapshots| && snapshots[i].journalSeq == Floor(snapshots).value
  {
    if snapshots != [] {
      var init := snapshots[..|snapshots| - 1];
      FloorIsOne(init);
      if init != [] {
        var i :| 0 <= i < |init| && init[i].journalSeq == Floor(init).value;
        assert snapshots[i] == init[i];
      }
    }
  }

  lemma CandidatesLeave(r: Row, snapshots: seq<Snapshot>, cutoff: real)
    ensures Candidate(r, Floor(snapshots), cutoff) <==> !Stays(r, snapshots, cutoff)
  {
    KeptIsWorthKeeping(r);
    FloorIsOne(snapshots);
    hide Kept, WorthKeeping;
    forall i | 0 <= i < |snapshots| ensures Floor(snapshots).value <= snapshots[i].journalSeq {
      FloorIsLowest(snapshots, i);
    }
  }

  /** The rollup of the `k`-th day. */
  function NewRollup(h: History, days: seq<int>, k: nat, floor: Option<nat>, cutoff: real, tick: nat, now: real): Row
    requires k < |days|
  {
    MakeRollup(|h.log| + 1 + k, tick, days[k], Members(h.rows, floor, cutoff, days[k]), now)
  }

  ghost predicate IsOneOfThem(x: Row, h: History, days: seq<int>, floor: Option<nat>, cutoff: real, tick: nat, now: real) {
    exists k :: 0 <= k < |days| && x == NewRollup(h, days, k, floor, cutoff, tick, now)
  }

  lemma RollupStays(seqNo: nat, tick: nat, day: int, members: seq<Row>, now: real, floor: Option<nat>, cutoff: real, other: int)
    ensures !OfDay(MakeRollup(seqNo, tick, day, members, now), floor, cutoff, other)
  {
  }

  /** The rows after some days: the old ones not rolled up yet, and a rollup for each day. */
  lemma {:induction false} RollDaysRows(h: History, days: seq<int>, floor: Option<nat>, cutoff: real, tick: nat, now: real, x: Row)
    requires SortedDays(days)
    ensures x in RollDays(h, days, floor, cutoff, tick, now).rows
       <==> (x in h.rows && !(Candidate(x, floor, cutoff) && Day(x.createdAt) in days))
            || IsOneOfThem(x, h, days, floor, cutoff, tick, now)
  {
    hide Candidate, Day, Members, MakeRollup, IsOneOfThem, RollDay;
    if days == [] {
      NoneOfThem(x, h, floor, cutoff, tick, now);
    } else {
      var init, day := days[..|days| - 1], days[|days| - 1];
      var b := RollDays(h, init, floor, cutoff, tick, now);
      RollDaysRows(h, init, floor, cutoff, tick, now, x);
      RollDaysLog(h, init, floor, cutoff, tick, now);
      MembersAfter(h, init, floor, cutoff, tick, now, day);
      OneDayRows(b, day, floor, cutoff, tick, now, x);
      OneMoreRollup(x, h, days, floor, cutoff, tick, now);
      assert days == init + [day];
    }
  }

  lemma NoneOfThem(x: Row, h: History, floor: Option<nat>, cutoff: real, tick: nat, now: real)
    ensures !IsOneOfThem(x, h, [], floor, cutoff, tick, now)
  {
  }

  lemma OneDayRows(b: History, day: int, floor: Option<nat>, cutoff: real, tick: nat, now: real, x: Row)
    ensures x in RollDay(b, day, floor, cutoff, tick, now).rows
       <==> (x in b.rows && !OfDay(x, floor, cutoff, day))
            || x == MakeRollup(|b.log| + 1, tick, day, Members(b.rows, floor, cutoff, day), now)
  {
    hide OfDay, Members, MakeRollup;
    OthersSubset(b.rows, floor, cutoff, day);
  }

  lemma OneMoreRollup(x: Row, h: History, days: seq<int>, floor: Option<nat>, cutoff: real, tick: nat, now: real)
    requires days != []
    ensures var init, day := days[..|days| - 1], days[|days| - 1];
            && (IsOneOfThem(x, h, days, floor, cutoff, tick, now) <==>
                  IsOneOfThem(x, h, init, floor, cutoff, tick, now) || x == NewRollup(h, days, |days| - 1, floor, cutoff, tick, now))
            && (IsOneOfThem(x, h, days, floor, cutoff, tick, now) ==> !OfDay(x, floor, cutoff, day))
  {
    hide OfDay, Members, MakeRollup;
    var init, day := days[..|days| - 1], days[|days| - 1];
    if k :| 0 <= k < |init| && x == NewRollup(h, init, k, floor, cutoff, tick, now) {
      assert x == NewRollup(h, days, k, floor, cutoff, tick, now);
    }
    if k :| 0 <= k < |days| && x == NewRollup(h, days, k, floor, cutoff, tick, now) {
      RollupStays(|h.log| + 1 + k, tick, days[k], Members(h.rows, floor, cutoff, days[k]), now, floor, cutoff, day);
      if k < |init| {
        assert x == NewRollup(h, init, k, floor, cutoff, tick, now);
      }
    }
  }

  lemma {:induction false} DaysHaveMembers(rows: seq<Row>, floor: Option<nat>, cutoff: real, day: int)
    requires day in DaysOf(rows, floor, cutoff)
    ensures Members(rows, floor, cutoff, day) != []
  {
    hide Candidate, Day;
    var init := rows[..|rows| - 1];
    DaysOfSorted(init, floor, cutoff);
    InsertDaySorted(DaysOf(init, floor, cutoff), Day(rows[|rows| - 1].createdAt));
    if day in DaysOf(init, floor, cutoff) {
      DaysHaveMembers(init, floor, cutoff, day);
    }
  }

  /** What the rollup of a day with candidates says. */
  lemma RollupTells(h: History, snapshots: seq<Snapshot>, day: int, cutoff: real, seqNo: nat, tick: nat, now: real)
    requires day in DaysOf(h.rows, Floor(snapshots), cutoff) && seqNo > Head(h.rows)
    ensures var x := MakeRollup(seqNo, tick, day, Members(h.rows, Floor(snapshots), cutoff, day), now);
            && x.seqNo == seqNo && x.payload.Rollup? && x.payload.day == day
            && IsNewRollup(x, h.rows, snapshots, cutoff, now)
            && (forall r :: r in h.rows && !Stays(r, snapshots, cutoff) && Day(r.createdAt) == day ==> RollsUp(x, r, now))
  {
    var floor := Floor(snapshots);
    var m := Members(h.rows, floor, cutoff, day);
    var x := MakeRollup(seqNo, tick, day, m, now);
    SeqNosOf(m);
    MembersSubset(h.rows, floor, cutoff, day);
    DaysHaveMembers(h.rows, floor, cutoff, day);
    hide Candidate, Stays, Members, SeqNos, KindCounts, DaysOf, Head;
    forall s | s in x.payload.rolledSeqs
      ensures exists r :: r in h.rows && r.seqNo == s && !Stays(r, snapshots, cutoff) && RollsUp(x, r, now)
    {
      var k :| 0 <= k < |m| && SeqNos(m)[k] == s;
      assert m[k] in m;
      CandidatesLeave(m[k], snapshots, cutoff);
      assert m[k] in h.rows && m[k].seqNo == s && RollsUp(x, m[k], now);
    }
    forall r | r in h.rows && !Stays(r, snapshots, cutoff) && Day(r.createdAt) == day ensures RollsUp(x, r, now) {
      CandidatesLeave(r, snapshots, cutoff);
      assert r in m;
      var k :| 0 <= k < |m| && m[k] == r;
      assert SeqNos(m)[k] == r.seqNo;
    }
  }

  // ---- The class ----

  lemma {:induction false} MembersUntouched(rows: seq<Row>, floor: Option<nat>, cutoff: real, day: int, other: int)
    requires day != other
    ensures Members(Others(rows, floor, cutoff, day), floor, cutoff, other) == Members(rows, floor, cutoff, other)
  {
    if rows != [] {
      var init, last := rows[..|rows| - 1], rows[|rows| - 1];
      MembersUntouched(init, floor, cutoff, day, other);
      MembersAppend(Others(init, floor, cutoff, day), last, floor, cutoff, other);
      if OfDay(last, floor, cutoff, day) {
        assert Others(rows, floor, cutoff, day) == Others(init, floor, cutoff, day);
        assert Members(rows, floor, cutoff, other) == Members(init, floor, cutoff, other);
      }
    }
  }

  lemma MembersAppend(rows: seq<Row>, r: Row, floor: Option<nat>, cutoff: real, day: int)
    ensures Members(rows + [r], floor, cutoff, day)
         == Members(rows, floor, cutoff, day) + if OfDay(r, floor, cutoff, day) then [r] else []
  {
    assert (rows + [r])[..|rows|] == rows;
  }

  /** Earlier days do not touch the members of a later one. */
  lemma {:induction false} MembersAfter(h: History, days: seq<int>, floor: Option<nat>, cutoff: real, tick: nat,
                                        now: real, day: int)
    requires day !in days
    ensures Members(RollDays(h, days, floor, cutoff, tick, now).rows, floor, cutoff, day)
         == Members(h.rows, floor, cutoff, day)
  {
    if days != [] {
      var init, last := days[..|days| - 1], days[|days| - 1];
      var b := RollDays(h, init, floor, cutoff, tick, now);
      MembersAfter(h, init, floor, cutoff, tick, now, day);
      MembersUntouched(b.rows, floor, cutoff, last, day);
      var r := MakeRollup(|b.log| + 1, tick, last, Members(b.rows, floor, cutoff, last), now);
      MembersAppend(Others(b.rows, floor, cutoff, last), r, floor, cutoff, day);
      assert last in days;
    }
  }

  lemma NewRollupTells(h: History, snapshots: seq<Snapshot>, k: nat, cutoff: real, tick: nat, now: real)
    requires Sound(h.rows, h.log) && k < |DaysOf(h.rows, Floor(snapshots), cutoff)|
    ensures var days := DaysOf(h.rows, Floor(snapshots), cutoff);
            var x := NewRollup(h, days, k, Floor(snapshots), cutoff, tick, now);
            && x.seqNo == |h.log| + 1 + k && x.payload.Rollup? && x.payload.day == days[k] && x !in h.rows && x.tick == tick
            && IsNewRollup(x, h.rows, snapshots, cutoff, now)
            && (forall r :: r in h.rows && !Stays(r, snapshots, cutoff) && Day(r.createdAt) == days[k] ==> RollsUp(x, r, now))
  {
    hide Stays, DaysOf, IsNewRollup, RollsUp, Day, Members, KeepsWorthy;
    RollupTells(h, snapshots, DaysOf(h.rows, Floor(snapshots), cutoff)[k], cutoff, |h.log| + 1 + k, tick, now);
  }

  /** The rows afterwards: those that stay, and one new rollup for each day. */
  lemma CompactionRows(h: History, snapshots: seq<Snapshot>, cutoff: real, now: real, x: Row)
    requires Sound(h.rows, h.log)
    ensures var floor := Floor(snapshots);
            var days, tick := DaysOf(h.rows, floor, cutoff), MaxTick(h.rows, floor, cutoff);
            var after := Compacted(h, floor, cutoff, now).rows;
            && (x in h.rows ==> (x in after <==> Stays(x, snapshots, cutoff)))
            && (x !in h.rows ==> (x in after <==> IsOneOfThem(x, h, days, floor, cutoff, tick, now)))
            && (x in h.rows && !Stays(x, snapshots, cutoff) ==> Day(x.createdAt) in days)
  {
    var floor := Floor(snapshots);
    var days, tick := DaysOf(h.rows, floor, cutoff), MaxTick(h.rows, floor, cutoff);
    DaysOfSorted(h.rows, floor, cutoff);
    RollDaysRows(h, days, floor, cutoff, tick, now, x);
    CandidatesLeave(x, snapshots, cutoff);
    hide Stays, DaysOf, Day, NewRollup, Candidate, MaxTick;
    if k :| 0 <= k < |days| && x == NewRollup(h, days, k, floor, cutoff, tick, now) {
      NewRollupTells(h, snapshots, k, cutoff, tick, now);
    }
  }

  lemma {:induction false} MaxTickIsHighest(rows: seq<Row>, snapshots: seq<Snapshot>, cutoff: real)
    ensures var tick := MaxTick(rows, Floor(snapshots), cutoff);
            && (forall r :: r in rows && !Stays(r, snapshots, cutoff) ==> r.tick <= tick)
            && (DaysOf(rows, Floor(snapshots), cutoff) != [] ==>
                  exists r :: r in rows && !Stays(r, snapshots, cutoff) && r.tick == tick)
  {
    if rows != [] {
      hide Stays, Candidate, Day;
      var init, last := rows[..|rows| - 1], rows[|rows| - 1];
      MaxTickIsHighest(init, snapshots, cutoff);
      CandidatesLeave(last, snapshots, cutoff);
      assert rows == init + [last];
      if DaysOf(init, Floor(snapshots), cutoff) == [] {
        NoDaysNoTick(init, Floor(snapshots), cutoff);
      }
    }
  }

  lemma {:induction false} NoDaysNoTick(rows: seq<Row>, floor: Option<nat>, cutoff: real)
    requires DaysOf(rows, floor, cutoff) == []
    ensures MaxTick(rows, floor, cutoff) == 0
  {
    if rows != [] {
      var days := DaysOf(rows[..|rows| - 1], floor, cutoff);
      NoDaysNoTick(rows[..|rows| - 1], floor, cutoff);
    }
  }

  /** The new row `x` is the rollup of the `k`-th day. */
  ghost predicate IsRollupOf(x: Row, k: nat, h: History, snapshots: seq<Snapshot>, cutoff: real, now: real)
    requires k < |DaysOf(h.rows, Floor(snapshots), cutoff)|
  {
    && x.seqNo == |h.log| + 1 + k && x.payload.Rollup? && x.payload.day == DaysOf(h.rows, Floor(snapshots), cutoff)[k]
    && x.tick == MaxTick(h.rows, Floor(snapshots), cutoff) && x !in h.rows && IsNewRollup(x, h.rows, snapshots, cutoff, now)
    && x == NewRollup(h, DaysOf(h.rows, Floor(snapshots), cutoff), k, Floor(snapshots), cutoff,
                      MaxTick(h.rows, Floor(snapshots), cutoff), now)
  }

  lemma WhichRollup(h: History, snapshots: seq<Snapshot>, cutoff: real, now: real, x: Row) returns (k: nat)
    requires Sound(h.rows, h.log) && x in Compacted(h, Floor(snapshots), cutoff, now).rows && x !in h.rows
    ensures k < |DaysOf(h.rows, Floor(snapshots), cutoff)| && IsRollupOf(x, k, h, snapshots, cutoff, now)
  {
    var floor := Floor(snapshots);
    var days, tick := DaysOf(h.rows, floor, cutoff), MaxTick(h.rows, floor, cutoff);
    CompactionRows(h, snapshots, cutoff, now, x);
    k :| 0 <= k < |days| && x == NewRollup(h, days, k, floor, cutoff, tick, now);
    hide NewRollup, Compacted, IsNewRollup, RollsUp, MaxTick, DaysOf, Sound;
    NewRollupTells(h, snapshots, k, cutoff, tick, now);
  }

  /** The rollup of a row that left. */
  lemma ItsRollup(h: History, snapshots: seq<Snapshot>, cutoff: real, now: real, r: Row)
    requires Sound(h.rows, h.log) && r in h.rows && r !in Compacted(h, Floor(snapshots), cutoff, now).rows
    ensures exists x :: x in Compacted(h, Floor(snapshots), cutoff, now).rows && x !in h.rows && RollsUp(x, r, now)
  {
    var floor := Floor(snapshots);
    var days, tick := DaysOf(h.rows, floor, cutoff), MaxTick(h.rows, floor, cutoff);
    CompactionRows(h, snapshots, cutoff, now, r);
    var k :| 0 <= k < |days| && days[k] == Day(r.createdAt);
    hide NewRollup, Compacted, IsNewRollup, RollsUp, MaxTick, DaysOf, Sound, Day, Stays;
    NewRollupTells(h, snapshots, k, cutoff, tick, now);
    var x := NewRollup(h, days, k, floor, cutoff, tick, now);
    assert IsOneOfThem(x, h, days, floor, cutoff, tick, now);
    CompactionRows(h, snapshots, cutoff, now, x);
  }

  lemma RollupsAreOneADay(h: History, snapshots: seq<Snapshot>, cutoff: real, now: real)
    requires Sound(h.rows, h.log)
    ensures OneADay(h.rows, Compacted(h, Floor(snapshots), cutoff, now).rows)
  {
    var after := Compacted(h, Floor(snapshots), cutoff, now).rows;
    DaysOfSorted(h.rows, Floor(snapshots), cutoff);
    hide NewRollup, Compacted, IsNewRollup, MaxTick, DaysOf, Sound;
    forall x, y | x in after && x !in h.rows && y in after && y !in h.rows && x.payload.Rollup? && y.payload.Rollup?
      ensures (x.payload.day == y.payload.day ==> x == y) && (x.payload.day < y.payload.day ==> x.seqNo < y.seqNo)
    {
      var j := WhichRollup(h, snapshots, cutoff, now, x);
      var k := WhichRollup(h, snapshots, cutoff, now, y);
    }
  }

  lemma RollupsCarryTicks(h: History, snapshots: seq<Snapshot>, cutoff: real, now: real)
    requires Sound(h.rows, h.log)
    ensures TicksCarried(h.rows, Compacted(h, Floor(snapshots), cutoff, now).rows)
  {
    var after := Compacted(h, Floor(snapshots), cutoff, now).rows;
    MaxTickIsHighest(h.rows, snapshots, cutoff);
    hide NewRollup, Compacted, IsNewRollup, MaxTick, DaysOf, Sound, Stays;
    forall r | r in h.rows ensures r in after <==> Stays(r, snapshots, cutoff) {
      CompactionRows(h, snapshots, cutoff, now, r);
    }
    forall x | x in after && x !in h.rows
      ensures (forall r :: r in h.rows && r !in after ==> r.tick <= x.tick)
      ensures exists r :: r in h.rows && r !in after && r.tick == x.tick
    {
      var k := WhichRollup(h, snapshots, cutoff, now, x);
    }
  }

  /** Every compaction does just what `CompactsTo` says. */
  lemma CompactionLaw(h: History, snapshots: seq<Snapshot>, cutoff: real, now: real)
    requires Sound(h.rows, h.log)
    ensures CompactsTo(h.rows, Compacted(h, Floor(snapshots), cutoff, now).rows, snapshots, cutoff, now)
  {
    var after := Compacted(h, Floor(snapshots), cutoff, now).rows;
    hide Stays, NewRollup, Compacted, IsNewRollup, RollsUp, OneADay, TicksCarried, Sound;
    forall r | r in h.rows ensures r in after <==> Stays(r, snapshots, cutoff) {
      CompactionRows(h, snapshots, cutoff, now, r);
    }
    forall r | r in h.rows && r !in after ensures exists x :: x in after && x !in h.rows && RollsUp(x, r, now) {
      ItsRollup(h, snapshots, cutoff, now, r);
    }
    forall x | x in after && x !in h.rows ensures IsNewRollup(x, h.rows, snapshots, cutoff, now) {
      var k := WhichRollup(h, snapshots, cutoff, now, x);
    }
    RollupsAreOneADay(h, snapshots, cutoff, now);
    RollupsCarryTicks(h, snapshots, cutoff, now);
  }

  lemma SoundKeeps(h: History, snapshots: seq<Snapshot>, cutoff: real)
    requires Valid(h, snapshots)
    ensures KeptCount(h.rows, Floor(snapshots), cutoff) == |OldAndWorthKeeping(h.rows, snapshots, cutoff)|
  {
    KeptCountIs(h.rows, snapshots, cutoff);
  }

  lemma SoundCompacts(h: History, snapshots: seq<Snapshot>, cutoff: real, now: real)
    requires Valid(h, snapshots)
    ensures CompactsTo(h.rows, Compacted(h, Floor(snapshots), cutoff, now).rows, snapshots, cutoff, now)
  {
    CompactionLaw(h, snapshots, cutoff, now);
  }

  /** DELETE ... WHERE seq IN (...). */
  function Without(rows: seq<Row>, seqs: seq<nat>): seq<Row> {
    if rows == [] then []
    else Without(rows[..|rows| - 1], seqs) + if rows[|rows| - 1].seqNo in seqs then [] else [rows[|rows| - 1]]
  }

  lemma {:induction false} WithoutIsOthers(rows: seq<Row>, seqs: seq<nat>, floor: Option<nat>, cutoff: real, day: int)
    requires forall i :: 0 <= i < |rows| ==> (rows[i].seqNo in seqs <==> OfDay(rows[i], floor, cutoff, day))
    ensures Without(rows, seqs) == Others(rows, floor, cutoff, day)
  {
    hide OfDay;
    if rows != [] {
      WithoutIsOthers(rows[..|rows| - 1], seqs, floor, cutoff, day);
    }
  }

  /** In a journal with distinct seqs, the rolled seqs name exactly the rows of that day. */
  lemma MembersBySeq(rows: seq<Row>, floor: Option<nat>, cutoff: real, day: int)
    requires Ascending(rows)
    ensures Without(rows, SeqNos(Members(rows, floor, cutoff, day))) == Others(rows, floor, cutoff, day)
  {
    hide OfDay;
    var m := Members(rows, floor, cutoff, day);
    MembersSubset(rows, floor, cutoff, day);
    SeqNosOf(m);
    forall i | 0 <= i < |rows| ensures rows[i].seqNo in SeqNos(m) <==> OfDay(rows[i], floor, cutoff, day) {
      if rows[i].seqNo in SeqNos(m) {
        var k :| 0 <= k < |m| && SeqNos(m)[k] == rows[i].seqNo;
        assert m[k] in m && m[k] in rows;
      }
      if OfDay(rows[i], floor, cutoff, day) {
        assert rows[i] in m;
        var k :| 0 <= k < |m| && m[k] == rows[i];
        assert SeqNos(m)[k] == rows[i].seqNo;
      }
    }
    WithoutIsOthers(rows, SeqNos(m), floor, cutoff, day);
  }

  /** `byDay` holds the members of every day so far. */
  ghost predicate Grouped(byDay: map<int, seq<Row>>, rows: seq<Row>, floor: Option<nat>, cutoff: real) {
    forall d :: Members(rows, floor, cutoff, d) == if d in byDay then byDay[d] else []
  }

  lemma NobodyYet(floor: Option<nat>, cutoff: real)
    ensures Grouped(map[], [], floor, cutoff)
  {
  }

  /** One more row goes to the group of its day, if it is a candidate at all. */
  lemma GroupOne(byDay: map<int, seq<Row>>, rows: seq<Row>, r: Row, floor: Option<nat>, cutoff: real)
    requires Grouped(byDay, rows, floor, cutoff)
    ensures !Candidate(r, floor, cutoff) ==> Grouped(byDay, rows + [r], floor, cutoff)
    ensures var day := Day(r.createdAt);
            Candidate(r, floor, cutoff) ==>
              Grouped(byDay[day := (if day in byDay then byDay[day] else []) + [r]], rows + [r], floor, cutoff)
  {
    hide Candidate, Day, Members;
    forall d ensures Members(rows + [r], floor, cutoff, d)
                  == Members(rows, floor, cutoff, d) + if OfDay(r, floor, cutoff, d) then [r] else [] {
      MembersAppend(rows, r, floor, cutoff, d);
    }
  }

  lemma {:induction false} CountSplit(rows: seq<Row>, floor: Option<nat>, cutoff: real, day: int)
    ensures |Members(rows, floor, cutoff, day)| + |Others(rows, floor, cutoff, day)| == |rows|
  {
    if rows != [] {
      CountSplit(rows[..|rows| - 1], floor, cutoff, day);
    }
  }

  /** How many old rows below the floor are worth keeping. */
  function KeptCount(rows: seq<Row>, floor: Option<nat>, cutoff: real): nat {
    if rows == [] then 0
    else
      var r := rows[|rows| - 1];
      KeptCount(rows[..|rows| - 1], floor, cutoff)
      + if r.createdAt < cutoff && (floor.Some? ==> r.seqNo < floor.value) && Kept(r) then 1 else 0
  }

  /** The old rows outside every snapshot's tail that are worth keeping. */
  ghost function OldAndWorthKeeping(rows: seq<Row>, snapshots: seq<Snapshot>, cutoff: real): set<Row> {
    set r | r in rows && OldButWorthy(r, snapshots, cutoff)
  }

  ghost predicate OldButWorthy(r: Row, snapshots: seq<Snapshot>, cutoff: real) {
    WorthKeeping(r) && r.createdAt < cutoff && forall i :: 0 <= i < |snapshots| ==> r.seqNo < snapshots[i].journalSeq
  }

  lemma {:induction false} KeptCountIs(rows: seq<Row>, snapshots: seq<Snapshot>, cutoff: real)
    requires Ascending(rows)
    ensures KeptCount(rows, Floor(snapshots), cutoff) == |OldAndWorthKeeping(rows, snapshots, cutoff)|
  {
    if rows != [] {
      var init, last := rows[..|rows| - 1], rows[|rows| - 1];
      AscendingInit(rows);
      KeptCountIs(init, snapshots, cutoff);
      KeptIsWorthKeeping(last);
      BelowFloor(last.seqNo, snapshots);
      hide Kept, WorthKeeping, Floor, OldAndWorthKeeping;
      assert last !in init;
      OneMoreOld(init, last, snapshots, cutoff);
      assert rows == init + [last];
    }
  }

  lemma OneMoreOld(rows: seq<Row>, r: Row, snapshots: seq<Snapshot>, cutoff: real)
    requires r !in rows
    ensures |OldAndWorthKeeping(rows + [r], snapshots, cutoff)|
         == |OldAndWorthKeeping(rows, snapshots, cutoff)| + if OldButWorthy(r, snapshots, cutoff) then 1 else 0
  {
    hide OldButWorthy;
    var a, b := OldAndWorthKeeping(rows, snapshots, cutoff), OldAndWorthKeeping(rows + [r], snapshots, cutoff);
    if OldButWorthy(r, snapshots, cutoff) {
      assert b == a + {r};
    } else {
      assert b == a;
    }
  }

  lemma BelowFloor(s: nat, snapshots: seq<Snapshot>)
    ensures (Floor(snapshots).Some? ==> s < Floor(snapshots).value) <==> forall i :: 0 <= i < |snapshots| ==> s < snapshots[i].journalSeq
  {
    FloorIsOne(snapshots);
    forall i | 0 <= i < |snapshots| ensures Floor(snapshots).value <= snapshots[i].journalSeq {
      FloorIsLowest(snapshots, i);
    }
  }

  lemma RollupColumns(seqNo: nat, tick: nat, day: int, members: seq<Row>, now: real)
    ensures MakeRollup(seqNo, tick, day, members, now)
         == Row(seqNo, tick, EVENT_ROLLUP, Rollup(day, |members|, KindCounts(members), SeqNos(members)), now)
  {
  }

  /** Before day `i` is rolled up, its members are still those of the original rows, and deleting
      them by seq deletes exactly them. */
  lemma NextDay(h: History, snapshots: seq<Snapshot>, i: nat, cutoff: real, tick: nat, now: real)
    requires Valid(h, snapshots) && i < |DaysOf(h.rows, Floor(snapshots), cutoff)|
    ensures var floor := Floor(snapshots);
            var days := DaysOf(h.rows, floor, cutoff);
            var rows := RollDays(h, days[..i], floor, cutoff, tick, now).rows;
            && Members(rows, floor, cutoff, days[i]) == Members(h.rows, floor, cutoff, days[i])
            && Without(rows, SeqNos(Members(rows, floor, cutoff, days[i]))) == Others(rows, floor, cutoff, days[i])
  {
    hide Members, Without, Others, SeqNos, Honest, Accounted, TailsIntact, DaysOf, RollDays;
    var floor := Floor(snapshots);
    var days := DaysOf(h.rows, floor, cutoff);
    DaysOfSorted(h.rows, floor, cutoff);
    MembersAfter(h, days[..i], floor, cutoff, tick, now, days[i]);
    RollDaysValid(h, snapshots, days[..i], cutoff, tick, now);
    MembersBySeq(RollDays(h, days[..i], floor, cutoff, tick, now).rows, floor, cutoff, days[i]);
  }

  class DurableJournal {
    var rows: seq<Row>
    var nextSeq: nat
    var snapshots: seq<Snapshot>
    var nextSnapshot: nat
    ghost var log: seq<Row>

    ghost predicate Ok()
      reads this
    {
      Valid(History(rows, log), snapshots) && nextSeq == |log| + 1
    }

    constructor ()
      ensures Ok() && rows == [] && snapshots == []
    {
      rows, nextSeq, snapshots, nextSnapshot, log := [], 1, [], 1, [];
    }

    /** `append_event`: the next AUTOINCREMENT seq, at the end. */
    method AppendEvent(tick: nat, kind: string, salience: Option<real>, now: real) returns (seqNo: nat)
      requires Ok() && kind != EVENT_ROLLUP
      modifies this
      ensures Ok() && seqNo == old(Head(rows)) + 1 == Head(rows) && snapshots == old(snapshots)
      ensures rows == old(rows) + [Row(seqNo, tick, kind, Plain(salience), now)]
    {
      seqNo := nextSeq;
      ghost var r := Row(seqNo, tick, kind, Plain(salience), now);
      AppendPlain(rows, log, r);
      AppendKeepsTails(rows, r, snapshots);
      rows, log := rows + [Row(seqNo, tick, kind, Plain(salience), now)], log + [r];
      nextSeq := nextSeq + 1;
    }

    /** `take_snapshot`: the snapshot remembers the journal head of its moment. */
    method TakeSnapshot(tick: nat) returns (id: nat)
      requires Ok()
      modifies this`snapshots, this`nextSnapshot
      ensures Ok() && snapshots == old(snapshots) + [Snapshot(id, tick, Head(rows))]
    {
      id := nextSnapshot;
      snapshots := snapshots + [Snapshot(id, tick, Head(rows))];
      nextSnapshot := nextSnapshot + 1;
    }

    /** `prune_snapshots`: only the newest `keep` stay. */
    method PruneSnapshots(keep: nat := 3) returns (deleted: nat)
      requires Ok()
      modifies this`snapshots
      ensures Ok() && deleted == |old(snapshots)| - |snapshots|
      ensures snapshots == if |old(snapshots)| <= keep then old(snapshots) else old(snapshots)[|old(snapshots)| - keep..]
    {
      deleted := if |snapshots| <= keep then 0 else |snapshots| - keep;
      snapshots := snapshots[deleted..];
    }

    /** The recovery test: with this journal it accepts every retained snapshot, so recovery never
        has to fall back to an older one or to a rebuild because of compaction. */
    method EverySnapshotUsable() returns (usable: bool)
      requires Ok()
      ensures usable
    {
      usable := true;
      for i := 0 to |snapshots|
        invariant usable
      {
        ContinuousIffGapFree(rows, snapshots[i].journalSeq);
        usable := usable && JournalContinuous(rows, snapshots[i].journalSeq, Head(rows));
      }
    }

    /** `compact_journal`. */
    method CompactJournal(now: real, cutoff: real) returns (kept: nat, rollups: nat, deleted: nat)
      requires Ok()
      modifies this`rows, this`nextSeq, this`log
      ensures Ok() && Head(rows) >= old(Head(rows))
      ensures History(rows, log) == Compacted(old(History(rows, log)), Floor(snapshots), cutoff, now)
      ensures CompactsTo(old(rows), rows, snapshots, cutoff, now)
      ensures rollups == |DaysOf(old(rows), Floor(snapshots), cutoff)|
      ensures deleted == |old(rows)| + rollups - |rows| && nextSeq == old(nextSeq) + rollups
      ensures kept == |OldAndWorthKeeping(old(rows), snapshots, cutoff)|
    {
      hide Valid, Members, Others, Without, RollDay, SeqNos, Head, SortedDays, CompactsTo, OldAndWorthKeeping;
      ghost var h := History(rows, log);
      var floor := Floor(snapshots);
      CompactionValid(h, snapshots, cutoff, now);
      SoundCompacts(h, snapshots, cutoff, now);
      SoundKeeps(h, snapshots, cutoff);
      var byDay, days, maxTick;
      kept, byDay, days, maxTick := GroupByDay(floor, cutoff);
      rollups, deleted := 0, 0;
      assert days[..0] == [];
      while rollups < |days|
        invariant rollups <= |days| && nextSeq == |log| + 1 == old(nextSeq) + rollups
        invariant History(rows, log) == RollDays(h, days[..rollups], floor, cutoff, maxTick, now)
        invariant deleted + |rows| == |h.rows| + rollups
      {
        var day := days[rollups];
        assert days[..rollups + 1][..rollups] == days[..rollups];
        CountSplit(rows, floor, cutoff, day);
        NextDay(h, snapshots, rollups, cutoff, maxTick, now);
        RollUp(byDay[day], day, maxTick, now, floor, cutoff);
        deleted := deleted + |byDay[day]|;
        rollups := rollups + 1;
      }
      assert days[..rollups] == days;
    }

    /** The first loop: counts the rows to keep and groups the others by day. */
    method GroupByDay(floor: Option<nat>, cutoff: real)
      returns (kept: nat, byDay: map<int, seq<Row>>, days: seq<int>, maxTick: nat)
      ensures days == DaysOf(rows, floor, cutoff) && maxTick == MaxTick(rows, floor, cutoff)
      ensures kept == KeptCount(rows, floor, cutoff)
      ensures forall d :: d in days ==> d in byDay && byDay[d] == Members(rows, floor, cutoff, d)
    {
      hide Kept, Day, Members, SortedDays;
      kept, byDay, days, maxTick := 0, map[], [], 0;
      NobodyYet(floor, cutoff);
      for i := 0 to |rows|
        invariant days == DaysOf(rows[..i], floor, cutoff) && maxTick == MaxTick(rows[..i], floor, cutoff)
        invariant kept == KeptCount(rows[..i], floor, cutoff)
        invariant forall d :: d in byDay <==> d in days
        invariant Grouped(byDay, rows[..i], floor, cutoff)
      {
        hide Grouped;
        var r := rows[i];
        assert rows[..i + 1] == rows[..i] + [r] && rows[..i + 1][..i] == rows[..i];
        GroupOne(byDay, rows[..i], r, floor, cutoff);
        if r.createdAt < cutoff && (floor.Some? ==> r.seqNo < floor.value) {
          if Kept(r) {
            kept := kept + 1;
          } else {
            var day := Day(r.createdAt);
            DaysOfSorted(rows[..i], floor, cutoff);
            InsertDaySorted(days, day);
            byDay := byDay[day := (if day in byDay then byDay[day] else []) + [r]];
            days := InsertDay(days, day);
            maxTick := if r.tick > maxTick then r.tick else maxTick;
          }
        }
      }
      assert rows[..|rows|] == rows;
    }

    /** The second loop, for one day: counts the kinds, collects the seqs, inserts the rollup and
        deletes the originals. */
    method RollUp(members: seq<Row>, day: int, tick: nat, now: real, ghost floor: Option<nat>, ghost cutoff: real)
      requires nextSeq == |log| + 1 && members == Members(rows, floor, cutoff, day)
      requires Without(rows, SeqNos(members)) == Others(rows, floor, cutoff, day)
      modifies this`rows, this`nextSeq, this`log
      ensures History(rows, log) == RollDay(old(History(rows, log)), day, floor, cutoff, tick, now)
      ensures nextSeq == |log| + 1 == old(nextSeq) + 1 && |rows| == |Others(old(rows), floor, cutoff, day)| + 1
    {
      hide Members, Others, Without, MakeRollup;
      var counts: map<string, nat>, seqs: seq<nat> := map[], [];
      for i := 0 to |members|
        invariant counts == KindCounts(members[..i]) && seqs == SeqNos(members[..i])
      {
        var m := members[i];
        assert members[..i + 1][..i] == members[..i];
        counts := counts[m.kind := (if m.kind in counts then counts[m.kind] else 0) + 1];
        seqs := seqs + [m.seqNo];
      }
      assert members[..|members|] == members;
      var r := Row(nextSeq, tick, EVENT_ROLLUP, Rollup(day, |members|, counts, seqs), now);
      RollupColumns(nextSeq, tick, day, members, now);
      rows := Without(rows, seqs) + [r];
      log := log + [r];
      nextSeq := nextSeq + 1;
    }
  }
}
