/** The plot grid of `server/plots.py`: rings around the origin Commons, the allocation order and
    the ring-scaled claim fee. */
module Plots {

  /** `cols` by `rows` square plots; `grid_dims` never returns less than one of either. */
  datatype Grid = Grid(cols: nat, rows: nat)

  datatype Cell = Cell(x: int, y: int)

  datatype Kind = Commons | Road | Claimable

  function Origin(g: Grid): Cell {
    Cell(g.cols / 2, g.rows / 2)
  }

  function Abs(n: int): nat {
    if n < 0 then -n else n
  }

  function Max(a: int, b: int): int {
    if a > b then a else b
  }

  predicate InGrid(g: Grid, c: Cell) {
    0 <= c.x < g.cols && 0 <= c.y < g.rows
  }

  function RingOf(g: Grid, c: Cell): nat {
    Max(Abs(c.x - Origin(g).x), Abs(c.y - Origin(g).y))
  }

  predicate IsRoadRing(ring: int) {
    ring > 0 && ring % 3 == 0
  }

  function KindOf(g: Grid, c: Cell): Kind {
    if RingOf(g, c) == 0 then Commons
    else if IsRoadRing(RingOf(g, c)) then Road
    else Claimable
  }

  function MaxRing(g: Grid): int {
    var o := Origin(g);
    Max(Max(o.x, o.y), Max(g.cols - 1 - o.x, g.rows - 1 - o.y))
  }

  /** The ring-scaled fee in cents: 50 essence for each ring up to and including this one. */
  function ClaimFee(ring: nat): nat {
    5000 * (ring + 1)
  }

  // ---- The allocation order as the source builds it ----

  /** The cells of ring `r` in column `x`, from row `y` upwards. */
  function Column(g: Grid, r: nat, x: int, y: int): seq<Cell>
    decreases Origin(g).y + r + 1 - y
  {
    if y > Origin(g).y + r then []
    else
      (if RingOf(g, Cell(x, y)) == r && InGrid(g, Cell(x, y)) then [Cell(x, y)] else [])
      + Column(g, r, x, y + 1)
  }

  /** The cells of ring `r` from column `x` on. */
  function Columns(g: Grid, r: nat, x: int): seq<Cell>
    decreases Origin(g).x + r + 1 - x
  {
    if x > Origin(g).x + r then []
    else Column(g, r, x, Origin(g).y - r) + Columns(g, r, x + 1)
  }

  function RingCells(g: Grid, r: nat): seq<Cell> {
    Columns(g, r, Origin(g).x - r)
  }

  /** The claimable cells of ring `r` and every later ring. */
  function RingsFrom(g: Grid, r: nat): seq<Cell>
    decreases MaxRing(g) + 1 - r
  {
    if r > MaxRing(g) then []
    else (if IsRoadRing(r) then [] else RingCells(g, r)) + RingsFrom(g, r + 1)
  }

  function AllocationOrder(g: Grid): seq<Cell> {
    RingsFrom(g, 1)
  }

  lemma Regroup(a: seq<Cell>, b: seq<Cell>, c: seq<Cell>)
    ensures a + (b + c) == a + b + c
  {
  }

  /** The source's nested loops: the rings outside, the cells of one ring inside. */
  method ComputeAllocationOrder(g: Grid) returns (order: seq<Cell>)
    ensures order == AllocationOrder(g)
  {
    order := [];
    var ring := 1;
    while ring <= MaxRing(g)
      invariant ring >= 1 && order + RingsFrom(g, ring) == AllocationOrder(g)
    {
      hide RingCells, MaxRing;
      var cells := [];
      if !IsRoadRing(ring) {
        cells := ComputeRing(g, ring);
      }
      Regroup(order, cells, RingsFrom(g, ring + 1));
      order := order + cells;
      ring := ring + 1;
    }
  }

  /** The cells of one ring.  The source sorts them afterwards, which changes nothing: RingCellsSpec
      shows that they are generated in ascending order. */
  method ComputeRing(g: Grid, ring: nat) returns (cells: seq<Cell>)
    ensures cells == RingCells(g, ring)
  {
    cells := [];
    var x := Origin(g).x - ring;
    while x <= Origin(g).x + ring
      invariant cells + Columns(g, ring, x) == RingCells(g, ring)
    {
      var column := ComputeColumn(g, ring, x);
      hide RingCells, Column;
      Regroup(cells, column, Columns(g, ring, x + 1));
      cells := cells + column;
      x := x + 1;
    }
  }

  method ComputeColumn(g: Grid, ring: nat, x: int) returns (cells: seq<Cell>)
    ensures cells == Column(g, ring, x, Origin(g).y - ring)
  {
    cells := [];
    var y := Origin(g).y - ring;
    while y <= Origin(g).y + ring
      invariant cells + Column(g, ring, x, y) == Column(g, ring, x, Origin(g).y - ring)
    {
      hide RingOf, InGrid;
      var here := if RingOf(g, Cell(x, y)) == ring && InGrid(g, Cell(x, y)) then [Cell(x, y)] else [];
      Regroup(cells, here, Column(g, ring, x, y + 1));
      cells := cells + here;
      y := y + 1;
    }
  }

  // ---- What the order is ----

  /** The strict order by ring, then column, then row. */
  predicate Before(g: Grid, a: Cell, b: Cell) {
    || RingOf(g, a) < RingOf(g, b)
    || (RingOf(g, a) == RingOf(g, b) && (a.x < b.x || (a.x == b.x && a.y < b.y)))
  }

  ghost predicate Increasing(g: Grid, cells: seq<Cell>) {
    forall i, j :: 0 <= i < j < |cells| ==> Before(g, cells[i], cells[j])
  }

  predicate IsClaimable(g: Grid, c: Cell) {
    InGrid(g, c) && KindOf(g, c) == Claimable
  }

  /** `order` lists the claimable plots, each once, by ring and then by column and row. */
  ghost predicate ListsClaimable(g: Grid, order: seq<Cell>) {
    Increasing(g, order) && forall c :: c in order <==> IsClaimable(g, c)
  }

  lemma IncreasingConcat(g: Grid, a: seq<Cell>, b: seq<Cell>)
    requires Increasing(g, a) && Increasing(g, b)
    requires forall c, d :: c in a && d in b ==> Before(g, c, d)
    ensures Increasing(g, a + b)
  {
    forall i, j | 0 <= i < j < |a + b| ensures Before(g, (a + b)[i], (a + b)[j]) {
      if i < |a| && j >= |a| {
        assert (a + b)[i] in a && (a + b)[j] in b;
      }
    }
  }

  lemma {:induction false} ColumnSpec(g: Grid, r: nat, x: int, y: int)
    ensures Increasing(g, Column(g, r, x, y))
    ensures forall c :: c in Column(g, r, x, y) <==>
              c.x == x && y <= c.y <= Origin(g).y + r && RingOf(g, c) == r && InGrid(g, c)
    decreases Origin(g).y + r + 1 - y
  {
    if y <= Origin(g).y + r {
      ColumnSpec(g, r, x, y + 1);
      var first := if RingOf(g, Cell(x, y)) == r && InGrid(g, Cell(x, y)) then [Cell(x, y)] else [];
      IncreasingConcat(g, first, Column(g, r, x, y + 1));
    }
  }

  lemma {:induction false} ColumnsMembers(g: Grid, r: nat, x: int, c: Cell)
    ensures c in Columns(g, r, x) <==> x <= c.x <= Origin(g).x + r && RingOf(g, c) == r && InGrid(g, c)
    decreases Origin(g).x + r + 1 - x
  {
    RingRows(g, r);
    if x <= Origin(g).x + r {
      ColumnSpec(g, r, x, Origin(g).y - r);
      ColumnsMembers(g, r, x + 1, c);
    }
  }

  lemma {:induction false} ColumnsIncrease(g: Grid, r: nat, x: int)
    ensures Increasing(g, Columns(g, r, x))
    decreases Origin(g).x + r + 1 - x
  {
    if x <= Origin(g).x + r {
      var a, b := Column(g, r, x, Origin(g).y - r), Columns(g, r, x + 1);
      assert Columns(g, r, x) == a + b;
      hide RingOf, InGrid, Increasing, Column, Columns, Origin;
      ColumnSpec(g, r, x, Origin(g).y - r);
      ColumnsIncrease(g, r, x + 1);
      forall c ensures c in b ==> c.x > x && RingOf(g, c) == r {
        ColumnsMembers(g, r, x + 1, c);
      }
      ColumnsJoin(g, r, x, a, b);
    }
  }

  /** The cells of one column of a ring come before those of the later columns. */
  lemma ColumnsJoin(g: Grid, r: nat, x: int, a: seq<Cell>, b: seq<Cell>)
    requires Increasing(g, a) && Increasing(g, b)
    requires forall c :: c in a ==> c.x == x && RingOf(g, c) == r
    requires forall c :: c in b ==> c.x > x && RingOf(g, c) == r
    ensures Increasing(g, a + b)
  {
    hide RingOf, Increasing;
    IncreasingConcat(g, a, b);
  }

  lemma RingCellsSpec(g: Grid, r: nat)
    ensures Increasing(g, RingCells(g, r))
    ensures forall c :: c in RingCells(g, r) <==> RingOf(g, c) == r && InGrid(g, c)
  {
    ColumnsIncrease(g, r, Origin(g).x - r);
    RingRows(g, r);
    hide RingOf, InGrid, Increasing, Columns;
    forall c ensures c in RingCells(g, r) <==> RingOf(g, c) == r && InGrid(g, c) {
      ColumnsMembers(g, r, Origin(g).x - r, c);
    }
  }

  /** A ring lies within its bounding square. */
  lemma RingRows(g: Grid, r: nat)
    ensures forall c :: RingOf(g, c) == r ==> Origin(g).x - r <= c.x <= Origin(g).x + r && Origin(g).y - r <= c.y <= Origin(g).y + r
  {
  }

  lemma {:induction false} RingsFromSpec(g: Grid, r: nat)
    requires r >= 1
    ensures Increasing(g, RingsFrom(g, r))
    ensures forall c :: c in RingsFrom(g, r) <==> IsClaimable(g, c) && RingOf(g, c) >= r
    decreases MaxRing(g) + 1 - r
  {
    if r <= MaxRing(g) {
      RingCellsSpec(g, r);
      RingsFromSpec(g, r + 1);
      var mine := if IsRoadRing(r) then [] else RingCells(g, r);
      IncreasingConcat(g, mine, RingsFrom(g, r + 1));
    }
  }

  /** For any grid the allocation order lists exactly the claimable plots, each once, in
      non-decreasing ring order. */
  lemma AllocationOrderCorrect(g: Grid)
    ensures ListsClaimable(g, AllocationOrder(g))
  {
    RingsFromSpec(g, 1);
  }

  /** No other list has that property, so the order is a function of the grid alone. */
  lemma {:induction false} AllocationOrderUnique(g: Grid, a: seq<Cell>, b: seq<Cell>)
    requires Increasing(g, a) && Increasing(g, b) && forall c :: c in a <==> c in b
    ensures a == b
  {
    if a == [] || b == [] {
      if a != [] { HasMember(a); }
      if b != [] { HasMember(b); }
    } else {
      assert a[0] == b[0] by {
        assert a[0] in b && b[0] in a;
      }
      forall c ensures c in a[1..] <==> c in b[1..] {
        TailMembers(g, a, c);
        TailMembers(g, b, c);
      }
      AllocationOrderUnique(g, a[1..], b[1..]);
      assert a == [a[0]] + a[1..] && b == [b[0]] + b[1..];
    }
  }

  lemma HasMember(a: seq<Cell>)
    requires a != []
    ensures exists c :: c in a
  {
    assert a[0] in a;
  }

  lemma TailMembers(g: Grid, a: seq<Cell>, c: Cell)
    requires Increasing(g, a) && a != []
    ensures c in a[1..] <==> c in a && c != a[0]
  {
    if c in a && c != a[0] {
      var i :| 0 <= i < |a| && a[i] == c;
      assert a[1..][i - 1] == c;
    }
    if c in a[1..] {
      var i :| 0 <= i < |a[1..]| && a[1..][i] == c;
      assert a[i + 1] == c && Before(g, a[0], c);
    }
  }

  /** Later claims are never cheaper. */
  lemma FeeNeverFalls(g: Grid, i: nat, j: nat)
    requires i <= j < |AllocationOrder(g)|
    ensures ClaimFee(RingOf(g, AllocationOrder(g)[i])) <= ClaimFee(RingOf(g, AllocationOrder(g)[j]))
  {
    AllocationOrderCorrect(g);
    if i < j {
      assert Before(g, AllocationOrder(g)[i], AllocationOrder(g)[j]);
    }
  }

  /** The distance of a coordinate from the middle of the grid. */
  predicate IsAway(c: int, size: nat, d: int) {
    d == (if c >= size / 2 then c - size / 2 else size / 2 - c)
  }

  /** In plain numbers: a plot at `dx` and `dy` from the middle is claimable exactly if it lies on the grid and
      the larger of the two is no multiple of three; its fee is 50.00 for that ring and each within. */
  lemma ClaimableInNumbers(g: Grid, c: Cell, dx: int, dy: int)
    requires IsAway(c.x, g.cols, dx) && IsAway(c.y, g.rows, dy)
    ensures var ring := if dx > dy then dx else dy;
            && (c in AllocationOrder(g) <==> 0 <= c.x < g.cols && 0 <= c.y < g.rows && ring % 3 != 0)
            && RingOf(g, c) == ring && ClaimFee(ring) == 5000 * ring + 5000
  {
    AllocationOrderCorrect(g);
    hide AllocationOrder, Increasing;
  }

  /** And of two claimable plots the one on the inner ring comes first; on one ring the one of the lower
      column, in one column the one of the lower row. */
  lemma OrderInNumbers(g: Grid, i: nat, j: nat)
    requires i < j < |AllocationOrder(g)|
    ensures var a, b := AllocationOrder(g)[i], AllocationOrder(g)[j];
            RingOf(g, a) < RingOf(g, b) || (RingOf(g, a) == RingOf(g, b) && (a.x < b.x || (a.x == b.x && a.y < b.y)))
  {
    AllocationOrderCorrect(g);
    assert Before(g, AllocationOrder(g)[i], AllocationOrder(g)[j]);
  }
}
