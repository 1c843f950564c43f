/** `route_plots` of `server/expeditions.py`: breadth-first search over the 8-neighbour plot grid,
    through enterable plots only. */
module Routing {
  import opened Options
  import opened Plots

  /** A hop the search may take: to a different, in-grid, enterable plot at most one away. */
  predicate Hop(g: Grid, enterable: Cell -> bool, a: Cell, b: Cell) {
    a != b && Abs(a.x - b.x) <= 1 && Abs(a.y - b.y) <= 1 && InGrid(g, b) && enterable(b)
  }

  /** A route lists plots from `start` to `goal`, each reached from the one before by a hop. */
  ghost predicate IsRoute(g: Grid, enterable: Cell -> bool, start: Cell, goal: Cell, path: seq<Cell>) {
    && |path| > 0 && path[0] == start && path[|path| - 1] == goal
    && forall i :: 0 <= i < |path| - 1 ==> Hop(g, enterable, path[i], path[i + 1])
  }

  lemma LastHop(g: Grid, enterable: Cell -> bool, start: Cell, goal: Cell, path: seq<Cell>)
    requires IsRoute(g, enterable, start, goal, path) && start != goal
    ensures enterable(goal)
  {
    assert Hop(g, enterable, path[|path| - 2], path[|path| - 1]);
  }

  // ---- The search state ----

  /** `prev` is a tree rooted at `start`; `dist` is the depth in it. */
  ghost predicate IsTree(g: Grid, enterable: Cell -> bool, start: Cell,
                         prev: map<Cell, Option<Cell>>, dist: map<Cell, nat>) {
    && prev.Keys == dist.Keys && start in prev && prev[start] == None && dist[start] == 0
    && forall c :: c in prev && c != start ==>
         && prev[c].Some? && prev[c].value in prev
         && Hop(g, enterable, prev[c].value, c) && dist[c] == dist[prev[c].value] + 1
  }

  /** Every hop from `c` leads to a visited plot that is at most one deeper. */
  ghost predicate Settled(g: Grid, enterable: Cell -> bool, dist: map<Cell, nat>, c: Cell) {
    c in dist && forall n :: Hop(g, enterable, c, n) ==> n in dist && dist[n] <= dist[c] + 1
  }

  /** The queue holds visited plots in order of depth, none above `level`; no plot is deeper than
      one below `level`; and everything that left the queue, except `cur`, is settled. */
  ghost predicate IsFrontier(g: Grid, enterable: Cell -> bool, dist: map<Cell, nat>, queue: seq<Cell>,
                             level: nat, cur: Option<Cell>) {
    && (forall i :: 0 <= i < |queue| ==> queue[i] in dist && level <= dist[queue[i]])
    && (forall i, j :: 0 <= i < j < |queue| ==> dist[queue[i]] <= dist[queue[j]])
    && (forall c :: c in dist ==> dist[c] <= level + 1)
    && (forall c :: c in dist && c !in queue && Some(c) != cur ==> Settled(g, enterable, dist, c))
  }

  /** If every plot above `depth` is settled, a walk reaches only visited plots, and no deeper than
      its own length. */
  lemma {:induction false} WalkIsVisited(g: Grid, enterable: Cell -> bool, start: Cell, goal: Cell,
                                         dist: map<Cell, nat>, path: seq<Cell>, i: nat, depth: nat)
    requires IsRoute(g, enterable, start, goal, path) && i < |path| && i <= depth
    requires start in dist && dist[start] == 0
    requires forall c :: c in dist && dist[c] < depth ==> Settled(g, enterable, dist, c)
    ensures path[i] in dist && dist[path[i]] <= i
  {
    if i > 0 {
      WalkIsVisited(g, enterable, start, goal, dist, path, i - 1, depth);
      assert Hop(g, enterable, path[i - 1], path[i]);
    }
  }

  /** When the search meets the goal from `cur`, no route can be shorter than through `cur`. */
  lemma NoShorterRoute(g: Grid, enterable: Cell -> bool, start: Cell, goal: Cell, dist: map<Cell, nat>,
                       queue: seq<Cell>, cur: Cell, path: seq<Cell>)
    requires start in dist && dist[start] == 0 && cur in dist && goal !in dist
    requires IsFrontier(g, enterable, dist, queue, dist[cur], Some(cur))
    requires IsRoute(g, enterable, start, goal, path)
    ensures |path| >= dist[cur] + 2
  {
    if |path| <= dist[cur] + 1 {
      WalkIsVisited(g, enterable, start, goal, dist, path, |path| - 1, dist[cur]);
    }
  }

  /** When the queue runs dry, no route exists. */
  lemma NoRoute(g: Grid, enterable: Cell -> bool, start: Cell, goal: Cell, dist: map<Cell, nat>,
                level: nat, path: seq<Cell>)
    requires start in dist && dist[start] == 0 && goal !in dist
    requires IsFrontier(g, enterable, dist, [], level, None)
    ensures !IsRoute(g, enterable, start, goal, path)
  {
    if IsRoute(g, enterable, start, goal, path) {
      WalkIsVisited(g, enterable, start, goal, dist, path, |path| - 1, |path| + level + 2);
    }
  }

  /** Visiting one more plot from `cur` keeps the tree. */
  lemma VisitKeepsTree(g: Grid, enterable: Cell -> bool, start: Cell, prev: map<Cell, Option<Cell>>,
                       dist: map<Cell, nat>, cur: Cell, n: Cell)
    requires IsTree(g, enterable, start, prev, dist) && cur in dist && n !in dist && Hop(g, enterable, cur, n)
    ensures IsTree(g, enterable, start, prev[n := Some(cur)], dist[n := dist[cur] + 1])
  {
    hide Hop;
  }

  /** A settled plot stays settled when an unvisited plot is visited. */
  lemma VisitKeepsSettled(g: Grid, enterable: Cell -> bool, dist: map<Cell, nat>, n: Cell, depth: nat, c: Cell)
    requires Settled(g, enterable, dist, c) && n !in dist
    ensures Settled(g, enterable, dist[n := depth], c)
  {
    hide Hop;
  }

  /** Visiting one more plot from `cur` keeps the frontier. */
  lemma VisitKeepsFrontier(g: Grid, enterable: Cell -> bool, dist: map<Cell, nat>, queue: seq<Cell>, cur: Cell, n: Cell)
    requires cur in dist && n !in dist && IsFrontier(g, enterable, dist, queue, dist[cur], Some(cur))
    ensures IsFrontier(g, enterable, dist[n := dist[cur] + 1], queue + [n], dist[cur], Some(cur))
  {
    hide Settled;
    var dist', queue' := dist[n := dist[cur] + 1], queue + [n];
    assert forall i :: 0 <= i < |queue| ==> queue'[i] == queue[i];
    assert n in queue' by { assert queue'[|queue|] == n; }
    forall c | c in dist' && c !in queue' && Some(c) != Some(cur) ensures Settled(g, enterable, dist', c) {
      VisitKeepsSettled(g, enterable, dist, n, dist[cur] + 1, c);
    }
  }

  /** Once every hop from `cur` is visited, the search may move on to the next plot in the queue. */
  lemma NextKeepsFrontier(g: Grid, enterable: Cell -> bool, dist: map<Cell, nat>, queue: seq<Cell>, cur: Cell)
    requires cur in dist && IsFrontier(g, enterable, dist, queue, dist[cur], Some(cur))
    requires forall n :: Hop(g, enterable, cur, n) ==> n in dist
    ensures queue == [] ==> IsFrontier(g, enterable, dist, [], dist[cur], None)
    ensures queue != [] ==> queue[0] in dist
    ensures queue != [] ==> IsFrontier(g, enterable, dist, queue[1..], dist[queue[0]], Some(queue[0]))
  {
    assert Settled(g, enterable, dist, cur);
    if queue != [] {
      forall c | c in dist && c !in queue[1..] && c != queue[0] ensures Settled(g, enterable, dist, c) {
        assert c !in queue;
      }
    }
  }

  ghost function GridCells(g: Grid): set<Cell> {
    set x, y | 0 <= x < g.cols && 0 <= y < g.rows :: Cell(x, y)
  }

  function Reversed(s: seq<Cell>): seq<Cell> {
    seq(|s|, i requires 0 <= i < |s| => s[|s| - 1 - i])
  }

  /** Follows `prev` from `goal` back to the root and reverses the list. */
  method PathTo(g: Grid, enterable: Cell -> bool, start: Cell, goal: Cell,
                prev: map<Cell, Option<Cell>>, ghost dist: map<Cell, nat>) returns (path: seq<Cell>)
    requires IsTree(g, enterable, start, prev, dist) && goal in prev
    ensures IsRoute(g, enterable, start, goal, path) && |path| == dist[goal] + 1
  {
    path := [goal];
    while prev[path[|path| - 1]].Some?
      invariant |path| > 0 && path[0] == goal && path[|path| - 1] in prev
      invariant dist[path[|path| - 1]] + |path| == dist[goal] + 1
      invariant forall i :: 0 <= i < |path| - 1 ==> Hop(g, enterable, path[i + 1], path[i])
      decreases dist[path[|path| - 1]]
    {
      path := path + [prev[path[|path| - 1]].value];
    }
    path := Reversed(path);
  }

  /** The inner loops: visits every unvisited plot one hop from `cur`, in the source's order, and
      stops as soon as that is the goal. */
  method Expand(g: Grid, enterable: Cell -> bool, start: Cell, goal: Cell, prev0: map<Cell, Option<Cell>>,
                ghost dist0: map<Cell, nat>, queue0: seq<Cell>, cur: Cell)
    returns (prev: map<Cell, Option<Cell>>, ghost dist: map<Cell, nat>, queue: seq<Cell>, found: bool)
    requires IsTree(g, enterable, start, prev0, dist0) && prev0.Keys == dist0.Keys && cur in prev0 && goal !in prev0
    requires IsFrontier(g, enterable, dist0, queue0, dist0[cur], Some(cur))
    ensures IsTree(g, enterable, start, prev, dist) && prev.Keys == dist.Keys
    ensures cur in prev && dist[cur] == dist0[cur]
    ensures Grown(g, prev0, queue0, prev, queue)
    ensures !found ==> goal !in prev && IsFrontier(g, enterable, dist, queue, dist[cur], Some(cur))
    ensures !found ==> forall n :: Hop(g, enterable, cur, n) ==> n in dist
    ensures found ==> goal in prev && NoneShorter(g, enterable, start, goal, dist[goal] + 1)
  {
    hide IsTree, IsFrontier, IsRoute, Grown;
    prev, dist, queue, found := prev0, dist0, queue0, false;
    NothingYet(g, prev0, queue0);
    for dx := -1 to 2
      invariant IsTree(g, enterable, start, prev, dist) && cur in dist && dist[cur] == dist0[cur]
      invariant prev.Keys == dist.Keys && goal !in dist
      invariant IsFrontier(g, enterable, dist, queue, dist[cur], Some(cur))
      invariant Grown(g, prev0, queue0, prev, queue)
      invariant forall n :: Hop(g, enterable, cur, n) && n.x < cur.x + dx ==> n in dist
    {
      for dy := -1 to 2
        invariant IsTree(g, enterable, start, prev, dist) && cur in dist && dist[cur] == dist0[cur]
        invariant prev.Keys == dist.Keys && goal !in dist
        invariant IsFrontier(g, enterable, dist, queue, dist[cur], Some(cur))
        invariant Grown(g, prev0, queue0, prev, queue)
        invariant forall n :: Hop(g, enterable, cur, n) && n.x < cur.x + dx ==> n in dist
        invariant forall n :: Hop(g, enterable, cur, n) && n.x == cur.x + dx && n.y < cur.y + dy ==> n in dist
      {
        if dx == 0 && dy == 0 {
          continue;
        }
        var nxt := Cell(cur.x + dx, cur.y + dy);
        if !InGrid(g, nxt) || nxt in prev || !enterable(nxt) {
          continue;
        }
        VisitKeepsTree(g, enterable, start, prev, dist, cur, nxt);
        if nxt == goal {
          RootDepth(g, enterable, start, prev, dist);
          forall path ensures IsRoute(g, enterable, start, goal, path) ==> dist[cur] + 2 <= |path| {
            if IsRoute(g, enterable, start, goal, path) {
              NoShorterRoute(g, enterable, start, goal, dist, queue, cur, path);
            }
          }
          VisitGrows(g, prev0, queue0, prev, queue, nxt, Some(cur), queue);
          prev, dist, found := prev[nxt := Some(cur)], dist[nxt := dist[cur] + 1], true;
          return;
        }
        VisitKeepsFrontier(g, enterable, dist, queue, cur, nxt);
        VisitGrows(g, prev0, queue0, prev, queue, nxt, Some(cur), queue + [nxt]);
        prev, dist, queue := prev[nxt := Some(cur)], dist[nxt := dist[cur] + 1], queue + [nxt];
      }
    }
  }

  ghost predicate NoneShorter(g: Grid, enterable: Cell -> bool, start: Cell, goal: Cell, length: nat) {
    forall path :: IsRoute(g, enterable, start, goal, path) ==> length <= |path|
  }

  lemma StartOfSearch(g: Grid, enterable: Cell -> bool, start: Cell)
    ensures IsTree(g, enterable, start, map[start := None], map[start := 0])
    ensures IsFrontier(g, enterable, map[start := 0], [], 0, Some(start))
  {
  }

  lemma RootDepth(g: Grid, enterable: Cell -> bool, start: Cell, prev: map<Cell, Option<Cell>>, dist: map<Cell, nat>)
    requires IsTree(g, enterable, start, prev, dist)
    ensures start in dist && dist[start] == 0
  {
  }

  lemma NothingYet(g: Grid, prev: map<Cell, Option<Cell>>, queue: seq<Cell>)
    ensures Grown(g, prev, queue, prev, queue)
  {
  }

  lemma VisitGrows(g: Grid, prev0: map<Cell, Option<Cell>>, queue0: seq<Cell>, prev: map<Cell, Option<Cell>>,
                   queue: seq<Cell>, n: Cell, via: Option<Cell>, queue': seq<Cell>)
    requires Grown(g, prev0, queue0, prev, queue) && n !in prev && InGrid(g, n)
    ensures Grown(g, prev0, queue0, prev[n := via], queue')
  {
    assert n in prev[n := via].Keys && n !in prev0.Keys;
    assert prev[n := via].Keys == prev.Keys + {n};
  }

  /** Nothing was visited, or some grid plots were. */
  ghost predicate Grown(g: Grid, prev0: map<Cell, Option<Cell>>, queue0: seq<Cell>,
                        prev: map<Cell, Option<Cell>>, queue: seq<Cell>) {
    || (prev.Keys == prev0.Keys && queue == queue0)
    || (prev0.Keys < prev.Keys && prev.Keys - prev0.Keys <= GridCells(g))
  }

  lemma FewerLeft(g: Grid, before: set<Cell>, after: set<Cell>)
    requires before < after && after - before <= GridCells(g)
    ensures |GridCells(g) - after| < |GridCells(g) - before|
  {
    var c :| c in after && c !in before;
    assert GridCells(g) - after <= GridCells(g) - before - {c};
    SetSizes(GridCells(g) - after, GridCells(g) - before - {c});
  }

  lemma {:induction false} SetSizes(a: set<Cell>, b: set<Cell>)
    requires a <= b
    ensures |a| <= |b|
  {
    if a != {} {
      var c :| c in a;
      SetSizes(a - {c}, b - {c});
    }
  }

  /** No route ends at a plot that may not be entered. */
  lemma GoalIsShut(g: Grid, enterable: Cell -> bool, start: Cell, goal: Cell)
    requires start != goal && !enterable(goal)
    ensures !exists path :: IsRoute(g, enterable, start, goal, path)
  {
    forall path ensures !IsRoute(g, enterable, start, goal, path) {
      if IsRoute(g, enterable, start, goal, path) {
        LastHop(g, enterable, start, goal, path);
      }
    }
  }

  ghost predicate Unreachable(g: Grid, enterable: Cell -> bool, start: Cell, goal: Cell) {
    forall path :: !IsRoute(g, enterable, start, goal, path)
  }

  /** Either fewer plots are left, or nothing was visited. */
  lemma Progress(g: Grid, prev0: map<Cell, Option<Cell>>, queue0: seq<Cell>, prev: map<Cell, Option<Cell>>, queue: seq<Cell>)
    requires Grown(g, prev0, queue0, prev, queue)
    ensures |GridCells(g) - prev.Keys| < |GridCells(g) - prev0.Keys| || (prev.Keys == prev0.Keys && queue == queue0)
  {
    if prev.Keys != prev0.Keys {
      FewerLeft(g, prev0.Keys, prev.Keys);
    }
  }

  /** Every plot that can be reached was visited, the goal was not. */
  lemma SearchedInVain(g: Grid, enterable: Cell -> bool, start: Cell, goal: Cell, prev: map<Cell, Option<Cell>>,
                       dist: map<Cell, nat>, level: nat)
    requires IsTree(g, enterable, start, prev, dist) && goal !in dist && IsFrontier(g, enterable, dist, [], level, None)
    ensures Unreachable(g, enterable, start, goal)
  {
    hide IsRoute, IsTree, IsFrontier;
    RootDepth(g, enterable, start, prev, dist);
    forall path ensures !IsRoute(g, enterable, start, goal, path) {
      NoRoute(g, enterable, start, goal, dist, level, path);
    }
  }

  /** A shortest route from `start` to `goal`, or None exactly when there is none.  `start` and
      `goal` may be any plots, in the grid or not. */
  method RoutePlots(g: Grid, enterable: Cell -> bool, start: Cell, goal: Cell) returns (route: Option<seq<Cell>>)
    ensures route.Some? ==> IsRoute(g, enterable, start, goal, route.value)
    ensures route.Some? ==> NoneShorter(g, enterable, start, goal, |route.value|)
    ensures route.None? ==> !exists path :: IsRoute(g, enterable, start, goal, path)
  {
    if start == goal {
      return Some([start]);
    }
    hide IsRoute;
    if !enterable(goal) {
      GoalIsShut(g, enterable, start, goal);
      return None;
    }
    route := Search(g, enterable, start, goal);
  }

  method Search(g: Grid, enterable: Cell -> bool, start: Cell, goal: Cell) returns (route: Option<seq<Cell>>)
    requires start != goal
    ensures route.Some? ==> IsRoute(g, enterable, start, goal, route.value)
    ensures route.Some? ==> NoneShorter(g, enterable, start, goal, |route.value|)
    ensures route.None? ==> Unreachable(g, enterable, start, goal)
  {
    hide Hop, IsRoute, GridCells, IsTree, IsFrontier, NoneShorter, Unreachable, Grown;
    StartOfSearch(g, enterable, start);
    var prev: map<Cell, Option<Cell>> := map[start := None];
    ghost var dist: map<Cell, nat> := map[start := 0];
    ghost var level := 0;
    var queue := [start];
    assert queue[1..] == [];
    while queue != []
      invariant IsTree(g, enterable, start, prev, dist) && prev.Keys == dist.Keys && goal !in dist
      invariant queue == [] ==> IsFrontier(g, enterable, dist, [], level, None)
      invariant queue != [] ==> queue[0] in dist
      invariant queue != [] ==> IsFrontier(g, enterable, dist, queue[1..], dist[queue[0]], Some(queue[0]))
      decreases |GridCells(g) - prev.Keys|, |queue|
    {
      var cur := queue[0];
      queue := queue[1..];
      ghost var prev0, queue0 := prev, queue;
      var found;
      prev, dist, queue, found := Expand(g, enterable, start, goal, prev, dist, queue, cur);
      if found {
        var path := PathTo(g, enterable, start, goal, prev, dist);
        return Some(path);
      }
      Progress(g, prev0, queue0, prev, queue);
      NextKeepsFrontier(g, enterable, dist, queue, cur);
      level := dist[cur];
    }
    SearchedInVain(g, enterable, start, goal, prev, dist, level);
    return None;
  }

  // ---- The way on an open grid ----

  function Apart(a: Cell, b: Cell): nat {
    var dx, dy := if a.x < b.x then b.x - a.x else a.x - b.x, if a.y < b.y then b.y - a.y else a.y - b.y;
    if dx > dy then dx else dy
  }

  function Toward(from: int, to: int): int {
    if from < to then from + 1 else if from > to then from - 1 else from
  }

  function Straight(a: Cell, b: Cell): (path: seq<Cell>)
    ensures |path| > 0
    decreases Apart(a, b)
  {
    if a == b then [a] else [a] + Straight(Cell(Toward(a.x, b.x), Toward(a.y, b.y)), b)
  }

  ghost predicate Open(g: Grid, enterable: Cell -> bool) {
    forall c :: InGrid(g, c) ==> enterable(c)
  }

  lemma {:induction false} StraightIsRoute(g: Grid, enterable: Cell -> bool, a: Cell, b: Cell)
    requires Open(g, enterable) && InGrid(g, a) && InGrid(g, b)
    ensures IsRoute(g, enterable, a, b, Straight(a, b)) && |Straight(a, b)| == Apart(a, b) + 1
    decreases Apart(a, b)
  {
    if a != b {
      var next := Cell(Toward(a.x, b.x), Toward(a.y, b.y));
      StraightIsRoute(g, enterable, next, b);
      var rest := Straight(next, b);
      assert Hop(g, enterable, a, next);
      assert forall i :: 1 <= i < |rest| + 1 ==> ([a] + rest)[i] == rest[i - 1];
    }
  }

  lemma {:induction false} HopsAreShort(g: Grid, enterable: Cell -> bool, start: Cell, goal: Cell, path: seq<Cell>, i: nat)
    requires IsRoute(g, enterable, start, goal, path) && i < |path|
    ensures Apart(start, path[i]) <= i
  {
    if i > 0 {
      HopsAreShort(g, enterable, start, goal, path, i - 1);
      assert Hop(g, enterable, path[i - 1], path[i]);
    }
  }

  /** Where nothing is shut, a shortest route makes as many hops as the goal is away in columns or rows,
      whichever is more: a hop may go sideways, up, down and across. */
  lemma OpenGridDistance(g: Grid, enterable: Cell -> bool, start: Cell, goal: Cell, route: seq<Cell>)
    requires Open(g, enterable) && InGrid(g, start) && InGrid(g, goal)
    requires IsRoute(g, enterable, start, goal, route) && NoneShorter(g, enterable, start, goal, |route|)
    ensures |route| == Apart(start, goal) + 1
  {
    StraightIsRoute(g, enterable, start, goal);
    HopsAreShort(g, enterable, start, goal, route, |route| - 1);
  }

  /** The plots one hop away. */
  lemma HopsAreTheEight(g: Grid, enterable: Cell -> bool, a: Cell, b: Cell)
    ensures Hop(g, enterable, a, b)
       <==> && b in {Cell(a.x - 1, a.y - 1), Cell(a.x - 1, a.y), Cell(a.x - 1, a.y + 1), Cell(a.x, a.y - 1),
                     Cell(a.x, a.y + 1), Cell(a.x + 1, a.y - 1), Cell(a.x + 1, a.y), Cell(a.x + 1, a.y + 1)}
            && 0 <= b.x < g.cols && 0 <= b.y < g.rows && enterable(b)
  {
    assert b == Cell(b.x, b.y);
  }
}
