/** PuzzleGenerator.cs: a maze on a width x height grid of CellWalls bit sets,
    carved by an iterative randomized depth-first backtracker. */
module PuzzleGenerator {
  import opened Basics

  /** CellWalls is a [Flags] enum: one bit per blocked side, plus VISITED. */
  type CellWalls = bv8

  const NO_WALLS: CellWalls := 0
  const LEFT: CellWalls := 1
  const RIGHT: CellWalls := 2
  const UP: CellWalls := 4
  const DOWN: CellWalls := 8
  const VISITED: CellWalls := 128
  const ALL_WALLS: CellWalls := 15

  predicate IsWall(w: CellWalls) {
    w == LEFT || w == RIGHT || w == UP || w == DOWN
  }

  /** Enum.HasFlag. */
  predicate HasFlag(c: CellWalls, flag: CellWalls) {
    c & flag == flag
  }

  predicate InGrid(p: Position, width: int, height: int) {
    0 <= p.x < width && 0 <= p.y < height
  }

  /** The cell on the other side of wall w of p (UP is y + 1, as in the source). */
  function Across(p: Position, w: CellWalls): Position
    requires IsWall(w)
  {
    if w == LEFT then Position(p.x - 1, p.y)
    else if w == RIGHT then Position(p.x + 1, p.y)
    else if w == UP then Position(p.x, p.y + 1)
    else Position(p.x, p.y - 1)
  }

  /** The wall the neighbour across w shares with p; any other value maps to LEFT. */
  function GetOppositeWall(wall: CellWalls): (r: CellWalls)
    ensures IsWall(wall) ==> IsWall(r) && r != wall
    ensures IsWall(wall) ==> forall p :: Across(Across(p, wall), r) == p
    ensures !IsWall(wall) ==> r == LEFT
  {
    if wall == RIGHT then LEFT
    else if wall == LEFT then RIGHT
    else if wall == UP then DOWN
    else if wall == DOWN then UP
    else LEFT
  }

  lemma OppositeWallIsInvolution(w: CellWalls)
    requires IsWall(w)
    ensures GetOppositeWall(GetOppositeWall(w)) == w
  {
  }

  /** AdjacentCell: a neighbour of some cell and the wall they share. */
  datatype AdjacentCell = AdjacentCell(location: Position, commonWall: CellWalls)

  predicate Shaped(cells: array2<CellWalls>, width: int, height: int) {
    cells.Length0 == width && cells.Length1 == height
  }

  predicate Visited(cells: array2<CellWalls>, p: Position)
    requires 0 <= p.x < cells.Length0 && 0 <= p.y < cells.Length1
    reads cells
  {
    HasFlag(cells[p.x, p.y], VISITED)
  }

  /** The in-grid, not yet visited neighbours of p, in the order left, down, up, right. */
  function GetUnvisitedAdjacentCells(p: Position, cells: array2<CellWalls>, width: int, height: int)
    : (adjacents: seq<AdjacentCell>)
    requires Shaped(cells, width, height) && InGrid(p, width, height)
    reads cells
    ensures |adjacents| <= 4
  {
    (if p.x > 0 && !HasFlag(cells[p.x - 1, p.y], VISITED)
     then [AdjacentCell(Position(p.x - 1, p.y), LEFT)] else [])
    + (if p.y > 0 && !HasFlag(cells[p.x, p.y - 1], VISITED)
       then [AdjacentCell(Position(p.x, p.y - 1), DOWN)] else [])
    + (if p.y < height - 1 && !HasFlag(cells[p.x, p.y + 1], VISITED)
       then [AdjacentCell(Position(p.x, p.y + 1), UP)] else [])
    + (if p.x < width - 1 && !HasFlag(cells[p.x + 1, p.y], VISITED)
       then [AdjacentCell(Position(p.x + 1, p.y), RIGHT)] else [])
  }

  /** Each cell GetUnvisitedAdjacentCells lists is an in-grid, unvisited cell
      across the wall recorded with it. */
  lemma {:induction false} UnvisitedAdjacentCellsSound(p: Position, cells: array2<CellWalls>,
                                                       width: int, height: int)
    requires Shaped(cells, width, height) && InGrid(p, width, height)
    ensures forall a :: a in GetUnvisitedAdjacentCells(p, cells, width, height) ==>
      IsWall(a.commonWall) && a.location == Across(p, a.commonWall) &&
      InGrid(a.location, width, height) && !Visited(cells, a.location)
  {
    var l := if p.x > 0 && !HasFlag(cells[p.x - 1, p.y], VISITED)
             then [AdjacentCell(Position(p.x - 1, p.y), LEFT)] else [];
    var d := if p.y > 0 && !HasFlag(cells[p.x, p.y - 1], VISITED)
             then [AdjacentCell(Position(p.x, p.y - 1), DOWN)] else [];
    var u := if p.y < height - 1 && !HasFlag(cells[p.x, p.y + 1], VISITED)
             then [AdjacentCell(Position(p.x, p.y + 1), UP)] else [];
    var r := if p.x < width - 1 && !HasFlag(cells[p.x + 1, p.y], VISITED)
             then [AdjacentCell(Position(p.x + 1, p.y), RIGHT)] else [];
    var all := GetUnvisitedAdjacentCells(p, cells, width, height);
    assert all == l + d + u + r;
    forall a | a in all
      ensures IsWall(a.commonWall) && a.location == Across(p, a.commonWall)
      ensures InGrid(a.location, width, height) && !Visited(cells, a.location)
    {
      assert a in l || a in d || a in u || a in r;
    }
  }

  /** Every in-grid, unvisited cell across a wall of p is listed, with that wall. */
  lemma {:induction false} UnvisitedAdjacentCellsComplete(p: Position, cells: array2<CellWalls>,
                                                          width: int, height: int)
    requires Shaped(cells, width, height) && InGrid(p, width, height)
    ensures forall w {:trigger Across(p, w)} ::
      IsWall(w) && InGrid(Across(p, w), width, height) && !Visited(cells, Across(p, w)) ==>
      AdjacentCell(Across(p, w), w) in GetUnvisitedAdjacentCells(p, cells, width, height)
  {
    var l := if p.x > 0 && !HasFlag(cells[p.x - 1, p.y], VISITED)
             then [AdjacentCell(Position(p.x - 1, p.y), LEFT)] else [];
    var d := if p.y > 0 && !HasFlag(cells[p.x, p.y - 1], VISITED)
             then [AdjacentCell(Position(p.x, p.y - 1), DOWN)] else [];
    var u := if p.y < height - 1 && !HasFlag(cells[p.x, p.y + 1], VISITED)
             then [AdjacentCell(Position(p.x, p.y + 1), UP)] else [];
    var r := if p.x < width - 1 && !HasFlag(cells[p.x + 1, p.y], VISITED)
             then [AdjacentCell(Position(p.x + 1, p.y), RIGHT)] else [];
    var all := GetUnvisitedAdjacentCells(p, cells, width, height);
    assert all == l + d + u + r;
    forall w | IsWall(w) && InGrid(Across(p, w), width, height) && !Visited(cells, Across(p, w))
      ensures AdjacentCell(Across(p, w), w) in all
    {
      if w == LEFT {
        assert AdjacentCell(Across(p, w), w) in l;
      } else if w == DOWN {
        assert AdjacentCell(Across(p, w), w) in d;
      } else if w == UP {
        assert AdjacentCell(Across(p, w), w) in u;
      } else {
        assert AdjacentCell(Across(p, w), w) in r;
      }
    }
  }

  // ---------------------------------------------------------------------------
  // The shape of a finished maze, stated on a snapshot of the grid

  function AllCells(width: int, height: int): (r: set<Position>)
    ensures forall p :: p in r <==> InGrid(p, width, height)
  {
    set x, y | 0 <= x < width && 0 <= y < height :: Position(x, y)
  }

  /** The grid as a value: cell p holds cells[p.x, p.y]. */
  function Snapshot(cells: array2<CellWalls>): (m: map<Position, CellWalls>)
    reads cells
    ensures m.Keys == AllCells(cells.Length0, cells.Length1)
    ensures forall p {:trigger m[p]} :: p in m ==> m[p] == cells[p.x, p.y]
  {
    map p | p in AllCells(cells.Length0, cells.Length1) :: cells[p.x, p.y]
  }

  /** m holds exactly the grid's cells, with their current contents. */
  ghost predicate Mirrors(cells: array2<CellWalls>, m: map<Position, CellWalls>)
    reads cells
  {
    && m.Keys == AllCells(cells.Length0, cells.Length1)
    && forall p {:trigger m[p]} :: p in m ==> m[p] == cells[p.x, p.y]
  }

  lemma SnapshotIs(cells: array2<CellWalls>, m: map<Position, CellWalls>)
    requires Mirrors(cells, m)
    ensures Snapshot(cells) == m
  {
  }

  const Origin: Position := Position(0, 0)

  ghost predicate Seen(m: map<Position, CellWalls>, p: Position) {
    p in m && HasFlag(m[p], VISITED)
  }

  /** p and q are joined by a parent link, in either direction. */
  ghost predicate TreeEdge(parent: map<Position, Position>, p: Position, q: Position) {
    (p in parent && parent[p] == q) || (q in parent && parent[q] == p)
  }

  /** No bits other than the four walls and VISITED. */
  ghost predicate CleanBits(m: map<Position, CellWalls>) {
    forall p {:trigger Clean(m[p])} :: p in m ==> Clean(m[p])
  }

  predicate Clean(v: CellWalls) {
    v & !(ALL_WALLS | VISITED) == 0
  }

  /** p and q share a side. */
  predicate Neighbours(p: Position, q: Position) {
    || (p.x == q.x && (p.y == q.y + 1 || p.y + 1 == q.y))
    || (p.y == q.y && (p.x == q.x + 1 || p.x + 1 == q.x))
  }

  /** Every parent link joins two adjacent cells of the grid and leads to a
      strictly smaller depth; so following parents from any cell ends at a cell
      without a parent. */
  ghost predicate ParentLinks(m: map<Position, CellWalls>, parent: map<Position, Position>,
                              depth: map<Position, nat>)
  {
    forall p :: p in parent ==>
      p in m && p != Origin && p in depth && parent[p] in depth && parent[p] in m &&
      depth[parent[p]] < depth[p] &&
      Neighbours(p, parent[p])
  }

  /** A wall of a cell is missing exactly where a parent link crosses it. */
  ghost predicate WallsFollowLinks(m: map<Position, CellWalls>, parent: map<Position, Position>) {
    forall p, w {:trigger TreeEdge(parent, p, Across(p, w))} ::
      p in m && IsWall(w) ==> (m[p] & w == 0 <==> TreeEdge(parent, p, Across(p, w)))
  }

  /** The open sides of the grid are exactly the links of a tree rooted at the
      origin: every other cell has a parent across one of its walls, depth falls
      along every link (so links never form a cycle and lead every cell to the
      origin), and a wall is missing exactly where a link crosses it. */
  ghost predicate TreeShape(m: map<Position, CellWalls>, parent: map<Position, Position>,
                            depth: map<Position, nat>)
  {
    && ParentLinks(m, parent, depth)
    && (forall p :: p in m && p != Origin ==> p in parent)
    && WallsFollowLinks(m, parent)
  }

  ghost predicate IsSpanningTree(m: map<Position, CellWalls>) {
    exists parent: map<Position, Position>, depth: map<Position, nat> :: TreeShape(m, parent, depth)
  }

  // ---------------------------------------------------------------------------
  // Backtrack and its loop invariant

  /** All in-grid neighbours of p are visited. */
  ghost predicate Finished(m: map<Position, CellWalls>, p: Position) {
    forall w {:trigger Across(p, w)} :: IsWall(w) && Across(p, w) in m ==> Seen(m, Across(p, w))
  }

  /** The state of the backtracker between two steps. */
  ghost predicate Carving(m: map<Position, CellWalls>, stack: seq<Position>, unvisited: set<Position>,
                          parent: map<Position, Position>, depth: map<Position, nat>)
  {
    && CleanBits(m)
    && Seen(m, Origin) && Origin in depth
    && UnvisitedExact(m, unvisited)
    && ParentLinks(m, parent, depth)
    && LinkedIffSeen(m, parent)
    && WallsFollowLinks(m, parent)
    && StackSeen(m, stack)
    && ClosedOffStack(m, stack)
  }

  /** The ghost set of unvisited cells is exact. */
  ghost predicate UnvisitedExact(m: map<Position, CellWalls>, unvisited: set<Position>) {
    forall p {:trigger p in unvisited} :: p in unvisited <==> p in m && !Seen(m, p)
  }

  /** Parents are visited, and a cell other than the origin has a parent exactly when visited. */
  ghost predicate LinkedIffSeen(m: map<Position, CellWalls>, parent: map<Position, Position>) {
    && (forall p :: p in parent ==> Seen(m, parent[p]))
    && (forall p {:trigger p in parent} :: p in m && p != Origin ==> (p in parent <==> Seen(m, p)))
  }

  ghost predicate StackSeen(m: map<Position, CellWalls>, stack: seq<Position>) {
    forall i :: 0 <= i < |stack| ==> Seen(m, stack[i])
  }

  /** A visited cell off the stack has no unvisited neighbour left. */
  ghost predicate ClosedOffStack(m: map<Position, CellWalls>, stack: seq<Position>) {
    forall p {:trigger Finished(m, p)} :: Seen(m, p) && p !in stack ==> Finished(m, p)
  }

  lemma ClearWallBits(v: CellWalls, w: CellWalls, u: CellWalls)
    requires IsWall(w) && IsWall(u)
    ensures (v & !w) & w == 0
    ensures u != w ==> ((v & !w) & u == 0 <==> v & u == 0)
    ensures HasFlag(v & !w, VISITED) == HasFlag(v, VISITED)
    ensures (v | VISITED) & u == v & u
    ensures HasFlag(v | VISITED, VISITED)
    ensures Clean(v) ==> Clean(v & !w) && Clean(v | VISITED)
  {
  }

  /** The grid after carving from c across wall w into n = Across(c, w). */
  function Carved(m: map<Position, CellWalls>, c: Position, w: CellWalls): (m2: map<Position, CellWalls>)
    requires IsWall(w) && c in m && Across(c, w) in m
    ensures m2.Keys == m.Keys
  {
    var n := Across(c, w);
    var m1 := m[c := m[c] & !w];
    m1[n := (m1[n] & !GetOppositeWall(w)) | VISITED]
  }

  lemma CarvedCells(m: map<Position, CellWalls>, c: Position, w: CellWalls, p: Position)
    requires IsWall(w) && c in m && Across(c, w) in m && c != Across(c, w) && p in m
    ensures p == Across(c, w) ==> Carved(m, c, w)[p] == (m[p] & !GetOppositeWall(w)) | VISITED
    ensures p == c ==> Carved(m, c, w)[p] == m[p] & !w
    ensures p != c && p != Across(c, w) ==> Carved(m, c, w)[p] == m[p]
  {
  }

  lemma {:induction false} CarveKeepsBitsClean(m: map<Position, CellWalls>, c: Position, w: CellWalls)
    requires IsWall(w) && c in m && Across(c, w) in m && c != Across(c, w)
    requires CleanBits(m)
    ensures CleanBits(Carved(m, c, w))
    ensures forall p :: Seen(Carved(m, c, w), p) <==> Seen(m, p) || p == Across(c, w)
  {
    var m2 := Carved(m, c, w);
    var ow := GetOppositeWall(w);
    forall p | p in m
      ensures Clean(m2[p])
      ensures Seen(m2, p) <==> Seen(m, p) || p == Across(c, w)
    {
      CarvedCells(m, c, w, p);
      ClearWallBits(m[p], w, w);
      ClearWallBits(m[p], ow, ow);
      ClearWallBits(m[p] & !ow, ow, ow);
    }
  }

  lemma {:induction false} CarveKeepsLinks(m: map<Position, CellWalls>, parent: map<Position, Position>,
                                           depth: map<Position, nat>, c: Position, w: CellWalls)
    requires IsWall(w) && c in m && Across(c, w) in m && Across(c, w) != Origin
    requires ParentLinks(m, parent, depth) && c in depth && Across(c, w) !in parent
    requires forall p :: p in parent ==> parent[p] != Across(c, w)
    ensures ParentLinks(Carved(m, c, w), parent[Across(c, w) := c],
                        depth[Across(c, w) := depth[c] + 1])
  {
    var n := Across(c, w);
    var m2 := Carved(m, c, w);
    var parent' := parent[n := c];
    var depth' := depth[n := depth[c] + 1];
    forall p | p in parent'
      ensures p in m2 && p != Origin && p in depth' && parent'[p] in depth' && parent'[p] in m2 &&
              depth'[parent'[p]] < depth'[p] && Neighbours(p, parent'[p])
    {
      if p != n {
        assert p in parent && parent'[p] == parent[p] && parent[p] != n;
      }
    }
  }

  /** The wall bits of the newly visited cell n after the carve: only the side facing c is open. */
  lemma CarvedNewCellWalls(v: CellWalls, w: CellWalls, u: CellWalls)
    requires IsWall(w) && IsWall(u) && v & u != 0
    ensures ((v & !GetOppositeWall(w)) | VISITED) & u == 0 <==> u == GetOppositeWall(w)
  {
    ClearWallBits(v, GetOppositeWall(w), u);
    ClearWallBits(v & !GetOppositeWall(w), GetOppositeWall(w), u);
  }

  lemma {:induction false} CarveKeepsWalls(m: map<Position, CellWalls>, parent: map<Position, Position>,
                                           c: Position, w: CellWalls)
    requires IsWall(w) && c in m && Across(c, w) in m && c != Across(c, w)
    requires WallsFollowLinks(m, parent)
    requires Across(c, w) !in parent && forall p :: p in parent ==> parent[p] != Across(c, w)
    ensures WallsFollowLinks(Carved(m, c, w), parent[Across(c, w) := c])
  {
    var n := Across(c, w);
    var ow := GetOppositeWall(w);
    var m2 := Carved(m, c, w);
    var parent' := parent[n := c];
    forall p, u | p in m2 && IsWall(u)
      ensures m2[p] & u == 0 <==> TreeEdge(parent', p, Across(p, u))
    {
      assert m[p] & u == 0 <==> TreeEdge(parent, p, Across(p, u));
      CarvedCells(m, c, w, p);
      if p == n {
        assert !TreeEdge(parent, n, Across(n, u));
        CarvedNewCellWalls(m[p], w, u);
        assert Across(n, ow) == c;
      } else if p == c {
        ClearWallBits(m[p], w, u);
        assert TreeEdge(parent', c, n);
      } else if Across(p, u) == n {
        assert !TreeEdge(parent, p, n) && !TreeEdge(parent', p, n);
      } else {
        assert TreeEdge(parent', p, Across(p, u)) == TreeEdge(parent, p, Across(p, u));
      }
    }
  }

  lemma {:induction false} CarveKeepsSeen(m: map<Position, CellWalls>, stack: seq<Position>,
                                          unvisited: set<Position>, parent: map<Position, Position>,
                                          c: Position, w: CellWalls)
    requires IsWall(w) && c in m && Across(c, w) in m && c != Across(c, w)
    requires forall p :: Seen(Carved(m, c, w), p) <==> Seen(m, p) || p == Across(c, w)
    requires Seen(m, c) && !Seen(m, Across(c, w))
    requires UnvisitedExact(m, unvisited) && LinkedIffSeen(m, parent)
    ensures UnvisitedExact(Carved(m, c, w), unvisited - {Across(c, w)})
    ensures LinkedIffSeen(Carved(m, c, w), parent[Across(c, w) := c])
  {
    var n := Across(c, w);
    var m2 := Carved(m, c, w);
    var parent' := parent[n := c];
    forall p | p in parent'
      ensures Seen(m2, parent'[p])
    {
      if p != n {
        assert parent'[p] == parent[p] && Seen(m, parent[p]);
      }
    }
    forall p | p in m2 && p != Origin
      ensures p in parent' <==> Seen(m2, p)
    {
      assert p in m && (p in parent <==> Seen(m, p));
    }
    forall p
      ensures p in unvisited - {n} <==> p in m2 && !Seen(m2, p)
    {
      assert p in unvisited <==> p in m && !Seen(m, p);
    }
  }

  lemma {:induction false} CarveKeepsStack(m: map<Position, CellWalls>, stack: seq<Position>,
                                           c: Position, w: CellWalls)
    requires IsWall(w) && c in m && Across(c, w) in m && c != Across(c, w)
    requires forall p :: Seen(Carved(m, c, w), p) <==> Seen(m, p) || p == Across(c, w)
    requires StackSeen(m, stack) && ClosedOffStack(m, stack)
    ensures StackSeen(Carved(m, c, w), stack + [Across(c, w)])
    ensures ClosedOffStack(Carved(m, c, w), stack + [Across(c, w)])
  {
    var n := Across(c, w);
    var m2 := Carved(m, c, w);
    var stack' := stack + [n];
    forall i | 0 <= i < |stack'|
      ensures Seen(m2, stack'[i])
    {
      if i < |stack| {
        assert stack'[i] == stack[i] && Seen(m, stack[i]);
      }
    }
    forall p | Seen(m2, p) && p !in stack'
      ensures Finished(m2, p)
    {
      assert Seen(m, p) && p !in stack;
      assert Finished(m, p);
    }
  }

  /** Carving from c into its unvisited neighbour n across wall w keeps the
      invariant: the two walls they share go, n gets c as parent and is pushed. */
  lemma {:induction false} CarveStep(m: map<Position, CellWalls>, stack: seq<Position>,
                                     unvisited: set<Position>, parent: map<Position, Position>,
                                     depth: map<Position, nat>, c: Position, w: CellWalls)
    returns (m': map<Position, CellWalls>, unvisited': set<Position>, parent': map<Position, Position>,
             depth': map<Position, nat>)
    requires Carving(m, stack, unvisited, parent, depth)
    requires |stack| > 0 && stack[|stack| - 1] == c
    requires IsWall(w) && Across(c, w) in m && !Seen(m, Across(c, w))
    ensures Across(c, w) in unvisited && unvisited' == unvisited - {Across(c, w)}
    ensures |unvisited'| == |unvisited| - 1
    ensures m' == Carved(m, c, w)
    ensures parent' == parent[Across(c, w) := c] && depth' == depth[Across(c, w) := depth[c] + 1]
    ensures Carving(m', stack + [Across(c, w)], unvisited', parent', depth')
  {
    m', unvisited', parent', depth' := Carved(m, c, w), unvisited - {Across(c, w)},
      parent[Across(c, w) := c], depth[Across(c, w) := depth[c] + 1];
    var n := Across(c, w);
    assert Seen(m, c);
    assert c != n && n != Origin;
    assert n !in parent;
    assert n in unvisited;
    forall p | p in parent
      ensures parent[p] != n
    {
      assert Seen(m, parent[p]);
    }
    CarveKeepsBitsClean(m, c, w);
    CarveKeepsLinks(m, parent, depth, c, w);
    CarveKeepsWalls(m, parent, c, w);
    CarveKeepsSeen(m, stack, unvisited, parent, c, w);
    CarveKeepsStack(m, stack, c, w);
    assert Seen(Carved(m, c, w), Origin);
  }

  /** The backtracker's first state: only the origin visited and on the stack, all walls up. */
  lemma {:induction false} CarveStart(m: map<Position, CellWalls>, width: int, height: int)
    requires width >= 1 && height >= 1 && m.Keys == AllCells(width, height)
    requires forall p :: p in m ==> m[p] == if p == Origin then ALL_WALLS | VISITED else ALL_WALLS
    ensures Carving(m, [Origin], AllCells(width, height) - {Origin}, map[], map[Origin := 0])
  {
    assert Origin in m;
    forall p | p in m
      ensures Clean(m[p])
      ensures Seen(m, p) <==> p == Origin
    {
    }
    forall p, w | p in m && IsWall(w)
      ensures m[p] & w == 0 <==> TreeEdge(map[], p, Across(p, w))
    {
    }
  }

  /** A cell without unvisited neighbours is finished. */
  lemma NoneUnvisitedIsFinished(cells: array2<CellWalls>, m: map<Position, CellWalls>,
                                width: int, height: int, p: Position)
    requires Shaped(cells, width, height) && InGrid(p, width, height) && Mirrors(cells, m)
    requires GetUnvisitedAdjacentCells(p, cells, width, height) == []
    ensures Finished(m, p)
  {
    UnvisitedAdjacentCellsComplete(p, cells, width, height);
    forall w | IsWall(w) && Across(p, w) in m
      ensures Seen(m, Across(p, w))
    {
      var q := Across(p, w);
      assert InGrid(q, width, height);
      assert AdjacentCell(q, w) !in GetUnvisitedAdjacentCells(p, cells, width, height);
      assert Visited(cells, q);
    }
  }

  /** A neighbour offered by GetUnvisitedAdjacentCells is an unvisited cell across one wall. */
  lemma ChosenNeighbour(cells: array2<CellWalls>, m: map<Position, CellWalls>, width: int, height: int,
                        p: Position, adjacents: seq<AdjacentCell>, i: int)
    requires Shaped(cells, width, height) && InGrid(p, width, height) && Mirrors(cells, m)
    requires adjacents == GetUnvisitedAdjacentCells(p, cells, width, height) && 0 <= i < |adjacents|
    ensures IsWall(adjacents[i].commonWall) && adjacents[i].location == Across(p, adjacents[i].commonWall)
    ensures adjacents[i].location in m && !Seen(m, adjacents[i].location) && p != adjacents[i].location
  {
    UnvisitedAdjacentCellsSound(p, cells, width, height);
    assert adjacents[i] in adjacents;
    assert !Visited(cells, adjacents[i].location);
  }

  /** Writing a carve into the grid keeps the mirror map in step. */
  lemma CarvedMirrors(cells: array2<CellWalls>, m: map<Position, CellWalls>, c: Position, w: CellWalls)
    requires IsWall(w) && c in m && Across(c, w) in m && c != Across(c, w)
    requires m.Keys == AllCells(cells.Length0, cells.Length1)
    requires forall p {:trigger m[p]} :: p in m && p != c && p != Across(c, w) ==> m[p] == cells[p.x, p.y]
    requires cells[c.x, c.y] == m[c] & !w
    requires cells[Across(c, w).x, Across(c, w).y] == (m[Across(c, w)] & !GetOppositeWall(w)) | VISITED
    ensures Mirrors(cells, Carved(m, c, w))
  {
    var m2 := Carved(m, c, w);
    forall p | p in m
      ensures m2[p] == cells[p.x, p.y]
    {
      if p == c {
        assert m2[p] == m[c] & !w;
      } else if p == Across(c, w) {
        assert m2[p] == (m[p] & !GetOppositeWall(w)) | VISITED;
      } else {
        assert m2[p] == m[p];
      }
    }
  }

  /** The three compound assignments of a carving step: clear the wall of the
      current cell, clear the opposite wall of the neighbour and mark it visited. */
  method CarvePassage(cells: array2<CellWalls>, current: Position, wall: CellWalls,
                      ghost m: map<Position, CellWalls>)
    requires IsWall(wall) && current in m && Across(current, wall) in m
    requires current != Across(current, wall)
    requires Mirrors(cells, m)
    modifies cells
    ensures Mirrors(cells, Carved(m, current, wall))
  {
    var adj := Across(current, wall);
    cells[current.x, current.y] := cells[current.x, current.y] & !wall;
    cells[adj.x, adj.y] := cells[adj.x, adj.y] & !GetOppositeWall(wall);
    cells[adj.x, adj.y] := cells[adj.x, adj.y] | VISITED;
    CarvedMirrors(cells, m, current, wall);
  }

  /** Popping a cell all of whose neighbours are visited keeps the invariant. */
  lemma {:induction false} PopStep(m: map<Position, CellWalls>, stack: seq<Position>,
                                   unvisited: set<Position>, parent: map<Position, Position>,
                                   depth: map<Position, nat>)
    requires Carving(m, stack, unvisited, parent, depth)
    requires |stack| > 0 && Finished(m, stack[|stack| - 1])
    ensures Carving(m, stack[..|stack| - 1], unvisited, parent, depth)
  {
    var s := stack[..|stack| - 1];
    forall p | Seen(m, p) && p !in s
      ensures Finished(m, p)
    {
      if p != stack[|stack| - 1] {
        assert p !in stack;
      }
    }
  }

  /** Every visited cell has only visited neighbours. */
  ghost predicate Closed(m: map<Position, CellWalls>) {
    forall p {:trigger Finished(m, p)} :: Seen(m, p) ==> Finished(m, p)
  }

  /** When the stack is empty, every cell is visited: the visited cells contain
      the origin and are closed under adjacency. */
  lemma {:induction false} EmptyStackVisitsAll(m: map<Position, CellWalls>, width: int, height: int,
                                               unvisited: set<Position>, parent: map<Position, Position>,
                                               depth: map<Position, nat>)
    requires m.Keys == AllCells(width, height)
    requires Carving(m, [], unvisited, parent, depth)
    ensures forall p :: p in m ==> Seen(m, p)
  {
    assert Closed(m);
    forall p | p in m
      ensures Seen(m, p)
    {
      ColumnSeen(m, width, height, p.x);
      RowSeen(m, width, height, p.x, p.y);
    }
  }

  lemma {:induction false} ColumnSeen(m: map<Position, CellWalls>, width: int, height: int, x: int)
    requires m.Keys == AllCells(width, height)
    requires Closed(m) && Seen(m, Origin)
    requires 0 <= x < width
    ensures Seen(m, Position(x, 0))
    decreases x
  {
    if x > 0 {
      ColumnSeen(m, width, height, x - 1);
      assert Finished(m, Position(x - 1, 0));
      assert Across(Position(x - 1, 0), RIGHT) == Position(x, 0);
    }
  }

  lemma {:induction false} RowSeen(m: map<Position, CellWalls>, width: int, height: int, x: int, y: int)
    requires m.Keys == AllCells(width, height)
    requires Closed(m)
    requires 0 <= x < width && 0 <= y < height
    requires Seen(m, Position(x, 0))
    ensures Seen(m, Position(x, y))
    decreases y
  {
    if y > 0 {
      RowSeen(m, width, height, x, y - 1);
      assert Finished(m, Position(x, y - 1));
      assert Across(Position(x, y - 1), UP) == Position(x, y);
    }
  }

  lemma PopThenPush<T>(s: seq<T>)
    requires |s| > 0
    ensures s[..|s| - 1] + [s[|s| - 1]] == s
    ensures (s[..|s| - 1] + [s[|s| - 1]])[..|s| - 1] == s[..|s| - 1]
  {
  }

  /** The iterative backtracker: it starts at the origin, and at each step either
      carves into a random unvisited neighbour of the cell on top of the stack or
      pops that cell. The k-th random draw is rng(0, count, k). */
  method Backtrack(cells: array2<CellWalls>, width: int, height: int, rng: Oracle, k0: nat)
    returns (k: nat)
    requires Shaped(cells, width, height) && width >= 1 && height >= 1
    requires ValidOracle(rng)
    requires forall x, y :: 0 <= x < width && 0 <= y < height ==> cells[x, y] == ALL_WALLS
    modifies cells
    ensures CleanBits(Snapshot(cells))
    ensures forall p :: p in Snapshot(cells) ==> Seen(Snapshot(cells), p)
    ensures IsSpanningTree(Snapshot(cells))
    ensures k >= k0
  {
    var posStack: seq<Position> := [];
    var position := Position(0, 0);
    ghost var grid := Snapshot(cells)[Origin := ALL_WALLS | VISITED];
    cells[position.x, position.y] := cells[position.x, position.y] | VISITED;
    posStack := posStack + [position];
    assert posStack == [Origin];
    assert Mirrors(cells, grid);
    ghost var unvisited := AllCells(width, height) - {Origin};
    ghost var parent: map<Position, Position> := map[];
    ghost var depth: map<Position, nat> := map[Origin := 0];
    CarveStart(grid, width, height);
    k := k0;
    while |posStack| > 0
      invariant Shaped(cells, width, height)
      invariant Mirrors(cells, grid)
      invariant Carving(grid, posStack, unvisited, parent, depth)
      invariant k >= k0
      decreases 2 * |unvisited| + |posStack|
    {
      ghost var stack0 := posStack;
      var current := posStack[|posStack| - 1];
      posStack := posStack[..|posStack| - 1];
      PopThenPush(stack0);
      assert current in grid;
      var adjacents := GetUnvisitedAdjacentCells(current, cells, width, height);
      if |adjacents| > 0 {
        posStack := posStack + [current];
        var randIndex := rng(0, |adjacents|, k);
        k := k + 1;
        var randomAdjacent := adjacents[randIndex];
        var randAdjPos := randomAdjacent.location;
        ghost var w := randomAdjacent.commonWall;
        ChosenNeighbour(cells, grid, width, height, current, adjacents, randIndex);
        CarvePassage(cells, current, randomAdjacent.commonWall, grid);
        posStack := posStack + [randAdjPos];
        grid, unvisited, parent, depth := CarveStep(grid, stack0, unvisited, parent, depth, current, w);
      } else {
        NoneUnvisitedIsFinished(cells, grid, width, height, current);
        PopStep(grid, stack0, unvisited, parent, depth);
      }
    }
    EmptyStackVisitsAll(grid, width, height, unvisited, parent, depth);
    assert TreeShape(grid, parent, depth);
    SnapshotIs(cells, grid);
  }

  /** GenerateMaze: a width x height grid with every cell walled on all four
      sides, then carved by Backtrack. The source indexes cell (0, 0), so a grid
      with no cells is outside its domain. */
  method GenerateMaze(width: int, height: int, rng: Oracle, k0: nat)
    returns (maze: array2<CellWalls>, k: nat)
    requires width >= 1 && height >= 1
    requires ValidOracle(rng)
    ensures fresh(maze) && Shaped(maze, width, height)
    ensures CleanBits(Snapshot(maze))
    ensures forall p :: p in Snapshot(maze) ==> Seen(Snapshot(maze), p)
    ensures IsSpanningTree(Snapshot(maze))
    ensures k >= k0
  {
    maze := new CellWalls[width, height];
    var initialCell := RIGHT | LEFT | UP | DOWN;
    for i := 0 to width
      invariant forall x, y :: 0 <= x < i && 0 <= y < height ==> maze[x, y] == ALL_WALLS
    {
      for j := 0 to height
        invariant forall x, y :: 0 <= x < i && 0 <= y < height ==> maze[x, y] == ALL_WALLS
        invariant forall y :: 0 <= y < j ==> maze[i, y] == ALL_WALLS
      {
        maze[i, j] := initialCell;
      }
    }
    k := Backtrack(maze, width, height, rng, k0);
  }

  // ---------------------------------------------------------------------------
  // Consequences of the spanning-tree shape

  /** A side facing out of the grid is never opened. */
  lemma {:induction false} BoundaryWallsKept(m: map<Position, CellWalls>)
    requires IsSpanningTree(m)
    ensures forall p, w {:trigger Across(p, w)} :: p in m && IsWall(w) && Across(p, w) !in m ==> m[p] & w == w
  {
    var parent, depth :| TreeShape(m, parent, depth);
    forall p, w | p in m && IsWall(w) && Across(p, w) !in m
      ensures m[p] & w == w
    {
      var q := Across(p, w);
      assert !TreeEdge(parent, p, q);
      assert m[p] & w == 0 <==> TreeEdge(parent, p, Across(p, w));
      WallBitIsAllOrNothing(m[p], w);
    }
  }

  lemma WallBitIsAllOrNothing(v: CellWalls, w: CellWalls)
    requires IsWall(w)
    ensures v & w == 0 || v & w == w
  {
  }

  /** A passage is open from both sides: p lacks wall w exactly when its
      neighbour across w lacks the opposite wall. */
  lemma {:induction false} WallsSymmetric(m: map<Position, CellWalls>)
    requires IsSpanningTree(m)
    ensures forall p, w {:trigger Across(p, w)} :: p in m && IsWall(w) && Across(p, w) in m ==>
      (m[p] & w == 0 <==> m[Across(p, w)] & GetOppositeWall(w) == 0)
  {
    var parent, depth :| TreeShape(m, parent, depth);
    forall p, w | p in m && IsWall(w) && Across(p, w) in m
      ensures m[p] & w == 0 <==> m[Across(p, w)] & GetOppositeWall(w) == 0
    {
      var q := Across(p, w);
      var u := GetOppositeWall(w);
      assert Across(q, u) == p;
      assert m[p] & w == 0 <==> TreeEdge(parent, p, Across(p, w));
      assert m[q] & u == 0 <==> TreeEdge(parent, q, Across(q, u));
    }
  }

  /** The tree has one link per cell other than the origin: W*H - 1 passages. */
  lemma {:induction false} OneLinkPerCell(m: map<Position, CellWalls>)
    requires Origin in m && IsSpanningTree(m)
    ensures exists parent: map<Position, Position>, depth: map<Position, nat> ::
      TreeShape(m, parent, depth) && |parent| == |m| - 1
  {
    var parent, depth :| TreeShape(m, parent, depth);
    assert parent.Keys == m.Keys - {Origin};
    assert |parent| == |parent.Keys| == |m.Keys - {Origin}|;
  }

  /** In a grid of two or more cells every cell has an open side, so no cell of
      a finished maze is walled on all four sides. */
  lemma {:induction false} NoClosedCell(m: map<Position, CellWalls>)
    requires Origin in m && IsSpanningTree(m)
    requires exists q :: q in m && q != Origin
    ensures forall p :: p in m ==> m[p] & ALL_WALLS != ALL_WALLS
  {
    var parent, depth :| TreeShape(m, parent, depth);
    var q :| q in m && q != Origin;
    forall p | p in m
      ensures m[p] & ALL_WALLS != ALL_WALLS
    {
      var a := p;
      if p == Origin {
        a := ChildOfOrigin(m, parent, depth, q);
      }
      LinkOpensBoth(m, parent, a);
    }
  }

  /** Both ends of a parent link have that side open. */
  lemma LinkOpensBoth(m: map<Position, CellWalls>, parent: map<Position, Position>, a: Position)
    requires WallsFollowLinks(m, parent)
    requires a in parent && a in m && parent[a] in m && Neighbours(a, parent[a])
    ensures m[a] & ALL_WALLS != ALL_WALLS && m[parent[a]] & ALL_WALLS != ALL_WALLS
  {
    var b := parent[a];
    var w := WallBetween(a, b);
    var u := GetOppositeWall(w);
    assert Across(b, u) == a;
    assert m[a] & w == 0 <==> TreeEdge(parent, a, Across(a, w));
    assert m[b] & u == 0 <==> TreeEdge(parent, b, Across(b, u));
    OpenSideShows(m[a], w);
    OpenSideShows(m[b], u);
  }

  lemma OpenSideShows(v: CellWalls, w: CellWalls)
    requires IsWall(w) && v & w == 0
    ensures v & ALL_WALLS != ALL_WALLS
  {
  }

  /** The wall a cell shares with a neighbour. */
  function WallBetween(p: Position, q: Position): (w: CellWalls)
    requires Neighbours(p, q)
    ensures IsWall(w) && Across(p, w) == q
  {
    if q.x == p.x - 1 then LEFT
    else if q.x == p.x + 1 then RIGHT
    else if q.y == p.y + 1 then UP
    else DOWN
  }

  /** Following parent links down from any other cell reaches a child of the origin. */
  lemma {:induction false} ChildOfOrigin(m: map<Position, CellWalls>, parent: map<Position, Position>,
                                         depth: map<Position, nat>, q: Position) returns (c: Position)
    requires TreeShape(m, parent, depth)
    requires q in m && q != Origin
    ensures c in parent && parent[c] == Origin
    decreases depth[q]
  {
    if parent[q] == Origin {
      c := q;
    } else {
      c := ChildOfOrigin(m, parent, depth, parent[q]);
    }
  }
}
