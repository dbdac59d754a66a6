/** LevelHandler.cs: the board a level is played on. GenerateLevel places one
    pipe on every tile, taking the pipes at random from a pool in free-world
    mode; StoreGamePieces indexes the pieces by the tile they stand on; Shuffle
    turns every piece a random number of times; the active tile moves one step
    at a time without leaving the board. */
module LevelHandler {
  import opened Basics
  import opened Pipes
  import LD = LevelData
  import Text = LevelText

  // ------------------------------------------------------------ placement

  /** The tile that cell (x, y) of the parsed board is placed on. GenerateLevel
      starts its offset at n - 1 and lowers it by 2 per row, so row y of the
      text lands on board row n - 1 - y. */
  function TileOf(x: int, y: int, n: int): (t: Position)
    ensures 0 <= x < n && 0 <= y < n ==> InBoard(t, n)
  {
    Position(x, y + (n - 1 - 2 * y))
  }

  /** The board position is a start or an end of some liquid. */
  predicate Marked(starts: map<Liquid, seq<Position>>, ends: map<Liquid, seq<Position>>, p: Position) {
    (exists l :: l in starts && p in starts[l]) || (exists l :: l in ends && p in ends[l])
  }

  /** List<Pipe>.Remove: the first element equal to v is dropped, if there is one. */
  function RemoveFirst(s: seq<Pipe>, v: Pipe): (r: seq<Pipe>)
    ensures |r| <= |s| <= |r| + 1
  {
    if s == [] then []
    else if s[0] == v then s[1..]
    else [s[0]] + RemoveFirst(s[1..], v)
  }

  /** Remove takes out one copy of v when there is one, and nothing otherwise. */
  lemma {:induction false} RemoveFirstCount(s: seq<Pipe>, v: Pipe)
    ensures v in s ==> multiset(RemoveFirst(s, v)) == multiset(s) - multiset{v}
    ensures v !in s ==> RemoveFirst(s, v) == s
  {
    if s != [] {
      assert s == [s[0]] + s[1..];
      if s[0] != v {
        RemoveFirstCount(s[1..], v);
      }
    }
  }

  /** The parsed board as columns: grid[x][y] is pipes[x, y]. */
  predicate Board(grid: seq<seq<Pipe>>, n: int) {
    |grid| == n && forall x :: 0 <= x < n ==> |grid[x]| == n
  }

  /** What GenerateLevel's choices depend on: the parsed board of n x n pipes,
      the mode, the start and end lists, and the random draws. */
  datatype Setup = Setup(grid: seq<seq<Pipe>>, n: int, free: bool,
                         starts: map<Liquid, seq<Position>>, ends: map<Liquid, seq<Position>>, rng: Oracle)

  ghost predicate Ready(s: Setup) {
    Board(s.grid, s.n) && (s.free ==> ValidOracle(s.rng))
  }

  /** The state GenerateLevel threads through its loops: the pool of pipes not
      yet drawn (pipesList), the number of random draws made so far, and the
      pipe placed on each tile so far. */
  datatype Dealer = Dealer(pool: seq<Pipe>, draws: nat, placed: map<Position, Pipe>)

  /** Whether cell (x, y) draws from the pool rather than keeping its own pipe. */
  predicate Draws(s: Setup, x: int, y: int) {
    s.free && !Marked(s.starts, s.ends, TileOf(x, y, s.n))
  }

  /** The pipe for cell (x, y): its own pipe outside free-world mode and on a
      start or end tile (which then leaves the pool, if the pool still holds an
      equal pipe); otherwise the pipe at a random index of the pool, which
      leaves the pool. */
  function DealCell(s: Setup, d: Dealer, x: int, y: int): (r: Dealer)
    requires Ready(s) && 0 <= x < s.n && 0 <= y < s.n
    requires s.free ==> |d.pool| >= 1
    ensures |r.pool| + 1 >= |d.pool|
  {
    var tile := TileOf(x, y, s.n);
    if !s.free then
      Dealer(d.pool, d.draws, d.placed[tile := s.grid[x][y]])
    else if Marked(s.starts, s.ends, tile) then
      Dealer(RemoveFirst(d.pool, s.grid[x][y]), d.draws, d.placed[tile := s.grid[x][y]])
    else
      var i := s.rng(0, |d.pool|, d.draws);
      Dealer(d.pool[..i] + d.pool[i + 1..], d.draws + 1, d.placed[tile := d.pool[i]])
  }

  /** A cell fills its own tile and no other: with its own pipe outside
      free-world mode and on a start or end tile, with a random draw otherwise. */
  lemma DealCellPlaces(s: Setup, d: Dealer, x: int, y: int)
    requires Ready(s) && 0 <= x < s.n && 0 <= y < s.n
    requires s.free ==> |d.pool| >= 1
    ensures var r := DealCell(s, d, x, y);
      && r.placed.Keys == d.placed.Keys + {TileOf(x, y, s.n)}
      && (forall t :: t in d.placed && t != TileOf(x, y, s.n) ==> r.placed[t] == d.placed[t])
      && (!Draws(s, x, y) ==> r.placed[TileOf(x, y, s.n)] == s.grid[x][y] && r.draws == d.draws)
      && (Draws(s, x, y) ==> r.draws == d.draws + 1)
  {
  }

  /** What a cell takes out of the pool: nothing outside free-world mode; its own
      pipe, if the pool still holds one, on a start or end tile; otherwise the
      pipe it draws, which the pool held. */
  lemma DealCellPool(s: Setup, d: Dealer, x: int, y: int)
    requires Ready(s) && 0 <= x < s.n && 0 <= y < s.n
    requires s.free ==> |d.pool| >= 1
    ensures var r := DealCell(s, d, x, y);
      var p := r.placed[TileOf(x, y, s.n)];
      && (!s.free ==> r.pool == d.pool)
      && (s.free && !Draws(s, x, y) ==> multiset(r.pool) == multiset(d.pool) - multiset{p})
      && (Draws(s, x, y) ==> p in d.pool && multiset(r.pool) + multiset{p} == multiset(d.pool))
  {
    if !s.free {
    } else if !Draws(s, x, y) {
      RemoveFirstCount(d.pool, s.grid[x][y]);
    } else {
      var i := s.rng(0, |d.pool|, d.draws);
      assert d.pool == d.pool[..i] + [d.pool[i]] + d.pool[i + 1..];
    }
  }

  /** The cells 0 .. count - 1 of row y, dealt in order. */
  function DealRow(s: Setup, d: Dealer, y: int, count: int): (r: Dealer)
    requires Ready(s) && 0 <= y < s.n && 0 <= count <= s.n
    requires s.free ==> |d.pool| >= count
    ensures |r.pool| + count >= |d.pool|
    decreases count
  {
    if count == 0 then d
    else DealCell(s, DealRow(s, d, y, count - 1), count - 1, y)
  }

  /** Rows 0 .. rows - 1 of the parsed board, dealt in order: GenerateLevel's
      two loops. */
  function DealRows(s: Setup, d: Dealer, rows: int): (r: Dealer)
    requires Ready(s) && 0 <= rows <= s.n
    requires s.free ==> |d.pool| >= rows * s.n
    ensures |r.pool| + rows * s.n >= |d.pool|
    decreases rows
  {
    if rows == 0 then d
    else
      assert (rows - 1) * s.n == rows * s.n - s.n;
      DealRow(s, DealRows(s, d, rows - 1), rows - 1, s.n)
  }

  /** The pipes of columns 0 .. cols - 1, each column from y = 0 up: the order in
      which `foreach` visits a two-dimensional array. */
  function Columns(grid: seq<seq<Pipe>>, n: int, cols: int): (r: seq<Pipe>)
    requires Board(grid, n) && 0 <= cols <= n
    ensures |r| == cols * n
  {
    if cols == 0 then [] else
      assert (cols - 1) * n == cols * n - n;
      Columns(grid, n, cols - 1) + grid[cols - 1]
  }

  /** The dealer GenerateLevel starts from: the pool holds every pipe of the
      board in free-world mode and nothing otherwise. */
  function FirstDealer(s: Setup, k0: nat): (d: Dealer)
    requires Board(s.grid, s.n)
    ensures s.free ==> |d.pool| == s.n * s.n
  {
    Dealer(if s.free then Columns(s.grid, s.n, s.n) else [], k0, map[])
  }

  /** All of GenerateLevel's choices. */
  function Deal(s: Setup, k0: nat): Dealer
    requires Ready(s)
  {
    DealRows(s, FirstDealer(s, k0), s.n)
  }

  // ------------------------------------------------------- dealing lemmas

  /** Dealing a row fills the tiles of that row from the left, count of them. */
  lemma {:induction false} DealRowKeys(s: Setup, d: Dealer, y: int, count: int, p: Position)
    requires Ready(s) && 0 <= y < s.n && 0 <= count <= s.n
    requires s.free ==> |d.pool| >= count
    ensures p in DealRow(s, d, y, count).placed <==> p in d.placed || (p.y == s.n - 1 - y && 0 <= p.x < count)
    decreases count
  {
    if count > 0 {
      DealRowKeys(s, d, y, count - 1, p);
      DealCellPlaces(s, DealRow(s, d, y, count - 1), count - 1, y);
    }
  }

  /** Dealing a row leaves the tiles of every other row as they were. */
  lemma {:induction false} DealRowKeeps(s: Setup, d: Dealer, y: int, count: int, t: Position)
    requires Ready(s) && 0 <= y < s.n && 0 <= count <= s.n
    requires s.free ==> |d.pool| >= count
    requires t in d.placed && t.y != s.n - 1 - y
    ensures var r := DealRow(s, d, y, count); t in r.placed && r.placed[t] == d.placed[t]
    decreases count
  {
    if count > 0 {
      DealRowKeeps(s, d, y, count - 1, t);
      DealCellPlaces(s, DealRow(s, d, y, count - 1), count - 1, y);
    }
  }

  /** In a dealt row, every cell that does not draw holds its own pipe. */
  lemma {:induction false} DealRowOwn(s: Setup, d: Dealer, y: int, count: int, x: int)
    requires Ready(s) && 0 <= y < s.n && 0 <= count <= s.n
    requires s.free ==> |d.pool| >= count
    requires 0 <= x < count && !Draws(s, x, y)
    ensures var r := DealRow(s, d, y, count);
      TileOf(x, y, s.n) in r.placed && r.placed[TileOf(x, y, s.n)] == s.grid[x][y]
    decreases count
  {
    var prev := DealRow(s, d, y, count - 1);
    DealCellPlaces(s, prev, count - 1, y);
    if x < count - 1 {
      DealRowOwn(s, d, y, count - 1, x);
    }
  }

  /** Dealing rows 0 .. rows - 1 fills the tiles of the top rows of the board. */
  lemma {:induction false} DealRowsKeys(s: Setup, d: Dealer, rows: int, p: Position)
    requires Ready(s) && 0 <= rows <= s.n
    requires s.free ==> |d.pool| >= rows * s.n
    ensures p in DealRows(s, d, rows).placed <==> p in d.placed || (0 <= p.x < s.n && s.n - rows <= p.y < s.n)
    decreases rows
  {
    if rows > 0 {
      DealRowsKeys(s, d, rows - 1, p);
      assert (rows - 1) * s.n == rows * s.n - s.n;
      DealRowKeys(s, DealRows(s, d, rows - 1), rows - 1, s.n, p);
    }
  }

  /** The last of the dealt rows holds the own pipe of every cell that does not draw. */
  lemma LastRowOwn(s: Setup, d: Dealer, rows: int, x: int)
    requires Ready(s) && 0 < rows <= s.n
    requires s.free ==> |d.pool| >= rows * s.n
    requires 0 <= x < s.n && !Draws(s, x, rows - 1)
    ensures var r := DealRows(s, d, rows);
      TileOf(x, rows - 1, s.n) in r.placed && r.placed[TileOf(x, rows - 1, s.n)] == s.grid[x][rows - 1]
  {
    assert (rows - 1) * s.n == rows * s.n - s.n;
    DealRowOwn(s, DealRows(s, d, rows - 1), rows - 1, s.n, x);
  }

  /** Dealing one more row keeps what the earlier rows placed. */
  lemma EarlierRowsKept(s: Setup, d: Dealer, rows: int, t: Position)
    requires Ready(s) && 0 < rows <= s.n
    requires s.free ==> |d.pool| >= rows * s.n
    requires t in DealRows(s, d, rows - 1).placed && t.y != s.n - rows
    ensures var r := DealRows(s, d, rows);
      t in r.placed && r.placed[t] == DealRows(s, d, rows - 1).placed[t]
  {
    assert (rows - 1) * s.n == rows * s.n - s.n;
    DealRowKeeps(s, DealRows(s, d, rows - 1), rows - 1, s.n, t);
  }

  /** In dealt rows, every cell that does not draw holds its own pipe. */
  lemma {:induction false} DealRowsOwn(s: Setup, d: Dealer, rows: int, x: int, y: int)
    requires Ready(s) && 0 <= rows <= s.n
    requires s.free ==> |d.pool| >= rows * s.n
    requires 0 <= x < s.n && 0 <= y < rows && !Draws(s, x, y)
    ensures var r := DealRows(s, d, rows);
      TileOf(x, y, s.n) in r.placed && r.placed[TileOf(x, y, s.n)] == s.grid[x][y]
    decreases rows
  {
    if y == rows - 1 {
      LastRowOwn(s, d, rows, x);
    } else {
      assert (rows - 1) * s.n <= rows * s.n;
      DealRowsOwn(s, d, rows - 1, x, y);
      EarlierRowsKept(s, d, rows, TileOf(x, y, s.n));
    }
  }

  /** The covered tiles: with an empty start, dealing every row places a pipe on
      exactly the tiles of the board. */
  lemma DealCoversBoard(s: Setup, k0: nat, p: Position)
    requires Ready(s)
    ensures p in Deal(s, k0).placed <==> InBoard(p, s.n)
  {
    DealRowsKeys(s, FirstDealer(s, k0), s.n, p);
  }

  /** A cell that does not draw ends with its own pipe on its tile: outside
      free-world mode every cell, pipes[x, y] on tile (x, n - 1 - y). */
  lemma DealKeepsOwn(s: Setup, k0: nat, x: int, y: int)
    requires Ready(s) && 0 <= x < s.n && 0 <= y < s.n && !Draws(s, x, y)
    ensures TileOf(x, y, s.n) in Deal(s, k0).placed && Deal(s, k0).placed[TileOf(x, y, s.n)] == s.grid[x][y]
  {
    DealRowsOwn(s, FirstDealer(s, k0), s.n, x, y);
  }

  // ------------------------------------------------------------ the scene

  /** The parsed board of an n x n array, as columns. */
  function BoardOf(pipes: array2<Pipe>): (grid: seq<seq<Pipe>>)
    reads pipes
    ensures |grid| == pipes.Length0 && forall x :: 0 <= x < pipes.Length0 ==> |grid[x]| == pipes.Length1
    ensures forall x, y :: 0 <= x < pipes.Length0 && 0 <= y < pipes.Length1 ==> grid[x][y] == pipes[x, y]
  {
    seq(pipes.Length0, x requires 0 <= x < pipes.Length0 reads pipes =>
      seq(pipes.Length1, y requires 0 <= y < pipes.Length1 reads pipes => pipes[x, y]))
  }

  /** The pieces of a scene, by tile: every piece stands on the tile it is filed
      under and carries the pipe placed there, every filed piece is in the scene,
      and every piece of the scene is the one filed under its tile. */
  ghost predicate Filed(scene: seq<PipeHandler>, made: map<Position, PipeHandler>, placed: map<Position, Pipe>)
    reads made.Values`tile, made.Values`pipeType, scene`tile
  {
    && made.Keys == placed.Keys
    && (forall t :: t in made ==> made[t].tile == t && made[t].pipeType == placed[t] && made[t] in scene)
    && (forall i :: 0 <= i < |scene| ==> scene[i].tile in made && made[scene[i].tile] == scene[i])
  }

  /** Filing one more piece on a tile nothing was placed on yet. */
  lemma FiledAdd(scene: seq<PipeHandler>, made: map<Position, PipeHandler>, placed: map<Position, Pipe>,
                 piece: PipeHandler, pipe: Pipe)
    requires Filed(scene, made, placed) && piece.tile !in placed && piece.pipeType == pipe
    ensures Filed(scene + [piece], made[piece.tile := piece], placed[piece.tile := pipe])
  {
  }

  /** The piece GamePieces[t.x, t.y] ends with when the scene's pieces are
      stored in order: the last one standing on t, or null. */
  ghost function LastOn(scene: seq<PipeHandler>, t: Position): (p: PipeHandler?)
    reads scene`tile
    ensures p != null ==> p in scene && p.tile == t
    decreases |scene|
  {
    if scene == [] then null
    else if scene[|scene| - 1].tile == t then scene[|scene| - 1]
    else LastOn(scene[..|scene| - 1], t)
  }

  /** The piece stored for t is the only piece of the scene standing on t. */
  lemma {:induction false} LastOnOnly(scene: seq<PipeHandler>, t: Position, p: PipeHandler)
    requires p in scene && forall i :: 0 <= i < |scene| && scene[i].tile == t ==> scene[i] == p
    requires p.tile == t
    ensures LastOn(scene, t) == p
    decreases |scene|
  {
    var last := |scene| - 1;
    if scene[last] != p {
      assert p in scene[..last] by {
        var i :| 0 <= i < |scene| && scene[i] == p;
        assert i != last;
        assert scene[..last][i] == p;
      }
      LastOnOnly(scene[..last], t, p);
    }
  }

  /** No piece stands on t: nothing is stored for t. */
  lemma {:induction false} LastOnNone(scene: seq<PipeHandler>, t: Position)
    requires forall i :: 0 <= i < |scene| ==> scene[i].tile != t
    ensures LastOn(scene, t) == null
    decreases |scene|
  {
    if scene != [] {
      LastOnNone(scene[..|scene| - 1], t);
    }
  }

  /** With every piece filed under its own tile, what StoreGamePieces stores
      for a tile is the piece filed under it, whatever the scene's order. */
  lemma LastOnFiled(scene: seq<PipeHandler>, made: map<Position, PipeHandler>, placed: map<Position, Pipe>, t: Position)
    requires Filed(scene, made, placed)
    ensures LastOn(scene, t) == if t in made then made[t] else null
  {
    if t in made {
      LastOnOnly(scene, t, made[t]);
    } else {
      LastOnNone(scene, t);
    }
  }

  /** After GenerateLevel and StoreGamePieces, GamePieces holds one piece of
      the scene on every tile, each standing in its own slot. */
  lemma StoredPlaced(g: Grid, n: int, scene: seq<PipeHandler>, made: map<Position, PipeHandler>, placed: map<Position, Pipe>)
    requires Filed(scene, made, placed) && (forall t :: t in made <==> InBoard(t, n))
    requires Square(g, n) && forall x, y :: 0 <= x < n && 0 <= y < n ==> g[x][y] == LastOn(scene, Position(x, y))
    ensures Placed(g, n, made.Values)
    ensures forall p :: p in made.Values ==> p.At(g, n)
  {
    forall x, y | 0 <= x < n && 0 <= y < n
      ensures g[x][y] == made[Position(x, y)]
    {
      LastOnFiled(scene, made, placed, Position(x, y));
    }
    forall p | p in made.Values
      ensures p.At(g, n)
    {
      var t :| t in made && made[t] == p;
      assert g[t.x][t.y] == made[Position(t.x, t.y)];
    }
  }

  // -------------------------------------------------------------- shuffle

  /** The angle after t RotatePiece calls. */
  function Turned(rotation: int, t: nat): int {
    if t == 0 then rotation else NextRotation(Turned(rotation, t - 1))
  }

  /** The ports after t RotatePiece calls. */
  function TurnedPorts(ports: Ports, t: nat): Ports {
    if t == 0 then ports else RotatedPorts(TurnedPorts(ports, t - 1))
  }

  /** However often a piece is turned, its angle stays a quarter turn and it
      keeps the number of its open ports. */
  lemma {:induction false} TurnedKeeps(rotation: int, ports: Ports, t: nat)
    requires QuarterTurn(rotation)
    ensures QuarterTurn(Turned(rotation, t))
    ensures multiset(TurnedPorts(ports, t)) == multiset(ports)
  {
    if t > 0 {
      TurnedKeeps(rotation, ports, t - 1);
      RotationKeepsPorts(TurnedPorts(ports, t - 1));
    }
  }

  /** Four more turns change nothing, so Shuffle's 0 to 3 turns reach every
      orientation a piece can have. */
  lemma {:induction false} TurnedModFour(rotation: int, ports: Ports, t: nat)
    requires QuarterTurn(rotation)
    ensures Turned(rotation, t + 4) == Turned(rotation, t)
    ensures TurnedPorts(ports, t + 4) == TurnedPorts(ports, t)
  {
    TurnedKeeps(rotation, ports, t);
    FourTurnsRestoreRotation(Turned(rotation, t));
    FourRotationsRestorePorts(TurnedPorts(ports, t));
    assert Turned(rotation, t + 2) == NextRotation(NextRotation(Turned(rotation, t)));
    assert Turned(rotation, t + 4) == NextRotation(NextRotation(Turned(rotation, t + 2)));
    assert TurnedPorts(ports, t + 2) == RotatedPorts(RotatedPorts(TurnedPorts(ports, t)));
    assert TurnedPorts(ports, t + 4) == RotatedPorts(RotatedPorts(TurnedPorts(ports, t + 2)));
  }

  /** The number of turns Shuffle draws for the piece in slot (x, y): the draws
      go column by column, one per slot. */
  function ShuffleTurns(rng: Oracle, k0: nat, n: nat, x: nat, y: nat): int {
    rng(0, 4, k0 + x * n + y)
  }

  /** The slots Shuffle has reached before slot (x, y). */
  predicate Before(a: int, b: int, x: int, y: int) {
    a < x || (a == x && b < y)
  }

  /** Shuffle's progress: every slot before (x, y) holds its piece turned by
      the slot's draw from its angle and ports r0, p0 at the start; every
      other slot still holds them unturned. */
  ghost predicate TurnedSoFar(g: Grid, n: int, r0: map<PipeHandler, int>, p0: map<PipeHandler, Ports>,
                              rng: Oracle, k0: nat, x: int, y: int)
    reads set a, b | 0 <= a < |g| && 0 <= b < |g[a]| && g[a][b] != null :: g[a][b]
  {
    && Square(g, n)
    && forall a, b :: 0 <= a < n && 0 <= b < n ==>
         var p := g[a][b];
         var t := if Before(a, b, x, y) then ShuffleTurns(rng, k0, n, a, b) else 0;
         && p != null && p in r0 && p in p0 && t >= 0
         && p.rotation == Turned(r0[p], t) && p.ioDirs == TurnedPorts(p0[p], t)
  }

  /** Finishing a column is starting the next. */
  lemma NextColumn(g: Grid, n: int, r0: map<PipeHandler, int>, p0: map<PipeHandler, Ports>,
                   rng: Oracle, k0: nat, x: int)
    requires TurnedSoFar(g, n, r0, p0, rng, k0, x, n)
    ensures TurnedSoFar(g, n, r0, p0, rng, k0, x + 1, 0)
  {
    forall a, b | 0 <= a < n && 0 <= b < n
      ensures Before(a, b, x, n) == Before(a, b, x + 1, 0)
    {
    }
  }

  /** The partner of the four moves: on a linked board, the piece on one side
      of a piece has that piece on its opposite side, so a move that succeeds
      is undone by the opposite move. */
  lemma MovesUndo(g: Grid, n: int, pieces: set<PipeHandler>, t: PipeHandler)
    requires Placed(g, n, pieces) && Linked(g, n, pieces) && t.At(g, n)
    ensures t.up != null ==> t.up.down == t
    ensures t.down != null ==> t.down.up == t
    ensures t.right != null ==> t.right.left == t
    ensures t.left != null ==> t.left.right == t
  {
    assert t.Wired(g, n);
    if t.up != null { assert t.up.Wired(g, n); }
    if t.down != null { assert t.down.Wired(g, n); }
    if t.right != null { assert t.right.Wired(g, n); }
    if t.left != null { assert t.left.Wired(g, n); }
  }

  /** A piece standing in its slot on a placed, linked board refers only to
      pieces of the board, and is settled. */
  lemma AroundInPieces(g: Grid, n: int, pieces: set<PipeHandler>, t: PipeHandler)
    requires Placed(g, n, pieces) && Linked(g, n, pieces) && t.At(g, n)
    ensures t.Around() <= pieces && t.Settled(g, n)
  {
    LinkedSettled(g, n, pieces, t);
    WiredFacts(g, n, pieces, t);
  }

  lemma TimesBelow(y: int, n: int)
    requires 0 <= y < n
    ensures (y + 1) * n == y * n + n && y * n + n <= n * n
  {
  }

  class LevelHandler {
    var boardSize: int
    /** The game objects tagged "Pipe": the pieces GenerateLevel created, in
        creation order. */
    var scenePipes: seq<PipeHandler>
    /** activePipeHandler: the piece under the active-tile marker. */
    var active: PipeHandler?

    /** A fresh handler with the serialized default board size and no scene yet. */
    constructor()
      ensures boardSize == 10 && scenePipes == [] && active == null
    {
      boardSize := 10;
      scenePipes := [];
      active := null;
    }

    /** Instantiate and PositionPipeGO: a new piece for pipe on tile, which the
        scene then holds, filed under its tile. */
    method Spawn(pipe: Pipe, tile: Position, ghost made: map<Position, PipeHandler>, ghost placed: map<Position, Pipe>)
      returns (piece: PipeHandler)
      requires Filed(scenePipes, made, placed) && tile !in placed
      modifies this`scenePipes
      ensures fresh(piece) && piece.pipeType == pipe && piece.tile == tile
      ensures scenePipes == old(scenePipes) + [piece]
      ensures Filed(scenePipes, made[tile := piece], placed[tile := pipe])
    {
      piece := new PipeHandler(pipe, tile);
      FiledAdd(scenePipes, made, placed, piece, pipe);
      scenePipes := scenePipes + [piece];
    }

    /** One cell of GenerateLevel's loops: the pipe cell (x, y) receives and what
        it takes out of the pool, exactly as DealCell says. */
    static method ChoosePipe(pipes: array2<Pipe>, free: bool, starts: map<Liquid, seq<Position>>,
                             ends: map<Liquid, seq<Position>>, rng: Oracle, ghost s: Setup,
                             pool: seq<Pipe>, k: nat, ghost placed: map<Position, Pipe>, x: int, y: int, offset: int)
      returns (pipe: Pipe, pool': seq<Pipe>, k': nat)
      requires pipes.Length1 == pipes.Length0
      requires s == Setup(BoardOf(pipes), pipes.Length0, free, starts, ends, rng) && Ready(s)
      requires 0 <= x < s.n && 0 <= y < s.n && offset == s.n - 1 - 2 * y
      requires s.free ==> |pool| >= 1
      ensures DealCell(s, Dealer(pool, k, placed), x, y) == Dealer(pool', k', placed[TileOf(x, y, s.n) := pipe])
    {
      var tile := Position(x, y + offset);
      pool', k' := pool, k;
      if free {
        if (exists l :: l in starts && tile in starts[l]) || (exists l :: l in ends && tile in ends[l]) {
          pipe := pipes[x, y];
          pool' := RemoveFirst(pool, pipe);
        } else {
          var randIndex := rng(0, |pool|, k);
          k' := k + 1;
          pipe := pool[randIndex];
          pool' := pool[..randIndex] + pool[randIndex + 1..];
        }
      } else {
        pipe := pipes[x, y];
      }
    }

    /** The body of GenerateLevel's inner loop: the pipe for cell (x, y), and a
        new piece carrying it on the cell's tile. */
    method PlaceCell(pipes: array2<Pipe>, free: bool, starts: map<Liquid, seq<Position>>,
                     ends: map<Liquid, seq<Position>>, rng: Oracle, ghost s: Setup,
                     pool: seq<Pipe>, k: nat, ghost d: Dealer, ghost made: map<Position, PipeHandler>,
                     x: int, y: int, offset: int)
      returns (pool': seq<Pipe>, k': nat, ghost d': Dealer, ghost made': map<Position, PipeHandler>)
      requires pipes.Length1 == pipes.Length0
      requires s == Setup(BoardOf(pipes), pipes.Length0, free, starts, ends, rng) && Ready(s)
      requires 0 <= x < s.n && 0 <= y < s.n && offset == s.n - 1 - 2 * y
      requires d.pool == pool && d.draws == k && (s.free ==> |pool| >= 1)
      requires TileOf(x, y, s.n) !in d.placed && Filed(scenePipes, made, d.placed)
      modifies this`scenePipes
      ensures d' == DealCell(s, d, x, y) && pool' == d'.pool && k' == d'.draws
      ensures d'.placed.Keys == d.placed.Keys + {TileOf(x, y, s.n)}
      ensures Filed(scenePipes, made', d'.placed)
    {
      var pipe;
      assert d == Dealer(pool, k, d.placed);
      pipe, pool', k' := ChoosePipe(pipes, free, starts, ends, rng, s, pool, k, d.placed, x, y, offset);
      var piece := Spawn(pipe, Position(x, y + offset), made, d.placed);
      d' := Dealer(pool', k', d.placed[piece.tile := pipe]);
      made' := made[piece.tile := piece];
    }

    /** The inner loop of GenerateLevel: the cells of row y, each creating a
        piece on its tile. */
    method PlaceRow(pipes: array2<Pipe>, free: bool, starts: map<Liquid, seq<Position>>,
                    ends: map<Liquid, seq<Position>>, rng: Oracle, ghost s: Setup,
                    pool: seq<Pipe>, k: nat, ghost d: Dealer, ghost made: map<Position, PipeHandler>, y: int, offset: int)
      returns (pool': seq<Pipe>, k': nat, ghost d': Dealer, ghost made': map<Position, PipeHandler>)
      requires pipes.Length1 == pipes.Length0
      requires s == Setup(BoardOf(pipes), pipes.Length0, free, starts, ends, rng) && Ready(s)
      requires 0 <= y < s.n && offset == s.n - 1 - 2 * y
      requires d.pool == pool && d.draws == k && (s.free ==> |pool| >= s.n)
      requires forall x :: 0 <= x < s.n ==> TileOf(x, y, s.n) !in d.placed
      requires Filed(scenePipes, made, d.placed)
      modifies this`scenePipes
      ensures d' == DealRow(s, d, y, s.n) && pool' == d'.pool && k' == d'.draws
      ensures Filed(scenePipes, made', d'.placed)
    {
      pool', k', d', made' := pool, k, d, made;
      for x := 0 to pipes.Length0
        invariant d' == DealRow(s, d, y, x) && pool' == d'.pool && k' == d'.draws
        invariant Filed(scenePipes, made', d'.placed)
        invariant forall x' :: x <= x' < s.n ==> TileOf(x', y, s.n) !in d'.placed
      {
        pool', k', d', made' := PlaceCell(pipes, free, starts, ends, rng, s, pool', k', d', made', x, y, offset);
      }
    }

    /** The `foreach` over the parsed board that fills pipesList in free-world
        mode: column by column, each from y = 0 up. */
    static method CollectPipes(pipes: array2<Pipe>) returns (pipesList: seq<Pipe>)
      requires pipes.Length1 == pipes.Length0
      ensures pipesList == Columns(BoardOf(pipes), pipes.Length0, pipes.Length0)
    {
      ghost var grid := BoardOf(pipes);
      var n := pipes.Length0;
      pipesList := [];
      for x := 0 to n
        invariant pipesList == Columns(grid, n, x)
      {
        for y := 0 to n
          invariant pipesList == Columns(grid, n, x) + grid[x][..y]
        {
          assert grid[x][..y + 1] == grid[x][..y] + [grid[x][y]];
          pipesList := pipesList + [pipes[x, y]];
        }
        assert grid[x][..n] == grid[x];
      }
    }

    /** GenerateLevel after the board is read: the pool of free-world mode, then
        one piece per cell, row by row, on the tile the cell is flipped onto. */
    method PlacePipes(pipes: array2<Pipe>, free: bool, starts: map<Liquid, seq<Position>>,
                      ends: map<Liquid, seq<Position>>, rng: Oracle, k0: nat)
      returns (k: nat, ghost made: map<Position, PipeHandler>)
      requires pipes.Length0 == boardSize && pipes.Length1 == boardSize
      requires free ==> ValidOracle(rng)
      requires scenePipes == []
      modifies this`scenePipes
      ensures var s := Setup(BoardOf(pipes), boardSize, free, starts, ends, rng);
        k == Deal(s, k0).draws && Filed(scenePipes, made, Deal(s, k0).placed)
    {
      ghost var s := Setup(BoardOf(pipes), boardSize, free, starts, ends, rng);
      var n := boardSize;
      var offset := n - 1;
      var pipesList: seq<Pipe> := [];
      if free {
        pipesList := CollectPipes(pipes);
      }
      ghost var d0 := FirstDealer(s, k0);
      ghost var d := d0;
      made := map[];
      k := k0;
      for y := 0 to n
        invariant offset == n - 1 - 2 * y && y * n <= n * n
        invariant d == DealRows(s, d0, y) && pipesList == d.pool && k == d.draws
        invariant Filed(scenePipes, made, d.placed)
      {
        TimesBelow(y, n);
        forall x | 0 <= x < n
          ensures TileOf(x, y, n) !in d.placed
        {
          DealRowsKeys(s, d0, y, TileOf(x, y, n));
        }
        pipesList, k, d, made := PlaceRow(pipes, free, starts, ends, rng, s, pipesList, k, d, made, y, offset);
        offset := offset - 2;
      }
    }

    /** The first statement of GenerateLevel: the board of a random puzzle in
        arcade mode, the board of the level text otherwise. */
    method ReadBoard(ld: LD.LevelData, rng: Oracle, k0: nat) returns (pipes: array2<Pipe>, k1: nat)
      requires boardSize == ld.boardSize
      requires ld.isArcadeMode ==> boardSize >= 2 && ValidOracle(rng) && Water !in ld.starts && Water !in ld.ends
      requires !ld.isArcadeMode ==>
        ld.lvlData.Some? && |ld.lvlData.value| >= 2 && boardSize >= 0 && Text.Fits(ld.lvlData.value[2..], boardSize)
      modifies ld`starts, ld`ends, ld`defaultStart, ld`defaultEnd, ld`lvlData
      ensures pipes.Length0 == boardSize && pipes.Length1 == boardSize
      ensures k1 >= k0 && (!ld.isArcadeMode ==> k1 == k0)
    {
      k1 := k0;
      if ld.isArcadeMode {
        ghost var maze;
        pipes, maze, k1 := ld.GetRandomPuzzle(boardSize, boardSize, rng, k0);
      } else {
        pipes := ld.ReadInputLevelData();
      }
    }

    /** GenerateLevel: the board comes from the maze generator in arcade mode
        and from the level text otherwise; then one piece per cell. */
    method GenerateLevel(ld: LD.LevelData, rng: Oracle, k0: nat)
      returns (k: nat, k1: nat, ghost s: Setup, ghost made: map<Position, PipeHandler>)
      requires boardSize == ld.boardSize && scenePipes == []
      requires ld.isArcadeMode ==> boardSize >= 2 && ValidOracle(rng) && Water !in ld.starts && Water !in ld.ends
      requires !ld.isArcadeMode ==>
        ld.lvlData.Some? && |ld.lvlData.value| >= 2 && boardSize >= 0 && Text.Fits(ld.lvlData.value[2..], boardSize)
      requires ld.isFreeWorldMode ==> ValidOracle(rng)
      modifies this`scenePipes, ld`starts, ld`ends, ld`defaultStart, ld`defaultEnd, ld`lvlData
      ensures s.n == boardSize && Board(s.grid, boardSize) && s.free == ld.isFreeWorldMode && s.rng == rng
      ensures s.starts == ld.starts && s.ends == ld.ends
      ensures k1 >= k0 && (!ld.isArcadeMode ==> k1 == k0)
      ensures k == Deal(s, k1).draws && Filed(scenePipes, made, Deal(s, k1).placed)
      ensures forall t :: t in made <==> InBoard(t, boardSize)
    {
      var pipes: array2<Pipe>;
      pipes, k1 := ReadBoard(ld, rng, k0);
      k, made := PlacePipes(pipes, ld.isFreeWorldMode, ld.starts, ld.ends, rng, k1);
      s := Setup(BoardOf(pipes), boardSize, ld.isFreeWorldMode, ld.starts, ld.ends, rng);
      forall t {
        DealCoversBoard(s, k1, t);
      }
    }

    /** StoreGamePieces: a new n x n GamePieces, and each piece of the scene
        stored under the tile it stands on. */
    method StoreGamePieces(ld: LD.LevelData)
      requires boardSize >= 0
      requires forall i :: 0 <= i < |scenePipes| ==> InBoard(scenePipes[i].tile, boardSize)
      modifies ld`gamePieces
      ensures ld.gamePieces.Some? && Square(ld.gamePieces.value, boardSize)
      ensures forall x, y :: 0 <= x < boardSize && 0 <= y < boardSize ==>
        ld.gamePieces.value[x][y] == LastOn(scenePipes, Position(x, y))
    {
      var n := boardSize;
      var g: Grid := seq(n, _ => seq(n, _ => null));
      for i := 0 to |scenePipes|
        invariant Square(g, n)
        invariant forall x, y :: 0 <= x < n && 0 <= y < n ==> g[x][y] == LastOn(scenePipes[..i], Position(x, y))
      {
        var piece := scenePipes[i];
        var xCoord, yCoord := piece.tile.x, piece.tile.y;
        assert scenePipes[..i + 1][..i] == scenePipes[..i];
        g := g[xCoord := g[xCoord][yCoord := piece]];
      }
      assert scenePipes[..|scenePipes|] == scenePipes;
      ld.gamePieces := Some(g);
    }

    /** The innermost loop of Shuffle: `GamePieces[x, y]?.RotatePiece()`, k
        times. Only the piece's angle and ports and the free flags around it
        change. */
    static method TurnPiece(g: Grid, n: int, ghost pieces: set<PipeHandler>, x: int, y: int, k: nat)
      requires Placed(g, n, pieces) && Linked(g, n, pieces) && 0 <= x < n && 0 <= y < n
      modifies Just(g[x][y])`rotation, Just(g[x][y])`ioDirs
      modifies pieces`upFree, pieces`downFree, pieces`rightFree, pieces`leftFree
      ensures g[x][y].rotation == Turned(old(g[x][y].rotation), k)
      ensures g[x][y].ioDirs == TurnedPorts(old(g[x][y].ioDirs), k)
    {
      for i := 0 to k
        invariant g[x][y].rotation == Turned(old(g[x][y].rotation), i)
        invariant g[x][y].ioDirs == TurnedPorts(old(g[x][y].ioDirs), i)
      {
        var piece := g[x][y];
        if piece != null {
          AroundInPieces(g, n, pieces, piece);
          piece.RotatePiece(g, n);
        }
      }
    }

    /** One pass of Shuffle's inner loop body: draw the turns for slot (x, y),
        turn its piece, advance the draw counter. */
    static method ShuffleCell(g: Grid, n: int, ghost pieces: set<PipeHandler>, ghost r0: map<PipeHandler, int>,
                              ghost p0: map<PipeHandler, Ports>, rng: Oracle, k0: nat, x: nat, y: nat, k: nat)
      returns (k': nat)
      requires Placed(g, n, pieces) && Linked(g, n, pieces) && ValidOracle(rng) && x < n && y < n
      requires k == k0 + x * n + y && TurnedSoFar(g, n, r0, p0, rng, k0, x, y)
      modifies pieces`rotation, pieces`ioDirs, pieces`upFree, pieces`downFree, pieces`rightFree, pieces`leftFree
      ensures Placed(g, n, pieces) && Linked(g, n, pieces)
      ensures k' == k + 1 && TurnedSoFar(g, n, r0, p0, rng, k0, x, y + 1)
    {
      var turns := rng(0, 4, k);
      TurnPiece(g, n, pieces, x, y, turns);
      k' := k + 1;
    }

    /** Shuffle: every slot, column by column, draws a number of turns in
        [0, 4) and its piece is turned that many times. */
    method Shuffle(g: Grid, ghost pieces: set<PipeHandler>, rng: Oracle, k0: nat) returns (k: nat)
      requires Placed(g, boardSize, pieces) && Linked(g, boardSize, pieces) && ValidOracle(rng)
      modifies pieces`rotation, pieces`ioDirs, pieces`upFree, pieces`downFree, pieces`rightFree, pieces`leftFree
      ensures Placed(g, boardSize, pieces) && Linked(g, boardSize, pieces)
      ensures k == k0 + boardSize * boardSize
      ensures forall x, y :: 0 <= x < boardSize && 0 <= y < boardSize ==>
        var t := ShuffleTurns(rng, k0, boardSize, x, y);
        0 <= t < 4 && g[x][y].rotation == Turned(old(g[x][y].rotation), t) && g[x][y].ioDirs == TurnedPorts(old(g[x][y].ioDirs), t)
    {
      var n := boardSize;
      ghost var r0 := map p | p in pieces :: p.rotation;
      ghost var p0 := map p | p in pieces :: p.ioDirs;
      k := k0;
      for x := 0 to n
        invariant k == k0 + x * n
        invariant Placed(g, n, pieces) && Linked(g, n, pieces)
        invariant TurnedSoFar(g, n, r0, p0, rng, k0, x, 0)
      {
        for y := 0 to n
          invariant k == k0 + x * n + y
          invariant Placed(g, n, pieces) && Linked(g, n, pieces)
          invariant TurnedSoFar(g, n, r0, p0, rng, k0, x, y)
        {
          k := ShuffleCell(g, n, pieces, r0, p0, rng, k0, x, y, k);
        }
        NextColumn(g, n, r0, p0, rng, k0, x);
        assert x * n + n == (x + 1) * n;
      }
      forall x, y | 0 <= x < n && 0 <= y < n
        ensures 0 <= ShuffleTurns(rng, k0, n, x, y) < 4
      {
      }
    }

    /** SetActiveTile: the piece on the given tile is the active one, which the
        active-tile marker sits on. */
    method SetActiveTile(piece: PipeHandler)
      modifies this`active
      ensures active == piece
    {
      active := piece;
    }

    /** MoveActiveTileUp: the active tile moves one slot up when that slot
        is on the board, which makes the piece on the up side of the
        old active tile the new one. */
    method MoveActiveTileUp(ld: LD.LevelData, ghost pieces: set<PipeHandler>)
      requires ld.gamePieces.Some? && Placed(ld.gamePieces.value, ld.boardSize, pieces)
      requires Linked(ld.gamePieces.value, ld.boardSize, pieces)
      requires active != null && active.At(ld.gamePieces.value, ld.boardSize)
      modifies this`active
      ensures active != null && active.At(ld.gamePieces.value, ld.boardSize)
      ensures active == (if old(active.up) != null then old(active.up) else old(active))
      ensures active.tile == if old(active.tile.y) + 1 < ld.boardSize
        then Position(old(active.tile.x), old(active.tile.y) + 1) else old(active.tile)
    {
      assert active.Wired(ld.gamePieces.value, ld.boardSize);
      var x := active.location.x;
      var y := active.location.y + 1;
      if 0 <= y < ld.boardSize {
        active := ld.gamePieces.value[x][y];
      }
    }

    /** MoveActiveTileDown: the active tile moves one slot down when that slot
        is on the board, which makes the piece on the down side of the
        old active tile the new one. */
    method MoveActiveTileDown(ld: LD.LevelData, ghost pieces: set<PipeHandler>)
      requires ld.gamePieces.Some? && Placed(ld.gamePieces.value, ld.boardSize, pieces)
      requires Linked(ld.gamePieces.value, ld.boardSize, pieces)
      requires active != null && active.At(ld.gamePieces.value, ld.boardSize)
      modifies this`active
      ensures active != null && active.At(ld.gamePieces.value, ld.boardSize)
      ensures active == (if old(active.down) != null then old(active.down) else old(active))
      ensures active.tile == if old(active.tile.y) > 0
        then Position(old(active.tile.x), old(active.tile.y) - 1) else old(active.tile)
    {
      assert active.Wired(ld.gamePieces.value, ld.boardSize);
      var x := active.location.x;
      var y := active.location.y - 1;
      if 0 <= y < ld.boardSize {
        active := ld.gamePieces.value[x][y];
      }
    }

    /** MoveActiveTileRight: the active tile moves one slot right when that slot
        is on the board, which makes the piece on the right side of the
        old active tile the new one. */
    method MoveActiveTileRight(ld: LD.LevelData, ghost pieces: set<PipeHandler>)
      requires ld.gamePieces.Some? && Placed(ld.gamePieces.value, ld.boardSize, pieces)
      requires Linked(ld.gamePieces.value, ld.boardSize, pieces)
      requires active != null && active.At(ld.gamePieces.value, ld.boardSize)
      modifies this`active
      ensures active != null && active.At(ld.gamePieces.value, ld.boardSize)
      ensures active == (if old(active.right) != null then old(active.right) else old(active))
      ensures active.tile == if old(active.tile.x) + 1 < ld.boardSize
        then Position(old(active.tile.x) + 1, old(active.tile.y)) else old(active.tile)
    {
      assert active.Wired(ld.gamePieces.value, ld.boardSize);
      var x := active.location.x + 1;
      var y := active.location.y;
      if 0 <= x < ld.boardSize {
        active := ld.gamePieces.value[x][y];
      }
    }

    /** MoveActiveTileLeft: the active tile moves one slot left when that slot
        is on the board, which makes the piece on the left side of the
        old active tile the new one. */
    method MoveActiveTileLeft(ld: LD.LevelData, ghost pieces: set<PipeHandler>)
      requires ld.gamePieces.Some? && Placed(ld.gamePieces.value, ld.boardSize, pieces)
      requires Linked(ld.gamePieces.value, ld.boardSize, pieces)
      requires active != null && active.At(ld.gamePieces.value, ld.boardSize)
      modifies this`active
      ensures active != null && active.At(ld.gamePieces.value, ld.boardSize)
      ensures active == (if old(active.left) != null then old(active.left) else old(active))
      ensures active.tile == if old(active.tile.x) > 0
        then Position(old(active.tile.x) - 1, old(active.tile.y)) else old(active.tile)
    {
      assert active.Wired(ld.gamePieces.value, ld.boardSize);
      var x := active.location.x - 1;
      var y := active.location.y;
      if 0 <= x < ld.boardSize {
        active := ld.gamePieces.value[x][y];
      }
    }

    /** RotateActiveTile: the active piece turns a quarter, and the free flags
        around it are brought up to date. */
    method RotateActiveTile(ld: LD.LevelData, ghost pieces: set<PipeHandler>)
      requires ld.gamePieces.Some? && Placed(ld.gamePieces.value, ld.boardSize, pieces)
      requires Linked(ld.gamePieces.value, ld.boardSize, pieces)
      requires active != null && active.At(ld.gamePieces.value, ld.boardSize)
      modifies Just(active)`rotation, Just(active)`ioDirs
      modifies pieces`upFree, pieces`downFree, pieces`rightFree, pieces`leftFree
      ensures active.rotation == Turned(old(active.rotation), 1)
      ensures active.ioDirs == TurnedPorts(old(active.ioDirs), 1)
      ensures forall t :: t in active.Neighbourhood() && t != null ==> t.Accurate()
    {
      var g := ld.gamePieces.value;
      assert active.Wired(g, ld.boardSize);
      AroundInPieces(g, ld.boardSize, pieces, active);
      active.RotatePiece(g, ld.boardSize);
    }

    /** ResetLevel: nothing happens in free-world mode; otherwise the piece on
        the default start becomes the active tile and the board is shuffled. */
    method ResetLevel(ld: LD.LevelData, ghost pieces: set<PipeHandler>, rng: Oracle, k0: nat) returns (k: nat)
      requires ld.gamePieces.Some? && Placed(ld.gamePieces.value, boardSize, pieces)
      requires Linked(ld.gamePieces.value, boardSize, pieces) && ValidOracle(rng)
      requires !ld.isFreeWorldMode ==> ld.defaultStart.Some? && InBoard(ld.defaultStart.value, boardSize)
      modifies this`active, pieces`rotation, pieces`ioDirs, pieces`upFree, pieces`downFree, pieces`rightFree, pieces`leftFree
      ensures Placed(ld.gamePieces.value, boardSize, pieces) && Linked(ld.gamePieces.value, boardSize, pieces)
      ensures ld.isFreeWorldMode ==> k == k0 && active == old(active)
      ensures ld.isFreeWorldMode ==> forall p :: p in pieces ==> p.rotation == old(p.rotation) && p.ioDirs == old(p.ioDirs)
      ensures ld.isFreeWorldMode ==> unchanged(this) && unchanged(pieces)
      ensures !ld.isFreeWorldMode ==> k == k0 + boardSize * boardSize
      ensures !ld.isFreeWorldMode ==> active != null && active.tile == ld.defaultStart.value
      ensures !ld.isFreeWorldMode ==> forall x, y :: 0 <= x < boardSize && 0 <= y < boardSize ==>
        var g := ld.gamePieces.value;
        var t := ShuffleTurns(rng, k0, boardSize, x, y);
        0 <= t < 4 && g[x][y].rotation == Turned(old(g[x][y].rotation), t)
        && g[x][y].ioDirs == TurnedPorts(old(g[x][y].ioDirs), t)
    {
      if ld.isFreeWorldMode {
        return k0;
      }
      var g := ld.gamePieces.value;
      var start := ld.defaultStart.value;
      active := g[start.x][start.y];
      k := Shuffle(g, pieces, rng, k0);
    }
  }
}
