/** LevelData.cs: the static store of the level being played, the table from
    maze cells to pipe shapes, the random puzzle of arcade mode and the parser
    of level text. */
module LevelData {
  import opened Basics
  import opened Pipes
  import Maze = PuzzleGenerator
  import Text = LevelText

  // ---------------------------------------------------------------------------
  // The wall-set to shape table

  /** The wall sets a finished maze cell can show once VISITED is cleared: any
      combination of the four walls except all four. */
  predicate IsCellKey(w: Maze.CellWalls) {
    w & !Maze.ALL_WALLS == 0 && w != Maze.ALL_WALLS
  }

  /** How many of the four sides of w are walled. */
  function WallCount(w: Maze.CellWalls): (c: nat)
    ensures c <= 4
  {
    (if w & Maze.UP != 0 then 1 else 0) + (if w & Maze.RIGHT != 0 then 1 else 0)
      + (if w & Maze.DOWN != 0 then 1 else 0) + (if w & Maze.LEFT != 0 then 1 else 0)
  }

  /** The shapes that may stand on a maze cell with walls w: a Cross where the
      cell is open all round, a ThreeWay beside a single wall, a Straight in a
      corridor, a Round in a corner, and a Straight or a Round in a dead end. */
  function ShapesFor(w: Maze.CellWalls): seq<PipeType> {
    var c := WallCount(w);
    if c == 0 then [Cross]
    else if c == 1 then [ThreeWay]
    else if c == 2 && (w & (Maze.UP | Maze.DOWN) == 0 || w & (Maze.LEFT | Maze.RIGHT) == 0) then [Straight]
    else if c == 2 then [Round]
    else [Straight, Round]
  }

  /** The fifteen cell keys, one by one. */
  lemma CellKeyCases(w: Maze.CellWalls)
    requires IsCellKey(w)
    ensures w as int < 15
    ensures || w == 0 || w == 1 || w == 2 || w == 3 || w == 4 || w == 5 || w == 6 || w == 7
            || w == 8 || w == 9 || w == 10 || w == 11 || w == 12 || w == 13 || w == 14
  {
  }

  /** FillWallsToPipesMap: one Add per cell key. The dictionary is keyed by the
      integer value of the CellWalls flags (a C# enum is an integer).
      Dictionary.Add throws on a key already present, so none may be. */
  method FillWallsToPipesMap(m: map<int, seq<PipeType>>) returns (r: map<int, seq<PipeType>>)
    requires forall k :: 0 <= k < 15 ==> k !in m
    ensures forall k :: k in r <==> k in m || 0 <= k < 15
    ensures forall k :: k in m ==> r[k] == m[k]
    ensures forall w :: IsCellKey(w) ==> w as int in r && r[w as int] == ShapesFor(w)
  {
    r := m;
    // no walls
    r := r[Maze.NO_WALLS as int := [Cross]];
    // one wall
    r := r[Maze.UP as int := [ThreeWay]];
    r := r[Maze.DOWN as int := [ThreeWay]];
    r := r[Maze.LEFT as int := [ThreeWay]];
    r := r[Maze.RIGHT as int := [ThreeWay]];
    // two walls
    r := r[(Maze.UP | Maze.DOWN) as int := [Straight]];
    r := r[(Maze.RIGHT | Maze.LEFT) as int := [Straight]];
    r := r[(Maze.UP | Maze.RIGHT) as int := [Round]];
    r := r[(Maze.RIGHT | Maze.DOWN) as int := [Round]];
    r := r[(Maze.DOWN | Maze.LEFT) as int := [Round]];
    r := r[(Maze.LEFT | Maze.UP) as int := [Round]];
    // three walls
    r := r[(Maze.UP | Maze.RIGHT | Maze.DOWN) as int := [Straight, Round]];
    r := r[(Maze.RIGHT | Maze.DOWN | Maze.LEFT) as int := [Straight, Round]];
    r := r[(Maze.DOWN | Maze.LEFT | Maze.UP) as int := [Straight, Round]];
    r := r[(Maze.LEFT | Maze.UP | Maze.RIGHT) as int := [Straight, Round]];
    forall w | IsCellKey(w)
      ensures w as int in r && r[w as int] == ShapesFor(w)
    {
      CellKeyCases(w);
    }
  }

  /** The sides of the tile a maze cell ends up on that face an opening of the
      cell, in Dir order. GenerateLevel puts maze row y on board row N - 1 - y,
      so the maze's UP side (towards y + 1) faces the tile's DOWN side. */
  function TileOpenings(w: Maze.CellWalls): Ports {
    [w & Maze.DOWN == 0, w & Maze.RIGHT == 0, w & Maze.UP == 0, w & Maze.LEFT == 0]
  }

  /** Every side open in open has a port in ports. */
  predicate Covers(ports: Ports, open: Ports) {
    forall d: Dir :: open[d] ==> ports[d]
  }

  /** Some number of RotateIODirections steps, from none to three, gives ports
      covering open. */
  predicate SomeTurnCovers(ports: Ports, open: Ports) {
    var r1 := RotatedPorts(ports);
    var r2 := RotatedPorts(r1);
    var r3 := RotatedPorts(r2);
    Covers(ports, open) || Covers(r1, open) || Covers(r2, open) || Covers(r3, open)
  }

  /** Some number of RotateIODirections steps gives exactly the ports open. */
  predicate SomeTurnMatches(ports: Ports, open: Ports) {
    var r1 := RotatedPorts(ports);
    var r2 := RotatedPorts(r1);
    var r3 := RotatedPorts(r2);
    ports == open || r1 == open || r2 == open || r3 == open
  }

  /** Every shape the table offers for a cell can be turned so that its ports
      open onto every passage of the cell; where the cell has at most two walls
      the ports then match the passages exactly. A dead end has one passage and
      every offered shape two ports, so one port faces a wall there. */
  lemma {:induction false} ShapesServeCell(w: Maze.CellWalls)
    requires IsCellKey(w)
    ensures forall s :: s in ShapesFor(w) ==> SomeTurnCovers(PrefabPorts(s), TileOpenings(w))
    ensures WallCount(w) <= 2 ==>
      forall s :: s in ShapesFor(w) ==> SomeTurnMatches(PrefabPorts(s), TileOpenings(w))
  {
    CellKeyCases(w);
    if w < 4 {
    } else if w < 8 {
    } else if w < 12 {
    } else {
    }
  }

  // ---------------------------------------------------------------------------
  // Start and end of a random puzzle

  /** The cells GetRandomStartPos can choose on a board of size n: the top row
      up to the middle column, or the left column from the middle row up to the
      row below the top. */
  predicate StartZone(p: Position, n: int) {
    && 0 <= p.x <= n / 2
    && (p.x != 0 ==> p.y == n - 1)
    && (p.x == 0 ==> n / 2 <= p.y <= n - 1 && (n >= 3 ==> p.y <= n - 2))
  }

  /** The cells GetRandomEndPos can choose: the bottom row from the middle column
      on, or the right column from the bottom up to the middle row. */
  predicate EndZone(p: Position, n: int) {
    && n / 2 <= p.x <= n - 1
    && (p.x != n - 1 ==> p.y == 0)
    && (p.x == n - 1 ==> 0 <= p.y <= n / 2)
  }

  /** GetRandomStartPos with the board size n and the draws k and k + 1. The
      source's (int)(BoardSize / 2.0) is n / 2 for a positive n. */
  function GetRandomStartPos(n: int, rng: Oracle, k: nat): (p: Position)
    requires n >= 1 && ValidOracle(rng)
    ensures StartZone(p, n) && InBoard(p, n)
  {
    var x := rng(0, n / 2 + 1, k);
    if x != 0 then Position(x, n - 1) else Position(x, rng(n / 2, n - 1, k + 1))
  }

  /** GetRandomEndPos with the board size n and the draws k and k + 1. */
  function GetRandomEndPos(n: int, rng: Oracle, k: nat): (p: Position)
    requires n >= 1 && ValidOracle(rng)
    ensures EndZone(p, n) && InBoard(p, n)
  {
    var x := rng(n / 2, n, k);
    if x != n - 1 then Position(x, 0) else Position(x, rng(0, n / 2 + 1, k + 1))
  }

  /** From a 3 x 3 board up the two zones do not meet, so the start and the end
      of a random puzzle are different cells. */
  lemma ZonesApart(p: Position, q: Position, n: int)
    requires n >= 3 && StartZone(p, n) && EndZone(q, n)
    ensures p != q
  {
  }

  /** On a 2 x 2 board both zones hold the top right cell. */
  lemma ZonesMeetOnTwoByTwo()
    ensures StartZone(Position(1, 1), 2) && EndZone(Position(1, 1), 2)
  {
  }

  /** A finished maze cell with at least one open side, VISITED cleared, is a key
      of the shape table. */
  lemma FinishedCellIsKey(v: Maze.CellWalls)
    requires Maze.Clean(v) && v & Maze.ALL_WALLS != Maze.ALL_WALLS
    ensures IsCellKey(v & !Maze.VISITED)
  {
  }

  /** A pipe GetRandomPuzzle may put on a maze cell with walls v. */
  predicate DrawnFor(p: Pipe, v: Maze.CellWalls) {
    p.liquid == Water && p.kind in ShapesFor(v & !Maze.VISITED)
  }

  /** The static flags of GUIHandler (IsEndGame) and PauseControl (GameIsPaused)
      that the core reads and resets. */
  class GameFlags {
    var isEndGame: bool
    var gameIsPaused: bool

    constructor()
      ensures !isEndGame && !gameIsPaused
    {
      isEndGame := false;
      gameIsPaused := false;
    }

    /** The game is neither over nor paused: what every scene loader sets first. */
    method Resume()
      modifies this
      ensures !isEndGame && !gameIsPaused
    {
      isEndGame := false;
      gameIsPaused := false;
    }
  }

  /** The static class LevelData, as one object. */
  class LevelData {
    var isArcadeMode: bool
    var isFreeWorldMode: bool
    var levelNumber: int
    var boardSize: int
    var timeLimit: int
    var difficulty: Difficulty
    /** Starts and Ends: the start and end cells of each liquid, in board coordinates. */
    var starts: map<Liquid, seq<Position>>
    var ends: map<Liquid, seq<Position>>
    /** GamePieces, null until a level stores its pieces. */
    var gamePieces: Option<Grid>
    /** lvlData: the lines of the level text being loaded. */
    var lvlData: Option<seq<string>>
    var defaultStart: Option<Position>
    var defaultEnd: Option<Position>

    /** The values of the static fields when the game starts. */
    constructor()
      ensures !isArcadeMode && !isFreeWorldMode && levelNumber == 0 && boardSize == 0 && timeLimit == 0
      ensures difficulty == Easy && starts == map[] && ends == map[]
      ensures gamePieces == None && lvlData == None && defaultStart == None && defaultEnd == None
    {
      isArcadeMode := false;
      isFreeWorldMode := false;
      levelNumber := 0;
      boardSize := 0;
      timeLimit := 0;
      difficulty := Easy;
      starts := map[];
      ends := map[];
      gamePieces := None;
      lvlData := None;
      defaultStart := None;
      defaultEnd := None;
    }

    /** The level of the previous game is forgotten: no start or end cells, no
        default start or end, no pieces. Both game loaders of SceneHandler begin
        with these five assignments. */
    method ClearLevel()
      modifies this`starts, this`ends, this`defaultStart, this`defaultEnd, this`gamePieces
      ensures starts == map[] && ends == map[] && defaultStart == None && defaultEnd == None
      ensures gamePieces == None
    {
      starts := map[];
      ends := map[];
      defaultStart := None;
      defaultEnd := None;
      gamePieces := None;
    }

    /** GetRandomPuzzle: a maze of width x height cells is carved and every cell
        gets a Water pipe of a shape the table offers for its walls; then one
        Water start and one Water end are chosen on the board. The source throws
        on a 1 x 1 maze (its only cell has four walls, no key of the table) and
        when Starts or Ends already has a Water entry. */
    method GetRandomPuzzle(width: int, height: int, rng: Oracle, k0: nat)
      returns (pipes: array2<Pipe>, ghost maze: map<Position, Maze.CellWalls>, k: nat)
      requires width >= 1 && height >= 1 && (width >= 2 || height >= 2)
      requires boardSize >= 1 && ValidOracle(rng)
      requires Water !in starts && Water !in ends
      modifies this`defaultStart, this`defaultEnd, this`starts, this`ends
      ensures fresh(pipes) && pipes.Length0 == width && pipes.Length1 == height
      ensures maze.Keys == Maze.AllCells(width, height) && Maze.IsSpanningTree(maze)
      ensures forall i, j :: 0 <= i < width && 0 <= j < height ==> DrawnFor(pipes[i, j], maze[Position(i, j)])
      ensures defaultStart.Some? && StartZone(defaultStart.value, boardSize)
      ensures defaultEnd.Some? && EndZone(defaultEnd.value, boardSize)
      ensures starts == old(starts)[Water := [defaultStart.value]]
      ensures ends == old(ends)[Water := [defaultEnd.value]]
      ensures k >= k0
    {
      pipes, maze, k := PipesOfMaze(width, height, rng, k0);
      defaultStart := Some(GetRandomStartPos(boardSize, rng, k));
      defaultEnd := Some(GetRandomEndPos(boardSize, rng, k + 2));
      k := k + 4;
      starts := starts[Water := [defaultStart.value]];
      ends := ends[Water := [defaultEnd.value]];
    }

    /** ReadInputLevelData: reads the cell lines of lvlData (all lines after the
        board size and the time limits) into a board of pipes, adds the marked
        starts and ends to Starts and Ends, sets the default start and end when
        they are unset, and drops lvlData. A cell that no record names keeps the
        array's default element. The source indexes its array by text position,
        so it needs a text that fits the board. */
    method ReadInputLevelData() returns (pipes: array2<Pipe>)
      requires lvlData.Some? && |lvlData.value| >= 2 && boardSize >= 0
      requires Text.Fits(lvlData.value[2..], boardSize)
      modifies this`starts, this`ends, this`defaultStart, this`defaultEnd, this`lvlData
      ensures fresh(pipes) && pipes.Length0 == boardSize && pipes.Length1 == boardSize
      ensures var r := Text.ScanLines(Text.Initial(boardSize, old(defaultStart), old(defaultEnd), old(starts), old(ends)),
                                      old(lvlData).value[2..]);
        starts == r.out.starts && ends == r.out.ends
        && defaultStart == r.out.defaultStart && defaultEnd == r.out.defaultEnd
        && forall x, y :: 0 <= x < boardSize && 0 <= y < boardSize ==> pipes[x, y] == Text.CellOf(r.out.cells, x, y)
      ensures lvlData == None
    {
      pipes := new Pipe[boardSize, boardSize]((_, _) => DefaultPipe);
      var reader := Text.Initial(boardSize, defaultStart, defaultEnd, starts, ends);
      ghost var s0 := reader;
      var lines := lvlData.value[2..];
      for row := 0 to |lines|
        modifies pipes
        invariant reader == Text.ScanLines(s0, lines[..row])
        invariant reader.xCoord == 0 && reader.yCoord == row && reader.offset == boardSize - 1 - 2 * row
        invariant forall x, y :: 0 <= x < boardSize && 0 <= y < boardSize ==> pipes[x, y] == Text.CellOf(reader.out.cells, x, y)
      {
        assert lines[..row + 1] == lines[..row] + [lines[row]];
        Text.ScanCharsCursor(reader, lines[row]);
        reader := ReadLine(pipes, lines[row], reader);
        // Update yCoord, xCoord and offset.
        reader := reader.(yCoord := reader.yCoord + 1, xCoord := 0, offset := reader.offset - 2);
      }
      assert lines[..|lines|] == lines;
      starts, ends, defaultStart, defaultEnd := reader.out.starts, reader.out.ends, reader.out.defaultStart, reader.out.defaultEnd;
      lvlData := None;
    }
  }

  /** The inner loop of ReadInputLevelData: the characters of one cell line. The
      reader's local variables and the fields it updates come in and go out as
      a Scanner; the pipes go to the array. */
  method ReadLine(pipes: array2<Pipe>, line: string, reader: Text.Scanner) returns (next: Text.Scanner)
    requires reader.xCoord == 0 && 0 <= reader.yCoord
    requires Text.Semicolons(line) <= pipes.Length0 && (Text.Semicolons(line) > 0 ==> reader.yCoord < pipes.Length1)
    requires forall x, y :: 0 <= x < pipes.Length0 && 0 <= y < pipes.Length1 ==> pipes[x, y] == Text.CellOf(reader.out.cells, x, y)
    modifies pipes
    ensures next == Text.ScanChars(reader, line)
    ensures forall x, y :: 0 <= x < pipes.Length0 && 0 <= y < pipes.Length1 ==> pipes[x, y] == Text.CellOf(next.out.cells, x, y)
  {
    next := reader;
    var i := 0;
    while i < |line|
      invariant 0 <= i <= |line|
      invariant next == Text.ScanChars(reader, line[..i])
      invariant next.xCoord == Text.Semicolons(line[..i]) && next.yCoord == reader.yCoord
      invariant forall x, y :: 0 <= x < pipes.Length0 && 0 <= y < pipes.Length1 ==> pipes[x, y] == Text.CellOf(next.out.cells, x, y)
    {
      Text.SemicolonsPrefix(line, i);
      Text.ScanCharsSnoc(reader, line[..i], line[i]);
      assert line[..i + 1] == line[..i] + [line[i]];
      next := ReadChar(pipes, next, line[i]);
      i := i + 1;
    }
    assert line[..i] == line;
  }

  /** The body of the inner loop of ReadInputLevelData, for the character
      `current`, on the reader's local variables. */
  method ReadChar(pipes: array2<Pipe>, reader: Text.Scanner, current: char) returns (next: Text.Scanner)
    requires current == ';' ==> 0 <= reader.xCoord < pipes.Length0 && 0 <= reader.yCoord < pipes.Length1
    requires forall x, y :: 0 <= x < pipes.Length0 && 0 <= y < pipes.Length1 ==> pipes[x, y] == Text.CellOf(reader.out.cells, x, y)
    modifies pipes
    ensures next == Text.Step(reader, current)
    ensures forall x, y :: 0 <= x < pipes.Length0 && 0 <= y < pipes.Length1 ==> pipes[x, y] == Text.CellOf(next.out.cells, x, y)
  {
    var isPipeInfo, isStart, isEnd := reader.rec.isPipeInfo, reader.rec.isStart, reader.rec.isEnd;
    var xCoord, yCoord, value, pipeLiquid := reader.xCoord, reader.yCoord, reader.rec.value, reader.rec.pipeLiquid;
    var savedPos, offset := reader.rec.savedPos, reader.offset;
    var defaultStart, defaultEnd, starts, ends := reader.out.defaultStart, reader.out.defaultEnd, reader.out.starts, reader.out.ends;
    var cells := reader.out.cells;
    // A semicolon ends a record: its pipe goes to the array, its mark to Starts or Ends.
    if current == ';' {
      var pipe := if value == 0 then Pipe(pipeLiquid, Empty) else Pipe(pipeLiquid, (value - 1) as PipeType);
      pipes[xCoord, yCoord] := pipe;
      cells := cells[Position(xCoord, yCoord) := pipe];
      if isStart {
        if pipeLiquid in starts {
          starts := starts[pipeLiquid := starts[pipeLiquid] + [savedPos]];
        } else {
          starts := starts[pipeLiquid := [savedPos]];
        }
      } else if isEnd {
        if pipeLiquid in ends {
          ends := ends[pipeLiquid := ends[pipeLiquid] + [savedPos]];
        } else {
          ends := ends[pipeLiquid := [savedPos]];
        }
      }
      xCoord := xCoord + 1;
      isPipeInfo, isStart, isEnd := false, false, false;
    } else if current == 'S' {
      savedPos := Position(xCoord, yCoord + offset);
      defaultStart := if defaultStart == None then Some(savedPos) else defaultStart;
      isStart := true;
    } else if current == 'E' {
      savedPos := Position(xCoord, yCoord + offset);
      defaultEnd := if defaultEnd == None then Some(savedPos) else defaultEnd;
      isEnd := true;
    }
    // The character after a colon is a shape code or a liquid.
    if isPipeInfo {
      var testValue := current as int - '0' as int;
      if testValue < 0 || 9 < testValue {
        pipeLiquid := if current == 'W' then Water else Lava;
      }
      value := testValue;
      isPipeInfo := false;
    }
    if current == ':' {
      isPipeInfo := true;
    }
    next := Text.Scanner(xCoord, yCoord, offset, Text.Pending(isPipeInfo, isStart, isEnd, value, pipeLiquid, savedPos),
                         Text.Output(defaultStart, defaultEnd, starts, ends, cells));
  }

  /** The first half of GetRandomPuzzle: the shape table is filled, a maze is
      carved and every cell gets a Water pipe the table offers for its walls. */
  method PipesOfMaze(width: int, height: int, rng: Oracle, k0: nat)
    returns (pipes: array2<Pipe>, ghost maze: map<Position, Maze.CellWalls>, k: nat)
    requires width >= 1 && height >= 1 && (width >= 2 || height >= 2)
    requires ValidOracle(rng)
    ensures fresh(pipes) && pipes.Length0 == width && pipes.Length1 == height
    ensures maze.Keys == Maze.AllCells(width, height) && Maze.IsSpanningTree(maze)
    ensures forall i, j :: 0 <= i < width && 0 <= j < height ==> DrawnFor(pipes[i, j], maze[Position(i, j)])
    ensures k >= k0
  {
    var wallsToPipesMap := FillWallsToPipesMap(map[]);
    var puzzleWalls;
    puzzleWalls, k := Maze.GenerateMaze(width, height, rng, k0);
    maze := Maze.Snapshot(puzzleWalls);
    var other := if width >= 2 then Position(1, 0) else Position(0, 1);
    assert other in maze;
    Maze.NoClosedCell(maze);
    forall i, j | 0 <= i < width && 0 <= j < height
      ensures IsCellKey(puzzleWalls[i, j] & !Maze.VISITED)
    {
      assert Position(i, j) in maze;
      FinishedCellIsKey(puzzleWalls[i, j]);
    }
    pipes, k := DrawPipes(puzzleWalls, wallsToPipesMap, rng, k);
    forall i, j | 0 <= i < width && 0 <= j < height
      ensures DrawnFor(pipes[i, j], maze[Position(i, j)])
    {
      assert Position(i, j) in maze;
    }
  }

  /** The nested loop of GetRandomPuzzle: each cell's walls, VISITED cleared,
      are looked up in the table and one of the listed shapes is drawn. */
  method DrawPipes(walls: array2<Maze.CellWalls>, table: map<int, seq<PipeType>>, rng: Oracle, k0: nat)
    returns (pipes: array2<Pipe>, k: nat)
    requires ValidOracle(rng)
    requires forall w :: IsCellKey(w) ==> w as int in table && table[w as int] == ShapesFor(w)
    requires forall i, j :: 0 <= i < walls.Length0 && 0 <= j < walls.Length1 ==>
      IsCellKey(walls[i, j] & !Maze.VISITED)
    ensures fresh(pipes) && pipes.Length0 == walls.Length0 && pipes.Length1 == walls.Length1
    ensures forall i, j :: 0 <= i < walls.Length0 && 0 <= j < walls.Length1 ==> DrawnFor(pipes[i, j], walls[i, j])
    ensures k >= k0
  {
    k := k0;
    pipes := new Pipe[walls.Length0, walls.Length1]((_, _) => DefaultPipe);
    for i := 0 to walls.Length0
      modifies pipes
      invariant forall x, y :: 0 <= x < i && 0 <= y < walls.Length1 ==> DrawnFor(pipes[x, y], walls[x, y])
      invariant k >= k0
    {
      for j := 0 to walls.Length1
        modifies pipes
        invariant forall x, y :: 0 <= x < i && 0 <= y < walls.Length1 ==> DrawnFor(pipes[x, y], walls[x, y])
        invariant forall y :: 0 <= y < j ==> DrawnFor(pipes[i, y], walls[i, y])
        invariant k >= k0
      {
        var wallStateWOVisited := walls[i, j] & !Maze.VISITED;
        var possiblePipes := table[wallStateWOVisited as int];
        var chosenPipeType := possiblePipes[rng(0, |possiblePipes|, k)];
        k := k + 1;
        pipes[i, j] := Pipe(Water, chosenPipeType);
      }
    }
  }
}
