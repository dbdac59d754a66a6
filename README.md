# MazeGame pipe puzzle, modelled in Dafny

MazeGame is a Unity puzzle game. The board is an N x N grid of pipe pieces. The
player rotates pieces, and in free-world mode drags them onto empty slots. The
goal is to let Water, and then Lava, flow from their start pipes to their end
pipes. This project models the game logic of the C# scripts and proves what that
logic promises. It leaves out the Unity presentation around it.

One module per source file:

- `Basics` (basics.dfy) holds the value types of LevelData.cs and PipeHandler.cs.
  These are `Pipe`, `Position`, `Liquid`, `PipeType`, `Dir` and `Difficulty`.
  It also holds the random-number oracle.
- `Pipes` (pipes.dfy) models PipeHandler.cs. A piece is a class with its ports,
  its angle, its neighbour references and its four free flags. The module covers
  rotating a piece, looking up its neighbours and recomputing the free flags.
- `PuzzleGenerator` (puzzle_generator.dfy) models the randomized depth-first
  backtracker. It works on `bv8` wall sets. The finished maze is proved to be a
  spanning tree whose walls are symmetric.
- `LevelData` (level_data.dfy) models the static level store. It covers the
  table from wall sets to pipe shapes, the random arcade puzzle with its start
  and end zones, and the level-text reader.
- `LevelText` (level_text.dfy) models the character state machine inside
  `ReadInputLevelData` as a left fold. It includes the row flip, reading order,
  the first start and end, and the carried-over record fields.
- `LevelHandler` (level_handler.dfy) models LevelHandler.cs. It covers placement
  with the y-flip and the free-world draw without replacement, `StoreGamePieces`,
  `Shuffle`, the moves of the active tile and `ResetLevel`.
- `GameManager` (game_manager.dfy) models the flows. They are one breadth-first
  search over a single shared queue, visited set and distance table. The module
  also models the win evaluation in `Update`.
- `SceneHandler` (scene_handler.dfy) models the scene loaders. They reset the
  static state, parse the level header with `int.Parse` and `string.Split`, pick
  the time limit and set the tutorial flags.
- `GridPipes` (grid_pipe.dfy) models dragging and dropping a piece, and the swap
  with an EMPTY pipe. The swap is modelled as written and, for the rest of the
  model, with the correction listed under Findings.

Some inputs are parameters of the model:

- **Randomness.** `UnityEngine.Random.Range(lo, hi)` is an oracle
  `rng(lo, hi, k)`. The index k counts the draws, and `ValidOracle` keeps every
  draw in `[lo, hi)`.
- **`LevelData.GamePieces`.** It is passed as a value of type
  `seq<seq<PipeHandler?>>`, together with the board size.
- **The level text.** It arrives already split into lines.
- **The drop target.** `Drop` receives the touching tile closest to the piece,
  or `None` when the piece touches no tile.

The model runs the flow coroutines one after another, each until it ends. The
waits they yield only pace the animation. The liquid test compares a piece's own
liquid with its neighbour's, so when every liquid that has starts also has an
`Ends` entry the visited set does not depend on the interleaving: `Spread` and
`LaunchAll` prove that no flow then throws. When a flow does throw, the source
can interleave it with another flow so that it takes a piece of the other
liquid off the shared queue and drops it unexpanded; the sequential schedule
does not capture that outcome.

Some behaviours of the source are modelled as written:

- Rotation shifts port i + 1 into port i.
- The level reader keeps the liquid and the shape code from one record to the
  next, and does not validate the size of the text.
- In free-world mode, start and end pipes stay in the draw pool. A start cell
  removes one equal pipe from the pool, if one is still there.
- `Flow` throws when the flow's liquid has no `Ends` entry and a piece other than
  the start comes out of the queue. That flow then never marks itself finished.

## Model

| member | source | states |
|---|---|---|
| Basics.Opposite | Unity/Assets/Scripts/PipeHandler.cs:201-228 | the side a neighbour faces back with: UP and DOWN, RIGHT and LEFT pair up, and no side is its own opposite |
| Pipes.PrefabPorts | Unity/Assets/Scripts/PipeHandler.cs:18-22 | every prefab carries exactly four port flags, one per Dir |
| Pipes.RotatedPorts | Unity/Assets/Scripts/PipeHandler.cs:134-143 | one rotation moves port i + 1 to port i for i < 3 and the old up port to the left |
| Pipes.RotationKeepsPorts | Unity/Assets/Scripts/PipeHandler.cs:134-143 | a rotation neither adds nor removes ports: the multiset of flags is unchanged |
| Pipes.FourRotationsRestorePorts | Unity/Assets/Scripts/PipeHandler.cs:134-143 | four rotations give back the original port layout |
| Pipes.NextRotation | Unity/Assets/Scripts/PipeHandler.cs:121-124 | from a quarter-turn angle the next angle is another quarter-turn angle, different from the old one (90 added, 360 wraps to 0) |
| Pipes.FourTurnsRestoreRotation | Unity/Assets/Scripts/PipeHandler.cs:121-124 | four turns bring a quarter-turn angle back to itself |
| Pipes.PipeHandler.constructor | Unity/Assets/Scripts/PipeHandler.cs:22-35 | a new piece has its prefab's ports, its pipe type, angle 0, no neighbour references and every free flag down |
| Pipes.PipeHandler.Start | Unity/Assets/Scripts/PipeHandler.cs:39-46 | the angle is 0 and the piece is wired: its location is its tile and each reference is the GamePieces slot on that side, or null at the board's edge |
| Pipes.PipeHandler.UpdateNeighbouringPipeHandlers | Unity/Assets/Scripts/PipeHandler.cs:60-92 | afterwards the piece is wired to the grid: location = parent tile, up/down/right/left = the slot on that side or null past the edge |
| Pipes.PipeHandler.RotatePiece | Unity/Assets/Scripts/PipeHandler.cs:117-129 | the angle is NextRotation of the old one, the ports are RotatedPorts of the old ones, and the piece and every piece around it have accurate free flags |
| Pipes.PipeHandler.ProcessNearbyPipeChanges | Unity/Assets/Scripts/PipeHandler.cs:149-178 | with the look-up the pieces it refers to are exactly those around its tile; in both modes the piece and its neighbours end wired and distinct, with accurate free flags; with the look-up only the pieces around its tile are written |
| Pipes.PipeHandler.RelinkAround | Unity/Assets/Scripts/PipeHandler.cs:152-165 | the piece, then each piece around it, is wired to the grid |
| Pipes.PipeHandler.RelinkOthers | Unity/Assets/Scripts/PipeHandler.cs:157-164 | each piece the wired piece refers to is wired to the grid, and only those are written |
| Pipes.PipeHandler.RefreshAround | Unity/Assets/Scripts/PipeHandler.cs:167-177 | the piece and every piece around it end with accurate free flags; the wiring is kept |
| Pipes.RelinkEach | Unity/Assets/Scripts/PipeHandler.cs:157-164 | every non-null piece of the list is wired, and only the listed pieces are written |
| Pipes.RefreshEach | Unity/Assets/Scripts/PipeHandler.cs:170-177 | every non-null piece of the list ends with accurate free flags and keeps its wiring |
| Pipes.PipeHandler.RotateIODirections | Unity/Assets/Scripts/PipeHandler.cs:134-143 | the new ports are RotatedPorts of the old ports, whose laws are proved above |
| Pipes.PipeHandler.UpdateAvailableSides | Unity/Assets/Scripts/PipeHandler.cs:183-237 | each free flag is up exactly when the piece has a port on that side, a neighbour is referenced there and the neighbour has the facing port |
| Pipes.FreeFlagsAgree | Unity/Assets/Scripts/PipeHandler.cs:183-237 | two pieces that refer to each other across a side, both with accurate flags, agree on whether that side is free |
| Pipes.WiredFacts | Unity/Assets/Scripts/PipeHandler.cs:60-92 | on a placed board the pieces a wired piece refers to are the pieces around its tile, no two the same, each in its own slot |
| Pipes.LinkedSettled | Unity/Assets/Scripts/PipeHandler.cs:60-92 | on a board where every piece has looked its neighbours up, each piece's neighbourhood is wired and distinct |
| PuzzleGenerator.GetOppositeWall | Unity/Assets/Scripts/StaticClasses/PuzzleGenerator.cs:33-48 | for a single wall the result is another single wall that leads back from the neighbour; any other value maps to LEFT |
| PuzzleGenerator.OppositeWallIsInvolution | Unity/Assets/Scripts/StaticClasses/PuzzleGenerator.cs:33-48 | taking the opposite twice gives back the wall |
| PuzzleGenerator.GetUnvisitedAdjacentCells | Unity/Assets/Scripts/StaticClasses/PuzzleGenerator.cs:99-169 | at most four neighbours are offered |
| PuzzleGenerator.UnvisitedAdjacentCellsSound | Unity/Assets/Scripts/StaticClasses/PuzzleGenerator.cs:99-169 | every offered cell is on the grid, unvisited, and across the wall recorded with it |
| PuzzleGenerator.UnvisitedAdjacentCellsComplete | Unity/Assets/Scripts/StaticClasses/PuzzleGenerator.cs:99-169 | every unvisited on-grid cell across a wall is offered with that wall |
| PuzzleGenerator.CarvePassage | Unity/Assets/Scripts/StaticClasses/PuzzleGenerator.cs:82-86 | the grid afterwards is the carve of the old one: the shared wall is cleared on both sides and the new cell is marked visited, nothing else changes |
| PuzzleGenerator.CarveStep | Unity/Assets/Scripts/StaticClasses/PuzzleGenerator.cs:72-89 | a carve into an unvisited neighbour keeps the backtracker's invariant and removes exactly one cell from the unvisited set |
| PuzzleGenerator.PopStep | Unity/Assets/Scripts/StaticClasses/PuzzleGenerator.cs:66-72 | popping a cell with no unvisited neighbour keeps the invariant |
| PuzzleGenerator.CarveStart | Unity/Assets/Scripts/StaticClasses/PuzzleGenerator.cs:58-63 | the first state (origin visited and pushed, all walls up) satisfies the invariant |
| PuzzleGenerator.NoneUnvisitedIsFinished | Unity/Assets/Scripts/StaticClasses/PuzzleGenerator.cs:70-72 | a cell for which no neighbour is offered has only visited neighbours |
| PuzzleGenerator.ChosenNeighbour | Unity/Assets/Scripts/StaticClasses/PuzzleGenerator.cs:77-80 | any offered neighbour the random index picks is an unvisited cell across one wall |
| PuzzleGenerator.EmptyStackVisitsAll | Unity/Assets/Scripts/StaticClasses/PuzzleGenerator.cs:66 | when the stack empties every cell of the grid has been visited |
| PuzzleGenerator.Backtrack | Unity/Assets/Scripts/StaticClasses/PuzzleGenerator.cs:56-93 | from an all-walls grid, every cell ends visited, only wall and VISITED bits are set, and the open passages form a spanning tree rooted at (0, 0) |
| PuzzleGenerator.GenerateMaze | Unity/Assets/Scripts/StaticClasses/PuzzleGenerator.cs:175-191 | a fresh width x height grid that is a perfect maze: every cell visited and the passages a spanning tree |
| PuzzleGenerator.WallsSymmetric | Unity/Assets/Scripts/StaticClasses/PuzzleGenerator.cs:82-84 | in the finished maze a side is open exactly when the neighbour's facing side is open |
| PuzzleGenerator.BoundaryWallsKept | Unity/Assets/Scripts/StaticClasses/PuzzleGenerator.cs:104-166 | no side facing out of the grid is ever opened |
| PuzzleGenerator.OneLinkPerCell | Unity/Assets/Scripts/StaticClasses/PuzzleGenerator.cs:56-93 | the tree has exactly one parent link per cell other than the origin |
| PuzzleGenerator.NoClosedCell | Unity/Assets/Scripts/StaticClasses/PuzzleGenerator.cs:56-93 | on a grid of two or more cells no cell is walled on all four sides |
| PuzzleGenerator.WallBetween | Unity/Assets/Scripts/StaticClasses/PuzzleGenerator.cs:104-166 | the wall chosen between two neighbours is a single wall that leads from one to the other |
| LevelData.CellKeyCases | Unity/Assets/Scripts/StaticClasses/LevelData.cs:324-359 | the keys of the table are exactly the fifteen wall sets 0 to 14 |
| LevelData.FillWallsToPipesMap | Unity/Assets/Scripts/StaticClasses/LevelData.cs:324-359 | the table gains exactly the fifteen wall sets and keeps every old entry; each wall set maps to the shapes for its wall count (Cross, ThreeWay, Straight or Round, Straight and Round) |
| LevelData.ShapesServeCell | Unity/Assets/Scripts/StaticClasses/LevelData.cs:324-359 | every shape offered for a cell can be turned so its ports open onto every passage of the cell, and onto exactly those when the cell has at most two walls |
| LevelData.FinishedCellIsKey | Unity/Assets/Scripts/StaticClasses/LevelData.cs:165-166 | a finished maze cell with VISITED cleared is always a key of the table, so the lookup cannot miss |
| LevelData.GetRandomStartPos | Unity/Assets/Scripts/StaticClasses/LevelData.cs:184-194 | the start lies on the board, in the top row up to the middle column or in the left column from the middle up |
| LevelData.GetRandomEndPos | Unity/Assets/Scripts/StaticClasses/LevelData.cs:199-209 | the end lies on the board, in the bottom row from the middle column or in the right column up to the middle |
| LevelData.ZonesApart | Unity/Assets/Scripts/StaticClasses/LevelData.cs:184-209 | from a 3 x 3 board up the start and end can never be the same cell |
| LevelData.ZonesMeetOnTwoByTwo | Unity/Assets/Scripts/StaticClasses/LevelData.cs:184-209 | on a 2 x 2 board both draws can land on the same cell (1, 1) |
| LevelData.GameFlags.Resume | Unity/Assets/Scripts/StaticClasses/SceneHandler.cs:28-29 | the game is afterwards neither over nor paused |
| LevelData.LevelData.constructor | Unity/Assets/Scripts/StaticClasses/LevelData.cs:86-138 | every static field starts at its C# default: no mode, size 0, empty Starts and Ends, no pieces, no defaults |
| LevelData.LevelData.ClearLevel | Unity/Assets/Scripts/StaticClasses/SceneHandler.cs:32-36 | Starts and Ends are empty, the defaults are unset and GamePieces is null |
| LevelData.PipesOfMaze | Unity/Assets/Scripts/StaticClasses/LevelData.cs:151-171 | a fresh width x height board whose maze is a spanning tree and whose every cell holds a Water pipe of a shape the table offers for that cell |
| LevelData.DrawPipes | Unity/Assets/Scripts/StaticClasses/LevelData.cs:160-171 | each cell gets a Water pipe whose shape is one of those the table lists for its walls without VISITED |
| LevelData.LevelData.GetRandomPuzzle | Unity/Assets/Scripts/StaticClasses/LevelData.cs:147-179 | the board's pipes fit a perfect maze; the default start and end lie in their zones, and Starts and Ends gain one Water entry each, holding exactly those cells |
| LevelData.LevelData.ReadInputLevelData | Unity/Assets/Scripts/StaticClasses/LevelData.cs:215-319 | the board, Starts, Ends and the defaults are those of LevelText.ScanLines over the cell lines (what they hold: LevelText.LinesListed, LevelText.LinesOrdered, LevelText.LinesDefaults); lvlData is dropped |
| LevelData.ReadLine | Unity/Assets/Scripts/StaticClasses/LevelData.cs:228-315 | after one line the reader is LevelText.ScanChars of the line, and the array holds the cells that scan recorded |
| LevelData.ReadChar | Unity/Assets/Scripts/StaticClasses/LevelData.cs:231-309 | after one character the reader is LevelText.Step of that character, and the array holds the recorded cells |
| LevelText.StepCursor | Unity/Assets/Scripts/StaticClasses/LevelData.cs:233-309 | a character moves the cursor one column exactly when it is ';', and only then writes a pipe: at the old cursor, of the record's liquid and of the shape its code names (0 EMPTY, v the member v - 1) |
| LevelText.ScanCharsCursor | Unity/Assets/Scripts/StaticClasses/LevelData.cs:230-310 | within a line each ';' writes the next column of the same text row, and the pipes written are the first Semicolons(line) columns |
| LevelText.ScanLinesCursor | Unity/Assets/Scripts/StaticClasses/LevelData.cs:226-315 | after k lines the text row is k, the row offset is n - 1 - 2k, and the pipes written are exactly the first Semicolons columns of each line |
| LevelText.SlotsOnBoard | Unity/Assets/Scripts/StaticClasses/LevelData.cs:225-244 | for a text with at most n rows of at most n records, every pipe written lies on the n x n board |
| LevelText.StepOrdered | Unity/Assets/Scripts/StaticClasses/LevelData.cs:247-290 | one character keeps Starts and Ends listed in reading order, and an 'S' or 'E' adds its own position to the marks seen |
| LevelText.LinesOrdered | Unity/Assets/Scripts/StaticClasses/LevelData.cs:247-290 | from empty Starts and Ends, every list of starts or ends is in reading order, and each entry is a cell marked in the text, at board row n - 1 minus its text row |
| LevelText.CharsDefaults | Unity/Assets/Scripts/StaticClasses/LevelData.cs:277-290 | within a line, a default start or end once set is kept; otherwise it becomes the first 'S' or 'E' of the line |
| LevelText.LinesDefaults | Unity/Assets/Scripts/StaticClasses/LevelData.cs:277-290 | the default start and end a text gives are those already set, or else the first 'S' and the first 'E' of the text in board coordinates |
| LevelText.RecordBody | Unity/Assets/Scripts/StaticClasses/LevelData.cs:277-307 | inside a record the cursor, Starts, Ends and the pipes stay put; the flags gain the record's 'S' and 'E', a mark leaves the pending position at the cursor, and without ':' the liquid and shape code stay as they were |
| LevelText.RecordRepeatsPrevious | Unity/Assets/Scripts/StaticClasses/LevelData.cs:236-302 | for every state and record: a ';' writes the pipe of the record's liquid and code at the cursor, and a following record without ':' writes the same pipe in the next column |
| LevelText.RecordListed | Unity/Assets/Scripts/StaticClasses/LevelData.cs:236-290 | for every record: its ';' appends its board position to Starts under the liquid of the pipe it writes when it holds an 'S' (with or without an 'E'), to Ends when it holds an 'E' and no 'S', and to neither otherwise |
| LevelText.StepListed | Unity/Assets/Scripts/StaticClasses/LevelData.cs:236-290 | one character: the flags become those of the open record, a pending mark stays at the cursor, and a ';' adds exactly the record's position to Starts (an 'S') or to Ends (an 'E' only) |
| LevelText.CharsListed | Unity/Assets/Scripts/StaticClasses/LevelData.cs:230-310 | a line adds to Starts exactly its closed records holding an 'S', and to Ends exactly those holding an 'E' and no 'S' |
| LevelText.LinesListed | Unity/Assets/Scripts/StaticClasses/LevelData.cs:228-315 | when no line ends inside a marked record, the positions listed in Starts become the old ones plus exactly the text's start records (LevelText.StartMarks), and those in Ends the old ones plus exactly its end records (LevelText.EndMarks), in board coordinates |
| LevelText.MarksApart | Unity/Assets/Scripts/StaticClasses/LevelData.cs:247-269 | no position of a text is both a start record and an end record |
| LevelHandler.TileOf | Unity/Assets/Scripts/LevelHandler.cs:150-203 | cell (x, y) of an n x n board lands on a tile of the board (row n - 1 - y, through the offset that starts at n - 1 and drops by 2 per row) |
| LevelHandler.RemoveFirst | Unity/Assets/Scripts/LevelHandler.cs:173 | List.Remove drops at most one element |
| LevelHandler.RemoveFirstCount | Unity/Assets/Scripts/LevelHandler.cs:173 | List.Remove takes exactly one copy of the value out when the list holds it, and leaves the list alone otherwise |
| LevelHandler.DealCell | Unity/Assets/Scripts/LevelHandler.cs:165-185 | choosing the pipe for one cell shrinks the pool by at most one |
| LevelHandler.DealCellPlaces | Unity/Assets/Scripts/LevelHandler.cs:165-201 | one cell fills its own tile and no other; a start or end cell, or any cell outside free-world mode, gets its own pipe without a draw; any other cell uses one random draw |
| LevelHandler.DealCellPool | Unity/Assets/Scripts/LevelHandler.cs:166-185 | outside free-world mode the pool is untouched; a start or end cell takes one copy of its own pipe out; a drawing cell receives a pipe the pool held and the pool loses exactly that one |
| LevelHandler.DealRow | Unity/Assets/Scripts/LevelHandler.cs:163-202 | dealing count cells takes at most count pipes from the pool |
| LevelHandler.DealRows | Unity/Assets/Scripts/LevelHandler.cs:160-204 | dealing rows rows takes at most rows * n pipes from the pool |
| LevelHandler.Columns | Unity/Assets/Scripts/LevelHandler.cs:155-156 | the foreach over the parsed board yields cols * n pipes |
| LevelHandler.FirstDealer | Unity/Assets/Scripts/LevelHandler.cs:151-157 | in free-world mode the pool starts with all n * n pipes of the board |
| LevelHandler.DealRowKeys | Unity/Assets/Scripts/LevelHandler.cs:163-201 | a dealt row fills exactly the first count tiles of board row n - 1 - y |
| LevelHandler.DealRowKeeps | Unity/Assets/Scripts/LevelHandler.cs:163-201 | a dealt row leaves every tile of the other rows as it was |
| LevelHandler.DealRowOwn | Unity/Assets/Scripts/LevelHandler.cs:166-185 | in a dealt row each cell that does not draw holds its own pipe |
| LevelHandler.DealRowsKeys | Unity/Assets/Scripts/LevelHandler.cs:160-204 | dealing the first rows fills exactly the top rows of the board |
| LevelHandler.LastRowOwn | Unity/Assets/Scripts/LevelHandler.cs:166-185 | the last dealt row holds the own pipe of each cell that does not draw |
| LevelHandler.EarlierRowsKept | Unity/Assets/Scripts/LevelHandler.cs:160-204 | dealing one more row keeps what the earlier rows placed |
| LevelHandler.DealRowsOwn | Unity/Assets/Scripts/LevelHandler.cs:166-185 | in every dealt row each cell that does not draw holds its own pipe |
| LevelHandler.DealCoversBoard | Unity/Assets/Scripts/LevelHandler.cs:150-204 | GenerateLevel places a pipe on exactly the tiles of the board |
| LevelHandler.DealKeepsOwn | Unity/Assets/Scripts/LevelHandler.cs:166-185 | pipes[x, y] ends on tile (x, n - 1 - y) for every cell outside free-world mode and for every start and end cell in it |
| LevelHandler.BoardOf | Unity/Assets/Scripts/LevelHandler.cs:142-146 | the parsed Pipe[,] read as columns holds the same pipe at every index |
| LevelHandler.FiledAdd | Unity/Assets/Scripts/LevelHandler.cs:187-201 | instantiating one more piece on an unused tile keeps every piece filed under its own tile |
| LevelHandler.LastOn | Unity/Assets/Scripts/LevelHandler.cs:244-249 | what StoreGamePieces keeps for a tile is a piece of the scene standing on that tile, or nothing |
| LevelHandler.LastOnOnly | Unity/Assets/Scripts/LevelHandler.cs:244-249 | when one piece alone stands on a tile, that piece is stored for it |
| LevelHandler.LastOnNone | Unity/Assets/Scripts/LevelHandler.cs:244-249 | a tile no piece stands on stays null |
| LevelHandler.LastOnFiled | Unity/Assets/Scripts/LevelHandler.cs:244-249 | with one piece per tile the stored piece does not depend on the order the scene is visited in |
| LevelHandler.StoredPlaced | Unity/Assets/Scripts/LevelHandler.cs:241-250 | after GenerateLevel and StoreGamePieces every slot holds a distinct piece standing on that slot's tile |
| LevelHandler.TurnedKeeps | Unity/Assets/Scripts/LevelHandler.cs:266-269 | any number of turns keeps the angle a quarter turn and keeps the piece's ports |
| LevelHandler.TurnedModFour | Unity/Assets/Scripts/LevelHandler.cs:264-269 | four more turns change nothing, so 0 to 3 turns reach every orientation |
| LevelHandler.NextColumn | Unity/Assets/Scripts/LevelHandler.cs:260-271 | Shuffle's progress at the end of a column is its progress at the start of the next |
| LevelHandler.MovesUndo | Unity/Assets/Scripts/LevelHandler.cs:361-408 | on a linked board the piece above a piece has it below, and so on: a successful move is undone by the opposite move |
| LevelHandler.AroundInPieces | Unity/Assets/Scripts/LevelHandler.cs:361-408 | a piece in its slot on a linked board refers only to board pieces and is settled |
| LevelHandler.LevelHandler.constructor | Unity/Assets/Scripts/LevelHandler.cs:46-51 | a new handler has the serialized default board size 10, no scene and no active tile |
| LevelHandler.LevelHandler.Spawn | Unity/Assets/Scripts/LevelHandler.cs:187-201 | Instantiate and PositionPipeGO: a fresh piece with the given pipe on the given tile joins the scene |
| LevelHandler.LevelHandler.ChoosePipe | Unity/Assets/Scripts/LevelHandler.cs:165-185 | the pipe chosen for a cell and the pool left over are those DealCell defines |
| LevelHandler.LevelHandler.PlaceCell | Unity/Assets/Scripts/LevelHandler.cs:165-201 | one cell gets its pipe as DealCell says and a new piece on its tile |
| LevelHandler.LevelHandler.PlaceRow | Unity/Assets/Scripts/LevelHandler.cs:163-202 | the inner loop deals row y as DealRow says, one piece per tile |
| LevelHandler.LevelHandler.CollectPipes | Unity/Assets/Scripts/LevelHandler.cs:153-157 | the free-world pool is the board's pipes column by column |
| LevelHandler.LevelHandler.PlacePipes | Unity/Assets/Scripts/LevelHandler.cs:150-204 | the two loops place exactly the pipes Deal defines, one piece per placed tile, and use Deal's number of draws |
| LevelHandler.LevelHandler.ReadBoard | Unity/Assets/Scripts/LevelHandler.cs:142-146 | the board is n x n, from the maze generator in arcade mode and from the level text otherwise |
| LevelHandler.LevelHandler.GenerateLevel | Unity/Assets/Scripts/LevelHandler.cs:140-210 | the whole level: an n x n board whose pieces are those Deal places, one on every tile of the board |
| LevelHandler.LevelHandler.StoreGamePieces | Unity/Assets/Scripts/LevelHandler.cs:241-250 | GamePieces becomes an n x n array whose slot (x, y) holds the piece standing on tile (x, y) |
| LevelHandler.LevelHandler.TurnPiece | Unity/Assets/Scripts/LevelHandler.cs:266-269 | k calls of RotatePiece on the piece of slot (x, y) turn its angle and its ports k times |
| LevelHandler.LevelHandler.ShuffleCell | Unity/Assets/Scripts/LevelHandler.cs:262-270 | one slot draws its turns and is turned; the board stays placed and linked |
| LevelHandler.LevelHandler.Shuffle | Unity/Assets/Scripts/LevelHandler.cs:255-272 | every piece is turned k times, k in [0, 4) drawn per slot column by column; the board stays placed and linked |
| LevelHandler.LevelHandler.SetActiveTile | Unity/Assets/Scripts/LevelHandler.cs:227-235 | the given piece becomes the active piece |
| LevelHandler.LevelHandler.MoveActiveTileUp | Unity/Assets/Scripts/LevelHandler.cs:361-369 | the active tile moves to y + 1 when that is on the board and stays otherwise; x is unchanged and the new active piece is the old one's up neighbour |
| LevelHandler.LevelHandler.MoveActiveTileDown | Unity/Assets/Scripts/LevelHandler.cs:374-382 | the active tile moves to y - 1 when that is on the board and stays otherwise; x is unchanged and the new active piece is the old one's down neighbour |
| LevelHandler.LevelHandler.MoveActiveTileRight | Unity/Assets/Scripts/LevelHandler.cs:387-395 | the active tile moves to x + 1 when that is on the board and stays otherwise; y is unchanged and the new active piece is the old one's right neighbour |
| LevelHandler.LevelHandler.MoveActiveTileLeft | Unity/Assets/Scripts/LevelHandler.cs:400-408 | the active tile moves to x - 1 when that is on the board and stays otherwise; y is unchanged and the new active piece is the old one's left neighbour |
| LevelHandler.LevelHandler.RotateActiveTile | Unity/Assets/Scripts/LevelHandler.cs:351-354 | the active piece turns one quarter and the free flags around it are accurate again |
| LevelHandler.LevelHandler.ResetLevel | Unity/Assets/Scripts/LevelHandler.cs:318-345 | in free-world mode no piece and no field of the handler changes; otherwise the piece on the default start becomes active and every piece's angle and ports are turned by its shuffle draw |
| GameManager.OutSides | Unity/Assets/Scripts/GameManager.cs:177-223 | a piece is an outflow of u exactly when u has a port on some side, the free flag there is up, and the piece on that side carries u's liquid |
| GameManager.Lookout | Unity/Assets/Scripts/GameManager.cs:183-220 | what one case of the switch sees: the piece on side d, whether liquid passes there, and that a raised free flag always has a piece behind it |
| GameManager.SnapshotCharted | Unity/Assets/Scripts/GameManager.cs:177-223 | the frozen board gives every piece its outflows and its location |
| GameManager.Nexts | Unity/Assets/Scripts/GameManager.cs:183-220 | up, right, down and left: the four neighbour references the switch reads, in Dir order |
| GameManager.SidesOut | Unity/Assets/Scripts/GameManager.cs:177-223 | the outflows of a piece are the union of what passes through its four sides |
| GameManager.SideOut | Unity/Assets/Scripts/GameManager.cs:183-220 | what passes through one side is an outflow |
| GameManager.TakeSnapshot | Unity/Assets/Scripts/GameManager.cs:140-227 | the board during a run, which no flow changes, can be frozen into the net of outflows |
| GameManager.SnapshotWhole | Unity/Assets/Scripts/GameManager.cs:177-223 | on a board whose pieces refer only to one another, every outflow is a piece of the board |
| GameManager.ExplainedGrow | Unity/Assets/Scripts/GameManager.cs:144-146 | appending a start piece, or an outflow of a piece found earlier, keeps the discovery order explained |
| GameManager.ExplainedMore | Unity/Assets/Scripts/GameManager.cs:144-146 | more start pieces still explain the same order |
| GameManager.Least | Unity/Assets/Scripts/GameManager.cs:149-224 | every piece a flow finds lies in every set that holds the start pieces and that liquid cannot leave |
| GameManager.AccurateGuarded | Unity/Assets/Scripts/GameManager.cs:186 | with accurate free flags, a raised flag always has a piece behind it, so reading that piece's liquid never fails |
| GameManager.LinkedShut | Unity/Assets/Scripts/GameManager.cs:186-216 | on a linked board the neighbour references lead only to board pieces |
| GameManager.Tagged | Unity/Assets/Scripts/GameManager.cs:115-132 | one flow per start position of a liquid, in list order |
| GameManager.SoundSeed | Unity/Assets/Scripts/GameManager.cs:142-146 | giving the start piece distance 0, marking it visited and enqueueing it keeps the shared state sound |
| GameManager.SoundPop | Unity/Assets/Scripts/GameManager.cs:151 | the dequeued piece is visited, and the state stays sound with it open |
| GameManager.SoundStep | Unity/Assets/Scripts/GameManager.cs:188-191 | marking an outflow visited, giving it the current distance plus one and enqueueing it keeps the state sound |
| GameManager.VisitStep | Unity/Assets/Scripts/GameManager.cs:177-223 | after one more side, what passes through it is visited and enqueued if it was new, and nothing else was added |
| GameManager.VisitFound | Unity/Assets/Scripts/GameManager.cs:186-192 | the case of a side through which a new piece is found |
| GameManager.VisitDone | Unity/Assets/Scripts/GameManager.cs:177-223 | after all four sides the visited set grew by exactly the outflows of the current piece, which were enqueued |
| GameManager.SoundDone | Unity/Assets/Scripts/GameManager.cs:177-223 | once all its outflows are visited the current piece is no longer open |
| GameManager.Discover | Unity/Assets/Scripts/GameManager.cs:183-220 | one case of the switch enqueues the piece on side d exactly when liquid passes there and the piece is not visited yet; it is marked visited first and gets the current distance plus one; otherwise nothing changes |
| GameManager.Visit | Unity/Assets/Scripts/GameManager.cs:177-223 | the loop over the ports adds exactly the outflows of the current piece to visited and enqueues exactly the new ones; previousPipe moves to the current piece only when something was found |
| GameManager.Spread | Unity/Assets/Scripts/GameManager.cs:142-224 | the wave of one flow visits its start piece and keeps the shared state sound; it empties the queue unless it throws, and it cannot throw when the flow's liquid has an Ends entry |
| GameManager.Grow | Unity/Assets/Scripts/GameManager.cs:115-132 | one more iteration of a ForEach adds that position's flow and start piece |
| GameManager.Parts | Unity/Assets/Scripts/GameManager.cs:112-133 | the Water flows followed by the Lava flows are all the flows StartFlow launches |
| GameManager.AllTrueAdd | Unity/Assets/Scripts/GameManager.cs:117 | adding a false flag makes the list not all true, and setting that flag again gives back the old answer |
| GameManager.ClosureUnique | Unity/Assets/Scripts/GameManager.cs:149-224 | the set of pieces the start pieces reach is unique |
| GameManager.ExplainedClosure | Unity/Assets/Scripts/GameManager.cs:149-224 | a visited set that liquid cannot leave and whose every piece was found from the start pieces is exactly the set they reach |
| GameManager.Ready | Unity/Assets/Scripts/GameManager.cs:142 | each start position of a liquid lies on the board under one of the pieces |
| GameManager.GameManager.constructor | Unity/Assets/Scripts/GameManager.cs:33-40 | at Start nothing flows and nothing is won |
| GameManager.GameManager.Flow | Unity/Assets/Scripts/GameManager.cs:140-227 | a breadth-first search from the piece on startPos over the shared state: that piece is a new seed and visited only grows; a flow that runs to the end sets its own flowsFinished flag and leaves the queue empty; a flow throws only when its liquid has no Ends entry, and then leaves its flag unset |
| GameManager.GameManager.Commit | Unity/Assets/Scripts/GameManager.cs:140-227 | the end of a flow: its queue, visited set and distance table become the shared ones |
| GameManager.GameManager.Start | Unity/Assets/Scripts/GameManager.cs:117-119 | one step of a ForEach: a new false flag, then a flow from pos, which records the flow and its start piece |
| GameManager.GameManager.Launch | Unity/Assets/Scripts/GameManager.cs:115-120 | one ForEach: one flow per position in order, each start piece becoming a seed; flowsFinished keeps one flag per flow |
| GameManager.GameManager.Reset | Unity/Assets/Scripts/GameManager.cs:91-98 | StartFlow clears isWon, sets flowsStarted and gives the flows a new, empty queue, visited set, distance table and flag list |
| GameManager.GameManager.Store | Unity/Assets/Scripts/GameManager.cs:102 | after StoreGamePieces every slot of GamePieces holds the piece made for it |
| GameManager.GameManager.LaunchAll | Unity/Assets/Scripts/GameManager.cs:104-133 | every Water flow before every Lava flow, one flag per flow; no flow breaks off when each liquid with starts also has ends |
| GameManager.GameManager.Go | Unity/Assets/Scripts/GameManager.cs:104-133 | on a fresh state, when every flow finished, the queue is empty and visited is exactly the start pieces plus every piece connected to them by free, same-liquid links |
| GameManager.GameManager.Run | Unity/Assets/Scripts/GameManager.cs:100-133 | storing the pieces and launching the flows on a fresh state gives the same result as Go on the stored board |
| GameManager.GameManager.StartFlow | Unity/Assets/Scripts/GameManager.cs:88-134 | a run starts unwon; flows are launched Water first, one per start; once they all finish, visited is the closure of the start pieces |
| GameManager.GameManager.EndsReached | Unity/Assets/Scripts/GameManager.cs:59-64 | the foreach leaves true exactly when the piece on every end is visited |
| GameManager.GameManager.Update | Unity/Assets/Scripts/GameManager.cs:45-83 | when every flow has finished, the evaluation runs once (flowsStarted is cleared) and pauses the game; the game is won exactly when Water and then Lava reached all their ends, where a liquid without starts or ends passes; otherwise nothing changes |
| SceneHandler.Split | Unity/Assets/Scripts/StaticClasses/SceneHandler.cs:71 | string.Split always gives at least one piece |
| SceneHandler.SplitHasNoSeparator | Unity/Assets/Scripts/StaticClasses/SceneHandler.cs:71 | no piece of Split holds the separator |
| SceneHandler.JoinSplit | Unity/Assets/Scripts/StaticClasses/SceneHandler.cs:71 | joining the pieces of Split with the separator gives back the string |
| SceneHandler.SplitJoin | Unity/Assets/Scripts/StaticClasses/SceneHandler.cs:71 | splitting a join of separator-free pieces gives back the pieces |
| SceneHandler.ParseInt | Unity/Assets/Scripts/StaticClasses/SceneHandler.cs:69 | int.Parse with NumberStyles.Integer skips white space on both sides of an optional sign and the digits, yields only values in the range of a C# int, and nothing where it throws |
| SceneHandler.ParsePadded | Unity/Assets/Scripts/StaticClasses/SceneHandler.cs:69 | int.Parse reads back what int.ToString writes, for every C# int, with any white space before and after it, such as the carriage return a CRLF line keeps after a split on a newline |
| SceneHandler.ShowNat | Unity/Assets/Scripts/StaticClasses/SceneHandler.cs:63 | the decimal writing of a number is a non-empty string of digits |
| SceneHandler.DigitsOfShowNat | Unity/Assets/Scripts/StaticClasses/SceneHandler.cs:63 | the digits written for a number read back as that number |
| SceneHandler.ParseShow | Unity/Assets/Scripts/StaticClasses/SceneHandler.cs:69 | int.Parse reads back what int.ToString writes, for every C# int |
| SceneHandler.ParseAll | Unity/Assets/Scripts/StaticClasses/SceneHandler.cs:71 | Array.ConvertAll keeps the number of pieces |
| SceneHandler.ParseAllPieces | Unity/Assets/Scripts/StaticClasses/SceneHandler.cs:71 | ConvertAll succeeds exactly when int.Parse accepts every piece, white space around the number included, and then holds each piece's value at its index |
| SceneHandler.ArcadeHarderIsShorter | Unity/Assets/Scripts/StaticClasses/SceneHandler.cs:38-39 | the arcade limits are 60, 40 and 30 seconds for Easy, Normal and Hard: a harder game gives less time |
| SceneHandler.HeaderRoundTrip | Unity/Assets/Scripts/StaticClasses/SceneHandler.cs:69-73 | a header written from a board size and three limits is accepted and reads back as that size and those limits |
| SceneHandler.LimitsRoundTrip | Unity/Assets/Scripts/StaticClasses/SceneHandler.cs:71 | a line of limits joined with ';' reads back as those limits |
| SceneHandler.PaddedHeaderRoundTrip | Unity/Assets/Scripts/StaticClasses/SceneHandler.cs:64-73 | a header whose numbers carry white space around them, as a CRLF level file or "40; 30; 20" has, reads back as the same board size and limits |
| SceneHandler.PaddedLimitsRoundTrip | Unity/Assets/Scripts/StaticClasses/SceneHandler.cs:71 | a limits line with white space around each number reads back as those limits |
| SceneHandler.ReadHeader | Unity/Assets/Scripts/StaticClasses/SceneHandler.cs:69-73 | the board size is line 0 read as an integer; the time limit is the limit at index 1 for Normal, 2 for Hard and 0 otherwise |
| SceneHandler.SceneHandler.constructor | Unity/Assets/Scripts/StaticClasses/SceneHandler.cs:13 | no tutorial has been played yet |
| SceneHandler.SceneHandler.LoadLevelSelectScene | Unity/Assets/Scripts/StaticClasses/SceneHandler.cs:20-24 | the chosen mode is recorded and level select is loaded |
| SceneHandler.SceneHandler.LoadArcadeGameScene | Unity/Assets/Scripts/StaticClasses/SceneHandler.cs:26-48 | an unpaused arcade game on a clean state: no starts, ends or pieces, a 10 x 10 board and the arcade limit of the difficulty; the arcade tutorial comes first the first time, and only its flag is set |
| SceneHandler.SceneHandler.TutorialOnce | Unity/Assets/Scripts/StaticClasses/SceneHandler.cs:75-89 | the game scene when mode k's tutorial was played, else the tutorial, after which only flag k is set |
| SceneHandler.SceneHandler.LoadLevel | Unity/Assets/Scripts/StaticClasses/SceneHandler.cs:50-90 | an unpaused designed level on a clean state with the level number and text, the board size of line 0 and the difficulty's limit from line 1; the tutorial of the mode (free world or level select) comes first the first time |
| GridPipes.Exchanged | Unity/Assets/Scripts/DragAndDrop/GridPipe.cs:135-141 | the two writes to GamePieces swap the pieces of the two slots and leave every other slot alone |
| GridPipes.ExchangedTwice | Unity/Assets/Scripts/DragAndDrop/GridPipe.cs:135-141 | swapping the same two slots twice gives back the board |
| GridPipes.ExchangedSymmetric | Unity/Assets/Scripts/DragAndDrop/GridPipe.cs:135-141 | the swap does not depend on which slot is written first |
| GridPipes.SurroundingInPieces | Unity/Assets/Scripts/DragAndDrop/GridPipe.cs:148-149 | the pieces a look-up around a tile can find are pieces of the board |
| GridPipes.Located | Unity/Assets/Scripts/DragAndDrop/GridPipe.cs:135-141 | on a linked board the location a piece knows is the tile it stands on, so the swap writes the slots of the two tiles |
| GridPipes.GridPipe.constructor | Unity/Assets/Scripts/DragAndDrop/GridPipe.cs:19-25 | a piece starts undragged, remembering the tile it rests on |
| GridPipes.GridPipe.OnMouseDown | Unity/Assets/Scripts/DragAndDrop/GridPipe.cs:35-44 | a drag starts exactly when the game is neither paused nor over |
| GridPipes.GridPipe.OnMouseUp | Unity/Assets/Scripts/DragAndDrop/GridPipe.cs:46-51 | the drag ends and the piece is dropped with the corrected swap; every GridPipe still remembers its piece's tile and every slot still holds a piece standing on it |
| GridPipes.GridPipe.Drop | Unity/Assets/Scripts/DragAndDrop/GridPipe.cs:70-117 | as written: a refused drop (no touching tile, or a pipe that is not EMPTY) sends the piece back to the tile its GridPipe remembers and writes nothing else, and the board stays placed exactly when that is the tile the piece stands on; onto an EMPTY pipe exactly the two slots are swapped, the piece moves to the target tile and becomes active, and the GridPipe of the pipe pushed aside, resting before, no longer rests |
| GridPipes.GridPipe.DropAndRemember | Unity/Assets/Scripts/DragAndDrop/GridPipe.cs:70-146 | the drop with the pushed-aside pipe's GridPipe, when it has one, brought up to date; only pieces that keep a GridPipe can be dragged: every GridPipe keeps remembering its piece's tile and the board stays placed, a refused drop changes no slot and no piece, and an accepted one swaps exactly the two slots |
| GridPipes.StaleReturnOccupied | Unity/Assets/Scripts/DragAndDrop/GridPipe.cs:77-79 | a GridPipe remembering another tile sends its piece, on a refused drop, onto a tile another piece stands on, while the piece's own slot still names it |
| GridPipes.Marked | Unity/Assets/Scripts/LevelHandler.cs:283-288 | every position listed under any liquid in Starts or in Ends is marked |
| GridPipes.PiecesOn | Unity/Assets/Scripts/LevelHandler.cs:289 | the pieces GamePieces holds on the marked on-board positions, and no others |
| GridPipes.DestroyPinned | Unity/Assets/Scripts/LevelHandler.cs:304-309 | in free-world mode the piece on every start and end position loses its GridPipe, and every other piece keeps its own |
| GridPipes.DestroyPinnedComponents | Unity/Assets/Scripts/LevelHandler.cs:281-282 | after the GridPipes are destroyed, the remaining ones still belong one each to their pieces, and none belongs to a start or end piece, so those cannot be dragged |
| GridPipes.GridPipe.UpdatePipeTransformsAndHandlers | Unity/Assets/Scripts/DragAndDrop/GridPipe.cs:124-150 | the two pieces trade tiles and GamePieces slots, nothing else moves, the other piece is linked to the pieces around its new tile with accurate free flags around it, and the moved piece becomes active |
| GridPipes.GridPipe.Trade | Unity/Assets/Scripts/DragAndDrop/GridPipe.cs:131-145 | the two pieces trade tiles and exactly their two slots; the remembered tile becomes the new one |
| GridPipes.GridPipe.Relink | Unity/Assets/Scripts/DragAndDrop/GridPipe.cs:148-149 | after both pieces run ProcessNearbyPipeChanges with the look-up, the board is still placed and the second piece and its neighbours are linked and accurate |
| GridPipes.Rewire | Unity/Assets/Scripts/DragAndDrop/GridPipe.cs:148 | ProcessNearbyPipeChanges with the look-up links the piece to the pieces around its tile and makes its and its neighbours' free flags accurate, and no piece changes tile |

## Left out

- Sprites, prefabs, transforms, parenting, scale and sorting order, audio, the position of the active-tile marker, the GUI, the score and the countdown. These are Unity presentation. `ShowEndGameMenu` appears only as the GameIsPaused flag it sets.
- The rotation animation in `PipeHandler.Update` and the `SlotIntoPlace` lerp. These are floating-point geometry.
- `WaitForSeconds` pacing and the interleaving of coroutines. The flows run one after another, and `Shuffle` runs at once. `previousPipe` is tracked, but only the waits read it.
- The choice of the closest touching tile (`Vector2.Distance`), the `touchingTiles` list and `OnTriggerEnter2D`/`OnTriggerExit2D`. `Drop` receives the chosen tile as a parameter.
- `Resources.Load`, `SceneManager.LoadScene`, `Time.timeScale`, `StopAllCoroutines` and `PlayerPrefs`. These are engine services and storage. The loaders return the scene they would load, and the level text is passed in as lines.
- `GameObject.FindGameObjectsWithTag` returns the scene's pieces in creation order. The model proves that the result does not depend on that order when every tile holds at most one piece (`LastOnFiled`), which `GenerateLevel` guarantees.
- `UnityEngine.Random` is not part of this model. Any oracle whose draws lie in the stated ranges stands in for it.
- `GenerateNewGrid`, `SetStartEndPipeSprites`, `LevelHandler.Start` and `GameManager.Start` are left out beyond the state they initialise. They create tiles and set sprites. In free-world mode `SetStartEndPipeSprites` also destroys the GridPipe of every start and end piece, which `GridPipes.DestroyPinned` models.
- Pipes.PipeHandler.constructor: the prefab port layouts are asset data and are stated as a table.
- The IODirs array is modelled as a four-element sequence that is reassigned in place. The source shifts a `bool[]` element by element.
- GridPipes.GridPipe.UpdatePipeTransformsAndHandlers: the model proves that the second piece ends linked and accurate, with accurate neighbours, and that the board stays placed. It does not carry the same facts for the moved piece across the second `ProcessNearbyPipeChanges`. The source runs the look-up for both pieces.
- GridPipes.GridPipe.Relink: weaker in the same way. Only the second piece's neighbourhood is stated to be linked and accurate afterwards.
- GridPipes.GridPipe.UpdatePipeTransformsAndHandlers: `SetActiveTileToThisGO` runs at the end of the `SlotIntoPlace` coroutine, but the model runs it first. The active tile is independent of every other field the swap writes.
- GridPipes.GridPipe.Drop: an accepted drop of a piece whose GridPipe remembers a tile other than its own, which the as-written swap can leave behind (see Findings), is not modelled: `UpdatePipeTransformsAndHandlers` needs a placed board for the look-ups, and after such a swap the board is no longer placed. The refused drop of such a piece is modelled.
- GameManager.GameManager.Flow: requires every piece's references to stay among the board's pieces, and every raised free flag to have a piece behind it. Otherwise the source would dereference null at GameManager.cs:186.
- SceneHandler.SceneHandler.LoadLevel: requires a header that parses. The source throws in `int.Parse` or on a short limits line instead.
- SceneHandler.ParseInt: does not skip the trailing NUL characters .NET also ignores, and takes the invariant culture's "-" and "+" as the only signs.
- LevelData.LevelData.ReadInputLevelData: requires the text to fit the board. The source does not validate the size and would index outside the array.
- LevelText.LinesListed: requires that no line ends inside a record holding an 'S' or an 'E'. Such a record stays open across the line end, and the next line's first ';' lists it at the position of its mark on the earlier line; that case is left unstated.
- LevelData.LevelData.GetRandomPuzzle: requires that Starts and Ends hold no Water entry yet. The source's `Dictionary.Add` throws otherwise. It also requires a board of more than one cell: on a 1 x 1 board the lone cell keeps all four walls, wall set 15 is no key of the shape table, and the source throws in the look-up. Every caller passes 10.
- GridPipes.GridPipe.OnMouseUp: runs the corrected drop `DropAndRemember` of the Findings row, under the invariant that every GridPipe remembers its own tile. The source's OnMouseUp runs the as-written drop; what it does after an accepted swap has left a GridPipe stale is modelled only through `GridPipes.GridPipe.Drop`.
- Pipes.PipeHandler.RotatePiece: requires the piece and its neighbours to be wired to the current board. References left stale by an earlier change are not modelled.
- LevelHandler.LevelHandler.ResetLevel: outside free-world mode, requires a default start on the board. The source reads `defaultStart.Value`, which throws when there is none.

## Findings

| source | as written | input that shows it | evidently intended | confidence | as-written member | corrected member |
|---|---|---|---|---|---|---|
| Unity/Assets/Scripts/DragAndDrop/GridPipe.cs:137-145 | the swap moves the pipe pushed aside onto the dragged piece's old tile but updates `startingPosition`/`myParent` of the dragged piece's GridPipe only; the other GridPipe keeps remembering the tile it left | in free-world mode, drag pipe P from tile A onto the EMPTY pipe E on tile B, then drag E and release it over no tile: E goes back to B, where P stands, while `GamePieces` still files E under A (`StaleReturnOccupied`) | the GridPipe of the pipe pushed aside remembers the tile that pipe now stands on, so every refused drop returns a piece to its own tile | not executed | GridPipes.GridPipe.Drop | GridPipes.GridPipe.DropAndRemember |
