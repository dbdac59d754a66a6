/** GridPipe.cs: a piece dragged with the mouse and dropped on a tile. The
    tile it lands on is the touching tile closest to it in world space, a
    choice the model receives as a parameter; positions in world space are
    modelled by the tiles they belong to. */
module GridPipes {
  import opened Basics
  import opened Pipes
  import LD = LevelData
  import LH = LevelHandler

  /** GamePieces after a swap: slot a gets the piece of slot b, then slot b
      gets the piece of slot a. */
  function Exchanged(g: Grid, n: int, a: Position, b: Position): (r: Grid)
    requires Square(g, n) && InBoard(a, n) && InBoard(b, n)
    ensures Square(r, n)
    ensures r[a.x][a.y] == g[b.x][b.y] && r[b.x][b.y] == g[a.x][a.y]
    ensures forall x, y :: 0 <= x < n && 0 <= y < n && Position(x, y) != a && Position(x, y) != b ==>
              r[x][y] == g[x][y]
  {
    var g1 := g[a.x := g[a.x][a.y := g[b.x][b.y]]];
    g1[b.x := g1[b.x][b.y := g[a.x][a.y]]]
  }

  /** Swapping the same two slots again puts every piece back. */
  lemma {:induction false} ExchangedTwice(g: Grid, n: int, a: Position, b: Position)
    requires Square(g, n) && InBoard(a, n) && InBoard(b, n)
    ensures Exchanged(Exchanged(g, n, a, b), n, a, b) == g
  {
    var r := Exchanged(Exchanged(g, n, a, b), n, a, b);
    forall x | 0 <= x < n
      ensures r[x] == g[x]
    {
      assert forall y :: 0 <= y < n ==> r[x][y] == g[x][y];
    }
  }

  /** Which slot is written first does not matter. */
  lemma {:induction false} ExchangedSymmetric(g: Grid, n: int, a: Position, b: Position)
    requires Square(g, n) && InBoard(a, n) && InBoard(b, n)
    ensures Exchanged(g, n, a, b) == Exchanged(g, n, b, a)
  {
    var r, s := Exchanged(g, n, a, b), Exchanged(g, n, b, a);
    forall x | 0 <= x < n
      ensures r[x] == s[x]
    {
      assert forall y :: 0 <= y < n ==> r[x][y] == s[x][y];
    }
  }

  /** The pieces around a tile of a placed board belong to the board. */
  lemma SurroundingInPieces(g: Grid, n: int, pieces: set<PipeHandler>, p: Position)
    requires Placed(g, n, pieces)
    ensures Surrounding(g, n, p) <= pieces
  {
  }

  /** On a linked board a piece standing in its slot knows its location. */
  lemma Located(g: Grid, n: int, pieces: set<PipeHandler>, t: PipeHandler)
    requires Placed(g, n, pieces) && Linked(g, n, pieces) && t.At(g, n)
    ensures t.location == t.tile
  {
    assert t in pieces;
    assert t.Wired(g, n);
  }

  /** A GridPipe that remembers a tile other than its piece's sends the piece,
      on a refused drop, onto a tile another piece of the board stands on,
      while the piece's own slot goes on naming it. */
  lemma StaleReturnOccupied(g: Grid, n: int, pieces: set<PipeHandler>, d: GridPipe)
    requires Placed(g, n, pieces) && d.pipe.At(g, n) && InBoard(d.myParent, n) && d.myParent != d.pipe.tile
    ensures var o := g[d.myParent.x][d.myParent.y];
      o != null && o != d.pipe && o in pieces && o.tile == d.myParent
    ensures g[d.pipe.tile.x][d.pipe.tile.y] == d.pipe
  {
  }

  /** The piece on the target tile, or null when there is no target. */
  function Target(g: Grid, n: int, target: Option<Position>): PipeHandler?
    requires Square(g, n) && (target.Some? ==> InBoard(target.value, n))
  {
    if target.Some? then g[target.value.x][target.value.y] else null
  }

  /** A drop is refused when the piece touches no tile or the pipe on the
      closest tile is not EMPTY. */
  predicate Refused(g: Grid, n: int, target: Option<Position>)
    requires Square(g, n) && (target.Some? ==> InBoard(target.value, n))
    reads if target.Some? then Just(g[target.value.x][target.value.y]) else {}
  {
    target.None? || g[target.value.x][target.value.y] == null
    || g[target.value.x][target.value.y].pipeType.kind != Empty
  }

  /** GetComponent<GridPipe>(): the pieces that can be dragged each carry
      exactly one GridPipe, and every GridPipe belongs to its own piece. Pieces
      outside dragOf carry none. */
  ghost predicate Components(dragOf: map<PipeHandler, GridPipe>, pieces: set<PipeHandler>, drags: set<GridPipe>) {
    && (forall p :: p in dragOf ==> p in pieces && dragOf[p] in drags && dragOf[p].pipe == p)
    && (forall d :: d in drags ==> d.pipe in dragOf && dragOf[d.pipe] == d)
  }

  /** The start and end positions of a level. */
  function Marked(starts: map<Liquid, seq<Position>>, ends: map<Liquid, seq<Position>>): (r: set<Position>)
    ensures forall l, i :: l in starts && 0 <= i < |starts[l]| ==> starts[l][i] in r
    ensures forall l, i :: l in ends && 0 <= i < |ends[l]| ==> ends[l][i] in r
  {
    (set l, i | l in starts && 0 <= i < |starts[l]| :: starts[l][i])
    + (set l, i | l in ends && 0 <= i < |ends[l]| :: ends[l][i])
  }

  /** The pieces GamePieces holds on the given positions. */
  function PiecesOn(g: Grid, n: int, marks: set<Position>): (r: set<PipeHandler>)
    requires Square(g, n)
    ensures forall p :: p in marks && InBoard(p, n) && g[p.x][p.y] != null ==> g[p.x][p.y] in r
    ensures forall t :: t in r ==> exists p :: p in marks && InBoard(p, n) && g[p.x][p.y] == t
  {
    var r := set p, t | p in marks && InBoard(p, n) && t in Slot(g, n, p.x, p.y) :: t;
    assert forall p :: p in marks && InBoard(p, n) && g[p.x][p.y] != null ==> g[p.x][p.y] in r by {
      forall p | p in marks && InBoard(p, n) && g[p.x][p.y] != null
        ensures g[p.x][p.y] in r
      {
        assert g[p.x][p.y] in Slot(g, n, p.x, p.y);
      }
    }
    r
  }

  /** SetStartEndPipeSprites in free-world mode destroys the GridPipe of every
      piece on a start or an end position: those pieces can no longer be
      dragged, and every other piece keeps its GridPipe. */
  function DestroyPinned(dragOf: map<PipeHandler, GridPipe>, g: Grid, n: int,
                         starts: map<Liquid, seq<Position>>, ends: map<Liquid, seq<Position>>): (r: map<PipeHandler, GridPipe>)
    requires Square(g, n)
    ensures forall p :: p in r ==> p in dragOf && r[p] == dragOf[p]
    ensures forall m :: m in Marked(starts, ends) && InBoard(m, n) ==> g[m.x][m.y] !in r
    ensures forall p :: p in dragOf && p !in PiecesOn(g, n, Marked(starts, ends)) ==> p in r
  {
    var pinned := PiecesOn(g, n, Marked(starts, ends));
    map p | p in dragOf && p !in pinned :: dragOf[p]
  }

  /** With the start and end pieces' GridPipes destroyed, the GridPipes left
      still belong one each to the remaining pieces, and none of them belongs to
      a piece on a start or an end position. */
  lemma DestroyPinnedComponents(dragOf: map<PipeHandler, GridPipe>, pieces: set<PipeHandler>, drags: set<GridPipe>,
                                g: Grid, n: int, starts: map<Liquid, seq<Position>>, ends: map<Liquid, seq<Position>>)
    requires Components(dragOf, pieces, drags) && Square(g, n)
    ensures var r := DestroyPinned(dragOf, g, n, starts, ends);
      var left := set d | d in drags && d.pipe in r;
      && Components(r, pieces, left)
      && forall d, m :: d in left && m in Marked(starts, ends) && InBoard(m, n) ==> d.pipe != g[m.x][m.y]
  {
  }

  /** Every GridPipe remembers the tile its piece stands on. */
  ghost predicate AllResting(drags: set<GridPipe>)
    reads drags`startingPosition, drags`myParent, (set d | d in drags :: d.pipe)`tile
  {
    forall d :: d in drags ==> d.Resting()
  }

  class GridPipe {
    /** The PipeHandler of the same game object. */
    const pipe: PipeHandler
    var draggingItem: bool
    /** startingPosition and myParent: the tile the piece goes back to when a
        drop is refused. */
    var startingPosition: Position
    var myParent: Position

    /** Start: the piece rests on its own tile. */
    constructor(pipe: PipeHandler)
      ensures this.pipe == pipe && !draggingItem && Resting()
    {
      this.pipe := pipe;
      draggingItem := false;
      startingPosition := pipe.tile;
      myParent := pipe.tile;
    }

    /** The piece is recorded as resting on the tile it stands on. */
    predicate Resting()
      reads this`startingPosition, this`myParent, pipe`tile
    {
      startingPosition == pipe.tile && myParent == pipe.tile
    }

    /** OnMouseDown: a drag starts only while the game is neither paused nor
        over. */
    method OnMouseDown(flags: LD.GameFlags)
      modifies this`draggingItem
      ensures !flags.gameIsPaused && !flags.isEndGame ==> draggingItem
      ensures flags.gameIsPaused || flags.isEndGame ==> draggingItem == old(draggingItem)
    {
      if !flags.gameIsPaused && !flags.isEndGame {
        draggingItem := true;
      }
    }

    /** OnMouseUp: the drag ends and the piece is dropped, with the swap
        corrected so that every GridPipe goes on remembering its own tile. */
    method OnMouseUp(ld: LD.LevelData, lh: LH.LevelHandler, target: Option<Position>,
                     dragOf: map<PipeHandler, GridPipe>, ghost pieces: set<PipeHandler>, ghost drags: set<GridPipe>)
      requires ld.gamePieces.Some? && Placed(ld.gamePieces.value, ld.boardSize, pieces)
      requires Linked(ld.gamePieces.value, ld.boardSize, pieces)
      requires pipe.At(ld.gamePieces.value, ld.boardSize)
      requires target.Some? ==> InBoard(target.value, ld.boardSize)
      requires Components(dragOf, pieces, drags) && this in drags && AllResting(drags)
      modifies this`draggingItem, drags`startingPosition, drags`myParent, ld`gamePieces, lh`active
      modifies pieces`tile, pieces`location, pieces`up, pieces`right, pieces`down, pieces`left
      modifies pieces`upFree, pieces`rightFree, pieces`downFree, pieces`leftFree
      ensures ld.gamePieces.Some? && ld.boardSize == old(ld.boardSize)
      ensures !draggingItem && AllResting(drags) && Placed(ld.gamePieces.value, ld.boardSize, pieces)
    {
      draggingItem := false;
      DropAndRemember(ld, lh, target, dragOf, pieces, drags);
    }

    /** Drop, as written: target is the touching tile closest to the piece, or
        None when the piece touches no tile. A refused drop sends the piece back
        to the tile its GridPipe remembers; the board stays placed exactly when
        that is the tile it stands on. Onto an EMPTY pipe, the two trade places,
        and the GridPipe of the pipe pushed aside goes on remembering the tile
        it left. */
    method Drop(ld: LD.LevelData, lh: LH.LevelHandler, target: Option<Position>,
                ghost pieces: set<PipeHandler>, ghost drags: set<GridPipe>)
      requires ld.gamePieces.Some? && Placed(ld.gamePieces.value, ld.boardSize, pieces)
      requires Linked(ld.gamePieces.value, ld.boardSize, pieces)
      requires pipe.At(ld.gamePieces.value, ld.boardSize) && InBoard(myParent, ld.boardSize)
      requires target.Some? ==> InBoard(target.value, ld.boardSize)
      requires !Refused(ld.gamePieces.value, ld.boardSize, target) ==> Resting()
      modifies this`startingPosition, this`myParent, ld`gamePieces, lh`active
      modifies pieces`tile, pieces`location, pieces`up, pieces`right, pieces`down, pieces`left
      modifies pieces`upFree, pieces`rightFree, pieces`downFree, pieces`leftFree
      ensures ld.gamePieces.Some? && ld.boardSize == old(ld.boardSize)
      ensures forall t :: t in pieces && t != pipe && t != old(Target(ld.gamePieces.value, ld.boardSize, target)) ==>
                t.tile == old(t.tile)
      ensures old(Refused(ld.gamePieces.value, ld.boardSize, target)) ==>
                && pipe.tile == old(myParent) && unchanged(this, ld, lh) && unchanged(pieces - {pipe})
                && unchanged(pipe`location, pipe`up, pipe`right, pipe`down, pipe`left)
                && unchanged(pipe`upFree, pipe`rightFree, pipe`downFree, pipe`leftFree)
                && (Placed(ld.gamePieces.value, ld.boardSize, pieces) <==> old(myParent == pipe.tile))
      ensures !old(Refused(ld.gamePieces.value, ld.boardSize, target)) ==>
                && ld.gamePieces == Some(Exchanged(old(ld.gamePieces.value), ld.boardSize, old(pipe.tile), target.value))
                && pipe.tile == target.value && lh.active == pipe && Resting()
                && old(Target(ld.gamePieces.value, ld.boardSize, target)).tile == old(pipe.tile)
                && Placed(ld.gamePieces.value, ld.boardSize, pieces)
      ensures !old(Refused(ld.gamePieces.value, ld.boardSize, target))
              && old(Target(ld.gamePieces.value, ld.boardSize, target)) != pipe ==>
                forall d :: d in drags && old(d.Resting()) && d.pipe == old(Target(ld.gamePieces.value, ld.boardSize, target)) ==>
                  !d.Resting()
    {
      var g, n := ld.gamePieces.value, ld.boardSize;
      if Refused(g, n, target) {
        pipe.tile := myParent;
        if old(myParent != pipe.tile) {
          assert g[old(pipe.tile).x][old(pipe.tile).y] == pipe;
        }
        return;
      }
      var cell := target.value;
      var other := g[cell.x][cell.y];
      UpdatePipeTransformsAndHandlers(ld, lh, other, cell, pieces);
    }

    /** Drop with the other GridPipe brought up to date: after a swap the
        GridPipe of the pipe pushed aside remembers the tile that pipe now
        stands on, so that every GridPipe keeps resting and the board stays
        placed whatever is dropped next. */
    method DropAndRemember(ld: LD.LevelData, lh: LH.LevelHandler, target: Option<Position>,
                           dragOf: map<PipeHandler, GridPipe>, ghost pieces: set<PipeHandler>,
                           ghost drags: set<GridPipe>)
      requires ld.gamePieces.Some? && Placed(ld.gamePieces.value, ld.boardSize, pieces)
      requires Linked(ld.gamePieces.value, ld.boardSize, pieces)
      requires pipe.At(ld.gamePieces.value, ld.boardSize)
      requires target.Some? ==> InBoard(target.value, ld.boardSize)
      requires Components(dragOf, pieces, drags) && this in drags && AllResting(drags)
      modifies drags`startingPosition, drags`myParent, ld`gamePieces, lh`active
      modifies pieces`tile, pieces`location, pieces`up, pieces`right, pieces`down, pieces`left
      modifies pieces`upFree, pieces`rightFree, pieces`downFree, pieces`leftFree
      ensures ld.gamePieces.Some? && ld.boardSize == old(ld.boardSize)
      ensures AllResting(drags) && Placed(ld.gamePieces.value, ld.boardSize, pieces)
      ensures old(Refused(ld.gamePieces.value, ld.boardSize, target)) ==>
                ld.gamePieces == old(ld.gamePieces) && unchanged(pieces) && unchanged(lh)
      ensures !old(Refused(ld.gamePieces.value, ld.boardSize, target)) ==>
                && ld.gamePieces == Some(Exchanged(old(ld.gamePieces.value), ld.boardSize, old(pipe.tile), target.value))
                && pipe.tile == target.value && lh.active == pipe
                && old(Target(ld.gamePieces.value, ld.boardSize, target)).tile == old(pipe.tile)
    {
      var g, n := ld.gamePieces.value, ld.boardSize;
      var refused := Refused(g, n, target);
      var other := if refused then pipe else g[target.value.x][target.value.y];
      var back, backPosition := myParent, startingPosition;
      Drop(ld, lh, target, pieces, drags);
      if !refused && other in dragOf {
        var aside := dragOf[other];
        aside.startingPosition, aside.myParent := backPosition, back;
      }
    }

    /** UpdatePipeTransformsAndHandlers: the piece and other, an empty pipe on
        the tile newPosition, trade tiles and slots of GamePieces; then each of
        the two looks its neighbours up again and recomputes the free flags
        of itself and of the pieces around it, and the moved piece becomes the
        active one once it has slid into place. */
    method UpdatePipeTransformsAndHandlers(ld: LD.LevelData, lh: LH.LevelHandler, other: PipeHandler,
                                           newPosition: Position, ghost pieces: set<PipeHandler>)
      requires ld.gamePieces.Some? && Placed(ld.gamePieces.value, ld.boardSize, pieces)
      requires Linked(ld.gamePieces.value, ld.boardSize, pieces)
      requires pipe.At(ld.gamePieces.value, ld.boardSize) && Resting()
      requires other.At(ld.gamePieces.value, ld.boardSize) && newPosition == other.tile
      modifies this`startingPosition, this`myParent, ld`gamePieces, lh`active, pipe`tile, other`tile
      modifies pieces`location, pieces`up, pieces`right, pieces`down, pieces`left
      modifies pieces`upFree, pieces`rightFree, pieces`downFree, pieces`leftFree
      ensures ld.gamePieces == Some(Exchanged(old(ld.gamePieces.value), ld.boardSize, old(pipe.tile), newPosition))
      ensures pipe.tile == newPosition && other.tile == old(pipe.tile) && Resting()
      ensures Placed(ld.gamePieces.value, ld.boardSize, pieces)
      ensures other.Settled(ld.gamePieces.value, ld.boardSize)
      ensures other.Around() == Surrounding(ld.gamePieces.value, ld.boardSize, old(pipe.tile))
      ensures forall t :: t in other.Neighbourhood() && t != null ==> t.Accurate()
      ensures lh.active == pipe
    {
      Located(ld.gamePieces.value, ld.boardSize, pieces, pipe);
      Located(ld.gamePieces.value, ld.boardSize, pieces, other);
      lh.SetActiveTile(pipe);
      Trade(ld, other, newPosition, pieces);
      Relink(ld.gamePieces.value, ld.boardSize, other, pieces);
    }

    /** The transform half of UpdatePipeTransformsAndHandlers: the two pieces
        trade tiles, and GamePieces their slots, which are read off the
        pieces' locations. */
    method Trade(ld: LD.LevelData, other: PipeHandler, newPosition: Position, ghost pieces: set<PipeHandler>)
      requires ld.gamePieces.Some? && Placed(ld.gamePieces.value, ld.boardSize, pieces)
      requires pipe.At(ld.gamePieces.value, ld.boardSize) && Resting() && pipe.location == pipe.tile
      requires other.At(ld.gamePieces.value, ld.boardSize) && other.location == other.tile
      requires newPosition == other.tile
      modifies this`startingPosition, this`myParent, ld`gamePieces, pipe`tile, other`tile
      ensures ld.gamePieces == Some(Exchanged(old(ld.gamePieces.value), ld.boardSize, old(pipe.tile), newPosition))
      ensures pipe.tile == newPosition && other.tile == old(pipe.tile) && Resting()
      ensures Placed(ld.gamePieces.value, ld.boardSize, pieces)
    {
      var g, n := ld.gamePieces.value, ld.boardSize;
      var a, b := pipe.location, other.location;
      pipe.tile := other.tile;
      var otherParent := other.tile;
      other.tile := myParent;
      ld.gamePieces := Some(Exchanged(g, n, a, b));
      startingPosition, myParent := newPosition, otherParent;
    }

    /** The handler half of UpdatePipeTransformsAndHandlers: the moved piece,
        then other, runs ProcessNearbyPipeChanges with the look-up. The second
        run leaves other and the pieces around it wired and accurate. */
    method Relink(g: Grid, n: int, other: PipeHandler, ghost pieces: set<PipeHandler>)
      requires Placed(g, n, pieces) && pipe.At(g, n) && other.At(g, n)
      modifies pieces`location, pieces`up, pieces`right, pieces`down, pieces`left
      modifies pieces`upFree, pieces`rightFree, pieces`downFree, pieces`leftFree
      ensures Placed(g, n, pieces) && other.Settled(g, n)
      ensures other.Around() == Surrounding(g, n, other.tile)
      ensures forall t :: t in other.Neighbourhood() && t != null ==> t.Accurate()
    {
      Rewire(pipe, g, n, pieces);
      Rewire(other, g, n, pieces);
    }
  }

  /** ProcessNearbyPipeChanges with the look-up, on a placed board: the board
      stays placed, since no piece changes tile. */
  method Rewire(p: PipeHandler, g: Grid, n: int, ghost pieces: set<PipeHandler>)
    requires Placed(g, n, pieces) && p.At(g, n)
    modifies pieces`location, pieces`up, pieces`right, pieces`down, pieces`left
    modifies pieces`upFree, pieces`rightFree, pieces`downFree, pieces`leftFree
    ensures Placed(g, n, pieces) && p.Settled(g, n)
    ensures p.Around() == Surrounding(g, n, p.tile)
    ensures forall t :: t in p.Neighbourhood() && t != null ==> t.Accurate()
  {
    SurroundingInPieces(g, n, pieces, p.tile);
    p.ProcessNearbyPipeChanges(true, g, n, pieces);
  }
}
