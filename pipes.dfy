/** PipeHandler.cs: one piece of the board, with its four ports, its rotation, its
    references to the pieces around it and the free flags that say through which
    sides a liquid can pass. */
module Pipes {
  import opened Basics

  /** The ports of each pipe prefab before any rotation, indexed by Dir: a
      Straight pipe joins up and down, a Round pipe up and right, a ThreeWay pipe
      up, right and down, a Cross pipe all four sides, an Empty slot none. */
  function PrefabPorts(kind: PipeType): (ports: seq<bool>)
    ensures |ports| == 4
  {
    if kind == Straight then [true, false, true, false]
    else if kind == Round then [true, true, false, false]
    else if kind == ThreeWay then [true, true, true, false]
    else if kind == Cross then [true, true, true, true]
    else [false, false, false, false]
  }

  /** The port layout after one RotateIODirections: port i takes the old port
      i + 1, and the old up port moves to the left. */
  function RotatedPorts(ports: seq<bool>): (r: seq<bool>)
    requires |ports| == 4
    ensures |r| == 4
    ensures forall i :: 0 <= i < 3 ==> r[i] == ports[i + 1]
    ensures r[3] == ports[0]
  {
    ports[1..] + [ports[0]]
  }

  /** A turn moves the ports around without adding or removing any. */
  lemma {:induction false} RotationKeepsPorts(ports: seq<bool>)
    requires |ports| == 4
    ensures multiset(RotatedPorts(ports)) == multiset(ports)
  {
    assert ports == [ports[0]] + ports[1..];
  }

  /** Four turns bring every port back to where it started. */
  lemma {:induction false} FourRotationsRestorePorts(ports: seq<bool>)
    requires |ports| == 4
    ensures RotatedPorts(RotatedPorts(RotatedPorts(RotatedPorts(ports)))) == ports
  {
    var r1 := RotatedPorts(ports);
    assert r1 == [ports[1], ports[2], ports[3], ports[0]];
    var r2 := RotatedPorts(r1);
    assert r2 == [ports[2], ports[3], ports[0], ports[1]];
    var r3 := RotatedPorts(r2);
    assert r3 == [ports[3], ports[0], ports[1], ports[2]];
  }

  /** The angle after one RotatePiece: a quarter turn, wrapping at 360. */
  function NextRotation(rotation: int): (r: int)
    ensures QuarterTurn(rotation) ==> QuarterTurn(r) && r != rotation
  {
    if rotation + 90 == 360 then 0 else rotation + 90
  }

  predicate QuarterTurn(rotation: int) {
    rotation == 0 || rotation == 90 || rotation == 180 || rotation == 270
  }

  /** Four turns bring the angle back to where it started. */
  lemma FourTurnsRestoreRotation(rotation: int)
    requires QuarterTurn(rotation)
    ensures NextRotation(NextRotation(NextRotation(NextRotation(rotation)))) == rotation
  {
  }

  predicate InBoard(p: Position, n: int) {
    0 <= p.x < n && 0 <= p.y < n
  }

  /** IODirs: one flag per Dir, set on the prefab. Every prefab has four. */
  type Ports = s: seq<bool> | |s| == 4 witness [false, false, false, false]

  /** One boolean per side of a piece, in Dir order. */
  datatype Sides = Sides(up: bool, right: bool, down: bool, left: bool)

  class PipeHandler {
    /** IODirs: the prefab's port flags, shifted by every rotation. */
    var ioDirs: Ports
    /** The target angle of the piece: 0 up, 90 right, 180 down, 270 left. */
    var rotation: int
    var pipeType: Pipe
    var location: Position
    /** The local position of the tile the piece stands on (its parent transform). */
    var tile: Position
    var upFree: bool
    var downFree: bool
    var rightFree: bool
    var leftFree: bool
    var up: PipeHandler?
    var right: PipeHandler?
    var down: PipeHandler?
    var left: PipeHandler?

    /** A prefab instantiated for pipe, with its pipe type set and placed on
        tile: no neighbours known yet and every free flag down. */
    constructor(pipe: Pipe, tile: Position)
      ensures ioDirs == PrefabPorts(pipe.kind)
      ensures pipeType == pipe && this.tile == tile && rotation == 0
      ensures location == Position(0, 0)
      ensures up == null && right == null && down == null && left == null
      ensures !upFree && !rightFree && !downFree && !leftFree
    {
      ioDirs := PrefabPorts(pipe.kind);
      rotation := 0;
      pipeType := pipe;
      location := Position(0, 0);
      this.tile := tile;
      upFree, downFree, rightFree, leftFree := false, false, false, false;
      up, right, down, left := null, null, null, null;
    }

    function Neighbour(d: Dir): PipeHandler?
      reads this`up, this`right, this`down, this`left
    {
      if d == UP then up else if d == RIGHT then right else if d == DOWN then down else left
    }

    /** The four free flags. */
    function Flags(): Sides
      reads this`upFree, this`rightFree, this`downFree, this`leftFree
    {
      Sides(upFree, rightFree, downFree, leftFree)
    }

    function Free(d: Dir): bool
      reads this`upFree, this`rightFree, this`downFree, this`leftFree
    {
      if d == UP then upFree else if d == RIGHT then rightFree else if d == DOWN then downFree else leftFree
    }

    /** The pieces this one refers to, itself included. */
    function Around(): set<PipeHandler>
      reads this`up, this`right, this`down, this`left
    {
      {this} + Just(up) + Just(right) + Just(down) + Just(left)
    }

    /** This piece followed by the pieces it refers to, in the order
        ProcessNearbyPipeChanges visits them: up, down, left, right. */
    function Neighbourhood(): seq<PipeHandler?>
      reads this`up, this`right, this`down, this`left
    {
      [this, up, down, left, right]
    }

    /** The piece stands in the slot of g its tile names. */
    predicate At(g: Grid, n: int)
      reads this`tile
    {
      Square(g, n) && InBoard(tile, n) && g[tile.x][tile.y] == this
    }

    /** This piece has a port facing d, a piece is referenced there, and that
        piece has a port facing back. */
    predicate Joined(d: Dir)
      reads this`ioDirs, this`up, this`right, this`down, this`left
      reads Just(up)`ioDirs, Just(right)`ioDirs, Just(down)`ioDirs, Just(left)`ioDirs
    {
      ioDirs[d] && Neighbour(d) != null && Neighbour(d).ioDirs[Opposite(d)]
    }

    /** The sides through which this piece is joined to the piece next to it. */
    function Openings(): Sides
      reads this`ioDirs, this`up, this`right, this`down, this`left
      reads Just(up)`ioDirs, Just(right)`ioDirs, Just(down)`ioDirs, Just(left)`ioDirs
    {
      Sides(Joined(UP), Joined(RIGHT), Joined(DOWN), Joined(LEFT))
    }

    /** Every free flag says exactly whether the piece is joined on that side. */
    ghost predicate Accurate()
      reads this`upFree, this`rightFree, this`downFree, this`leftFree
      reads this`ioDirs, this`up, this`right, this`down, this`left
      reads Just(up)`ioDirs, Just(right)`ioDirs, Just(down)`ioDirs, Just(left)`ioDirs
    {
      Flags() == Openings()
    }

    /** The neighbour references are the pieces of g on the four sides of the
        piece's own tile, and null where that side is the edge of the board. */
    ghost predicate Wired(g: Grid, n: int)
      reads this`location, this`tile, this`up, this`right, this`down, this`left
    {
      && location == tile
      && Square(g, n) && InBoard(location, n)
      && up == (if location.y + 1 < n then g[location.x][location.y + 1] else null)
      && down == (if location.y != 0 then g[location.x][location.y - 1] else null)
      && right == (if location.x + 1 < n then g[location.x + 1][location.y] else null)
      && left == (if location.x != 0 then g[location.x - 1][location.y] else null)
    }

    /** Start: the angle is reset and the neighbours are looked up. */
    method Start(g: Grid, n: int)
      requires Square(g, n) && InBoard(tile, n)
      modifies this`rotation, this`location, this`up, this`right, this`down, this`left
      ensures rotation == 0 && Wired(g, n)
    {
      rotation := 0;
      UpdateNeighbouringPipeHandlers(g, n);
    }

    /** UpdateNeighbouringPipeHandlers: the location is read off the tile and
        every neighbour reference is looked up in GamePieces. */
    method UpdateNeighbouringPipeHandlers(g: Grid, n: int)
      requires Square(g, n) && InBoard(tile, n)
      modifies this`location, this`up, this`right, this`down, this`left
      ensures Wired(g, n)
    {
      location := tile;
      var u, r, d, l := null, null, null, null;
      if location.y + 1 < n {
        u := g[location.x][location.y + 1];
      }
      if location.y != 0 {
        d := g[location.x][location.y - 1];
      }
      if location.x + 1 < n {
        r := g[location.x + 1][location.y];
      }
      if location.x != 0 {
        l := g[location.x - 1][location.y];
      }
      up, right, down, left := u, r, d, l;
    }

    /** RotatePiece: a quarter turn of the angle and of the ports, then the free
        flags of this piece and of the pieces around it are recomputed. No
        neighbour reference changes, so a linked board stays linked. */
    method RotatePiece(g: Grid, n: int)
      requires At(g, n) && Settled(g, n)
      modifies this`rotation, this`ioDirs
      modifies Around()`upFree, Around()`downFree, Around()`rightFree, Around()`leftFree
      ensures rotation == NextRotation(old(rotation))
      ensures ioDirs == RotatedPorts(old(ioDirs))
      ensures forall t :: t in Neighbourhood() && t != null ==> t.Accurate()
    {
      var angle := rotation + 90;
      if angle == 360 {
        angle := 0;
      }
      rotation := angle;
      RotateIODirections();
      ProcessNearbyPipeChanges(false, g, n, {});
    }

    /** ProcessNearbyPipeChanges: optionally looks the neighbours up again (for
        this piece and for each piece around it), then recomputes the free flags
        of this piece and of each piece around it. Without the look-up, the
        pieces around must already be wired. */
    method ProcessNearbyPipeChanges(setNearbyPipeHandlers: bool, g: Grid, n: int,
                                    ghost pieces: set<PipeHandler>)
      requires At(g, n)
      requires setNearbyPipeHandlers ==> Placed(g, n, pieces)
      requires !setNearbyPipeHandlers ==> Settled(g, n)
      modifies (if setNearbyPipeHandlers then Surrounding(g, n, tile) else {})`location
      modifies (if setNearbyPipeHandlers then Surrounding(g, n, tile) else {})`up
      modifies (if setNearbyPipeHandlers then Surrounding(g, n, tile) else {})`right
      modifies (if setNearbyPipeHandlers then Surrounding(g, n, tile) else {})`down
      modifies (if setNearbyPipeHandlers then Surrounding(g, n, tile) else {})`left
      modifies (if setNearbyPipeHandlers then Surrounding(g, n, tile) else Around())`upFree
      modifies (if setNearbyPipeHandlers then Surrounding(g, n, tile) else Around())`downFree
      modifies (if setNearbyPipeHandlers then Surrounding(g, n, tile) else Around())`rightFree
      modifies (if setNearbyPipeHandlers then Surrounding(g, n, tile) else Around())`leftFree
      ensures setNearbyPipeHandlers ==> Around() == Surrounding(g, n, tile)
      ensures Settled(g, n)
      ensures forall t :: t in Neighbourhood() && t != null ==> t.Accurate()
    {
      if setNearbyPipeHandlers {
        RelinkAround(g, n, pieces);
        WiredFacts(g, n, pieces, this);
      }
      RefreshAround(g, n);
    }

    /** The second half of ProcessNearbyPipeChanges: this piece, then each piece
        around it, recomputes its free flags. */
    method RefreshAround(ghost g: Grid, ghost n: int)
      requires Settled(g, n)
      modifies Around()`upFree, Around()`downFree, Around()`rightFree, Around()`leftFree
      ensures Settled(g, n)
      ensures forall t :: t in Neighbourhood() && t != null ==> t.Accurate()
    {
      PresentAround();
      RefreshEach(Neighbourhood(), g, n);
    }

    lemma PresentAround()
      ensures Present(Neighbourhood()) == Around()
    {
    }

    /** The first half of ProcessNearbyPipeChanges: this piece, then each piece
        around it, looks its neighbours up again. */
    method RelinkAround(g: Grid, n: int, ghost pieces: set<PipeHandler>)
      requires Placed(g, n, pieces) && At(g, n)
      modifies Surrounding(g, n, tile)`location, Surrounding(g, n, tile)`up, Surrounding(g, n, tile)`right
      modifies Surrounding(g, n, tile)`down, Surrounding(g, n, tile)`left
      ensures forall t :: t in Neighbourhood() && t != null ==> t.Wired(g, n)
    {
      UpdateNeighbouringPipeHandlers(g, n);
      WiredFacts(g, n, pieces, this);
      RelinkOthers(g, n);
    }

    /** The pieces around a wired piece look their neighbours up again. */
    method RelinkOthers(g: Grid, n: int)
      requires Wired(g, n) && Distinct(Neighbourhood())
      requires forall s :: s in Neighbourhood() && s != null ==> s.At(g, n)
      modifies (Around() - {this})`location, (Around() - {this})`up, (Around() - {this})`right
      modifies (Around() - {this})`down, (Around() - {this})`left
      ensures forall t :: t in Neighbourhood() && t != null ==> t.Wired(g, n)
    {
      var ts := Neighbourhood();
      DistinctTail(ts);
      assert Present(ts[1..]) == Around() - {this};
      RelinkEach(ts[1..], g, n);
      AllWiredCons(ts, g, n);
    }

    /** This piece and the pieces it refers to are wired into g, no two of
        them the same. */
    ghost predicate Settled(g: Grid, n: int)
      reads this`up, this`right, this`down, this`left
      reads Around()`location, Around()`tile, Around()`up, Around()`right, Around()`down, Around()`left
    {
      Distinct(Neighbourhood()) && forall t :: t in Neighbourhood() && t != null ==> t.Wired(g, n)
    }

    /** RotateIODirections: every port moves one place down the Dir order. */
    method RotateIODirections()
      modifies this`ioDirs
      ensures ioDirs == RotatedPorts(old(ioDirs))
    {
      var storedUp := ioDirs[0];
      for i := 0 to |ioDirs| - 1
        invariant forall j :: 0 <= j < i ==> ioDirs[j] == old(ioDirs[j + 1])
        invariant forall j :: i <= j < 4 ==> ioDirs[j] == old(ioDirs[j])
      {
        ioDirs := ioDirs[i := ioDirs[i + 1]];
      }
      ioDirs := ioDirs[3 := storedUp];
    }

    /** UpdateAvailableSides: every flag is lowered, then raised for each port
        whose neighbour has a port facing back. */
    method UpdateAvailableSides()
      modifies this`upFree, this`downFree, this`rightFree, this`leftFree
      ensures Accurate()
    {
      upFree := false;
      downFree := false;
      rightFree := false;
      leftFree := false;
      for dirIndex := 0 to |ioDirs|
        invariant upFree == (UP < dirIndex && Joined(UP))
        invariant rightFree == (RIGHT < dirIndex && Joined(RIGHT))
        invariant downFree == (DOWN < dirIndex && Joined(DOWN))
        invariant leftFree == (LEFT < dirIndex && Joined(LEFT))
      {
        if ioDirs[dirIndex] {
          if dirIndex == UP {
            if up != null && up.ioDirs[DOWN] {
              upFree := true;
            }
          } else if dirIndex == RIGHT {
            if right != null && right.ioDirs[LEFT] {
              rightFree := true;
            }
          } else if dirIndex == DOWN {
            if down != null && down.ioDirs[UP] {
              downFree := true;
            }
          } else {
            if left != null && left.ioDirs[RIGHT] {
              leftFree := true;
            }
          }
        }
      }
    }
  }

  /** LevelData.GamePieces, as a value: column x, row y. */
  type Grid = seq<seq<PipeHandler?>>

  /** The grid has n columns of n slots. */
  predicate Square(g: Grid, n: int) {
    |g| == n && forall x :: 0 <= x < n ==> |g[x]| == n
  }

  function Just(t: PipeHandler?): set<PipeHandler> {
    if t == null then {} else {t}
  }

  /** The piece in slot (x, y) of g, if that slot is on the board and taken. */
  function Slot(g: Grid, n: int, x: int, y: int): set<PipeHandler>
    requires Square(g, n)
  {
    if 0 <= x < n && 0 <= y < n && g[x][y] != null then {g[x][y]} else {}
  }

  /** The pieces of g on tile p and on the four tiles next to it. */
  function Surrounding(g: Grid, n: int, p: Position): set<PipeHandler>
    requires Square(g, n)
  {
    Slot(g, n, p.x, p.y) + Slot(g, n, p.x, p.y + 1) + Slot(g, n, p.x, p.y - 1)
      + Slot(g, n, p.x + 1, p.y) + Slot(g, n, p.x - 1, p.y)
  }

  /** The pieces named in ts, nulls left out. */
  function Present(ts: seq<PipeHandler?>): set<PipeHandler> {
    set t: PipeHandler | t in ts
  }

  /** No piece is named twice in ts. */
  predicate Distinct(ts: seq<PipeHandler?>) {
    forall i, j :: 0 <= i < j < |ts| && ts[i] != null ==> ts[i] != ts[j]
  }


  /** The `if (p != null) p.UpdateAvailableSides();` calls of
      ProcessNearbyPipeChanges, in order. */
  method RefreshEach(ts: seq<PipeHandler?>, ghost g: Grid, ghost n: int)
    requires Distinct(ts)
    requires forall t :: t in ts && t != null ==> t.Wired(g, n)
    modifies Present(ts)`upFree, Present(ts)`downFree, Present(ts)`rightFree, Present(ts)`leftFree
    ensures forall t :: t in ts && t != null ==> t.Wired(g, n) && t.Accurate()
    decreases |ts|
  {
    if ts != [] {
      if ts[0] != null {
        ts[0].UpdateAvailableSides();
      }
      RefreshEach(ts[1..], g, n);
      assert ts == [ts[0]] + ts[1..];
    }
  }

  /** The `if (p != null) p.UpdateNeighbouringPipeHandlers();` calls of
      ProcessNearbyPipeChanges, in order. */
  method RelinkEach(ts: seq<PipeHandler?>, g: Grid, n: int)
    requires Distinct(ts)
    requires forall t :: t in ts && t != null ==> t.At(g, n)
    modifies Present(ts)`location, Present(ts)`up, Present(ts)`right, Present(ts)`down, Present(ts)`left
    ensures forall t :: t in ts && t != null ==> t.Wired(g, n)
    decreases |ts|
  {
    if ts != [] {
      if ts[0] != null {
        assert ts[0] in ts;
        ts[0].UpdateNeighbouringPipeHandlers(g, n);
      }
      RelinkEach(ts[1..], g, n);
      assert ts == [ts[0]] + ts[1..];
    }
  }

  /** GamePieces as a level keeps it: an n x n grid whose every slot holds a
      piece of pieces standing on that slot's tile. */
  ghost predicate Placed(g: Grid, n: int, pieces: set<PipeHandler>)
    reads pieces`tile
  {
    && Square(g, n)
    && forall x, y :: 0 <= x < n && 0 <= y < n ==>
         g[x][y] != null && g[x][y] in pieces && g[x][y].tile == Position(x, y)
  }

  /** Every piece refers to the pieces around its own tile. */
  ghost predicate Linked(g: Grid, n: int, pieces: set<PipeHandler>)
    reads pieces`location, pieces`tile, pieces`up, pieces`right, pieces`down, pieces`left
  {
    forall t {:trigger t.Wired(g, n)} :: t in pieces ==> t.Wired(g, n)
  }

  /** A wired piece of a placed board refers only to pieces of the board, each
      standing in the slot next to it on that side; with it they are the pieces
      around its tile, no two the same. */
  lemma WiredFacts(g: Grid, n: int, pieces: set<PipeHandler>, t: PipeHandler)
    requires Placed(g, n, pieces) && t.At(g, n) && t.Wired(g, n)
    ensures t.Around() == Surrounding(g, n, t.tile)
    ensures Distinct(t.Neighbourhood())
    ensures forall s :: s in t.Neighbourhood() && s != null ==> s.At(g, n) && s in pieces
  {
    assert t.up != null ==> t.up.tile == Position(t.tile.x, t.tile.y + 1);
    assert t.down != null ==> t.down.tile == Position(t.tile.x, t.tile.y - 1);
    assert t.right != null ==> t.right.tile == Position(t.tile.x + 1, t.tile.y);
    assert t.left != null ==> t.left.tile == Position(t.tile.x - 1, t.tile.y);
  }

  /** On a linked board every piece standing in its slot is settled. */
  lemma LinkedSettled(g: Grid, n: int, pieces: set<PipeHandler>, t: PipeHandler)
    requires Placed(g, n, pieces) && Linked(g, n, pieces) && t.At(g, n)
    ensures t.Settled(g, n)
  {
    assert t in pieces;
    WiredFacts(g, n, pieces, t);
  }

  /** Dropping the head of a list of distinct pieces leaves distinct pieces,
      none of them the head. */
  lemma DistinctTail(ts: seq<PipeHandler?>)
    requires |ts| > 0 && Distinct(ts)
    ensures Distinct(ts[1..])
    ensures ts[0] != null ==> ts[0] !in ts[1..]
  {
  }

  /** A wired head in front of wired pieces makes a list of wired pieces. */
  lemma AllWiredCons(ts: seq<PipeHandler?>, g: Grid, n: int)
    requires |ts| > 0 && (ts[0] != null ==> ts[0].Wired(g, n)) && (forall t :: t in ts[1..] && t != null ==> t.Wired(g, n))
    ensures forall t :: t in ts && t != null ==> t.Wired(g, n)
  {
    assert ts == [ts[0]] + ts[1..];
  }

  /** Free flags agree across a side: when two pieces refer to each other
      through opposite sides and both flags are up to date, both say the same. */
  lemma FreeFlagsAgree(a: PipeHandler, b: PipeHandler, d: Dir)
    requires a.Accurate() && b.Accurate()
    requires a.Neighbour(d) == b && b.Neighbour(Opposite(d)) == a
    ensures a.Free(d) == b.Free(Opposite(d))
  {
    assert a.Free(d) == a.Joined(d);
    assert b.Free(Opposite(d)) == b.Joined(Opposite(d));
  }
}
