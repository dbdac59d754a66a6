/** GameManager.cs: the liquid flows and the win check. Every flow of a run
    shares one queue, one visited set and one distance table. The coroutines
    of the source are cooperative on one thread, and the waits they yield only
    pace the animation, so the model runs the flows one after another, each to
    its end. */
module GameManager {
  import opened Basics
  import opened Pipes
  import LD = LevelData
  import LH = LevelHandler

  function Elems(s: seq<PipeHandler>): set<PipeHandler> {
    set p | p in s
  }

  /** Every piece refers only to pieces of the set. */
  ghost predicate Shut(pieces: set<PipeHandler>)
    reads pieces
  {
    forall t {:trigger t.Around()} :: t in pieces ==> t.Around() <= pieces
  }

  /** A raised free flag always has a piece behind it: Flow looks at that
      piece's liquid as soon as the flag is up. */
  ghost predicate Guarded(pieces: set<PipeHandler>)
    reads pieces
  {
    forall t, d :: t in pieces && t.Free(d) ==> t.Neighbour(d) != null
  }

  /** Liquid in u passes through side d: u has a port there, its free flag is
      up, and the piece there carries u's own liquid. */
  ghost predicate Passes(u: PipeHandler, d: Dir)
    reads u, Just(u.Neighbour(d))
  {
    u.ioDirs[d] && u.Free(d) && u.Neighbour(d) != null && u.Neighbour(d).pipeType.liquid == u.pipeType.liquid
  }

  /** The piece liquid in u passes into through side d, if any. */
  ghost function Side(u: PipeHandler, d: Dir): set<PipeHandler>
    reads u, Just(u.Neighbour(d))
  {
    if Passes(u, d) then {u.Neighbour(d)} else {}
  }

  /** The pieces the liquid in u passes into. */
  ghost function Out(u: PipeHandler): set<PipeHandler>
    reads u, u.Around()
  {
    Side(u, UP) + Side(u, RIGHT) + Side(u, DOWN) + Side(u, LEFT)
  }

  /** The partner of Out: v is an outflow of u exactly when liquid in u
      passes through some side of u into v. */
  lemma OutSides(u: PipeHandler, v: PipeHandler)
    ensures v in Out(u) <==> exists d :: Passes(u, d) && u.Neighbour(d) == v
  {
    if v in Out(u) {
      if v in Side(u, UP) {
        assert Passes(u, UP) && u.Neighbour(UP) == v;
      } else if v in Side(u, RIGHT) {
        assert Passes(u, RIGHT) && u.Neighbour(RIGHT) == v;
      } else if v in Side(u, DOWN) {
        assert Passes(u, DOWN) && u.Neighbour(DOWN) == v;
      } else {
        assert Passes(u, LEFT) && u.Neighbour(LEFT) == v;
      }
    }
    if exists d :: Passes(u, d) && u.Neighbour(d) == v {
      var d :| Passes(u, d) && u.Neighbour(d) == v;
      assert v in Side(u, d);
    }
  }

  /** Which pieces the liquid in each piece passes into: the board as the
      flows see it. No flow changes a piece, so one snapshot serves a whole
      run. */
  type Net = map<PipeHandler, set<PipeHandler>>

  /** net and loc are the outflows and the locations of the pieces. */
  ghost predicate Snapshot(pieces: set<PipeHandler>, net: Net, loc: map<PipeHandler, Position>)
    reads pieces
  {
    && Shut(pieces) && Guarded(pieces) && net.Keys == pieces && loc.Keys == pieces
    && (forall u {:trigger Entry(net, u)} :: u in pieces ==> Entry(net, u) == Out(u))
    && (forall u {:trigger loc[u]} :: u in pieces ==> loc[u] == u.location)
  }

  /** The outflows net records for u. */
  function Entry(net: Net, u: PipeHandler): set<PipeHandler> {
    if u in net then net[u] else {}
  }

  /** What a flow needs to know about piece u: its outflows and location as
      the snapshot records them, a piece behind every raised free flag, and
      the recorded location of every piece it passes liquid into. */
  ghost predicate Charted(net: Net, loc: map<PipeHandler, Position>, u: PipeHandler)
    reads u, u.Around()
  {
    && u in net && net[u] == Out(u) && u in loc && loc[u] == u.location
    && Leads(loc, u, UP) && Leads(loc, u, RIGHT) && Leads(loc, u, DOWN) && Leads(loc, u, LEFT)
  }

  /** A piece is behind the free flag of u on side d, and its location is
      recorded if liquid passes into it. */
  ghost predicate Leads(loc: map<PipeHandler, Position>, u: PipeHandler, d: Dir)
    reads u, Just(u.Neighbour(d))
  {
    && (u.Free(d) ==> u.Neighbour(d) != null)
    && (Passes(u, d) ==> u.Neighbour(d) in loc && loc[u.Neighbour(d)] == u.Neighbour(d).location)
  }

  /** What a chart says about side d of u. */
  lemma Lookout(net: Net, loc: map<PipeHandler, Position>, u: PipeHandler,
                sides: seq<set<PipeHandler>>, nexts: seq<PipeHandler?>, d: Dir)
    requires Charted(net, loc, u) && sides == Outlets(u) && nexts == Nexts(u)
    ensures nexts[d] == u.Neighbour(d) && sides[d] == Side(u, d) && sides[d] <= net[u]
    ensures u.Free(d) ==> nexts[d] != null && nexts[d] in u.Around()
    ensures Passes(u, d) ==> nexts[d] in loc && loc[nexts[d]] == nexts[d].location && sides[d] == {nexts[d]}
    ensures !Passes(u, d) ==> sides[d] == {}
  {
    SideOut(u, d);
    assert Leads(loc, u, d);
  }

  /** The snapshot charts every piece. */
  lemma SnapshotCharted(pieces: set<PipeHandler>, net: Net, loc: map<PipeHandler, Position>, u: PipeHandler)
    requires Snapshot(pieces, net, loc) && u in pieces
    ensures Charted(net, loc, u)
  {
    assert Entry(net, u) == Out(u);
    forall d: Dir | Passes(u, d)
      ensures u.Neighbour(d) in loc && loc[u.Neighbour(d)] == u.Neighbour(d).location
    {
      assert u.Neighbour(d) in u.Around();
    }
  }

  /** What passes through each side of u, in the order Flow tries them. */
  ghost function Outlets(u: PipeHandler): seq<set<PipeHandler>>
    reads u, u.Around()
  {
    [Side(u, UP), Side(u, RIGHT), Side(u, DOWN), Side(u, LEFT)]
  }

  /** The pieces on the four sides of u, in the same order. */
  function Nexts(u: PipeHandler): (r: seq<PipeHandler?>)
    reads u
    ensures |r| == 4 && forall d: Dir :: r[d] == u.Neighbour(d)
  {
    [u.up, u.right, u.down, u.left]
  }

  /** The outflows of u are what passes through its four sides. */
  lemma SidesOut(u: PipeHandler, sides: seq<set<PipeHandler>>)
    requires sides == Outlets(u)
    ensures Out(u) == sides[0] + sides[1] + sides[2] + sides[3]
  {
  }

  /** Side d of u is one of the outflows of u. */
  lemma SideOut(u: PipeHandler, d: Dir)
    ensures Side(u, d) <= Out(u)
  {
  }

  /** Taking the snapshot. */
  lemma TakeSnapshot(pieces: set<PipeHandler>) returns (net: Net, loc: map<PipeHandler, Position>)
    requires Shut(pieces) && Guarded(pieces)
    ensures Snapshot(pieces, net, loc)
  {
    net := map u | u in pieces :: Out(u);
    loc := map u | u in pieces :: u.location;
  }

  /** The net of a snapshot only leads to pieces. */
  lemma SnapshotWhole(pieces: set<PipeHandler>, net: Net, loc: map<PipeHandler, Position>)
    requires Snapshot(pieces, net, loc)
    ensures Whole(net)
  {
    forall u, v | u in net && v in net[u]
      ensures v in pieces
    {
      assert Entry(net, u) == Out(u);
      OutSides(u, v);
      var d :| Passes(u, d) && u.Neighbour(d) == v;
      assert v in u.Around() && u.Around() <= pieces;
    }
  }

  /** Every outflow of a piece of the net is a piece of the net. */
  ghost predicate Whole(net: Net) {
    forall u {:trigger net[u]} :: u in net ==> net[u] <= net.Keys
  }

  /** Every piece of visited, except those in open, has all its outflows
      visited as well. */
  ghost predicate Closed(net: Net, visited: set<PipeHandler>, open: set<PipeHandler>) {
    forall u {:trigger net[u]} :: u in visited && u in net && u !in open ==> net[u] <= visited
  }

  /** Every piece of order is a seed, or an outflow of a piece earlier in
      order: the order in which the flows found the pieces. */
  ghost predicate Explained(net: Net, order: seq<PipeHandler>, seeds: set<PipeHandler>) {
    forall i {:trigger Fed(net, order, seeds, i)} :: 0 <= i < |order| ==> Fed(net, order, seeds, i)
  }

  /** Piece i of order is a seed or an outflow of a piece earlier in order. */
  ghost predicate Fed(net: Net, order: seq<PipeHandler>, seeds: set<PipeHandler>, i: int) {
    && 0 <= i < |order|
    && (order[i] in seeds || exists j :: 0 <= j < i && order[j] in net && order[i] in net[order[j]])
  }

  /** Extending a discovery order by a seed, or by an outflow of a piece
      already in the order, keeps it explained. */
  lemma {:induction false} ExplainedGrow(net: Net, order: seq<PipeHandler>, seeds: set<PipeHandler>,
                                         seeds': set<PipeHandler>, x: PipeHandler, j: int)
    requires Explained(net, order, seeds) && seeds <= seeds'
    requires x in seeds' || (0 <= j < |order| && order[j] in net && x in net[order[j]])
    ensures Explained(net, order + [x], seeds')
  {
    var o := order + [x];
    forall i | 0 <= i < |o|
      ensures Fed(net, o, seeds', i)
    {
      if i < |order| {
        assert Fed(net, order, seeds, i);
        if order[i] !in seeds {
          var j' :| 0 <= j' < i && order[j'] in net && order[i] in net[order[j']];
          assert o[j'] == order[j'];
        }
      } else if x !in seeds' {
        assert o[j] == order[j];
      }
    }
  }

  /** More seeds explain the same order. */
  lemma ExplainedMore(net: Net, order: seq<PipeHandler>, seeds: set<PipeHandler>, seeds': set<PipeHandler>)
    requires Explained(net, order, seeds) && seeds <= seeds'
    ensures Explained(net, order, seeds')
  {
    forall i | 0 <= i < |order|
      ensures Fed(net, order, seeds', i)
    {
      assert Fed(net, order, seeds, i);
    }
  }

  /** The partner of Flow: whatever the flows found lies in every set that
      holds the seeds and that liquid cannot leave. With the closure Flow
      leaves behind, the visited set is exactly the seeds and the pieces
      connected to them through the net. */
  lemma {:induction false} Least(net: Net, order: seq<PipeHandler>, seeds: set<PipeHandler>,
                                 s: set<PipeHandler>, i: int)
    requires Explained(net, order, seeds) && seeds <= s && Closed(net, s, {})
    requires 0 <= i < |order|
    ensures order[i] in s
    decreases i
  {
    assert Fed(net, order, seeds, i);
    if order[i] !in seeds {
      var j :| 0 <= j < i && order[j] in net && order[i] in net[order[j]];
      Least(net, order, seeds, s, j);
    }
  }

  /** A free flag computed by UpdateAvailableSides is raised only over a port
      that is joined to a neighbour, so accurate pieces are guarded. */
  lemma AccurateGuarded(pieces: set<PipeHandler>)
    requires forall t :: t in pieces ==> t.Accurate()
    ensures Guarded(pieces)
  {
    forall t, d | t in pieces && t.Free(d)
      ensures t.Neighbour(d) != null
    {
      assert t.Flags() == t.Openings();
      assert t.Free(d) == t.Joined(d);
    }
  }

  /** On a board where every piece stands in its slot and is linked to the
      pieces around it, the pieces refer only to one another. */
  lemma LinkedShut(g: Grid, n: int, pieces: set<PipeHandler>)
    requires Placed(g, n, pieces) && Linked(g, n, pieces)
    requires forall t :: t in pieces ==> t.At(g, n)
    ensures Shut(pieces)
  {
    forall t | t in pieces
      ensures t.Around() <= pieces
    {
      assert t.Wired(g, n);
      WiredFacts(g, n, pieces, t);
    }
  }

  /** The flows StartFlow launches, in launch order: one per start position,
      every Water start before every Lava start. */
  function Launches(starts: map<Liquid, seq<Position>>): seq<(Liquid, Position)> {
    (if Water in starts then Tagged(Water, starts[Water]) else []) +
    (if Lava in starts then Tagged(Lava, starts[Lava]) else [])
  }

  function Tagged(l: Liquid, ps: seq<Position>): (r: seq<(Liquid, Position)>)
    ensures |r| == |ps| && forall i :: 0 <= i < |ps| ==> r[i] == (l, ps[i])
  {
    seq(|ps|, i requires 0 <= i < |ps| => (l, ps[i]))
  }

  predicate OnBoard(ps: map<Liquid, seq<Position>>, n: int) {
    forall l, i :: l in ps && 0 <= i < |ps[l]| ==> InBoard(ps[l][i], n)
  }

  /** The piece on every end of liquid l is visited, when l has both starts
      and ends; a liquid without either is no obstacle. */
  ghost predicate Reached(g: Grid, starts: map<Liquid, seq<Position>>, ends: map<Liquid, seq<Position>>,
                          visited: set<PipeHandler>, l: Liquid)
    requires Square(g, |g|) && OnBoard(ends, |g|)
  {
    l in starts && l in ends ==>
      forall i :: 0 <= i < |ends[l]| ==> g[ends[l][i].x][ends[l][i].y] in visited
  }

  /** The game is won when Water and Lava both reached their ends. */
  ghost predicate Won(g: Grid, starts: map<Liquid, seq<Position>>, ends: map<Liquid, seq<Position>>,
                      visited: set<PipeHandler>)
    requires Square(g, |g|) && OnBoard(ends, |g|)
  {
    Reached(g, starts, ends, visited, Water) && Reached(g, starts, ends, visited, Lava)
  }

  predicate AllTrue(s: seq<bool>) {
    forall i :: 0 <= i < |s| ==> s[i]
  }

  /** The shared flow state is sound over the net: the queue holds visited
      pieces, visited is what the discovery order found from the seeds, every
      visited piece's location has a distance, and, unless a flow broke off,
      every visited piece outside the queue and open has all its outflows
      visited. */
  ghost predicate Sound(net: Net, loc: map<PipeHandler, Position>, open: set<PipeHandler>,
                        queue: seq<PipeHandler>, visited: set<PipeHandler>, distances: map<Position, int>,
                        order: seq<PipeHandler>, seeds: set<PipeHandler>, broken: bool)
  {
    && Whole(net) && loc.Keys == net.Keys
    && visited <= net.Keys && Elems(queue) <= visited && visited == Elems(order) && seeds <= visited
    && Explained(net, order, seeds)
    && (forall p :: p in visited ==> loc[p] in distances)
    && (!broken ==> Closed(net, visited, Elems(queue) + open))
  }

  /** Seeding a flow: its start piece gets distance 0, is marked visited and
      is enqueued. */
  lemma SoundSeed(net: Net, loc: map<PipeHandler, Position>, queue: seq<PipeHandler>, visited: set<PipeHandler>,
                  distances: map<Position, int>, order: seq<PipeHandler>, seeds: set<PipeHandler>, broken: bool,
                  start: PipeHandler)
    requires Sound(net, loc, {}, queue, visited, distances, order, seeds, broken) && start in net
    ensures Sound(net, loc, {}, queue + [start], visited + {start}, distances[loc[start] := 0],
                  if start in visited then order else order + [start], seeds + {start}, broken)
  {
    assert Elems(queue + [start]) == Elems(queue) + {start};
    if start !in visited {
      ExplainedGrow(net, order, seeds, seeds + {start}, start, 0);
      assert Elems(order + [start]) == Elems(order) + {start};
    } else {
      ExplainedMore(net, order, seeds, seeds + {start});
    }
  }

  /** Taking the head off the queue leaves it open until its outflows are
      explored. */
  lemma SoundPop(net: Net, loc: map<PipeHandler, Position>, queue: seq<PipeHandler>, visited: set<PipeHandler>,
                 distances: map<Position, int>, order: seq<PipeHandler>, seeds: set<PipeHandler>, broken: bool)
    requires Sound(net, loc, {}, queue, visited, distances, order, seeds, broken) && queue != []
    ensures queue[0] in visited
    ensures Sound(net, loc, {queue[0]}, queue[1..], visited, distances, order, seeds, broken)
  {
    assert queue == [queue[0]] + queue[1..];
    assert Elems(queue) == {queue[0]} + Elems(queue[1..]);
  }

  /** Discovering next, an outflow of current, the piece being explored. */
  lemma SoundStep(net: Net, loc: map<PipeHandler, Position>, queue: seq<PipeHandler>, visited: set<PipeHandler>,
                  distances: map<Position, int>, order: seq<PipeHandler>, seeds: set<PipeHandler>, broken: bool,
                  current: PipeHandler, next: PipeHandler)
    requires Sound(net, loc, {current}, queue, visited, distances, order, seeds, broken) && current in visited
    requires next in net[current] && next !in visited
    ensures next in net
    ensures Sound(net, loc, {current}, queue + [next], visited + {next},
                  distances[loc[next] := distances[loc[current]] + 1], order + [next], seeds, broken)
  {
    var j :| 0 <= j < |order| && order[j] == current;
    ExplainedGrow(net, order, seeds, seeds, next, j);
    assert Elems(queue + [next]) == Elems(queue) + {next};
    assert Elems(order + [next]) == Elems(order) + {next};
  }

  /** Visit's loop after trying the sides below d of current, where sides
      holds what passes through each side: all of it is visited, nothing else
      is newly visited, exactly the newly visited pieces were enqueued, and
      grew says whether there were any. */
  ghost predicate Visiting(net: Net, loc: map<PipeHandler, Position>, current: PipeHandler,
                           sides: seq<set<PipeHandler>>, d: int, visited0: set<PipeHandler>, queue0: seq<PipeHandler>,
                           grew: bool, queue: seq<PipeHandler>, visited: set<PipeHandler>,
                           distances: map<Position, int>, order: seq<PipeHandler>, seeds: set<PipeHandler>, broken: bool)
  {
    && |sides| == 4 && 0 <= d <= 4
    && Sound(net, loc, {current}, queue, visited, distances, order, seeds, broken)
    && current in visited && visited0 <= visited
    && (if grew then visited0 < visited else visited == visited0 && queue == queue0)
    && (forall e :: 0 <= e < d ==> sides[e] <= visited)
    && visited <= visited0 + sides[0] + sides[1] + sides[2] + sides[3]
    && Elems(queue) == Elems(queue0) + (visited - visited0)
  }

  /** No side tried yet. */
  lemma VisitStart(net: Net, loc: map<PipeHandler, Position>, current: PipeHandler,
                   sides: seq<set<PipeHandler>>, queue: seq<PipeHandler>, visited: set<PipeHandler>,
                   distances: map<Position, int>, order: seq<PipeHandler>, seeds: set<PipeHandler>, broken: bool)
    requires Sound(net, loc, {current}, queue, visited, distances, order, seeds, broken) && current in visited
    requires |sides| == 4 && current in net
    ensures Visiting(net, loc, current, sides, 0, visited, queue, false, queue, visited, distances, order, seeds, broken)
  {
  }

  /** One side tried: what passes through it is now visited, and enqueued if
      it is new; the discovery order grows by what was enqueued. */
  lemma VisitStep(net: Net, loc: map<PipeHandler, Position>, current: PipeHandler,
                  sides: seq<set<PipeHandler>>, d: int, visited0: set<PipeHandler>, queue0: seq<PipeHandler>,
                  grew: bool, queue: seq<PipeHandler>, visited: set<PipeHandler>,
                  distances: map<Position, int>, order: seq<PipeHandler>, seeds: set<PipeHandler>, broken: bool,
                  next: PipeHandler?, r: Sweep)
    requires Visiting(net, loc, current, sides, d, visited0, queue0, grew, queue, visited, distances, order, seeds, broken)
    requires d < 4 && current in net && net[current] == sides[0] + sides[1] + sides[2] + sides[3]
    requires r.found == (sides[d] != {} && next !in visited)
    requires sides[d] != {} ==> next != null && next in loc && sides[d] == {next}
    requires r.found ==> && r.visited == visited + {next} && r.queue == queue + [next]
                         && r.distances == distances[loc[next] := distances[loc[current]] + 1]
    requires !r.found ==> r.visited == visited && r.queue == queue && r.distances == distances
    ensures |queue| <= |r.queue|
    ensures Visiting(net, loc, current, sides, d + 1, visited0, queue0, grew || r.found,
                     r.queue, r.visited, r.distances, order + r.queue[|queue|..], seeds, broken)
  {
    if r.found {
      assert r.queue[|queue|..] == [next];
      VisitFound(net, loc, current, sides, d, visited0, queue0, grew, queue, visited, distances, order, seeds, broken,
                 next, r);
    } else {
      assert order + r.queue[|queue|..] == order;
    }
  }

  /** The case of VisitStep where a piece is found. */
  lemma VisitFound(net: Net, loc: map<PipeHandler, Position>, current: PipeHandler,
                   sides: seq<set<PipeHandler>>, d: int, visited0: set<PipeHandler>, queue0: seq<PipeHandler>,
                   grew: bool, queue: seq<PipeHandler>, visited: set<PipeHandler>,
                   distances: map<Position, int>, order: seq<PipeHandler>, seeds: set<PipeHandler>, broken: bool,
                   next: PipeHandler, r: Sweep)
    requires Visiting(net, loc, current, sides, d, visited0, queue0, grew, queue, visited, distances, order, seeds, broken)
    requires d < 4 && current in net && next in net[current] && sides[d] == {next} && next !in visited
    requires && r.visited == visited + {next} && r.queue == queue + [next]
             && r.distances == distances[loc[next] := distances[loc[current]] + 1]
    ensures Visiting(net, loc, current, sides, d + 1, visited0, queue0, true,
                     r.queue, r.visited, r.distances, order + [next], seeds, broken)
  {
    SoundStep(net, loc, queue, visited, distances, order, seeds, broken, current, next);
    assert Elems(r.queue) == Elems(queue) + {next};
  }

  /** All four sides tried: the visited set grew by the outflows of current,
      which is no longer open. */
  lemma VisitDone(net: Net, loc: map<PipeHandler, Position>, current: PipeHandler,
                  sides: seq<set<PipeHandler>>, visited0: set<PipeHandler>, queue0: seq<PipeHandler>,
                  grew: bool, queue: seq<PipeHandler>, visited: set<PipeHandler>,
                  distances: map<Position, int>, order: seq<PipeHandler>, seeds: set<PipeHandler>, broken: bool)
    requires Visiting(net, loc, current, sides, 4, visited0, queue0, grew, queue, visited, distances, order, seeds, broken)
    requires current in net && net[current] == sides[0] + sides[1] + sides[2] + sides[3]
    ensures Sound(net, loc, {}, queue, visited, distances, order, seeds, broken)
    ensures visited == visited0 + net[current] && Elems(queue) == Elems(queue0) + (visited - visited0)
    ensures grew == (visited != visited0)
    ensures visited0 < visited || (visited == visited0 && queue == queue0)
  {
    assert sides[0] <= visited && sides[1] <= visited && sides[2] <= visited && sides[3] <= visited;
    SoundDone(net, loc, queue, visited, distances, order, seeds, broken, current);
  }

  /** Once every outflow of current is visited, current is no longer open. */
  lemma SoundDone(net: Net, loc: map<PipeHandler, Position>, queue: seq<PipeHandler>, visited: set<PipeHandler>,
                  distances: map<Position, int>, order: seq<PipeHandler>, seeds: set<PipeHandler>, broken: bool,
                  current: PipeHandler)
    requires Sound(net, loc, {current}, queue, visited, distances, order, seeds, broken)
    requires current in net ==> net[current] <= visited
    ensures Sound(net, loc, {}, queue, visited, distances, order, seeds, broken)
  {
    if !broken {
      forall u | u in visited && u in net && u !in Elems(queue)
        ensures net[u] <= visited
      {
        if u != current {
          assert u !in Elems(queue) + {current};
        }
      }
    }
  }

  /** The search state after one case of the switch in Flow. */
  datatype Sweep = Sweep(found: bool, queue: seq<PipeHandler>, visited: set<PipeHandler>, distances: map<Position, int>)

  /** One case of the switch in Flow: the piece on side d of current is
      enqueued when current has a port and a raised free flag there, the
      piece is not visited yet, and it carries current's liquid. It is
      marked visited first and gets current's distance plus one. sides and
      nexts are what passes through each side of current and the piece on
      each side. */
  function Discover(current: PipeHandler, d: Dir, ghost net: Net, ghost loc: map<PipeHandler, Position>,
                    ghost sides: seq<set<PipeHandler>>, ghost nexts: seq<PipeHandler?>,
                    queue: seq<PipeHandler>, visited: set<PipeHandler>, distances: map<Position, int>): (r: Sweep)
    reads current, current.Around()
    requires Charted(net, loc, current) && sides == Outlets(current) && nexts == Nexts(current)
    requires loc[current] in distances
    ensures r.found == (sides[d] != {} && nexts[d] !in visited)
    ensures sides[d] != {} ==> nexts[d] != null && nexts[d] in loc && sides[d] == {nexts[d]}
    ensures r.found ==> && r.visited == visited + {nexts[d]} && r.queue == queue + [nexts[d]]
                        && r.distances == distances[loc[nexts[d]] := distances[loc[current]] + 1]
    ensures !r.found ==> r.visited == visited && r.queue == queue && r.distances == distances
  {
    var next := current.Neighbour(d);
    Lookout(net, loc, current, sides, nexts, d);
    if current.ioDirs[d] && current.Free(d) && next !in visited && current.pipeType.liquid == next.pipeType.liquid then
      Sweep(true, queue + [next], visited + {next}, distances[next.location := distances[current.location] + 1])
    else
      Sweep(false, queue, visited, distances)
  }

  /** The loop over the four sides of the piece Flow just dequeued; previous
      is the piece that last found another. */
  method Visit(current: PipeHandler, previous: PipeHandler, ghost net: Net,
               ghost loc: map<PipeHandler, Position>, queue: seq<PipeHandler>, visited: set<PipeHandler>,
               distances: map<Position, int>, ghost order: seq<PipeHandler>, ghost seeds: set<PipeHandler>,
               ghost broken: bool)
    returns (previous': PipeHandler, queue': seq<PipeHandler>, visited': set<PipeHandler>,
             distances': map<Position, int>, ghost order': seq<PipeHandler>)
    requires Charted(net, loc, current) && current in visited
    requires Sound(net, loc, {current}, queue, visited, distances, order, seeds, broken)
    ensures Sound(net, loc, {}, queue', visited', distances', order', seeds, broken)
    ensures visited' == visited + Out(current) && Elems(queue') == Elems(queue) + (visited' - visited)
    ensures visited < visited' || (visited' == visited && queue' == queue)
    ensures previous' == if visited' == visited then previous else current
  {
    previous', queue', visited', distances', order' := previous, queue, visited, distances, order;
    ghost var grew := false;
    ghost var sides := Outlets(current);
    ghost var nexts := Nexts(current);
    SidesOut(current, sides);
    VisitStart(net, loc, current, sides, queue, visited, distances, order, seeds, broken);
    for d := 0 to 4
      invariant Visiting(net, loc, current, sides, d, visited, queue, grew, queue', visited', distances', order', seeds, broken)
      invariant previous' == if grew then current else previous
      invariant Charted(net, loc, current) && sides == Outlets(current) && nexts == Nexts(current)
      invariant current in net && net[current] == sides[0] + sides[1] + sides[2] + sides[3]
    {
      var r := Discover(current, d, net, loc, sides, nexts, queue', visited', distances');
      VisitStep(net, loc, current, sides, d, visited, queue, grew, queue', visited', distances', order', seeds, broken,
                nexts[d], r);
      queue', visited', distances', order' := r.queue, r.visited, r.distances, order' + r.queue[|queue'|..];
      if r.found {
        previous' := current;
        grew := true;
      }
    }
    VisitDone(net, loc, current, sides, visited, queue, grew, queue', visited', distances', order', seeds, broken);
  }

  /** The breadth-first wave of one flow: pieces leave the queue in order and
      each one's outflows are explored; a piece other than the start whose
      liquid has no end list stops the wave with an exception. */
  method Spread(ghost pieces: set<PipeHandler>, ghost net: Net, ghost loc: map<PipeHandler, Position>,
                startPipe: PipeHandler, flowLiquid: Liquid, ends: map<Liquid, seq<Position>>,
                queue: seq<PipeHandler>, visited: set<PipeHandler>, distances: map<Position, int>,
                ghost order: seq<PipeHandler>, ghost seeds: set<PipeHandler>, ghost broken: bool)
    returns (thrown: bool, queue': seq<PipeHandler>, visited': set<PipeHandler>, distances': map<Position, int>,
             ghost order': seq<PipeHandler>)
    requires Snapshot(pieces, net, loc) && startPipe in pieces
    requires Sound(net, loc, {}, queue, visited, distances, order, seeds, broken)
    ensures Sound(net, loc, {}, queue', visited', distances', order', seeds + {startPipe}, broken || thrown)
    ensures visited + {startPipe} <= visited'
    ensures !thrown ==> queue' == []
    ensures flowLiquid in ends ==> !thrown
  {
    assert loc[startPipe] == startPipe.location;
    SoundSeed(net, loc, queue, visited, distances, order, seeds, broken, startPipe);
    var previous := startPipe;
    queue', visited', distances' := queue + [startPipe], visited + {startPipe}, distances[startPipe.location := 0];
    order' := if startPipe in visited then order else order + [startPipe];
    thrown := false;
    while queue' != []
      invariant !thrown && Snapshot(pieces, net, loc)
      invariant Sound(net, loc, {}, queue', visited', distances', order', seeds + {startPipe}, broken)
      invariant previous in visited' && startPipe in visited' && visited <= visited'
      decreases net.Keys - visited', |queue'|
    {
      SoundPop(net, loc, queue', visited', distances', order', seeds + {startPipe}, broken);
      var current := queue'[0];
      queue' := queue'[1..];
      // the wave pacing compares the distances of these two pieces
      SnapshotCharted(pieces, net, loc, previous);
      SnapshotCharted(pieces, net, loc, current);
      assert previous.location in distances' && current.location in distances';
      if current.location != startPipe.location && flowLiquid !in ends {
        thrown := true;
        return;
      }
      previous, queue', visited', distances', order' :=
        Visit(current, previous, net, loc, queue', visited', distances', order', seeds + {startPipe}, broken);
    }
  }

  /** The pieces on the positions ps. */
  ghost function Seeds(g: Grid, n: int, ps: seq<Position>): set<PipeHandler>
    requires Square(g, n)
    decreases |ps|
  {
    if ps == [] then {} else Seeds(g, n, ps[..|ps| - 1]) + Slot(g, n, ps[|ps| - 1].x, ps[|ps| - 1].y)
  }

  /** One more start position: the flows and start pieces launched so far
      grow by that position's flow and piece. */
  lemma Grow(flows: seq<(Liquid, Position)>, seeds: set<PipeHandler>, g: Grid, n: int, l: Liquid, ps: seq<Position>, i: int)
    requires Square(g, n) && 0 <= i < |ps|
    ensures flows + Tagged(l, ps[..i]) + [(l, ps[i])] == flows + Tagged(l, ps[..i + 1])
    ensures seeds + Seeds(g, n, ps[..i]) + Slot(g, n, ps[i].x, ps[i].y) == seeds + Seeds(g, n, ps[..i + 1])
  {
    assert ps[..i + 1][..i] == ps[..i];
    assert Tagged(l, ps[..i + 1]) == Tagged(l, ps[..i]) + [(l, ps[i])];
    Regroup(flows, Tagged(l, ps[..i]), [(l, ps[i])]);
  }

  /** The start pieces of every flow StartFlow launches. */
  ghost function Sources(g: Grid, n: int, starts: map<Liquid, seq<Position>>): set<PipeHandler>
    requires Square(g, n)
  {
    (if Water in starts then Seeds(g, n, starts[Water]) else {}) +
    (if Lava in starts then Seeds(g, n, starts[Lava]) else {})
  }

  /** The Water flows, then the Lava flows, add up to every flow StartFlow
      launches and every start piece. */
  lemma Parts(flows: seq<(Liquid, Position)>, seeds: set<PipeHandler>, g: Grid, n: int, starts: map<Liquid, seq<Position>>)
    requires Square(g, n)
    ensures flows + [] == flows && seeds + {} == seeds
    ensures flows + (if Water in starts then Tagged(Water, starts[Water]) else [])
                  + (if Lava in starts then Tagged(Lava, starts[Lava]) else []) == flows + Launches(starts)
    ensures seeds + (if Water in starts then Seeds(g, n, starts[Water]) else {})
                  + (if Lava in starts then Seeds(g, n, starts[Lava]) else {}) == seeds + Sources(g, n, starts)
  {
    Regroup(flows, if Water in starts then Tagged(Water, starts[Water]) else [],
            if Lava in starts then Tagged(Lava, starts[Lava]) else []);
  }

  /** A new flag added unset leaves the list not all true; setting it gives
      back whether the list was all true before. */
  lemma AllTrueAdd(s: seq<bool>)
    ensures !AllTrue(s + [false])
    ensures AllTrue((s + [false])[|s| := true]) == AllTrue(s)
  {
    assert (s + [false])[|s|] == false;
    var t := (s + [false])[|s| := true];
    assert t == s + [true];
    if !AllTrue(s) {
      var i :| 0 <= i < |s| && !s[i];
      assert !t[i];
    }
  }

  /** visited is the closure of seeds under the net: it holds the seeds,
      liquid cannot leave it, and it lies in every other such set. */
  ghost predicate Closure(net: Net, seeds: set<PipeHandler>, visited: set<PipeHandler>) {
    && seeds <= visited <= net.Keys && Closed(net, visited, {})
    && forall s :: s <= net.Keys && seeds <= s && Closed(net, s, {}) ==> visited <= s
  }

  /** The closure is unique. */
  lemma ClosureUnique(net: Net, seeds: set<PipeHandler>, a: set<PipeHandler>, b: set<PipeHandler>)
    requires Closure(net, seeds, a) && Closure(net, seeds, b)
    ensures a == b
  {
  }

  /** A closed, explained search state is the closure of its seeds. */
  lemma ExplainedClosure(net: Net, order: seq<PipeHandler>, seeds: set<PipeHandler>, visited: set<PipeHandler>)
    requires Explained(net, order, seeds) && visited == Elems(order)
    requires seeds <= visited <= net.Keys && Closed(net, visited, {})
    ensures Closure(net, seeds, visited)
  {
    forall s | s <= net.Keys && seeds <= s && Closed(net, s, {})
      ensures visited <= s
    {
      forall p | p in visited
        ensures p in s
      {
        var i :| 0 <= i < |order| && order[i] == p;
        Least(net, order, seeds, s, i);
      }
    }
  }


  /** The start positions of liquid l lie on the board, each under one of
      the pieces. */
  lemma Ready(g: Grid, n: int, pieces: set<PipeHandler>, starts: map<Liquid, seq<Position>>, l: Liquid)
    requires Placed(g, n, pieces) && OnBoard(starts, n) && l in starts
    ensures forall i :: 0 <= i < |starts[l]| ==> InBoard(starts[l][i], n) && g[starts[l][i].x][starts[l][i].y] in pieces
  {
  }

  /** Nothing visited yet is a sound state. */
  lemma SoundEmpty(net: Net, loc: map<PipeHandler, Position>)
    requires Whole(net) && loc.Keys == net.Keys
    ensures Sound(net, loc, {}, [], {}, map[], [], {}, false)
  {
    assert Elems([]) == {};
  }

  lemma Fresh<T, U>(s: seq<T>, a: set<U>)
    ensures [] + s == s && {} + a == a
  {
  }

  lemma Regroup<T>(a: seq<T>, b: seq<T>, c: seq<T>)
    ensures a + b + c == a + (b + c)
  {
  }

  /** GenerateLevel made one piece for every tile of an n by n board: what
      StoreGamePieces needs to fill every slot of GamePieces. */
  ghost predicate Stocked(scene: seq<PipeHandler>, made: map<Position, PipeHandler>, placed: map<Position, Pipe>, n: int)
    reads made.Values`tile, made.Values`pipeType, scene`tile
  {
    LH.Filed(scene, made, placed) && n >= 0 && forall t :: t in made <==> InBoard(t, n)
  }



  class GameManager {
    var queue: seq<PipeHandler>
    var visited: set<PipeHandler>
    var distances: map<Position, int>
    var flowsStarted: bool
    var isWon: bool
    var flowsFinished: seq<bool>
    const lh: LH.LevelHandler
    /** The pieces in the order the flows found them. */
    ghost var order: seq<PipeHandler>
    /** The start pieces of the flows launched so far. */
    ghost var seeds: set<PipeHandler>
    /** The flows launched so far, in launch order. */
    ghost var flows: seq<(Liquid, Position)>
    /** Some flow stopped with an exception, leaving a piece unexplored. */
    ghost var broken: bool

    /** Start: nothing flows, nothing is won. */
    constructor(lh: LH.LevelHandler)
      ensures this.lh == lh && !isWon && !flowsStarted && flowsFinished == []
      ensures queue == [] && visited == {} && distances == map[]
      ensures order == [] && seeds == {} && flows == [] && !broken
    {
      this.lh := lh;
      isWon := false;
      flowsStarted := false;
      flowsFinished := [];
      queue := [];
      visited := {};
      distances := map[];
      order := [];
      seeds := {};
      flows := [];
      broken := false;
    }

    ghost predicate Inv(net: Net, loc: map<PipeHandler, Position>, open: set<PipeHandler>)
      reads this`queue, this`visited, this`distances, this`order, this`seeds, this`broken
    {
      Sound(net, loc, open, queue, visited, distances, order, seeds, broken)
    }

    /** Flow: a breadth-first search from the piece on startPos over the
        shared queue. The test for the start and end sprites looks up the
        flow's liquid in Ends once a piece other than the start comes out of
        the queue; without that entry it throws, which stops the flow without
        marking it finished (thrown). */
    method Flow(g: Grid, n: int, ghost pieces: set<PipeHandler>, ghost net: Net, ghost loc: map<PipeHandler, Position>, ends: map<Liquid, seq<Position>>,
                startPos: Position, flowLiquid: Liquid, flowIndex: int) returns (thrown: bool)
      requires Square(g, n) && InBoard(startPos, n) && g[startPos.x][startPos.y] in pieces
      requires Snapshot(pieces, net, loc) && Inv(net, loc, {})
      requires 0 <= flowIndex < |flowsFinished|
      modifies this`queue, this`visited, this`distances, this`order, this`seeds, this`broken, this`flowsFinished
      ensures Inv(net, loc, {}) && unchanged(pieces)
      ensures seeds == old(seeds) + {g[startPos.x][startPos.y]} && old(visited) <= visited
      ensures !thrown ==> flowsFinished == old(flowsFinished)[flowIndex := true] && queue == [] && broken == old(broken)
      ensures thrown ==> flowsFinished == old(flowsFinished) && broken
      ensures flowLiquid in ends ==> !thrown
    {
      var startPipe := g[startPos.x][startPos.y];
      var q, v, dist;
      ghost var o;
      thrown, q, v, dist, o := Spread(pieces, net, loc, startPipe, flowLiquid, ends, queue, visited, distances,
                                      order, seeds, broken);
      var finished := if thrown then flowsFinished else flowsFinished[flowIndex := true];
      Commit(net, loc, q, v, dist, o, seeds + {startPipe}, broken || thrown, finished);
    }

    /** The end of a flow: its queue, visited set and distance table become
        the shared ones. */
    method Commit(ghost net: Net, ghost loc: map<PipeHandler, Position>, q: seq<PipeHandler>, v: set<PipeHandler>,
                  dist: map<Position, int>, ghost o: seq<PipeHandler>, ghost s: set<PipeHandler>, ghost b: bool,
                  finished: seq<bool>)
      requires Sound(net, loc, {}, q, v, dist, o, s, b)
      modifies this`queue, this`visited, this`distances, this`order, this`seeds, this`broken, this`flowsFinished
      ensures Inv(net, loc, {})
      ensures queue == q && visited == v && distances == dist && order == o && seeds == s && broken == b
      ensures flowsFinished == finished
    {
      queue, visited, distances, order, seeds, broken, flowsFinished := q, v, dist, o, s, b, finished;
    }

    /** One step of a ForEach of StartFlow: a new unfinished flag, then a
        flow of liquid l from pos with that flag's index. */
    method Start(g: Grid, n: int, ghost pieces: set<PipeHandler>, ghost net: Net, ghost loc: map<PipeHandler, Position>,
                 ends: map<Liquid, seq<Position>>, l: Liquid, pos: Position)
      requires Square(g, n) && InBoard(pos, n) && g[pos.x][pos.y] in pieces
      requires Snapshot(pieces, net, loc) && Inv(net, loc, {})
      requires |flowsFinished| == |flows| && AllTrue(flowsFinished) == !broken && (!broken ==> queue == [])
      modifies this`queue, this`visited, this`distances, this`order, this`seeds, this`broken, this`flowsFinished, this`flows
      ensures Inv(net, loc, {}) && unchanged(pieces) && old(visited) <= visited
      ensures flows == old(flows) + [(l, pos)] && |flowsFinished| == |flows|
      ensures AllTrue(flowsFinished) == !broken && (!broken ==> queue == [])
      ensures seeds == old(seeds) + Slot(g, n, pos.x, pos.y)
      ensures l in ends ==> broken == old(broken)
    {
      var flowIndex := |flowsFinished|;
      AllTrueAdd(flowsFinished);
      flowsFinished, flows := flowsFinished + [false], flows + [(l, pos)];
      var thrown := Flow(g, n, pieces, net, loc, ends, pos, l, flowIndex);
    }

    /** One ForEach of StartFlow: a flow of liquid l from each of ps in turn. */
    method Launch(g: Grid, n: int, ghost pieces: set<PipeHandler>, ghost net: Net, ghost loc: map<PipeHandler, Position>,
                  ends: map<Liquid, seq<Position>>, l: Liquid, ps: seq<Position>)
      requires Square(g, n) && forall i :: 0 <= i < |ps| ==> InBoard(ps[i], n) && g[ps[i].x][ps[i].y] in pieces
      requires Snapshot(pieces, net, loc) && Inv(net, loc, {})
      requires |flowsFinished| == |flows| && AllTrue(flowsFinished) == !broken && (!broken ==> queue == [])
      modifies this`queue, this`visited, this`distances, this`order, this`seeds, this`broken, this`flowsFinished, this`flows
      ensures Snapshot(pieces, net, loc) && Inv(net, loc, {}) && old(visited) <= visited
      ensures flows == old(flows) + Tagged(l, ps) && |flowsFinished| == |flows|
      ensures AllTrue(flowsFinished) == !broken && (!broken ==> queue == [])
      ensures seeds == old(seeds) + Seeds(g, n, ps)
      ensures l in ends ==> broken == old(broken)
    {
      for i := 0 to |ps|
        invariant Snapshot(pieces, net, loc) && Inv(net, loc, {}) && old(visited) <= visited
        invariant flows == old(flows) + Tagged(l, ps[..i]) && |flowsFinished| == |flows|
        invariant AllTrue(flowsFinished) == !broken && (!broken ==> queue == [])
        invariant seeds == old(seeds) + Seeds(g, n, ps[..i])
        invariant l in ends ==> broken == old(broken)
      {
        Grow(old(flows), old(seeds), g, n, l, ps, i);
        Start(g, n, pieces, net, loc, ends, l, ps[i]);
      }
      assert ps[..|ps|] == ps;
    }

    /** The first lines of StartFlow: the flows have started, nothing is
        won, and the flow state is new. */
    method Reset()
      modifies this`flowsStarted, this`isWon, this`queue, this`visited, this`distances, this`flowsFinished
      modifies this`order, this`seeds, this`flows, this`broken
      ensures flowsStarted && !isWon
      ensures flowsFinished == [] && distances == map[] && queue == [] && visited == {}
      ensures order == [] && seeds == {} && flows == [] && !broken
    {
      flowsStarted, isWon := true, false;
      flowsFinished, distances, queue, visited := [], map[], [], {};
      order, seeds, flows, broken := [], {}, [], false;
    }

    /** lh.StoreGamePieces, on a board GenerateLevel filled: every slot of
        GamePieces then holds the piece made for it. */
    method Store(ld: LD.LevelData, ghost made: map<Position, PipeHandler>, ghost placed: map<Position, Pipe>,
                 ghost pieces: set<PipeHandler>, ghost net: Net, ghost loc: map<PipeHandler, Position>)
      returns (g: Grid, n: int)
      requires Stocked(lh.scenePipes, made, placed, lh.boardSize) && pieces == made.Values
      requires Snapshot(pieces, net, loc)
      modifies ld`gamePieces
      ensures ld.gamePieces == Some(g) && n == lh.boardSize && Placed(g, n, pieces)
      ensures Snapshot(pieces, net, loc)
    {
      lh.StoreGamePieces(ld);
      g, n := ld.gamePieces.value, lh.boardSize;
      assert LH.Filed(lh.scenePipes, made, placed) && forall t :: t in made <==> InBoard(t, n);
      LH.StoredPlaced(g, n, lh.scenePipes, made, placed);
    }

    /** The two ForEach of StartFlow: the Water flows, then the Lava flows. */
    method LaunchAll(g: Grid, n: int, ghost pieces: set<PipeHandler>, ghost net: Net, ghost loc: map<PipeHandler, Position>,
                     starts: map<Liquid, seq<Position>>, ends: map<Liquid, seq<Position>>)
      requires Placed(g, n, pieces) && OnBoard(starts, n)
      requires Snapshot(pieces, net, loc) && Inv(net, loc, {})
      requires |flowsFinished| == |flows| && AllTrue(flowsFinished) == !broken && (!broken ==> queue == [])
      modifies this`queue, this`visited, this`distances, this`order, this`seeds, this`broken, this`flowsFinished, this`flows
      ensures Inv(net, loc, {}) && old(visited) <= visited
      ensures flows == old(flows) + Launches(starts) && |flowsFinished| == |flows|
      ensures AllTrue(flowsFinished) == !broken && (!broken ==> queue == [])
      ensures seeds == old(seeds) + Sources(g, n, starts)
      ensures (Water in starts ==> Water in ends) && (Lava in starts ==> Lava in ends) ==> broken == old(broken)
    {
      Parts(old(flows), old(seeds), g, n, starts);
      if Water in starts {
        Ready(g, n, pieces, starts, Water);
        Launch(g, n, pieces, net, loc, ends, Water, starts[Water]);
      }
      if Lava in starts {
        Ready(g, n, pieces, starts, Lava);
        Launch(g, n, pieces, net, loc, ends, Lava, starts[Lava]);
      }
    }

    /** The flows of a fresh run over a stored board: the two ForEach of
        StartFlow on an empty flow state, and what they leave behind. */
    method Go(g: Grid, n: int, ghost pieces: set<PipeHandler>, ghost net: Net, ghost loc: map<PipeHandler, Position>,
              starts: map<Liquid, seq<Position>>, ends: map<Liquid, seq<Position>>)
      requires Placed(g, n, pieces) && OnBoard(starts, n) && Snapshot(pieces, net, loc)
      requires flowsFinished == [] && distances == map[] && queue == [] && visited == {}
      requires order == [] && seeds == {} && flows == [] && !broken
      modifies this`queue, this`visited, this`distances, this`order, this`seeds, this`broken, this`flowsFinished, this`flows
      ensures Placed(g, n, pieces)
      ensures flows == Launches(starts) && |flowsFinished| == |flows|
      ensures seeds == Sources(g, n, starts)
      ensures Inv(net, loc, {}) && AllTrue(flowsFinished) == !broken
      ensures !broken ==> queue == [] && Closure(net, seeds, visited)
      ensures (Water in starts ==> Water in ends) && (Lava in starts ==> Lava in ends) ==> !broken
    {
      SnapshotWhole(pieces, net, loc);
      SoundEmpty(net, loc);
      LaunchAll(g, n, pieces, net, loc, starts, ends);
      Fresh(Launches(starts), Sources(g, n, starts));
      if !broken {
        ExplainedClosure(net, order, seeds, visited);
      }
    }

    /** The rest of StartFlow on a new flow state: store the pieces, then
        launch the flows. */
    method Run(ld: LD.LevelData, ghost made: map<Position, PipeHandler>, ghost placed: map<Position, Pipe>,
               ghost pieces: set<PipeHandler>, ghost net: Net, ghost loc: map<PipeHandler, Position>)
      requires Stocked(lh.scenePipes, made, placed, lh.boardSize) && pieces == made.Values
      requires Snapshot(pieces, net, loc) && OnBoard(ld.starts, lh.boardSize)
      requires flowsFinished == [] && distances == map[] && queue == [] && visited == {}
      requires order == [] && seeds == {} && flows == [] && !broken
      modifies this`queue, this`visited, this`distances, this`order, this`seeds, this`broken, this`flowsFinished, this`flows
      modifies ld`gamePieces
      ensures ld.gamePieces.Some? && Placed(ld.gamePieces.value, lh.boardSize, pieces)
      ensures flows == Launches(ld.starts) && |flowsFinished| == |flows|
      ensures seeds == Sources(ld.gamePieces.value, lh.boardSize, ld.starts)
      ensures Inv(net, loc, {}) && AllTrue(flowsFinished) == !broken
      ensures !broken ==> queue == [] && Closure(net, seeds, visited)
      ensures (Water in ld.starts ==> Water in ld.ends) && (Lava in ld.starts ==> Lava in ld.ends) ==> !broken
    {
      var g, n := Store(ld, made, placed, pieces, net, loc);
      Go(g, n, pieces, net, loc, ld.starts, ld.ends);
    }

    /** StartFlow: a fresh run over the pieces on the board, one flow per
        start position, every Water flow before every Lava flow. Once it
        returns, the flows that did not stop early have visited exactly the
        pieces the start pieces reach. */
    method StartFlow(ld: LD.LevelData, flags: LD.GameFlags, ghost made: map<Position, PipeHandler>,
                     ghost placed: map<Position, Pipe>, ghost pieces: set<PipeHandler>,
                     ghost net: Net, ghost loc: map<PipeHandler, Position>)
      requires Stocked(lh.scenePipes, made, placed, lh.boardSize) && pieces == made.Values
      requires Snapshot(pieces, net, loc) && OnBoard(ld.starts, lh.boardSize)
      modifies this`flowsStarted, this`isWon, this`queue, this`visited, this`distances, this`flowsFinished
      modifies this`order, this`seeds, this`flows, this`broken, ld`gamePieces, flags`isEndGame
      ensures flowsStarted && !isWon && flags.isEndGame
      ensures ld.gamePieces.Some? && Placed(ld.gamePieces.value, lh.boardSize, pieces)
      ensures flows == Launches(ld.starts) && |flowsFinished| == |flows|
      ensures seeds == Sources(ld.gamePieces.value, lh.boardSize, ld.starts)
      ensures Inv(net, loc, {}) && AllTrue(flowsFinished) == !broken
      ensures !broken ==> queue == [] && Closure(net, seeds, visited)
      ensures (Water in ld.starts ==> Water in ld.ends) && (Lava in ld.starts ==> Lava in ld.ends) ==> !broken
    {
      Reset();
      flags.isEndGame := true;
      Run(ld, made, placed, pieces, net, loc);
    }

    /** One foreach of Update: whether the piece on every end in ps is visited. */
    method EndsReached(g: Grid, ps: seq<Position>) returns (reached: bool)
      requires Square(g, |g|) && forall i :: 0 <= i < |ps| ==> 0 <= ps[i].x < |g| && 0 <= ps[i].y < |g|
      ensures reached <==> forall i :: 0 <= i < |ps| ==> g[ps[i].x][ps[i].y] in visited
    {
      reached := true;
      for i := 0 to |ps|
        invariant reached <==> forall j :: 0 <= j < i ==> g[ps[j].x][ps[j].y] in visited
      {
        var pipe := g[ps[i].x][ps[i].y];
        reached := pipe in visited;
        if !reached {
          break;
        }
      }
    }

    /** Update: once every flow has finished, the win check runs once and
        the end game menu pauses the game. The game is won when the Water
        ends are reached, and then the Lava ends; a liquid without starts or
        without ends is not checked. */
    method Update(ld: LD.LevelData, flags: LD.GameFlags)
      requires flowsStarted && AllTrue(flowsFinished) ==>
        && ld.gamePieces.Some? && Square(ld.gamePieces.value, |ld.gamePieces.value|)
        && OnBoard(ld.ends, |ld.gamePieces.value|)
      modifies this`flowsStarted, this`isWon, flags`gameIsPaused
      ensures old(flowsStarted && AllTrue(flowsFinished)) ==>
        && !flowsStarted && flags.gameIsPaused
        && isWon == Won(ld.gamePieces.value, ld.starts, ld.ends, visited)
      ensures !old(flowsStarted && AllTrue(flowsFinished)) ==>
        flowsStarted == old(flowsStarted) && isWon == old(isWon) && flags.gameIsPaused == old(flags.gameIsPaused)
    {
      if flowsStarted && AllTrue(flowsFinished) {
        flowsStarted := false;
        var g := ld.gamePieces.value;
        var waterAtStart, lavaAtStart := Water in ld.starts, Lava in ld.starts;
        isWon := true;
        if waterAtStart && Water in ld.ends {
          isWon := EndsReached(g, ld.ends[Water]);
        }
        if isWon && lavaAtStart && Lava in ld.ends {
          isWon := EndsReached(g, ld.ends[Lava]);
        }
        // ShowEndGameMenu
        flags.gameIsPaused := true;
      }
    }
  }
}
