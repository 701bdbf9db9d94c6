/**
 * utils/pathfinding.js: A* search over integer block positions with
 * six-neighbour moves, a Manhattan-distance heuristic and walkability tests
 * built from fixed block-name lists. Nodes are kept in an arena (a sequence);
 * a node's parent link is an index into it.
 */
module Pathfinding {
  import opened Wrappers

  datatype Pos = Pos(x: int, y: int, z: int)

  /** An entity position, before flooring. */
  datatype Vec = Vec(x: real, y: real, z: real)

  /** `position.floored()` */
  function Floored(v: Vec): Pos {
    Pos(v.x.Floor, v.y.Floor, v.z.Floor)
  }

  /** The world as the search sees it: the name of the block at a position, if one is loaded. */
  type World = Pos -> Option<string>

  function Offset(p: Pos, dx: int, dy: int, dz: int): Pos {
    Pos(p.x + dx, p.y + dy, p.z + dz)
  }

  function Abs(n: int): nat {
    if n < 0 then -n else n
  }

  // ---------------------------------------------------------------------------
  // Heuristic and neighbours

  /** `heuristic(a, b)`: the Manhattan distance. */
  function Manhattan(a: Pos, b: Pos): (d: nat)
  {
    Abs(a.x - b.x) + Abs(a.y - b.y) + Abs(a.z - b.z)
  }

  lemma ManhattanMetric(a: Pos, b: Pos, c: Pos)
    ensures Manhattan(a, b) == Manhattan(b, a)
    ensures Manhattan(a, b) == 0 <==> a == b
    ensures Manhattan(a, c) <= Manhattan(a, b) + Manhattan(b, c)
  {
  }

  predicate Adjacent(a: Pos, b: Pos) {
    Manhattan(a, b) == 1
  }

  /** `getNeighbors(p)`: +x, -x, +z, -z, up, down, in that order. */
  function Neighbors(p: Pos): (r: seq<Pos>)
    ensures |r| == 6
    ensures forall i :: 0 <= i < 6 ==> Adjacent(p, r[i])
  {
    [Offset(p, 1, 0, 0), Offset(p, -1, 0, 0), Offset(p, 0, 0, 1),
     Offset(p, 0, 0, -1), Offset(p, 0, 1, 0), Offset(p, 0, -1, 0)]
  }

  /** The neighbours are exactly the positions at Manhattan distance 1, each listed once. */
  lemma NeighborsExact(p: Pos, q: Pos)
    ensures q in Neighbors(p) <==> Adjacent(p, q)
    ensures forall i, j :: 0 <= i < j < 6 ==> Neighbors(p)[i] != Neighbors(p)[j]
  {
    if Adjacent(p, q) {
      var n := Neighbors(p);
      if q.x != p.x {
        assert q == n[0] || q == n[1];
      } else if q.z != p.z {
        assert q == n[2] || q == n[3];
      } else {
        assert q == n[4] || q == n[5];
      }
    }
  }

  // ---------------------------------------------------------------------------
  // Block classes

  const PassableNames: seq<string> := [
    "air", "grass", "tall_grass", "fern", "large_fern", "dandelion", "poppy", "blue_orchid",
    "allium", "azure_bluet", "red_tulip", "orange_tulip", "white_tulip", "pink_tulip",
    "oxeye_daisy", "cornflower", "lily_of_the_valley", "water", "flowing_water", "seagrass",
    "tall_seagrass", "kelp", "kelp_plant"]

  const NonSolidNames: seq<string> := [
    "air", "water", "flowing_water", "lava", "flowing_lava", "grass", "tall_grass", "fern", "large_fern"]

  const DangerousNames: seq<string> := [
    "lava", "flowing_lava", "fire", "magma_block", "sweet_berry_bush", "cactus", "wither_rose"]

  /** `isPassable`: no block at all counts as passable. */
  predicate IsPassable(block: Option<string>) {
    block.None? || block.value in PassableNames
  }

  predicate IsSolid(block: Option<string>) {
    block.Some? && block.value !in NonSolidNames
  }

  predicate IsDangerous(block: Option<string>) {
    block.Some? && block.value in DangerousNames
  }

  /** No passable block is dangerous, and nothing dangerous is passable. */
  lemma PassableNeverDangerous(block: Option<string>)
    ensures IsPassable(block) ==> !IsDangerous(block)
  {
    if block.Some? && block.value in PassableNames {
      assert forall i, j :: 0 <= i < |PassableNames| && 0 <= j < |DangerousNames| ==> PassableNames[i] != DangerousNames[j];
    }
  }

  /**
   * `isWalkable(p)`: the block at p and the block above are absent or
   * passable, the block below is present and solid, and neither the block
   * nor the block below is dangerous.
   */
  predicate IsWalkable(world: World, p: Pos) {
    var block, above, below := world(p), world(Offset(p, 0, 1, 0)), world(Offset(p, 0, -1, 0));
    && !(block.Some? && !IsPassable(block))
    && !(above.Some? && !IsPassable(above))
    && !(below.None? || !IsSolid(below))
    && !(IsDangerous(block) || IsDangerous(below))
  }

  /**
   * Walkability in plain terms; the danger test of the block itself never
   * decides anything, since a passable block is never dangerous.
   */
  lemma WalkableMeans(world: World, p: Pos)
    ensures IsWalkable(world, p) <==>
      && IsPassable(world(p)) && IsPassable(world(Offset(p, 0, 1, 0)))
      && IsSolid(world(Offset(p, 0, -1, 0))) && !IsDangerous(world(Offset(p, 0, -1, 0)))
  {
    PassableNeverDangerous(world(p));
  }

  // ---------------------------------------------------------------------------
  // The search arena

  datatype Node = Node(pos: Pos, f: int, g: nat, h: nat, parent: Option<nat>)

  /** Every parent link points to an earlier node, and only the first node has none. */
  predicate LinksBackward(nodes: seq<Node>) {
    forall i | 0 <= i < |nodes| :: if i == 0 then nodes[i].parent.None? else nodes[i].parent.Some? && nodes[i].parent.value < i
  }

  /** Node `i` is one step from its parent, walkable, and within the distance budget. */
  predicate NodeOk(nodes: seq<Node>, i: nat, world: World, start: Pos, maxDistance: nat)
    requires i < |nodes| && LinksBackward(nodes)
  {
    && nodes[i].g <= maxDistance
    && Manhattan(start, nodes[i].pos) <= nodes[i].g
    && (i > 0 ==>
         var p := nodes[i].parent.value;
         && Adjacent(nodes[p].pos, nodes[i].pos)
         && nodes[i].g == nodes[p].g + 1
         && IsWalkable(world, nodes[i].pos))
  }

  predicate ArenaOk(nodes: seq<Node>, world: World, start: Pos, maxDistance: nat) {
    && |nodes| > 0 && nodes[0].pos == start && nodes[0].g == 0
    && LinksBackward(nodes)
    && forall i | 0 <= i < |nodes| :: NodeOk(nodes, i, world, start, maxDistance)
  }

  /** The positions from the root to node `k` along parent links. */
  function Chain(nodes: seq<Node>, k: nat): (c: seq<Pos>)
    requires k < |nodes| && LinksBackward(nodes)
    ensures 0 < |c| && c[|c| - 1] == nodes[k].pos
    decreases k
  {
    if k == 0 then [nodes[0].pos] else Chain(nodes, nodes[k].parent.value) + [nodes[k].pos]
  }

  /**
   * A chain in a well-formed arena starts at the start position, ends at its
   * node, moves between neighbours, stays on walkable positions after the
   * first, and has exactly g + 1 positions.
   */
  lemma {:induction false} ChainIsPath(nodes: seq<Node>, k: nat, world: World, start: Pos, maxDistance: nat)
    requires k < |nodes| && ArenaOk(nodes, world, start, maxDistance)
    ensures var c := Chain(nodes, k);
      && c[0] == start && |c| == nodes[k].g + 1 && |c| <= maxDistance + 1
      && (forall i :: 0 <= i < |c| - 1 ==> Adjacent(c[i], c[i + 1]))
      && (forall i :: 1 <= i < |c| ==> IsWalkable(world, c[i]))
    decreases k
  {
    assert NodeOk(nodes, k, world, start, maxDistance);
    if k > 0 {
      var p := nodes[k].parent.value;
      ChainIsPath(nodes, p, world, start, maxDistance);
      var c, cp := Chain(nodes, k), Chain(nodes, p);
      assert c == cp + [nodes[k].pos];
      forall i | 0 <= i < |c| - 1
        ensures Adjacent(c[i], c[i + 1])
      {
        if i < |cp| - 1 {
          assert c[i] == cp[i] && c[i + 1] == cp[i + 1];
        } else {
          assert c[i] == nodes[p].pos;
        }
      }
      forall i | 1 <= i < |c|
        ensures IsWalkable(world, c[i])
      {
        if i < |cp| {
          assert c[i] == cp[i];
        }
      }
    }
  }

  /** `reconstructPath(node)`: follow parent links, prepending each position. */
  method ReconstructPath(nodes: seq<Node>, k: nat) returns (path: seq<Pos>)
    requires k < |nodes| && LinksBackward(nodes)
    ensures path == Chain(nodes, k)
  {
    path := [];
    var current: Option<nat> := Some(k);
    while current.Some?
      invariant current.Some? ==> current.value < |nodes|
      invariant Chain(nodes, k) == (if current.Some? then Chain(nodes, current.value) else []) + path
      decreases if current.Some? then current.value + 1 else 0
    {
      var i := current.value;
      path := [nodes[i].pos] + path;
      current := nodes[i].parent;
    }
  }

  /** Positions within `radius` of `c` on every axis: a finite superset of the search's reach. */
  function Box(c: Pos, radius: nat): set<Pos> {
    set x: int, y: int, z: int
      | c.x - radius <= x <= c.x + radius && c.y - radius <= y <= c.y + radius && c.z - radius <= z <= c.z + radius
      :: Pos(x, y, z)
  }

  lemma InBox(c: Pos, radius: nat, p: Pos)
    requires Manhattan(c, p) <= radius
    ensures p in Box(c, radius)
  {
    assert p == Pos(p.x, p.y, p.z);
  }

  /**
   * `openSet.sort((a, b) => a.f - b.f); openSet.shift()`: with a stable sort
   * and entries appended in insertion order, the entry taken is the first one
   * with the smallest f.
   */
  method LowestF(nodes: seq<Node>, open: seq<nat>) returns (m: nat)
    requires 0 < |open| && forall j :: 0 <= j < |open| ==> open[j] < |nodes|
    ensures m < |open|
    ensures forall j :: 0 <= j < |open| ==> nodes[open[m]].f <= nodes[open[j]].f
    ensures forall j :: 0 <= j < m ==> nodes[open[m]].f < nodes[open[j]].f
  {
    m := 0;
    var j := 1;
    while j < |open|
      invariant m < j <= |open|
      invariant forall i :: 0 <= i < j ==> nodes[open[m]].f <= nodes[open[i]].f
      invariant forall i :: 0 <= i < m ==> nodes[open[m]].f < nodes[open[i]].f
    {
      if nodes[open[j]].f < nodes[open[m]].f {
        m := j;
      }
      j := j + 1;
    }
  }

  /** What a returned path guarantees: it starts and ends where asked, moves between neighbours over walkable positions, and fits the budget. */
  predicate IsSafePath(world: World, path: seq<Pos>, start: Pos, target: Pos, maxDistance: nat) {
    && 0 < |path| <= maxDistance + 1
    && path[0] == start && path[|path| - 1] == target
    && (forall i :: 0 <= i < |path| - 1 ==> Adjacent(path[i], path[i + 1]))
    && (forall i :: 1 <= i < |path| ==> IsWalkable(world, path[i]))
  }

  /**
   * `findSafePath(target, maxDistance)` from the bot's position. A returned
   * path runs from the floored start to the floored target through
   * neighbouring walkable positions in at most `maxDistance` steps; the loop
   * terminates because every expansion closes a new position of a bounded box.
   */
  method FindSafePath(world: World, from: Vec, to: Vec, maxDistance: nat) returns (path: Option<seq<Pos>>)
    ensures path.Some? ==> IsSafePath(world, path.value, Floored(from), Floored(to), maxDistance)
  {
    var start, target := Floored(from), Floored(to);
    var nodes := [Node(start, 0, 0, Manhattan(start, target), None)];
    var open: seq<nat> := [0];
    var closed: set<Pos> := {};
    var visited: map<Pos, nat> := map[];
    ghost var box := Box(start, maxDistance);
    while 0 < |open|
      invariant ArenaOk(nodes, world, start, maxDistance)
      invariant forall j :: 0 <= j < |open| ==> open[j] < |nodes|
      invariant forall q :: q in visited ==> visited[q] < |nodes|
      invariant closed <= box
      decreases box - closed, |open|
    {
      var m := LowestF(nodes, open);
      var current := open[m];
      open := open[..m] + open[m + 1..];
      var node := nodes[current];
      if node.pos in closed {
        continue;
      }
      assert NodeOk(nodes, current, world, start, maxDistance);
      InBox(start, maxDistance, node.pos);
      closed := closed + {node.pos};
      if node.pos == target {
        var p := ReconstructPath(nodes, current);
        ChainIsPath(nodes, current, world, start, maxDistance);
        return Some(p);
      }
      var neighbors := Neighbors(node.pos);
      var d := 0;
      while d < 6
        invariant d <= 6
        invariant ArenaOk(nodes, world, start, maxDistance)
        invariant current < |nodes| && nodes[current] == node
        invariant forall j :: 0 <= j < |open| ==> open[j] < |nodes|
        invariant forall q :: q in visited ==> visited[q] < |nodes|
      {
        var neighbor := neighbors[d];
        if neighbor !in closed && IsWalkable(world, neighbor) {
          var g := node.g + 1;
          if g <= maxDistance {
            var h := Manhattan(neighbor, target);
            if neighbor !in visited || g < nodes[visited[neighbor]].g {
              ManhattanMetric(start, node.pos, neighbor);
              var added := Node(neighbor, g + h, g, h, Some(current));
              AppendKeepsArena(nodes, added, world, start, maxDistance);
              nodes := nodes + [added];
              visited := visited[neighbor := |nodes| - 1];
              open := open + [|nodes| - 1];
            }
          }
        }
        d := d + 1;
      }
    }
    return None;
  }

  lemma AppendKeepsArena(nodes: seq<Node>, added: Node, world: World, start: Pos, maxDistance: nat)
    requires ArenaOk(nodes, world, start, maxDistance)
    requires added.parent.Some? && added.parent.value < |nodes|
    requires Adjacent(nodes[added.parent.value].pos, added.pos)
    requires added.g == nodes[added.parent.value].g + 1 <= maxDistance
    requires Manhattan(start, added.pos) <= added.g
    requires IsWalkable(world, added.pos)
    ensures ArenaOk(nodes + [added], world, start, maxDistance)
  {
    var n := nodes + [added];
    assert LinksBackward(n);
    forall i | 0 <= i < |n|
      ensures NodeOk(n, i, world, start, maxDistance)
    {
      if i < |nodes| {
        assert NodeOk(nodes, i, world, start, maxDistance);
      }
    }
  }
}
