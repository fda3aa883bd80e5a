/** The footpath graph (MapPathing): one node per path element of the map, an index from
    a spatial hash to nodes, cost-1 direct edges between adjacent path elements that
    connect at matching heights, and indirect edges from the queues of transport rides to
    the paths outside their other stations' exits.

    Nodes refer to each other by their position in the node list, where the source keeps
    pointers into the same list. */
module MapPathing {
  import opened GameActions

  /** Height units per z step, tile size, stations per ride and tiles per map side. The
      first three are defined in headers that are not part of this model. */
  const COORDS_Z_STEP: int := 8
  const COORDS_XY_STEP: int := 32
  const MAX_STATIONS: int := 4
  const MAP_TILES: int := 256

  newtype Direction = d: int | 0 <= d < 4

  /** direction_reverse. */
  function Reverse(d: Direction): (r: Direction)
    ensures r != d
  {
    ((d as int + 2) % 4) as Direction
  }

  /** CoordsDirectionDelta for the four cardinal directions. */
  function Delta(d: Direction): (r: (int, int))
    ensures Abs(r.0) + Abs(r.1) == COORDS_XY_STEP
  {
    if d == 0 then (-32, 0) else if d == 1 then (0, 32) else if d == 2 then (32, 0) else (0, -32)
  }

  /** Reversing twice is the identity, and the reverse direction steps back. */
  lemma {:induction false} ReverseInverse(d: Direction)
    ensures Reverse(Reverse(d)) == d
    ensures Delta(Reverse(d)) == (-Delta(d).0, -Delta(d).1)
  {
  }

  /** A footpath element. `edges` is the four-bit edge mask GetEdges returns;
      `rideIndex` is None for RIDE_ID_NULL. */
  datatype PathElement = PathElement(
    sloped: bool, slopeDirection: Direction, edges: bv4, isQueue: bool,
    rideIndex: Option<int>, stationIndex: int)

  datatype TileElement =
    | PathTile(baseZ: int, isGhost: bool, path: PathElement)
    | OtherTile(baseZ: int, isGhost: bool)

  /** A station exit: its position (TileCoordsXYZD::ToCoordsXYZ) and the direction it faces. */
  datatype StationExit = StationExit(loc: CoordsXYZ, direction: Direction)

  /** What the graph needs of a ride: the transport-ride flag of its type and its station
      exits (None for a null exit). */
  datatype RideInfo = RideInfo(isTransport: bool, exits: int -> Option<StationExit>)

  /** The map: the tiles in the order the tile element iterator visits them, the elements
      of each tile (a missing tile has none) and the ride table (None where get_ride finds
      no ride). */
  datatype World = World(order: seq<(int, int)>, tiles: map<(int, int), seq<TileElement>>, rides: int -> Option<RideInfo>)

  datatype Connection = Connection(cost: int, node: nat)

  datatype Node = Node(loc: CoordsXYZ, direct: seq<Connection>, indirect: seq<Connection>, element: PathElement)

  function ElementsAt(w: World, t: (int, int)): seq<TileElement>
  {
    if t in w.tiles then w.tiles[t] else []
  }

  // ---------------------------------------------------------------------------
  // Hashing

  /** GetHash as written: x tile · STEP · 32 + y tile · STEP + z step. */
  function GetHash(loc: CoordsXYZ): (h: int)
    ensures InMap(loc) ==> 0 <= h < MAP_TILES * COORDS_Z_STEP * 32 + MAP_TILES * COORDS_Z_STEP + 256
  {
    TruncDiv(loc.x, 32) * COORDS_Z_STEP * 32 + TruncDiv(loc.y, 32) * COORDS_Z_STEP + TruncDiv(loc.z, COORDS_Z_STEP)
  }

  /** A position on the map: both tile coordinates below MAP_TILES and z a base height
      that fits the element's height byte. */
  predicate InMap(loc: CoordsXYZ)
  {
    0 <= loc.x < MAP_TILES * 32 && 0 <= loc.y < MAP_TILES * 32 && 0 <= loc.z < 256 * COORDS_Z_STEP
  }

  /** Two positions in the same tile at the same z step. */
  predicate SameSite(a: CoordsXYZ, b: CoordsXYZ)
  {
    a.x / 32 == b.x / 32 && a.y / 32 == b.y / 32 && a.z / COORDS_Z_STEP == b.z / COORDS_Z_STEP
  }

  /** Two positions in the same tile at the same z step get the same as-written hash. */
  lemma {:induction false} GetHashSameSite(a: CoordsXYZ, b: CoordsXYZ)
    requires InMap(a) && InMap(b) && SameSite(a, b)
    ensures GetHash(a) == GetHash(b)
  {
  }

  /** The converse fails: the as-written hash gives the same key to paths on two adjacent
      tiles, tile (10, 11) at z step 10 and tile (10, 10) at z step 18, and to the first
      tile of one x column and y tile 32 of the column before it. */
  lemma {:induction false} GetHashCollides()
    ensures InMap(CoordsXYZ(320, 352, 80)) && InMap(CoordsXYZ(320, 320, 144))
    ensures !SameSite(CoordsXYZ(320, 352, 80), CoordsXYZ(320, 320, 144))
    ensures GetHash(CoordsXYZ(320, 352, 80)) == GetHash(CoordsXYZ(320, 320, 144))
    ensures InMap(CoordsXYZ(0, 1024, 0)) && !SameSite(CoordsXYZ(32, 0, 0), CoordsXYZ(0, 1024, 0))
    ensures GetHash(CoordsXYZ(32, 0, 0)) == GetHash(CoordsXYZ(0, 1024, 0))
  {
  }

  /** The intended hash: x tile, y tile and z step as three base-256 digits. */
  function NodeHash(loc: CoordsXYZ): (h: int)
    ensures InMap(loc) ==> 0 <= h < MAP_TILES * MAP_TILES * 256
  {
    (TruncDiv(loc.x, 32) * MAP_TILES + TruncDiv(loc.y, 32)) * 256 + TruncDiv(loc.z, COORDS_Z_STEP)
  }

  lemma {:induction false} DigitsUnique(q1: int, r1: int, q2: int, r2: int)
    requires 0 <= r1 < 256 && 0 <= r2 < 256
    requires q1 * 256 + r1 == q2 * 256 + r2
    ensures q1 == q2 && r1 == r2
  {
  }

  /** On the map the intended hash identifies exactly a tile and a z step. */
  lemma {:induction false} NodeHashIdentifiesSite(a: CoordsXYZ, b: CoordsXYZ)
    requires InMap(a) && InMap(b)
    ensures NodeHash(a) == NodeHash(b) <==> SameSite(a, b)
  {
    if NodeHash(a) == NodeHash(b) {
      DigitsUnique(a.x / 32 * MAP_TILES + a.y / 32, a.z / COORDS_Z_STEP, b.x / 32 * MAP_TILES + b.y / 32, b.z / COORDS_Z_STEP);
      DigitsUnique(a.x / 32, a.y / 32, b.x / 32, b.y / 32);
    }
  }

  /** Which hash the graph is indexed by: GetHash as written, or the intended one. */
  datatype HashKind = AsWritten | Intended

  function Hash(hk: HashKind, loc: CoordsXYZ): int
  {
    match hk
    case AsWritten => GetHash(loc)
    case Intended => NodeHash(loc)
  }

  // ---------------------------------------------------------------------------
  // ResetNodes

  /** The node for a path element found on tile t. */
  function NewNode(t: (int, int), z: int, p: PathElement): Node
  {
    Node(CoordsXYZ(t.0 * 32, t.1 * 32, z), [], [], p)
  }

  function PathCount(els: seq<TileElement>): nat
  {
    if |els| == 0 then 0 else PathCount(els[..|els| - 1]) + (if els[|els| - 1].PathTile? then 1 else 0)
  }

  /** The nodes of one tile, in element order: one per path element, unconnected. */
  function TileNodes(t: (int, int), els: seq<TileElement>): (r: seq<Node>)
    ensures |r| == PathCount(els)
    ensures forall i :: 0 <= i < |r| ==> r[i].direct == [] && r[i].indirect == [] && r[i].loc.x == t.0 * 32 && r[i].loc.y == t.1 * 32
  {
    if |els| == 0 then []
    else
      TileNodes(t, els[..|els| - 1])
      + (match els[|els| - 1]
         case PathTile(z, _, p) => [NewNode(t, z, p)]
         case OtherTile(_, _) => [])
  }

  /** The nodes of the first n tiles in iteration order. */
  function WorldNodes(w: World, n: nat): (r: seq<Node>)
    requires n <= |w.order|
    ensures forall i :: 0 <= i < |r| ==> r[i].direct == [] && r[i].indirect == []
  {
    if n == 0 then [] else WorldNodes(w, n - 1) + TileNodes(w.order[n - 1], ElementsAt(w, w.order[n - 1]))
  }

  /** The hash of every node, in node order. */
  function Keys(hk: HashKind, nodes: seq<Node>): (r: seq<int>)
    ensures |r| == |nodes| && forall i :: 0 <= i < |nodes| ==> r[i] == Hash(hk, nodes[i].loc)
  {
    seq(|nodes|, i requires 0 <= i < |nodes| => Hash(hk, nodes[i].loc))
  }

  /** The index over the first n keys, each position entered in turn. */
  function HashIndex(keys: seq<int>, n: nat): map<int, nat>
    requires n <= |keys|
  {
    if n == 0 then map[] else HashIndex(keys, n - 1)[keys[n - 1] := n - 1]
  }

  /** Every one of the first n keys is in the index, and each maps to the last position
      holding it. */
  lemma {:induction false} HashIndexLastWins(keys: seq<int>, n: nat)
    requires n <= |keys|
    ensures forall i :: 0 <= i < n ==> keys[i] in HashIndex(keys, n)
    ensures forall h :: h in HashIndex(keys, n) ==>
      var k := HashIndex(keys, n)[h];
      k < n && keys[k] == h && forall j :: k < j < n ==> keys[j] != h
  {
    if n > 0 {
      HashIndexLastWins(keys, n - 1);
      var prev, idx := HashIndex(keys, n - 1), HashIndex(keys, n);
      forall h | h in idx
        ensures idx[h] < n && keys[idx[h]] == h
        ensures forall j :: idx[h] < j < n ==> keys[j] != h
      {
        if h != keys[n - 1] {
          assert h in prev && idx[h] == prev[h];
        }
      }
    }
  }

  /** The index refers to nodes whose hash is the key. */
  predicate IndexValid(hk: HashKind, nodes: seq<Node>, index: map<int, nat>)
  {
    forall h :: h in index ==> index[h] < |nodes| && Hash(hk, nodes[index[h]].loc) == h
  }

  /** Node i is the one the index holds for its hash. */
  predicate Mapped(hk: HashKind, nodes: seq<Node>, index: map<int, nat>, i: nat)
    requires i < |nodes|
  {
    Hash(hk, nodes[i].loc) in index && index[Hash(hk, nodes[i].loc)] == i
  }

  // ---------------------------------------------------------------------------
  // Neighbours along a path

  /** is_valid_path_z_and_direction for a path element with base height baseZ, entered
      at height z travelling in direction d. */
  predicate ValidPathZ(p: PathElement, baseZ: int, z: int, d: Direction): (ok: bool)
    ensures !p.sloped ==> (ok <==> z == baseZ)
    ensures p.sloped ==> (ok <==> (p.slopeDirection == d && z == baseZ)
                                  || (p.slopeDirection == Reverse(d) && z == baseZ + 2 * COORDS_Z_STEP))
  {
    if p.sloped then
      if p.slopeDirection == d then z == baseZ
      else Reverse(p.slopeDirection) == d && z == baseZ + 2 * COORDS_Z_STEP
    else z == baseZ
  }

  /** The height a path leaves its tile at in direction d: two steps up when it slopes up
      that way. */
  function ExitZ(loc: CoordsXYZ, p: PathElement, d: Direction): int
  {
    loc.z + (if p.sloped && p.slopeDirection == d then 2 * COORDS_Z_STEP else 0)
  }

  /** Along the axis of its slope a path connects both ways: if the path at height b on
      the next tile accepts a walker leaving the path at height a in direction d, the path
      at a accepts a walker coming back, and conversely. */
  lemma {:induction false} PathStepSymmetric(a: int, pa: PathElement, b: int, pb: PathElement, d: Direction)
    requires !pa.sloped || pa.slopeDirection == d || pa.slopeDirection == Reverse(d)
    requires !pb.sloped || pb.slopeDirection == d || pb.slopeDirection == Reverse(d)
    ensures ValidPathZ(pb, b, ExitZ(CoordsXYZ(0, 0, a), pa, d), d)
        <==> ValidPathZ(pa, a, ExitZ(CoordsXYZ(0, 0, b), pb, Reverse(d)), Reverse(d))
  {
  }

  predicate Matches(e: TileElement, z: int, d: Direction)
  {
    !e.isGhost && e.PathTile? && ValidPathZ(e.path, e.baseZ, z, d)
  }

  /** The first element of a tile that is a non-ghost path valid at height z for
      direction d. */
  function FirstMatch(els: seq<TileElement>, z: int, d: Direction): (r: Option<nat>)
    ensures r.Some? ==> r.value < |els|
  {
    if |els| == 0 then None
    else if Matches(els[0], z, d) then Some(0)
    else match FirstMatch(els[1..], z, d)
      case None => None
      case Some(k) => Some(k + 1)
  }

  /** FirstMatch finds the first matching element, and finds none only when no element
      matches. */
  lemma {:induction false} FirstMatchIsFirst(els: seq<TileElement>, z: int, d: Direction)
    ensures var r := FirstMatch(els, z, d);
      (r.Some? ==> r.value < |els| && Matches(els[r.value], z, d)
                   && forall k :: 0 <= k < r.value ==> !Matches(els[k], z, d))
      && (r.None? ==> forall k :: 0 <= k < |els| ==> !Matches(els[k], z, d))
  {
    if |els| > 0 && !Matches(els[0], z, d) {
      FirstMatchIsFirst(els[1..], z, d);
      var r := FirstMatch(els[1..], z, d);
      if r.Some? {
        forall k | 0 <= k < r.value + 1
          ensures !Matches(els[k], z, d)
        {
          if k > 0 {
            assert els[k] == els[1..][k - 1];
          }
        }
      } else {
        forall k | 0 <= k < |els|
          ensures !Matches(els[k], z, d)
        {
          if k > 0 {
            assert els[k] == els[1..][k - 1];
          }
        }
      }
    }
  }

  /** The position a walker reaches leaving a node in direction d. */
  function Target(loc: CoordsXYZ, p: PathElement, d: Direction): CoordsXYZ
  {
    CoordsXYZ(loc.x + Delta(d).0, loc.y + Delta(d).1, ExitZ(loc, p, d))
  }

  function TileOf(c: CoordsXYZ): (int, int)
  {
    (TruncDiv(c.x, 32), TruncDiv(c.y, 32))
  }

  /** footpath_element_next_in_direction: the node of the first matching path element on
      the next tile, found through the index. A match whose hash has no node gives no
      neighbour. */
  function NextSpec(hk: HashKind, w: World, index: map<int, nat>, loc: CoordsXYZ, p: PathElement, d: Direction): (r: Option<nat>)
    ensures r.Some? ==> r.value in index.Values
    ensures FirstMatch(ElementsAt(w, TileOf(Target(loc, p, d))), Target(loc, p, d).z, d).None? ==> r.None?
  {
    var tgt := Target(loc, p, d);
    var els := ElementsAt(w, TileOf(tgt));
    match FirstMatch(els, tgt.z, d)
    case None => None
    case Some(k) =>
      var h := Hash(hk, CoordsXYZ(tgt.x, tgt.y, els[k].baseZ));
      if h in index then Some(index[h]) else None
  }

  /** The neighbour lies on the tile one step in the travel direction, at the z step of
      the first path element there that accepts the walker. */
  lemma {:induction false} NeighbourIsAdjacent(hk: HashKind, w: World, nodes: seq<Node>, index: map<int, nat>, loc: CoordsXYZ, p: PathElement, d: Direction)
    requires IndexValid(hk, nodes, index)
    requires NextSpec(hk, w, index, loc, p, d).Some?
    ensures var j := NextSpec(hk, w, index, loc, p, d).value;
      var tgt := Target(loc, p, d);
      var els := ElementsAt(w, TileOf(tgt));
      var k := FirstMatch(els, tgt.z, d).value;
      j < |nodes| && Hash(hk, nodes[j].loc) == Hash(hk, CoordsXYZ(tgt.x, tgt.y, els[k].baseZ))
      && (hk == Intended && InMap(nodes[j].loc) && InMap(CoordsXYZ(tgt.x, tgt.y, els[k].baseZ)) ==>
            SameSite(nodes[j].loc, CoordsXYZ(tgt.x, tgt.y, els[k].baseZ)))
  {
    var j := NextSpec(hk, w, index, loc, p, d).value;
    var tgt := Target(loc, p, d);
    var els := ElementsAt(w, TileOf(tgt));
    FirstMatchIsFirst(els, tgt.z, d);
    var k := FirstMatch(els, tgt.z, d).value;
    var site := CoordsXYZ(tgt.x, tgt.y, els[k].baseZ);
    if hk == Intended && InMap(nodes[j].loc) && InMap(site) {
      NodeHashIdentifiesSite(nodes[j].loc, site);
    }
  }

  // ---------------------------------------------------------------------------
  // Direct and indirect connections

  predicate Bit(e: bv4, d: int)
    requires 0 <= d < 4
  {
    (e >> d) & 1 == 1
  }

  function PopCount(e: bv4): nat
  {
    (if Bit(e, 0) then 1 else 0) + (if Bit(e, 1) then 1 else 0) + (if Bit(e, 2) then 1 else 0) + (if Bit(e, 3) then 1 else 0)
  }

  /** bitscanforward: the lowest set bit, or -1 for none. */
  function BitScanForward(e: bv4): (r: int)
    ensures e == 0 <==> r == -1
    ensures e != 0 ==> 0 <= r < 4 && Bit(e, r) && forall j :: 0 <= j < r ==> !Bit(e, j)
  {
    if Bit(e, 0) then 0 else if Bit(e, 1) then 1 else if Bit(e, 2) then 2 else if Bit(e, 3) then 3 else -1
  }

  /** The direct connection for one edge, if the walk that way finds a node. */
  function EdgeConnection(hk: HashKind, w: World, index: map<int, nat>, loc: CoordsXYZ, p: PathElement, d: Direction): seq<Connection>
  {
    match NextSpec(hk, w, index, loc, p, d)
    case None => []
    case Some(j) => [Connection(1, j)]
  }

  /** The connections of the set bits of e, lowest bit first, taking the connection of
      direction d from links[d]. */
  function Masked(e: bv4, links: seq<seq<Connection>>): seq<Connection>
    requires |links| == 4
  {
    (if Bit(e, 0) then links[0] else []) + (if Bit(e, 1) then links[1] else [])
    + (if Bit(e, 2) then links[2] else []) + (if Bit(e, 3) then links[3] else [])
  }

  /** The edge mask with bit k cleared. */
  function ClearBit(e: bv4, k: int): (r: bv4)
    requires 0 <= k < 4
    ensures !Bit(r, k)
    ensures forall j :: 0 <= j < 4 && j != k ==> Bit(r, j) == Bit(e, j)
  {
    e & !(1 << k)
  }

  /** Clearing the lowest set bit takes its part off the front. */
  lemma {:induction false} MaskedLowestBit(e: bv4, links: seq<seq<Connection>>)
    requires e != 0 && |links| == 4
    ensures var k := BitScanForward(e);
      Masked(e, links) == links[k] + Masked(ClearBit(e, k), links)
      && PopCount(ClearBit(e, k)) < PopCount(e)
  {
    var k := BitScanForward(e);
    var e' := ClearBit(e, k);
    if k == 0 {
      assert !Bit(e', 0) && Bit(e', 1) == Bit(e, 1) && Bit(e', 2) == Bit(e, 2) && Bit(e', 3) == Bit(e, 3);
    } else if k == 1 {
      assert !Bit(e, 0) && !Bit(e', 0) && !Bit(e', 1) && Bit(e', 2) == Bit(e, 2) && Bit(e', 3) == Bit(e, 3);
    } else if k == 2 {
      assert !Bit(e, 0) && !Bit(e, 1) && !Bit(e', 0) && !Bit(e', 1) && !Bit(e', 2) && Bit(e', 3) == Bit(e, 3);
    } else {
      assert !Bit(e, 0) && !Bit(e, 1) && !Bit(e, 2) && !Bit(e', 0) && !Bit(e', 1) && !Bit(e', 2) && !Bit(e', 3);
    }
  }

  /** The connection each of the four walks would give. */
  function EdgeLinks(hk: HashKind, w: World, index: map<int, nat>, loc: CoordsXYZ, p: PathElement): (r: seq<seq<Connection>>)
    ensures |r| == 4
  {
    [EdgeConnection(hk, w, index, loc, p, 0), EdgeConnection(hk, w, index, loc, p, 1),
     EdgeConnection(hk, w, index, loc, p, 2), EdgeConnection(hk, w, index, loc, p, 3)]
  }

  /** The direct connections of a node over the edge bits e, lowest bit first. */
  function DirectOf(hk: HashKind, w: World, index: map<int, nat>, loc: CoordsXYZ, p: PathElement, e: bv4): seq<Connection>
  {
    Masked(e, EdgeLinks(hk, w, index, loc, p))
  }

  /** A node has at most one direct connection per open edge, each of cost 1, and each
      to the node its walk that way finds; a node with no open edge has none. */
  lemma {:induction false} DirectOfShape(hk: HashKind, w: World, index: map<int, nat>, loc: CoordsXYZ, p: PathElement, e: bv4)
    ensures |DirectOf(hk, w, index, loc, p, e)| <= PopCount(e)
    ensures forall c :: c in DirectOf(hk, w, index, loc, p, e) ==>
      (c.cost == 1 && exists d: Direction :: Bit(e, d as int) && NextSpec(hk, w, index, loc, p, d) == Some(c.node))
    ensures e == 0 ==> DirectOf(hk, w, index, loc, p, e) == []
  {
    var links := EdgeLinks(hk, w, index, loc, p);
    var r := DirectOf(hk, w, index, loc, p, e);
    forall c | c in r
      ensures c.cost == 1 && exists d: Direction :: Bit(e, d as int) && NextSpec(hk, w, index, loc, p, d) == Some(c.node)
    {
      if Bit(e, 0) && c in links[0] {
        assert Bit(e, 0) && NextSpec(hk, w, index, loc, p, 0) == Some(c.node);
      } else if Bit(e, 1) && c in links[1] {
        assert Bit(e, 1) && NextSpec(hk, w, index, loc, p, 1) == Some(c.node);
      } else if Bit(e, 2) && c in links[2] {
        assert Bit(e, 2) && NextSpec(hk, w, index, loc, p, 2) == Some(c.node);
      } else {
        assert Bit(e, 3) && c in links[3];
        assert NextSpec(hk, w, index, loc, p, 3) == Some(c.node);
      }
    }
  }

  /** Every connection an open edge's link holds is among the masked connections. */
  lemma {:induction false} MaskedHolds(e: bv4, links: seq<seq<Connection>>, d: Direction, c: Connection)
    requires |links| == 4 && Bit(e, d as int) && c in links[d]
    ensures c in Masked(e, links)
  {
    var m0 := if Bit(e, 0) then links[0] else [];
    var m1 := if Bit(e, 1) then links[1] else [];
    var m2 := if Bit(e, 2) then links[2] else [];
    var m3 := if Bit(e, 3) then links[3] else [];
    assert Masked(e, links) == m0 + m1 + m2 + m3;
    assert c in [m0, m1, m2, m3][d];
  }

  /** Conversely, every open edge whose walk finds a node contributes a cost-1 connection
      to that node. */
  lemma {:induction false} DirectOfComplete(hk: HashKind, w: World, index: map<int, nat>, loc: CoordsXYZ, p: PathElement, e: bv4, d: Direction)
    requires Bit(e, d as int) && NextSpec(hk, w, index, loc, p, d).Some?
    ensures Connection(1, NextSpec(hk, w, index, loc, p, d).value) in DirectOf(hk, w, index, loc, p, e)
  {
    var links := EdgeLinks(hk, w, index, loc, p);
    var c := Connection(1, NextSpec(hk, w, index, loc, p, d).value);
    assert links[d] == EdgeConnection(hk, w, index, loc, p, d) == [c];
    MaskedHolds(e, links, d, c);
  }

  /** The flat, non-ghost path p lies at loc as element k of its tile, and no earlier
      element of the tile accepts a walker arriving at that height in direction d. */
  predicate FirstPathAt(w: World, loc: CoordsXYZ, p: PathElement, d: Direction, k: nat)
  {
    var els := ElementsAt(w, TileOf(loc));
    k < |els| && els[k] == PathTile(loc.z, false, p) && !p.sloped
    && forall j :: 0 <= j < k ==> !Matches(els[j], loc.z, d)
  }

  /** A flat path walking in direction d onto a flat path at the same height on the
      next tile finds the node indexed for that path. */
  lemma {:induction false} WalkFindsNeighbour(hk: HashKind, w: World, index: map<int, nat>, locA: CoordsXYZ, pa: PathElement,
                                              locB: CoordsXYZ, pb: PathElement, kb: nat, d: Direction)
    requires !pa.sloped
    requires locB == CoordsXYZ(locA.x + Delta(d).0, locA.y + Delta(d).1, locA.z)
    requires FirstPathAt(w, locB, pb, d, kb)
    requires Hash(hk, locB) in index
    ensures NextSpec(hk, w, index, locA, pa, d) == Some(index[Hash(hk, locB)])
  {
    var els := ElementsAt(w, TileOf(locB));
    assert Target(locA, pa, d) == locB;
    assert Matches(els[kb], locB.z, d);
    FirstMatchIsFirst(els, locB.z, d);
  }

  /** Two flat paths on adjacent tiles at the same height, each open towards the other,
      get a cost-1 direct connection each way. */
  lemma {:induction false} AdjacentPathsConnect(hk: HashKind, w: World, index: map<int, nat>,
                                                locA: CoordsXYZ, pa: PathElement, ka: nat,
                                                locB: CoordsXYZ, pb: PathElement, kb: nat, d: Direction)
    requires Bit(pa.edges, d as int) && Bit(pb.edges, Reverse(d) as int)
    requires locB == CoordsXYZ(locA.x + Delta(d).0, locA.y + Delta(d).1, locA.z)
    requires FirstPathAt(w, locA, pa, Reverse(d), ka) && FirstPathAt(w, locB, pb, d, kb)
    requires Hash(hk, locA) in index && Hash(hk, locB) in index
    ensures Connection(1, index[Hash(hk, locB)]) in DirectOf(hk, w, index, locA, pa, pa.edges)
    ensures Connection(1, index[Hash(hk, locA)]) in DirectOf(hk, w, index, locB, pb, pb.edges)
  {
    WalkFindsNeighbour(hk, w, index, locA, pa, locB, pb, kb, d);
    DirectOfComplete(hk, w, index, locA, pa, pa.edges, d);
    ReverseInverse(d);
    WalkFindsNeighbour(hk, w, index, locB, pb, locA, pa, ka, Reverse(d));
    DirectOfComplete(hk, w, index, locB, pb, pb.edges, Reverse(d));
  }

  lemma {:induction false} ConcatAssoc(a: seq<Connection>, b: seq<Connection>, c: seq<Connection>)
    ensures a + b + c == a + (b + c)
  {
  }

  /** The cost of an indirect edge: the Manhattan distance divided by 50. */
  function IndirectCost(a: CoordsXYZ, b: CoordsXYZ): (c: int)
    ensures c >= 0
  {
    (Abs(a.x - b.x) + Abs(a.y - b.y) + Abs(a.z - b.z)) / 50
  }

  /** The indirect cost is the Manhattan distance in whole steps of 50, rounded down. */
  lemma IndirectCostBounds(a: CoordsXYZ, b: CoordsXYZ)
    ensures var c := IndirectCost(a, b);
      c * 50 <= Abs(a.x - b.x) + Abs(a.y - b.y) + Abs(a.z - b.z) < (c + 1) * 50
  {
  }

  /** A farther exit never costs less. */
  lemma {:induction false} IndirectCostMonotone(a: CoordsXYZ, b: CoordsXYZ, a2: CoordsXYZ, b2: CoordsXYZ)
    requires Abs(a.x - b.x) + Abs(a.y - b.y) + Abs(a.z - b.z) <= Abs(a2.x - b2.x) + Abs(a2.y - b2.y) + Abs(a2.z - b2.z)
    ensures IndirectCost(a, b) <= IndirectCost(a2, b2)
  {
    IndirectCostBounds(a, b);
    IndirectCostBounds(a2, b2);
  }

  /** The path tile just outside a station exit: one step against the way it faces. */
  function ExitPath(ex: StationExit): CoordsXYZ
  {
    var delta := Delta(Reverse(ex.direction));
    CoordsXYZ(ex.loc.x + delta.0, ex.loc.y + delta.1, ex.loc.z)
  }

  /** The indirect connection to station i's exit: none for the node's own station, a
      null exit, or a position with no node. */
  function StationLink(hk: HashKind, index: map<int, nat>, loc: CoordsXYZ, p: PathElement, ride: RideInfo, i: int): (r: seq<Connection>)
    ensures |r| <= 1
    ensures i == p.stationIndex || ride.exits(i).None? ==> r == []
    ensures r != [] ==>
      (ride.exits(i).Some? && Hash(hk, ExitPath(ride.exits(i).value)) in index
       && r[0] == Connection(IndirectCost(ExitPath(ride.exits(i).value), loc), index[Hash(hk, ExitPath(ride.exits(i).value))]))
  {
    if i == p.stationIndex then []
    else match ride.exits(i)
      case None => []
      case Some(ex) =>
        var target := ExitPath(ex);
        var h := Hash(hk, target);
        if h in index then [Connection(IndirectCost(target, loc), index[h])] else []
  }

  /** The indirect connections through the first n stations, in station order. */
  function StationLinks(hk: HashKind, index: map<int, nat>, loc: CoordsXYZ, p: PathElement, ride: RideInfo, n: nat): (r: seq<Connection>)
    ensures |r| <= n
  {
    if n == 0 then [] else StationLinks(hk, index, loc, p, ride, n - 1) + StationLink(hk, index, loc, p, ride, n - 1)
  }

  /** Every station link leads to an indexed node, at a cost that is never negative. */
  lemma {:induction false} StationLinksIndexed(hk: HashKind, index: map<int, nat>, loc: CoordsXYZ, p: PathElement, ride: RideInfo, n: nat)
    ensures forall k :: 0 <= k < |StationLinks(hk, index, loc, p, ride, n)| ==>
      StationLinks(hk, index, loc, p, ride, n)[k].cost >= 0 && StationLinks(hk, index, loc, p, ride, n)[k].node in index.Values
  {
    if n > 0 {
      StationLinksIndexed(hk, index, loc, p, ride, n - 1);
      var prev := StationLinks(hk, index, loc, p, ride, n - 1);
      var link := StationLink(hk, index, loc, p, ride, n - 1);
      var r := StationLinks(hk, index, loc, p, ride, n);
      assert r == prev + link;
      forall k | 0 <= k < |r|
        ensures r[k].cost >= 0 && r[k].node in index.Values
      {
        if k < |prev| {
          assert r[k] == prev[k];
          assert prev[k].cost >= 0 && prev[k].node in index.Values;
        } else {
          assert link != [] && r[k] == link[0];
          var h := Hash(hk, ExitPath(ride.exits(n - 1).value));
          assert h in index && link[0].node == index[h];
          assert index[h] in index.Values;
        }
      }
    }
  }

  /** The ride a queue node leads to, when it is a transport ride that exists. */
  function TransportRide(w: World, p: PathElement): Option<RideInfo>
  {
    if p.isQueue && p.rideIndex.Some? && w.rides(p.rideIndex.value).Some? && w.rides(p.rideIndex.value).value.isTransport
    then w.rides(p.rideIndex.value) else None
  }

  /** The indirect connections of a node: only queues of transport rides have any, one
      per other station with an exit that leads onto a node. */
  function IndirectOf(hk: HashKind, w: World, index: map<int, nat>, loc: CoordsXYZ, p: PathElement): (r: seq<Connection>)
    ensures !p.isQueue ==> r == []
    ensures r != [] ==> p.isQueue && p.rideIndex.Some? && w.rides(p.rideIndex.value).Some?
                        && w.rides(p.rideIndex.value).value.isTransport
    ensures |r| <= MAX_STATIONS
  {
    match TransportRide(w, p)
    case None => []
    case Some(ride) => StationLinks(hk, index, loc, p, ride, MAX_STATIONS)
  }

  /** Every indirect connection leads to an indexed node, at a cost that is never negative. */
  lemma IndirectOfIndexed(hk: HashKind, w: World, index: map<int, nat>, loc: CoordsXYZ, p: PathElement)
    ensures var r := IndirectOf(hk, w, index, loc, p);
      forall k :: 0 <= k < |r| ==> r[k].cost >= 0 && r[k].node in index.Values
  {
    if TransportRide(w, p).Some? {
      var ride := TransportRide(w, p).value;
      assert IndirectOf(hk, w, index, loc, p) == StationLinks(hk, index, loc, p, ride, MAX_STATIONS);
      StationLinksIndexed(hk, index, loc, p, ride, MAX_STATIONS);
    }
  }

  /** Two node lists with the same positions and elements, whatever their connections. */
  predicate SameSites(a: seq<Node>, b: seq<Node>)
  {
    |a| == |b| && forall i :: 0 <= i < |a| ==> a[i].loc == b[i].loc && a[i].element == b[i].element
  }

  /** The index stays valid over a node list with the same positions. */
  lemma {:induction false} SameSitesKeepIndex(hk: HashKind, a: seq<Node>, b: seq<Node>, index: map<int, nat>)
    requires IndexValid(hk, a, index) && SameSites(a, b)
    ensures IndexValid(hk, b, index)
  {
  }

  /** The direct connections node i of a freshly reset list receives: those of its open
      edges when it is the indexed node for its hash, none otherwise. */
  function DirectPart(hk: HashKind, w: World, nodes: seq<Node>, index: map<int, nat>, i: nat): seq<Connection>
    requires i < |nodes|
  {
    if Mapped(hk, nodes, index, i) then DirectOf(hk, w, index, nodes[i].loc, nodes[i].element, nodes[i].element.edges) else []
  }

  /** The indirect connections node i receives, on the same terms. */
  function IndirectPart(hk: HashKind, w: World, nodes: seq<Node>, index: map<int, nat>, i: nat): seq<Connection>
    requires i < |nodes|
  {
    if Mapped(hk, nodes, index, i) then IndirectOf(hk, w, index, nodes[i].loc, nodes[i].element) else []
  }

  /** The whole graph InitMapPathing builds from a map: the nodes of every path element,
      with the connections of the indexed ones. */
  function BuiltIndex(hk: HashKind, w: World): map<int, nat>
  {
    var nodes := WorldNodes(w, |w.order|);
    HashIndex(Keys(hk, nodes), |nodes|)
  }

  function BuiltNode(hk: HashKind, w: World, nodes: seq<Node>, index: map<int, nat>, i: nat): Node
    requires i < |nodes|
  {
    nodes[i].(direct := nodes[i].direct + DirectPart(hk, w, nodes, index, i),
              indirect := nodes[i].indirect + IndirectPart(hk, w, nodes, index, i))
  }

  /** The indirect part depends only on each node's position and element. */
  lemma {:induction false} IndirectPartSameSites(hk: HashKind, w: World, a: seq<Node>, b: seq<Node>, index: map<int, nat>, i: nat)
    requires SameSites(a, b) && i < |a|
    ensures IndirectPart(hk, w, a, index, i) == IndirectPart(hk, w, b, index, i)
  {
    assert a[i].loc == b[i].loc && a[i].element == b[i].element;
  }

  /** The direct pass followed by the ride pass over the reset list yields the built graph. */
  lemma {:induction false} BuiltFromPasses(hk: HashKind, w: World, reset: seq<Node>, direct: seq<Node>, built: seq<Node>, index: map<int, nat>)
    requires reset == WorldNodes(w, |w.order|) && index == BuiltIndex(hk, w)
    requires SameSites(reset, direct) && SameSites(direct, built)
    requires forall i :: 0 <= i < |reset| ==>
      direct[i].indirect == reset[i].indirect
      && direct[i].direct == reset[i].direct + DirectPart(hk, w, reset, index, i)
    requires forall i :: 0 <= i < |direct| ==>
      built[i].direct == direct[i].direct
      && built[i].indirect == direct[i].indirect + IndirectPart(hk, w, direct, index, i)
    ensures built == BuiltNodes(hk, w)
  {
    forall i | 0 <= i < |built|
      ensures built[i] == BuiltNode(hk, w, reset, index, i)
    {
      IndirectPartSameSites(hk, w, direct, reset, index, i);
      assert built[i].loc == reset[i].loc && built[i].element == reset[i].element;
    }
  }

  function BuiltNodes(hk: HashKind, w: World): seq<Node>
  {
    var nodes := WorldNodes(w, |w.order|);
    var index := BuiltIndex(hk, w);
    seq(|nodes|, i requires 0 <= i < |nodes| => BuiltNode(hk, w, nodes, index, i))
  }

  /** A map of three flat path tiles at height 0, visited in the order (0, 0), (1, 0),
      (0, 32): the first open to the east only, the other two closed. */
  function CollisionWorld(): World
  {
    var path := PathElement(false, 0, 0, false, None, 0);
    World([(0, 0), (1, 0), (0, 32)],
          map[(0, 0) := [PathTile(0, false, path.(edges := 4))],
              (1, 0) := [PathTile(0, false, path)],
              (0, 32) := [PathTile(0, false, path)]],
          _ => None)
  }

  /** The nodes of CollisionWorld, one per tile in iteration order. */
  lemma {:induction false} CollisionNodes()
    ensures var path := PathElement(false, 0, 0, false, None, 0);
      WorldNodes(CollisionWorld(), 3)
      == [NewNode((0, 0), 0, path.(edges := 4)), NewNode((1, 0), 0, path), NewNode((0, 32), 0, path)]
  {
    var w := CollisionWorld();
    var path := PathElement(false, 0, 0, false, None, 0);
    assert TileNodes((0, 0), ElementsAt(w, (0, 0))) == [NewNode((0, 0), 0, path.(edges := 4))];
    assert TileNodes((1, 0), ElementsAt(w, (1, 0))) == [NewNode((1, 0), 0, path)];
    assert TileNodes((0, 32), ElementsAt(w, (0, 32))) == [NewNode((0, 32), 0, path)];
  }

  /** The as-written index of CollisionWorld holds two keys: the paths at (32, 0) and at
      (0, 1024) share key 256, and the later one keeps it. */
  lemma {:induction false} CollisionIndexAsWritten()
    ensures BuiltIndex(AsWritten, CollisionWorld()) == map[0 := 0, 256 := 2]
  {
    CollisionNodes();
    var keys := Keys(AsWritten, WorldNodes(CollisionWorld(), 3));
    assert keys == [0, 256, 256];
    assert HashIndex(keys, 1) == map[0 := 0];
    assert HashIndex(keys, 2) == map[0 := 0, 256 := 1];
  }

  /** The intended index of CollisionWorld has a key per node. */
  lemma {:induction false} CollisionIndexIntended()
    ensures BuiltIndex(Intended, CollisionWorld()) == map[0 := 0, 256 * 256 := 1, 32 * 256 := 2]
  {
    CollisionNodes();
    var keys := Keys(Intended, WorldNodes(CollisionWorld(), 3));
    assert keys == [0, 256 * 256, 32 * 256];
    assert HashIndex(keys, 1) == map[0 := 0];
    assert HashIndex(keys, 2) == map[0 := 0, 256 * 256 := 1];
  }

  /** A node open to the east only has the connection of its east walk alone. */
  lemma {:induction false} MaskedEastOnly(links: seq<seq<Connection>>)
    requires |links| == 4
    ensures Masked(4, links) == links[2]
  {
    assert !Bit(4, 0) && !Bit(4, 1) && Bit(4, 2) && !Bit(4, 3);
  }

  /** The walk east from the first tile of CollisionWorld steps onto the path at (32, 0). */
  lemma {:induction false} CollisionWalk(hk: HashKind, index: map<int, nat>)
    ensures var path := PathElement(false, 0, 4, false, None, 0);
      var h := Hash(hk, CoordsXYZ(32, 0, 0));
      NextSpec(hk, CollisionWorld(), index, CoordsXYZ(0, 0, 0), path, 2) == (if h in index then Some(index[h]) else None)
  {
    var path := PathElement(false, 0, 4, false, None, 0);
    assert Target(CoordsXYZ(0, 0, 0), path, 2) == CoordsXYZ(32, 0, 0);
    assert FirstMatch(ElementsAt(CollisionWorld(), (1, 0)), 0, 2) == Some(0);
  }

  /** The first node of CollisionWorld is indexed under either hash, so it gets the
      direct connections of its open edges. */
  lemma {:induction false} CollisionFirstMapped(hk: HashKind)
    ensures BuiltNodes(hk, CollisionWorld())[0].direct
      == DirectOf(hk, CollisionWorld(), BuiltIndex(hk, CollisionWorld()), CoordsXYZ(0, 0, 0), PathElement(false, 0, 4, false, None, 0), 4)
  {
    var w := CollisionWorld();
    CollisionNodes();
    var nodes := WorldNodes(w, 3);
    var index := BuiltIndex(hk, w);
    if hk == AsWritten {
      CollisionIndexAsWritten();
    } else {
      CollisionIndexIntended();
    }
    var path := PathElement(false, 0, 4, false, None, 0);
    assert nodes[0] == Node(CoordsXYZ(0, 0, 0), [], [], path);
    assert Hash(hk, nodes[0].loc) == 0 && index[0] == 0;
    assert Mapped(hk, nodes, index, 0);
    assert BuiltNodes(hk, w)[0] == BuiltNode(hk, w, nodes, index, 0);
  }

  /** The only open edge of the first node leads east onto the path at (32, 0), whatever
      node the index holds for that position's key. */
  lemma {:induction false} CollisionFirstDirect(hk: HashKind)
    ensures var index := BuiltIndex(hk, CollisionWorld());
      var h := Hash(hk, CoordsXYZ(32, 0, 0));
      BuiltNodes(hk, CollisionWorld())[0].direct == (if h in index then [Connection(1, index[h])] else [])
  {
    var w := CollisionWorld();
    var index := BuiltIndex(hk, w);
    var loc, path := CoordsXYZ(0, 0, 0), PathElement(false, 0, 4, false, None, 0);
    var links := EdgeLinks(hk, w, index, loc, path);
    CollisionFirstMapped(hk);
    MaskedEastOnly(links);
    CollisionWalk(hk, index);
    assert links[2] == EdgeConnection(hk, w, index, loc, path, 2);
  }

  /** The as-written graph of CollisionWorld has the path at (32, 0) as node 1 and the
      path at (0, 1024) as node 2, and node 1 is not the indexed node for its key. */
  lemma {:induction false} CollisionSites()
    ensures var w := CollisionWorld();
      var nodes := BuiltNodes(AsWritten, w);
      |nodes| == 3 && nodes[1].loc == CoordsXYZ(32, 0, 0) && nodes[2].loc == CoordsXYZ(0, 1024, 0)
      && !Mapped(AsWritten, WorldNodes(w, 3), BuiltIndex(AsWritten, w), 1)
  {
    var w := CollisionWorld();
    CollisionNodes();
    var reset := WorldNodes(w, 3);
    var nodes := BuiltNodes(AsWritten, w);
    var index := BuiltIndex(AsWritten, w);
    CollisionIndexAsWritten();
    assert |nodes| == 3;
    assert nodes[1].loc == BuiltNode(AsWritten, w, reset, index, 1).loc == reset[1].loc;
    assert nodes[2].loc == BuiltNode(AsWritten, w, reset, index, 2).loc == reset[2].loc;
    assert Hash(AsWritten, reset[1].loc) == 256 && index[256] == 2;
  }

  /** Indexed by GetHash as written, the path at (32, 0) is shadowed by the later path at
      (0, 1024), which shares its key (CollisionSites): the walk east from (0, 0) lands on
      node 2 at (0, 1024), connecting two tiles 32 tiles apart. */
  lemma {:induction false} AsWrittenHashMisroutes()
    ensures BuiltNodes(AsWritten, CollisionWorld())[0].direct == [Connection(1, 2)]
  {
    CollisionIndexAsWritten();
    assert Hash(AsWritten, CoordsXYZ(32, 0, 0)) == 256;
    CollisionFirstDirect(AsWritten);
  }

  /** Indexed by the intended hash, the same walk lands on the path at (32, 0). */
  lemma {:induction false} IntendedHashRoutes()
    ensures BuiltNodes(Intended, CollisionWorld())[0].direct == [Connection(1, 1)]
  {
    CollisionIndexIntended();
    assert Hash(Intended, CoordsXYZ(32, 0, 0)) == 256 * 256;
    CollisionFirstDirect(Intended);
  }

  // ---------------------------------------------------------------------------
  // The graph, rebuilt in place

  class PathGraph {
    const hash: HashKind
    var nodes: seq<Node>
    var nodesMap: map<int, nat>

    predicate Valid()
      reads this
    {
      IndexValid(hash, nodes, nodesMap)
    }

    constructor (hash: HashKind)
      ensures this.hash == hash && nodes == [] && nodesMap == map[]
      ensures Valid()
    {
      this.hash := hash;
      nodes, nodesMap := [], map[];
    }

    /** The inner loop of ResetNodes: appends a node for each path element of one tile. */
    method AddTileNodes(t: (int, int), els: seq<TileElement>)
      modifies this
      ensures nodes == old(nodes) + TileNodes(t, els)
      ensures nodesMap == old(nodesMap)
    {
      var j := 0;
      while j < |els|
        invariant 0 <= j <= |els|
        invariant nodes == old(nodes) + TileNodes(t, els[..j])
        invariant nodesMap == old(nodesMap)
      {
        assert els[..j + 1][..j] == els[..j];
        if els[j].PathTile? {
          nodes := nodes + [NewNode(t, els[j].baseZ, els[j].path)];
        }
        j := j + 1;
      }
      assert els[..j] == els;
    }

    /** The second half of ResetNodes: enters every node under its hash, in order. */
    method IndexNodes()
      modifies this
      ensures nodes == old(nodes)
      ensures nodesMap == HashIndex(Keys(hash, nodes), |nodes|)
      ensures Valid()
    {
      nodesMap := map[];
      ghost var keys := Keys(hash, nodes);
      var k := 0;
      while k < |nodes|
        invariant 0 <= k <= |nodes|
        invariant nodes == old(nodes)
        invariant nodesMap == HashIndex(keys, k)
      {
        nodesMap := nodesMap[Hash(hash, nodes[k].loc) := k];
        k := k + 1;
      }
      HashIndexLastWins(keys, |nodes|);
    }

    /** ResetNodes: clears the graph, adds a node per path element in iteration order,
        then indexes every node by hash, later nodes replacing earlier ones. */
    method ResetNodes(w: World)
      modifies this
      ensures nodes == WorldNodes(w, |w.order|)
      ensures nodesMap == HashIndex(Keys(hash, nodes), |nodes|)
      ensures Valid()
    {
      nodes := [];
      var i := 0;
      while i < |w.order|
        invariant 0 <= i <= |w.order|
        invariant nodes == WorldNodes(w, i)
      {
        AddTileNodes(w.order[i], ElementsAt(w, w.order[i]));
        i := i + 1;
      }
      IndexNodes();
    }

    /** footpath_element_next_in_direction: scans the elements of the next tile in order. */
    method NextInDirection(w: World, loc: CoordsXYZ, p: PathElement, d: Direction) returns (r: Option<nat>)
      ensures r == NextSpec(hash, w, nodesMap, loc, p, d)
    {
      var tgt := Target(loc, p, d);
      var els := ElementsAt(w, TileOf(tgt));
      var j := 0;
      while j < |els|
        invariant 0 <= j <= |els|
        invariant forall k :: 0 <= k < j ==> !Matches(els[k], tgt.z, d)
      {
        var e := els[j];
        if !e.isGhost && e.PathTile? && ValidPathZ(e.path, e.baseZ, tgt.z, d) {
          FirstMatchIsFirst(els, tgt.z, d);
          assert FirstMatch(els, tgt.z, d) == Some(j);
          var h := Hash(hash, CoordsXYZ(tgt.x, tgt.y, e.baseZ));
          if h in nodesMap {
            return Some(nodesMap[h]);
          }
          return None;
        }
        j := j + 1;
      }
      FirstMatchIsFirst(els, tgt.z, d);
      r := None;
    }

    /** ConnectNodes: for every indexed node, one cost-1 connection per open edge whose
        walk finds a node, lowest edge first. The indexed nodes are visited in node order. */
    method ConnectNodes(w: World)
      requires Valid()
      modifies this
      ensures Valid() && nodesMap == old(nodesMap) && SameSites(old(nodes), nodes)
      ensures forall i :: 0 <= i < |nodes| ==>
        nodes[i].indirect == old(nodes)[i].indirect
        && nodes[i].direct == old(nodes)[i].direct + DirectPart(hash, w, old(nodes), nodesMap, i)
    {
      var idx := 0;
      while idx < |nodes|
        invariant 0 <= idx <= |nodes|
        invariant nodesMap == old(nodesMap) && SameSites(old(nodes), nodes)
        invariant forall i :: 0 <= i < |nodes| ==>
          nodes[i].indirect == old(nodes)[i].indirect
          && nodes[i].direct == old(nodes)[i].direct + (if i < idx then DirectPart(hash, w, old(nodes), nodesMap, i) else [])
      {
        if Mapped(hash, nodes, nodesMap, idx) {
          assert Mapped(hash, old(nodes), nodesMap, idx);
          ConnectNode(w, idx);
        } else {
          assert DirectPart(hash, w, old(nodes), nodesMap, idx) == [];
        }
        idx := idx + 1;
      }
      SameSitesKeepIndex(hash, old(nodes), nodes, nodesMap);
    }

    /** The bit scan over one node's edges: the connection of each open edge whose walk
        finds a node, lowest edge first. */
    method EdgeConnections(w: World, loc: CoordsXYZ, p: PathElement) returns (conns: seq<Connection>)
      ensures conns == DirectOf(hash, w, nodesMap, loc, p, p.edges)
    {
      ghost var links := EdgeLinks(hash, w, nodesMap, loc, p);
      conns := [];
      var edges := p.edges;
      while edges != 0
        invariant conns + Masked(edges, links) == Masked(p.edges, links)
        decreases PopCount(edges)
      {
        var k := BitScanForward(edges);
        MaskedLowestBit(edges, links);
        ghost var before, rest := conns, Masked(ClearBit(edges, k), links);
        edges := ClearBit(edges, k);
        var res := NextInDirection(w, loc, p, k as Direction);
        if res.Some? {
          conns := conns + [Connection(1, res.value)];
        }
        assert conns == before + links[k];
        ConcatAssoc(before, links[k], rest);
      }
      assert Masked(0, links) == [];
    }

    /** Appends the direct connections of node idx. */
    method ConnectNode(w: World, idx: nat)
      requires idx < |nodes|
      modifies this
      ensures nodesMap == old(nodesMap) && SameSites(old(nodes), nodes)
      ensures forall i :: 0 <= i < |nodes| && i != idx ==> nodes[i] == old(nodes)[i]
      ensures nodes[idx].indirect == old(nodes)[idx].indirect
      ensures nodes[idx].direct == old(nodes)[idx].direct
        + DirectOf(hash, w, nodesMap, old(nodes)[idx].loc, old(nodes)[idx].element, old(nodes)[idx].element.edges)
    {
      var conns := EdgeConnections(w, nodes[idx].loc, nodes[idx].element);
      nodes := nodes[idx := nodes[idx].(direct := nodes[idx].direct + conns)];
    }

    /** ConnectRides: every indexed queue node of a transport ride gets an indirect
        connection to the node outside each other station's exit, in station order. */
    method ConnectRides(w: World)
      requires Valid()
      modifies this
      ensures Valid() && nodesMap == old(nodesMap) && SameSites(old(nodes), nodes)
      ensures forall i :: 0 <= i < |nodes| ==>
        nodes[i].direct == old(nodes)[i].direct
        && nodes[i].indirect == old(nodes)[i].indirect + IndirectPart(hash, w, old(nodes), nodesMap, i)
    {
      var idx := 0;
      while idx < |nodes|
        invariant 0 <= idx <= |nodes|
        invariant nodesMap == old(nodesMap) && SameSites(old(nodes), nodes)
        invariant forall i :: 0 <= i < |nodes| ==>
          nodes[i].direct == old(nodes)[i].direct
          && nodes[i].indirect == old(nodes)[i].indirect + (if i < idx then IndirectPart(hash, w, old(nodes), nodesMap, i) else [])
      {
        if Mapped(hash, nodes, nodesMap, idx) {
          assert Mapped(hash, old(nodes), nodesMap, idx);
          ConnectRide(w, idx);
        } else {
          assert IndirectPart(hash, w, old(nodes), nodesMap, idx) == [];
        }
        idx := idx + 1;
      }
      SameSitesKeepIndex(hash, old(nodes), nodes, nodesMap);
    }

    /** The station loop for one node: a connection to the node outside each other
        station's exit, in station order, when the node is a transport ride's queue. */
    method StationConnections(w: World, loc: CoordsXYZ, p: PathElement) returns (conns: seq<Connection>)
      ensures conns == IndirectOf(hash, w, nodesMap, loc, p)
    {
      conns := [];
      var ride := TransportRide(w, p);
      if ride.Some? {
        var s := 0;
        while s < MAX_STATIONS
          invariant 0 <= s <= MAX_STATIONS
          invariant conns == StationLinks(hash, nodesMap, loc, p, ride.value, s)
        {
          if s != p.stationIndex {
            var exit := ride.value.exits(s);
            if exit.Some? {
              var target := ExitPath(exit.value);
              var cost := IndirectCost(target, loc);
              if Hash(hash, target) in nodesMap {
                conns := conns + [Connection(cost, nodesMap[Hash(hash, target)])];
              }
            }
          }
          s := s + 1;
        }
      }
    }

    /** Appends the indirect connections of node idx. */
    method ConnectRide(w: World, idx: nat)
      requires idx < |nodes|
      modifies this
      ensures nodesMap == old(nodesMap) && SameSites(old(nodes), nodes)
      ensures forall i :: 0 <= i < |nodes| && i != idx ==> nodes[i] == old(nodes)[i]
      ensures nodes[idx].direct == old(nodes)[idx].direct
      ensures nodes[idx].indirect == old(nodes)[idx].indirect
        + IndirectOf(hash, w, nodesMap, old(nodes)[idx].loc, old(nodes)[idx].element)
    {
      var conns := StationConnections(w, nodes[idx].loc, nodes[idx].element);
      nodes := nodes[idx := nodes[idx].(indirect := nodes[idx].indirect + conns)];
    }

    /** ConnectTwoEdges: visits the children of every indexed node with exactly two
        direct connections and does nothing with them. */
    method ConnectTwoEdges()
      ensures nodes == old(nodes) && nodesMap == old(nodesMap)
    {
      var idx := 0;
      while idx < |nodes|
      {
        if Mapped(hash, nodes, nodesMap, idx) && |nodes[idx].direct| == 2 {
          var c := 0;
          while c < |nodes[idx].direct|
          {
            c := c + 1;
          }
        }
        idx := idx + 1;
      }
    }

    /** InitMapPathing: reset, direct edges, ride edges, two-edge pass. The graph is a
        function of the map alone, so rebuilding on unchanged tiles gives the same graph. */
    method InitMapPathing(w: World)
      modifies this
      ensures Valid()
      ensures nodesMap == BuiltIndex(hash, w)
      ensures nodes == BuiltNodes(hash, w)
    {
      ResetNodes(w);
      ghost var reset := nodes;
      ConnectNodes(w);
      ghost var direct := nodes;
      ConnectRides(w);
      ConnectTwoEdges();
      BuiltFromPasses(hash, w, reset, direct, nodes, nodesMap);
    }
  }
}
