/** Track placement (TrackPlaceAction): a fixed-order chain of validation checks over a
    ride and the blocks of a track piece, a cost computed in whole money units and, in
    apply mode, updates to the ride record and the list of track elements inserted.

    The world is read through oracles (`World`, `Tables`); the ride record is an object
    whose fields the query updates in place when the command flags ask it to apply. */
module TrackPlace {
  import opened GameActions

  const RIDE_TYPE_NULL: int := 255

  /** Numeric ids the query compares the track type, the ride type and the placement
      flags against (TRACK_ELEM_*, RIDE_TYPE_*, CONSTRUCTION_LIFT_HILL_SELECTED,
      RIDE_TYPE_ALTERNATIVE_TRACK_TYPE). Their values are defined by the engine's track
      headers, which are not part of this model. */
  datatype NamedIds = NamedIds(
    endStation: int, onRidePhoto: int, cableLiftHill: int, blockBrakes: int, flat: int,
    up25ToFlat: int, up60ToFlat: int, diagUp25ToFlat: int, diagUp60ToFlat: int,
    miniatureRailway: int, limLaunchedRollerCoaster: int,
    liftHillSelectedBit: nat, alternativeTrackTypeBit: nat)

  /** Per-ride-type data: RideProperties flags, the steep lift hill entry of
      RideTypePossibleTrackConfigurations, RideData5 and RideTrackCosts. */
  datatype RideTypeProps = RideTypeProps(
    flatRide: bool, mustBeOnWater: bool, steepLiftHill: bool,
    clearanceHeight: int, maxHeight: int, independent: bool, hasRideGroups: bool,
    supportPrice: int, trackPrice: int)

  /** The TRACK_ELEM_FLAG_* bits of one piece in TrackFlags or FlatTrackFlags. */
  datatype PieceFlags = PieceFlags(isSteepUp: bool, startsAtHalfHeight: bool, onlyAboveGround: bool, onlyUnderwater: bool)

  /** One rct_preview_track entry of a piece, before the 0xFF terminator. */
  datatype TrackBlock = TrackBlock(index: int, x: int, y: int, z: int, var07: int, var08: bv8, var09: bv8)

  datatype RideEntry = RideEntry(maxHeight: int)

  /** The static tables the query reads. `origin` and `flatOrigin` say whether a piece's
      first sequence entry carries TRACK_SEQUENCE_FLAG_ORIGIN. */
  datatype Tables = Tables(
    ids: NamedIds,
    rideTypes: int -> RideTypeProps,
    trackFlags: int -> PieceFlags,
    flatTrackFlags: int -> PieceFlags,
    trackPricing: int -> int,
    flatTrackPricing: int -> int,
    origin: int -> bool,
    flatOrigin: int -> bool,
    hasSpeedSetting: int -> bool,
    blocks: (int, int) -> seq<TrackBlock>,
    rideEntries: int -> Option<RideEntry>,
    rideGroupMaxHeight: (int, RideEntry) -> int)

  datatype Cheats = Cheats(
    buildInPauseMode: bool, enableChainLiftOnAllTrack: bool, sandboxMode: bool,
    disableClearanceChecks: bool, disableSupportLimits: bool)

  /** The above-ground, underground and underwater bits of gMapGroundFlags. The
      underground bit is also the one TRACK_ELEMENT_LOCATION_IS_UNDERGROUND tests. */
  datatype GroundFlags = GroundFlags(aboveGround: bool, underground: bool, underwater: bool)

  const NoGround := GroundFlags(false, false, false)

  datatype Surface = Surface(baseHeight: int, waterHeight: int, slope: bv8)

  /** The arguments of map_can_construct_with_clear_at. */
  datatype ClearQuery = ClearQuery(
    x: int, y: int, baseZ: int, clearanceZ: int, quarterMask: bv8, flags: CommandFlags, trackOverPath: bool)

  /** A clear site adds the cost of what it removes and sets the ground flags. */
  datatype ClearOutcome = Cleared(cost: int, ground: GroundFlags) | Blocked(message: StringId)

  /** The arguments of track_add_station_element in query mode. */
  datatype StationQuery = StationQuery(x: int, y: int, baseZ: int, direction: int, rideIndex: int)

  /** Game state and world queries. `mapGround` is gMapGroundFlags as earlier calls left it. */
  datatype World = World(
    paused: bool,
    noMoney: bool,
    cheats: Cheats,
    byte9D8150: bool,
    owned: CoordsXYZ -> bool,
    freeElements: nat -> bool,
    clear: ClearQuery -> ClearOutcome,
    surface: (int, int) -> Surface,
    stationError: StationQuery -> Option<StringId>,
    mapGround: GroundFlags)

  datatype TrackPlaceAction = TrackPlaceAction(
    base: BaseFields, rideIndex: int, trackType: int, origin: CoordsXYZD,
    brakeSpeed: int, colour: int, seatRotation: int, trackPlaceFlags: int)

  datatype Lifecycle = IndestructibleTrack | OnRidePhotoUsed | CableLiftHillComponentUsed | OtherLifecycle(bit: nat)

  datatype RideMode = ContinuousCircuitBlockSectioned | PoweredLaunchBlockSectioned | OtherMode(id: nat)

  /** The fields of a ride record that the query reads or updates. `overallView` is None
      when it holds RCT_XY8_UNDEFINED. */
  datatype RideState = RideState(
    rideType: int, subtype: int, lifecycleFlags: set<Lifecycle>, numBlockBrakes: int,
    mode: RideMode, overallView: Option<(int, int)>, cableLift: CoordsXYZ)

  class Ride {
    var rideType: int
    var subtype: int
    var lifecycleFlags: set<Lifecycle>
    var numBlockBrakes: int
    var mode: RideMode
    var overallView: Option<(int, int)>
    var cableLift: CoordsXYZ

    function State(): RideState
      reads this
    {
      RideState(rideType, subtype, lifecycleFlags, numBlockBrakes, mode, overallView, cableLift)
    }
  }

  /** A track element inserted in apply mode (tile_element_insert and its setters). */
  datatype PlacedTrack = PlacedTrack(
    tileX: int, tileY: int, baseZ: int, clearanceZ: int, quarterMask: bv8, direction: int,
    hasChain: bool, sequence: int, rideIndex: int, trackType: int, isGhost: bool,
    brakeSpeed: Option<int>, seatRotation: Option<int>, inverted: bool, colour: int)

  // ---------------------------------------------------------------------------
  // Pure arithmetic

  /** GetActionFlags: track placement adds nothing to the base action's flags. */
  function ActionFlags(a: TrackPlaceAction): (r: set<GaFlag>)
    ensures AllowWhilePaused in r <==> AllowWhilePaused in a.base.baseActionFlags
  {
    a.base.baseActionFlags
  }

  /** A block offset turned to face direction d. */
  function RotateOffset(x: int, y: int, d: int): (r: (int, int))
    requires 0 <= d < 4
    ensures d == 0 ==> r == (x, y)
    ensures Abs(r.0) + Abs(r.1) == Abs(x) + Abs(y)
  {
    if d == 0 then (x, y)
    else if d == 1 then (y, -x)
    else if d == 2 then (-x, -y)
    else (-y, x)
  }

  /** n successive quarter turns of an offset: (x, y) becomes (y, -x). */
  function QuarterTurns(p: (int, int), n: nat): (int, int)
    decreases n
  {
    if n == 0 then p else QuarterTurns((p.1, -p.0), n - 1)
  }

  lemma {:induction false} RotateOffsetIsQuarterTurns(x: int, y: int, d: int)
    requires 0 <= d < 4
    ensures RotateOffset(x, y, d) == QuarterTurns((x, y), d)
    decreases d
  {
    if d > 0 {
      calc {
        QuarterTurns((x, y), d);
        QuarterTurns((y, -x), d - 1);
        { RotateOffsetIsQuarterTurns(y, -x, d - 1); }
        RotateOffset(y, -x, d - 1);
      }
    }
  }

  /** A 4-bit nibble rotated left by d within itself. */
  function NibbleRotate(n: bv8, d: int): (r: bv8)
    requires n < 16 && 0 <= d < 4
    ensures r < 16
  {
    ((n << d) | (n >> (4 - d))) & 0x0F
  }

  /** The quarter-tile mask of a block for direction d: the rol8 / ror8 / mask sequence
      of the source, which turns each nibble of var_08 by d within the nibble. */
  function RotateQuarterMask(bl: bv8, d: int): (r: bv8)
    requires 0 <= d < 4
    ensures r & 0x0F == NibbleRotate(bl & 0x0F, d)
    ensures r >> 4 == NibbleRotate(bl >> 4, d)
    ensures d == 0 ==> r == bl
  {
    if d == 0 then bl
    else if d == 1 then
      var t := bl.RotateLeft(1); (t & 0xEE) | (t.RotateRight(4) & 0x11)
    else if d == 2 then
      var t := bl.RotateLeft(2); (t & 0xCC) | (t.RotateRight(4) & 0x33)
    else
      var t := bl.RotateLeft(3); (t & 0x88) | (t.RotateRight(4) & 0x77)
  }

  /** The height added above a block: the ride's clearance, capped at 24 for blocks with
      bit 2 of var_09. */
  function ClearanceHeight(var09: bv8, rideClearance: int): (h: int)
    ensures var09 & 4 == 0 ==> h == rideClearance
    ensures var09 & 4 != 0 ==> h == (if rideClearance > 24 then 24 else rideClearance)
    ensures h <= rideClearance
  {
    if var09 & 4 != 0 && rideClearance > 24 then 24 else rideClearance
  }

  /** The support cost of one block, from its height above the surface (10 units when it
      is below it). */
  function SupportCost(baseZ: int, surfaceBase: int, supportPrice: int): (c: int)
    ensures supportPrice >= 0 ==> c >= 0
    ensures baseZ < surfaceBase ==> c == 25 * supportPrice
  {
    var supportHeight := if baseZ - surfaceBase < 0 then 10 else baseZ - surfaceBase;
    ((supportHeight / 2) * supportPrice) * 5
  }

  lemma SupportCostMonotone(baseZ1: int, baseZ2: int, surfaceBase: int, supportPrice: int)
    requires surfaceBase <= baseZ1 <= baseZ2 && supportPrice >= 0
    ensures SupportCost(baseZ1, surfaceBase, supportPrice) <= SupportCost(baseZ2, surfaceBase, supportPrice)
  {
    var h1, h2 := (baseZ1 - surfaceBase) / 2, (baseZ2 - surfaceBase) / 2;
    assert h1 <= h2;
    assert h1 * supportPrice <= h2 * supportPrice by {
      assert (h2 - h1) * supportPrice >= 0;
    }
  }

  /** The final price: the accumulated cost plus the piece price, a 16.16 fixed-point
      product truncated to whole units, halved and scaled by 10; 0 in a no-money park. */
  function FinalPrice(cost: int, trackPrice: int, pricing: int, noMoney: bool): (p: int)
    ensures noMoney ==> p == 0
    ensures !noMoney ==> (p - cost) % 10 == 0
    ensures !noMoney && trackPrice >= 0 && pricing >= 0 ==> p >= cost
  {
    var price := (trackPrice * pricing) / 0x10000;
    if noMoney then 0 else cost + TruncDiv(price, 2) * 10
  }

  /** `(_origin.z & 0x0F)` must be 8 for pieces starting at half height and 0 otherwise. */
  function HeightAligned(z: int, startsAtHalfHeight: bool): (ok: bool)
    ensures ok <==> (z % 8 == 0) && (z % 16 == 8 <==> startsAtHalfHeight)
  {
    if startsAtHalfHeight then z % 16 == 8 else z % 16 == 0
  }

  /** Three of the four corners raised: the values TILE_ELEMENT_SLOPE_{W,S,E,N}_CORNER_DN
      of a surface slope masked with TILE_ELEMENT_SLOPE_ALL_CORNERS_UP. */
  predicate OneCornerDown(slope: bv8)
  {
    var s := slope & 0x0F;
    s == 0x07 || s == 0x0B || s == 0x0D || s == 0x0E
  }

  // ---------------------------------------------------------------------------
  // The validation chain before the block passes (lines 58-141)

  function Props(t: Tables, ride: RideState): RideTypeProps
  {
    t.rideTypes(ride.rideType)
  }

  function PieceFlagsOf(t: Tables, ride: RideState, trackType: int): PieceFlags
  {
    if Props(t, ride).flatRide then t.flatTrackFlags(trackType) else t.trackFlags(trackType)
  }

  function Pow2(k: nat): (p: nat)
    ensures p >= 1
  {
    if k == 0 then 1 else 2 * Pow2(k - 1)
  }

  /** Bit k of a 32-bit value, as `flags & (1 << k)` tests it. */
  predicate BitSet(n: int, k: nat)
  {
    k < 32 && ((n % 0x1_0000_0000) / Pow2(k)) % 2 == 1
  }

  function LiftHillSelected(a: TrackPlaceAction, t: Tables): bool
  {
    BitSet(a.trackPlaceFlags, t.ids.liftHillSelectedBit)
  }

  /** The ride must exist and have a type and an entry, and the direction must be one of
      the four cardinal directions; each failure is INVALID_PARAMETERS. */
  function ValidateRide(a: TrackPlaceAction, t: Tables, ride: Option<RideState>): (r: Outcome<RideEntry>)
    ensures r.Pass? <==>
      ride.Some? && ride.value.rideType != RIDE_TYPE_NULL
      && t.rideEntries(ride.value.subtype).Some? && 0 <= a.origin.direction < 4
    ensures r.Pass? ==> r.value == t.rideEntries(ride.value.subtype).value
    ensures r.Stop? ==> r.result == Fail(InvalidParameters, StrNone)
  {
    if ride.None? then Stop(Fail(InvalidParameters, StrNone))
    else if ride.value.rideType == RIDE_TYPE_NULL then Stop(Fail(InvalidParameters, StrNone))
    else if t.rideEntries(ride.value.subtype).None? then Stop(Fail(InvalidParameters, StrNone))
    else if !(0 <= a.origin.direction < 4) then Stop(Fail(InvalidParameters, StrNone))
    else Pass(t.rideEntries(ride.value.subtype).value)
  }

  /** The end-station rule: a ride with indestructible track keeps its end station. */
  predicate StationLocked(a: TrackPlaceAction, t: Tables, ride: RideState)
  {
    IndestructibleTrack in ride.lifecycleFlags && a.trackType == t.ids.endStation
  }

  /** The pause rule: construction is refused while paused unless the action or the
      build-in-pause cheat allows it. */
  predicate PausedRefusal(a: TrackPlaceAction, w: World)
  {
    AllowWhilePaused !in a.base.baseActionFlags && w.paused && !w.cheats.buildInPauseMode
  }

  /** A second on-ride photo section. */
  predicate SecondPhoto(a: TrackPlaceAction, t: Tables, ride: RideState)
  {
    a.trackType == t.ids.onRidePhoto && OnRidePhotoUsed in ride.lifecycleFlags
  }

  /** A second cable lift hill (the `else if` after the photo test). */
  predicate SecondCableLift(a: TrackPlaceAction, t: Tables, ride: RideState)
  {
    a.trackType != t.ids.onRidePhoto && a.trackType == t.ids.cableLiftHill
    && CableLiftHillComponentUsed in ride.lifecycleFlags
  }

  /** A steep-up piece with the lift hill selected on a ride type without steep lift
      hills, the chain-lift cheat off. */
  predicate TooSteepLift(a: TrackPlaceAction, w: World, t: Tables, ride: RideState)
  {
    LiftHillSelected(a, t) && !Props(t, ride).steepLiftHill && !w.cheats.enableChainLiftOnAllTrack
    && t.trackFlags(a.trackType).isSteepUp
  }

  /** The DISALLOWED rules checked before any block is visited, in source order: the
      first rule that applies gives the refusal, flat rides skip the last three, and
      None means that no rule applies. */
  function ValidateRules(a: TrackPlaceAction, w: World, t: Tables, ride: RideState): (r: Option<ActionResult>)
    ensures StationLocked(a, t, ride) ==> r == Some(Fail(Disallowed, StrNotAllowedToModifyStation))
    ensures !StationLocked(a, t, ride) && PausedRefusal(a, w) ==>
      r == Some(Fail(Disallowed, StrConstructionNotPossibleWhileGameIsPaused))
    ensures !StationLocked(a, t, ride) && !PausedRefusal(a, w) && !Props(t, ride).flatRide ==>
      && (SecondPhoto(a, t, ride) ==> r == Some(Fail(Disallowed, StrOnlyOneOnRidePhotoPerRide)))
      && (!SecondPhoto(a, t, ride) && SecondCableLift(a, t, ride) ==> r == Some(Fail(Disallowed, StrOnlyOneCableLiftHillPerRide)))
      && (!SecondPhoto(a, t, ride) && !SecondCableLift(a, t, ride) && TooSteepLift(a, w, t, ride) ==>
            r == Some(Fail(Disallowed, StrTooSteepForLiftHill)))
    ensures r.None? <==>
      !StationLocked(a, t, ride) && !PausedRefusal(a, w)
      && (Props(t, ride).flatRide || (!SecondPhoto(a, t, ride) && !SecondCableLift(a, t, ride) && !TooSteepLift(a, w, t, ride)))
    ensures r.Some? ==> r.value.Failure? && r.value.error == Disallowed
  {
    if StationLocked(a, t, ride) then Some(Fail(Disallowed, StrNotAllowedToModifyStation))
    else if AllowWhilePaused !in ActionFlags(a) && w.paused && !w.cheats.buildInPauseMode then
      Some(Fail(Disallowed, StrConstructionNotPossibleWhileGameIsPaused))
    else if Props(t, ride).flatRide then None
    else if SecondPhoto(a, t, ride) then Some(Fail(Disallowed, StrOnlyOneOnRidePhotoPerRide))
    else if SecondCableLift(a, t, ride) then Some(Fail(Disallowed, StrOnlyOneCableLiftHillPerRide))
    else if TooSteepLift(a, w, t, ride) then Some(Fail(Disallowed, StrTooSteepForLiftHill))
    else None
  }

  // ---------------------------------------------------------------------------
  // First block pass: ownership (lines 151-180)

  /** The tile a block occupies in the ownership pass, at the origin's height. */
  function OwnershipTile(a: TrackPlaceAction, b: TrackBlock): CoordsXYZ
    requires 0 <= a.origin.direction < 4
  {
    var off := RotateOffset(b.x, b.y, a.origin.direction);
    CoordsXYZ(a.origin.x + off.0, a.origin.y + off.1, a.origin.z)
  }

  /** Every block of the piece stands on land the park owns. */
  predicate AllOwned(a: TrackPlaceAction, w: World, blocks: seq<TrackBlock>)
    requires 0 <= a.origin.direction < 4
  {
    forall i :: 0 <= i < |blocks| ==> w.owned(OwnershipTile(a, blocks[i]))
  }

  /** The ownership loop: fails at the first unowned block unless sandbox mode is on,
      and otherwise counts every block. */
  method OwnershipPass(a: TrackPlaceAction, w: World, blocks: seq<TrackBlock>) returns (ok: bool, numElements: nat)
    requires 0 <= a.origin.direction < 4
    ensures ok <==> w.cheats.sandboxMode || AllOwned(a, w, blocks)
    ensures ok ==> numElements == |blocks|
  {
    numElements := 0;
    var i := 0;
    while i < |blocks|
      invariant 0 <= i <= |blocks| && numElements == i
      invariant w.cheats.sandboxMode || forall k :: 0 <= k < i ==> w.owned(OwnershipTile(a, blocks[k]))
    {
      if !w.owned(OwnershipTile(a, blocks[i])) && !w.cheats.sandboxMode {
        return false, numElements;
      }
      numElements := numElements + 1;
      i := i + 1;
    }
    ok := true;
  }

  // ---------------------------------------------------------------------------
  // Second block pass: per-block checks, cost and apply-mode updates (lines 206-636)

  /** The inputs the second pass reads but never changes. */
  datatype Env = Env(a: TrackPlaceAction, w: World, t: Tables, props: RideTypeProps, entry: RideEntry)

  predicate ValidEnv(e: Env)
  {
    0 <= e.a.origin.direction < 4
  }

  /** The state the second pass carries from block to block: `cost`, gTrackGroundFlags,
      gMapGroundFlags, `trackpieceZ`, the ride record and the elements inserted so far. */
  datatype PassState = PassState(
    cost: int, trackGround: GroundFlags, mapGround: GroundFlags, trackpieceZ: int,
    ride: RideState, placed: seq<PlacedTrack>)

  /** What the checks of one block compute when they all pass. */
  datatype Checked = Checked(
    x: int, y: int, baseZ: int, clearanceZ: int, mask: bv8,
    cost: int, trackGround: GroundFlags, mapGround: GroundFlags, z: int)

  function BlockX(e: Env, b: TrackBlock): int
    requires ValidEnv(e)
  {
    e.a.origin.x + RotateOffset(b.x, b.y, e.a.origin.direction).0
  }

  function BlockY(e: Env, b: TrackBlock): int
    requires ValidEnv(e)
  {
    e.a.origin.y + RotateOffset(b.x, b.y, e.a.origin.direction).1
  }

  function BlockZ(e: Env, b: TrackBlock): int
  {
    e.a.origin.z + b.z
  }

  function BlockClearanceZ(e: Env, b: TrackBlock): int
  {
    TruncDiv(b.var07 + ClearanceHeight(b.var09, e.props.clearanceHeight), 8) + BlockZ(e, b) / 8
  }

  /** The support height limit of the ride: the entry's own limit for independent ride
      types that set one, else the ride group's, else the ride type's. */
  function MaxSupportHeight(e: Env, rideType: int): int
  {
    if e.props.independent && e.entry.maxHeight != 0 then e.entry.maxHeight
    else if e.props.hasRideGroups then e.t.rideGroupMaxHeight(rideType, e.entry)
    else e.props.maxHeight
  }

  /** The water rule for rides that must be built on water; it reads the surface at the
      origin's x and y. */
  function WaterError(e: Env, baseZ: int): Option<ActionResult>
  {
    if !e.props.mustBeOnWater || e.w.byte9D8150 then None
    else
      var s := e.w.surface(e.a.origin.x, e.a.origin.y);
      var waterHeight := (s.waterHeight * 2) % 256;
      if waterHeight == 0 || waterHeight != baseZ then Some(Fail(Undefined, StrCanOnlyBuildThisOnWater))
      else if waterHeight - 2 == s.baseHeight && OneCornerDown(s.slope) then Some(Fail(Undefined, StrCanOnlyBuildThisOnWater))
      else None
  }

  /** The clearance test is made unless the clearance cheat is on, and always for ghosts. */
  predicate ClearanceTested(e: Env)
  {
    !e.w.cheats.disableClearanceChecks || e.a.base.flags.isGhost
  }

  /** The arguments of the clearance test for one block; a flat piece of a miniature
      railway may cross paths. */
  function BlockClearQuery(e: Env, rideType: int, b: TrackBlock): ClearQuery
    requires ValidEnv(e)
  {
    var crossing := rideType == e.t.ids.miniatureRailway && e.a.trackType == e.t.ids.flat;
    ClearQuery(BlockX(e, b), BlockY(e, b), BlockZ(e, b) / 8, BlockClearanceZ(e, b),
               RotateQuarterMask(b.var08, e.a.origin.direction), e.a.base.flags, crossing)
  }

  /** The ground flags of the clearance test (or the stale ones when the test is skipped),
      and the cost it adds. */
  function ClearStep(e: Env, st: PassState, b: TrackBlock): Outcome<(int, GroundFlags)>
    requires ValidEnv(e)
  {
    if ClearanceTested(e) then
      match e.w.clear(BlockClearQuery(e, st.ride.rideType, b))
      case Blocked(msg) => Stop(Fail(Undefined, msg))
      case Cleared(c, g) => Pass((st.cost + c, g))
    else Pass((st.cost, st.mapGround))
  }

  /** What a block that passes every check adds to the cost: what the clearance test
      removes and the supports under the block. */
  function BlockCost(e: Env, rideType: int, b: TrackBlock): int
    requires ValidEnv(e)
  {
    var cleared :=
      if ClearanceTested(e) then
        match e.w.clear(BlockClearQuery(e, rideType, b))
        case Cleared(c, _) => c
        case Blocked(_) => 0
      else 0;
    var s := e.w.surface(BlockX(e, b), BlockY(e, b));
    cleared + SupportCost(BlockZ(e, b) / 8, s.baseHeight, e.props.supportPrice)
  }

  /** The ground rules that follow the clearance test: no piece partly above and partly
      below ground, above-ground-only and underwater rules. */
  function GroundError(e: Env, st: PassState, mapGround: GroundFlags): Option<ActionResult>
  {
    var bh := GroundFlags(mapGround.aboveGround, mapGround.underground, false);
    var flags := PieceFlagsOf(e.t, st.ride, e.a.trackType);
    if (st.trackGround.aboveGround || st.trackGround.underground)
       && !(st.trackGround.aboveGround && bh.aboveGround)
       && !(st.trackGround.underground && bh.underground) then
      Some(Fail(Undefined, StrCantBuildPartlyAboveAndPartlyBelowGround))
    else if flags.onlyAboveGround && bh.underground then
      Some(Fail(Undefined, StrCanOnlyBuildThisAboveGround))
    else if e.props.flatRide && flags.onlyUnderwater && !mapGround.underwater then
      Some(Fail(Undefined, StrCanOnlyBuildThisUnderwater))
    else if !e.props.flatRide && flags.onlyUnderwater && mapGround.underwater then
      Some(Fail(Undefined, StrCanOnlyBuildThisUnderwater))
    else if mapGround.underwater && !e.w.cheats.disableClearanceChecks then
      Some(Fail(Undefined, StrRideCantBuildThisUnderwater))
    else None
  }

  function OriginFlag(e: Env, trackType: int): bool
  {
    if e.props.flatRide then e.t.flatOrigin(trackType) else e.t.origin(trackType)
  }

  /** The support-height rule (skipped by the support-limits cheat). */
  function SupportError(e: Env, rideType: int, clearanceZ: int, surfaceBase: int): Option<ActionResult>
  {
    var rideHeight := clearanceZ - surfaceBase;
    if e.w.cheats.disableSupportLimits || rideHeight < 0 then None
    else if rideHeight / 2 > MaxSupportHeight(e, rideType) && !e.w.byte9D8150 then
      Some(Fail(Undefined, StrTooHighForSupports))
    else None
  }

  /** Every check of one block, in source order. */
  function BlockCheck(e: Env, st: PassState, b: TrackBlock): (r: Outcome<Checked>)
    requires ValidEnv(e)
    ensures r.Stop? ==> r.result.Failure?
    ensures BlockZ(e, b) < 16 ==> r == Stop(Fail(Undefined, StrTooLow))
    ensures BlockZ(e, b) >= 16 && BlockClearanceZ(e, b) >= 255 ==> r == Stop(Fail(Undefined, StrTooHigh))
    ensures r.Pass? ==>
      && r.value.x == BlockX(e, b) && r.value.y == BlockY(e, b)
      && r.value.z == BlockZ(e, b) >= 16 && r.value.baseZ == r.value.z / 8
      && r.value.clearanceZ == BlockClearanceZ(e, b) < 255
      && r.value.mask == RotateQuarterMask(b.var08, e.a.origin.direction)
      && r.value.trackGround == GroundFlags(r.value.mapGround.aboveGround, r.value.mapGround.underground, false)
      && r.value.cost == st.cost + BlockCost(e, st.ride.rideType, b)
    ensures r.Pass? && (st.trackGround.aboveGround || st.trackGround.underground) ==>
      (st.trackGround.aboveGround && r.value.trackGround.aboveGround)
      || (st.trackGround.underground && r.value.trackGround.underground)
  {
    var d := e.a.origin.direction;
    var x, y := BlockX(e, b), BlockY(e, b);
    var mask := RotateQuarterMask(b.var08, d);
    var z := BlockZ(e, b);
    if z < 16 then Stop(Fail(Undefined, StrTooLow))
    else
      var baseZ := z / 8;
      var clearanceZ := BlockClearanceZ(e, b);
      if clearanceZ >= 255 then Stop(Fail(Undefined, StrTooHigh))
      else
        match ClearStep(e, st, b)
        case Stop(res) => Stop(res)
        case Pass(cg) =>
          var (cost, mapGround) := cg;
          var trackGround := GroundFlags(mapGround.aboveGround, mapGround.underground, false);
          var ground := GroundError(e, st, mapGround);
          if ground.Some? then Stop(ground.value)
          else
            var water := WaterError(e, baseZ);
            if water.Some? then Stop(water.value)
            else
              var station :=
                if OriginFlag(e, e.a.trackType) && b.index == 0
                then e.w.stationError(StationQuery(x, y, baseZ, d, e.a.rideIndex))
                else None;
              if station.Some? then Stop(Fail(Undefined, station.value))
              else
                var s := e.w.surface(x, y);
                var support := SupportError(e, st.ride.rideType, clearanceZ, s.baseHeight);
                if support.Some? then Stop(support.value)
                else
                  Pass(Checked(x, y, baseZ, clearanceZ, mask,
                               cost + SupportCost(baseZ, s.baseHeight, e.props.supportPrice),
                               trackGround, mapGround, z))
  }

  function IsUpToFlat(t: Tables, trackType: int): bool
  {
    trackType == t.ids.up25ToFlat || trackType == t.ids.up60ToFlat
    || trackType == t.ids.diagUp25ToFlat || trackType == t.ids.diagUp60ToFlat
  }

  /** The first block of a cable lift hill piece (the photo case is tested first). */
  predicate CableLiftStart(e: Env, b: TrackBlock)
  {
    e.a.trackType != e.t.ids.onRidePhoto && e.a.trackType == e.t.ids.cableLiftHill && b.index == 0
  }

  /** The ride record after the apply-mode updates of one block. Every field of the
      record is accounted for: type and subtype never change; the photo and cable lift
      flags are the only lifecycle flags added; the cable lift position is set only by the
      first block of a cable lift hill; the block-brake count grows by at most two; the
      mode changes only for block brakes; the overall view is either kept or moved to the
      block's tile. */
  function ApplyRide(e: Env, ride: RideState, b: TrackBlock, c: Checked): (r: RideState)
    ensures r.rideType == ride.rideType && r.subtype == ride.subtype
    ensures ride.lifecycleFlags <= r.lifecycleFlags <= ride.lifecycleFlags + {OnRidePhotoUsed, CableLiftHillComponentUsed}
    ensures e.a.trackType == e.t.ids.onRidePhoto ==> OnRidePhotoUsed in r.lifecycleFlags
    ensures OnRidePhotoUsed in r.lifecycleFlags - ride.lifecycleFlags ==> e.a.trackType == e.t.ids.onRidePhoto
    ensures CableLiftStart(e, b) ==>
      CableLiftHillComponentUsed in r.lifecycleFlags && r.cableLift == CoordsXYZ(c.x, c.y, c.baseZ)
      && r.numBlockBrakes == ride.numBlockBrakes + 1
    ensures !CableLiftStart(e, b) ==>
      r.cableLift == ride.cableLift
      && (CableLiftHillComponentUsed in r.lifecycleFlags <==> CableLiftHillComponentUsed in ride.lifecycleFlags)
    ensures ride.numBlockBrakes <= r.numBlockBrakes <= ride.numBlockBrakes + 2
    ensures b.index != 0 && e.a.trackType != e.t.ids.blockBrakes ==> r.numBlockBrakes == ride.numBlockBrakes
    ensures PlacesBlockBrakes(e) ==> r.numBlockBrakes == ride.numBlockBrakes + 1
    ensures (b.index == 0 && IsUpToFlat(e.t, e.a.trackType) && LiftHillSelected(e.a, e.t)
             && e.a.trackType != e.t.ids.blockBrakes && e.a.trackType != e.t.ids.cableLiftHill)
            ==> r.numBlockBrakes == ride.numBlockBrakes + 1
    ensures r.mode != ride.mode ==> e.a.trackType == e.t.ids.blockBrakes
    ensures e.a.trackType == e.t.ids.blockBrakes && e.a.trackType != e.t.ids.onRidePhoto
            && e.a.trackType != e.t.ids.cableLiftHill ==>
      r.mode == (if ride.rideType == e.t.ids.limLaunchedRollerCoaster then PoweredLaunchBlockSectioned
                 else ContinuousCircuitBlockSectioned)
    ensures ride.overallView.None? ==> r.overallView == Some((TruncDiv(c.x, 32), TruncDiv(c.y, 32)))
    ensures r.overallView == ride.overallView || r.overallView == Some((TruncDiv(c.x, 32), TruncDiv(c.y, 32)))
    ensures ride.overallView.Some? && e.a.base.flags.flag5 ==> r.overallView == ride.overallView
  {
    var t := e.t.ids;
    var tt := e.a.trackType;
    var r1 :=
      if tt == t.onRidePhoto then ride.(lifecycleFlags := ride.lifecycleFlags + {OnRidePhotoUsed})
      else if tt == t.cableLiftHill then
        (if b.index != 0 then ride
         else ride.(lifecycleFlags := ride.lifecycleFlags + {CableLiftHillComponentUsed},
                    cableLift := CoordsXYZ(c.x, c.y, c.baseZ)))
      else if tt == t.blockBrakes then
        ride.(numBlockBrakes := ride.numBlockBrakes + 1,
              mode := if ride.rideType == t.limLaunchedRollerCoaster then PoweredLaunchBlockSectioned
                      else ContinuousCircuitBlockSectioned)
      else ride;
    var r2 :=
      if b.index == 0 && ((IsUpToFlat(e.t, tt) && LiftHillSelected(e.a, e.t)) || tt == t.cableLiftHill)
      then r1.(numBlockBrakes := r1.numBlockBrakes + 1) else r1;
    var originView := r2.overallView.Some? && !e.a.base.flags.flag5 && OriginFlag(e, tt);
    if originView || r2.overallView.None? then
      r2.(overallView := Some((TruncDiv(c.x, 32), TruncDiv(c.y, 32))))
    else r2
  }

  /** The track element inserted for one block in apply mode. */
  function PlacedElement(e: Env, b: TrackBlock, c: Checked): (p: PlacedTrack)
    requires ValidEnv(e)
    ensures p.tileX == TruncDiv(c.x, 32) && p.tileY == TruncDiv(c.y, 32)
    ensures p.quarterMask == NibbleRotate(b.var08 & 0x0F, e.a.origin.direction)
    ensures p.direction == e.a.origin.direction
    ensures p.rideIndex == e.a.rideIndex && p.trackType == e.a.trackType
    ensures p.sequence == b.index && p.baseZ == c.baseZ && p.clearanceZ == c.clearanceZ
    ensures p.hasChain == LiftHillSelected(e.a, e.t) && p.isGhost == e.a.base.flags.isGhost
    ensures e.t.hasSpeedSetting(e.a.trackType) ==> p.brakeSpeed == Some(e.a.brakeSpeed) && p.seatRotation.None?
    ensures !e.t.hasSpeedSetting(e.a.trackType) ==> p.brakeSpeed.None? && p.seatRotation == Some(e.a.seatRotation)
    ensures p.inverted == BitSet(e.a.trackPlaceFlags, e.t.ids.alternativeTrackTypeBit) && p.colour == e.a.colour
  {
    var speed := e.t.hasSpeedSetting(e.a.trackType);
    var mask := RotateQuarterMask(b.var08, e.a.origin.direction);
    PlacedTrack(
      TruncDiv(c.x, 32), TruncDiv(c.y, 32), c.baseZ, c.clearanceZ,
      mask & 0x0F, e.a.origin.direction,
      LiftHillSelected(e.a, e.t), b.index, e.a.rideIndex, e.a.trackType, e.a.base.flags.isGhost,
      if speed then Some(e.a.brakeSpeed) else None,
      if speed then None else Some(e.a.seatRotation),
      BitSet(e.a.trackPlaceFlags, e.t.ids.alternativeTrackTypeBit),
      e.a.colour)
  }

  /** One iteration of the second pass: the block's checks, then, in apply mode, its
      updates. A block that fails leaves the state as the previous blocks left it. */
  function BlockStep(e: Env, st: PassState, b: TrackBlock): (r: Outcome<PassState>)
    requires ValidEnv(e)
    ensures r.Stop? ==> r.result.Failure?
    ensures r.Pass? ==> BlockZ(e, b) >= 16 && BlockClearanceZ(e, b) < 255
    ensures r.Pass? ==> r.value.ride.rideType == st.ride.rideType
    ensures r.Pass? ==> r.value.cost == st.cost + BlockCost(e, st.ride.rideType, b)
    ensures r.Pass? && !e.a.base.flags.apply ==> r.value.ride == st.ride && r.value.placed == st.placed
    ensures r.Pass? && e.a.base.flags.apply ==>
      && |r.value.placed| == |st.placed| + 1 && r.value.placed[..|st.placed|] == st.placed
      && PlacedFor(e, r.value.placed[|st.placed|], b)
  {
    match BlockCheck(e, st, b)
    case Stop(res) => Stop(res)
    case Pass(c) =>
      var st1 := st.(cost := c.cost, trackGround := c.trackGround, mapGround := c.mapGround, trackpieceZ := c.z);
      if !e.a.base.flags.apply then Pass(st1)
      else Pass(st1.(ride := ApplyRide(e, st.ride, b, c), placed := st.placed + [PlacedElement(e, b, c)]))
  }

  /** The result of running the pass over the first n blocks: the state reached and,
      when a block failed, its failure. */
  datatype PassResult = PassResult(state: PassState, stop: Option<ActionResult>)

  /** The pass over the first n blocks for a block step `step`: the state reached and,
      when a block failed, its failure; no block after a failure is looked at. */
  function Fold(step: (PassState, TrackBlock) -> Outcome<PassState>, st0: PassState, blocks: seq<TrackBlock>, n: nat): PassResult
    requires n <= |blocks|
  {
    if n == 0 then PassResult(st0, None)
    else
      var prev := Fold(step, st0, blocks, n - 1);
      if prev.stop.Some? then prev
      else match step(prev.state, blocks[n - 1])
        case Stop(res) => PassResult(prev.state, Some(res))
        case Pass(st) => PassResult(st, None)
  }

  /** BlockStep as a function value. */
  function StepOf(e: Env): (PassState, TrackBlock) -> Outcome<PassState>
    requires ValidEnv(e)
  {
    (st: PassState, b: TrackBlock) => BlockStep(e, st, b)
  }

  /** The second pass over the first n blocks. */
  function BlockPass(e: Env, st0: PassState, blocks: seq<TrackBlock>, n: nat): (r: PassResult)
    requires ValidEnv(e) && n <= |blocks|
    ensures r.stop.Some? ==> r.stop.value.Failure?
  {
    StepOfSpec(e);
    BlockPassFails(e, StepOf(e), st0, blocks, n);
    Fold(StepOf(e), st0, blocks, n)
  }

  /** Block brakes placed with none of the other piece-specific updates applying. */
  predicate PlacesBlockBrakes(e: Env)
  {
    e.a.trackType == e.t.ids.blockBrakes
    && e.t.ids.blockBrakes != e.t.ids.onRidePhoto && e.t.ids.blockBrakes != e.t.ids.cableLiftHill
    && !IsUpToFlat(e.t, e.t.ids.blockBrakes)
  }

  /** What one block step promises about its outcome r from state st on block b. */
  predicate StepFacts(e: Env, st: PassState, b: TrackBlock, r: Outcome<PassState>)
    requires ValidEnv(e)
  {
    (r.Stop? ==> r.result.Failure?)
    && (r.Pass? ==>
          WithinHeightLimits(e, b) && r.value.ride.rideType == st.ride.rideType
          && r.value.cost == st.cost + BlockCost(e, st.ride.rideType, b))
    && (r.Pass? && !e.a.base.flags.apply ==> r.value.ride == st.ride && r.value.placed == st.placed)
    && (r.Pass? && e.a.base.flags.apply ==>
          |r.value.placed| == |st.placed| + 1 && r.value.placed[..|st.placed|] == st.placed
          && PlacedFor(e, r.value.placed[|st.placed|], b))
    && (r.Pass? && e.a.base.flags.apply && PlacesBlockBrakes(e) ==>
          r.value.ride.numBlockBrakes == st.ride.numBlockBrakes + 1
          && r.value.ride.mode == BlockSectionedMode(e.t, st.ride.rideType))
  }

  /** A block step that keeps StepFacts on every state and block. */
  ghost predicate StepSpec(e: Env, step: (PassState, TrackBlock) -> Outcome<PassState>)
    requires ValidEnv(e)
  {
    forall st: PassState, b: TrackBlock {:trigger step(st, b)} :: StepFacts(e, st, b, step(st, b))
  }

  /** BlockStep keeps its promises: a failing block fails with a failure result; a passing
      block was within the height limits, kept the ride type, added its cost, and in apply
      mode inserted its element (and, for block brakes, counted one more block brake). */
  lemma BlockStepFacts(e: Env, st: PassState, b: TrackBlock)
    requires ValidEnv(e)
    ensures StepFacts(e, st, b, BlockStep(e, st, b))
  {
  }

  lemma StepOfSpec(e: Env)
    requires ValidEnv(e)
    ensures StepSpec(e, StepOf(e))
  {
    forall st: PassState, b: TrackBlock
      ensures StepFacts(e, st, b, StepOf(e)(st, b))
    {
      BlockStepFacts(e, st, b);
    }
  }

  /** A pass stops only with a failure. */
  lemma {:induction false} BlockPassFails(e: Env, step: (PassState, TrackBlock) -> Outcome<PassState>, st0: PassState, blocks: seq<TrackBlock>, n: nat)
    requires ValidEnv(e) && StepSpec(e, step) && n <= |blocks|
    ensures Fold(step, st0, blocks, n).stop.Some? ==> Fold(step, st0, blocks, n).stop.value.Failure?
  {
    if n > 0 {
      BlockPassFails(e, step, st0, blocks, n - 1);
    }
  }

  // ---------------------------------------------------------------------------
  // The whole query

  datatype QueryOutcome = QueryOutcome(result: ActionResult, ride: Option<RideState>, placed: seq<PlacedTrack>)

  function InitialPassState(a: TrackPlaceAction, w: World, ride: RideState): PassState
  {
    PassState(0, NoGround, w.mapGround, a.origin.z, ride, [])
  }

  function ResultPosition(a: TrackPlaceAction): CoordsXYZ
  {
    CoordsXYZ(a.origin.x + 16, a.origin.y + 16, a.origin.z)
  }

  function PiecePricing(t: Tables, ride: RideState, trackType: int): int
  {
    if Props(t, ride).flatRide then t.flatTrackPricing(trackType) else t.trackPricing(trackType)
  }

  /** TrackPlaceAction::Query: the validation chain, both block passes and the price. */
  function QuerySpec(a: TrackPlaceAction, w: World, t: Tables, ride: Option<RideState>): (q: QueryOutcome)
    ensures ValidateRide(a, t, ride).Stop? ==> q.result == Fail(InvalidParameters, StrNone) && q.placed == []
    ensures ValidateRide(a, t, ride).Pass? && ValidateRules(a, w, t, ride.value).None?
            && !w.cheats.sandboxMode && !AllOwned(a, w, t.blocks(ride.value.rideType, a.trackType)) ==>
      q.result == Fail(Disallowed, StrLandNotOwnedByPark) && q.placed == []
    ensures ValidateRide(a, t, ride).Pass? && ValidateRules(a, w, t, ride.value).None?
            && (w.cheats.sandboxMode || AllOwned(a, w, t.blocks(ride.value.rideType, a.trackType)))
            && !w.freeElements(|t.blocks(ride.value.rideType, a.trackType)|) ==>
      q.result == Fail(NoFreeElements, StrTileElementLimitReached) && q.placed == []
    ensures ValidateRide(a, t, ride).Pass? && ValidateRules(a, w, t, ride.value).None?
            && (w.cheats.sandboxMode || AllOwned(a, w, t.blocks(ride.value.rideType, a.trackType)))
            && w.freeElements(|t.blocks(ride.value.rideType, a.trackType)|)
            && !HeightAligned(a.origin.z, PieceFlagsOf(t, ride.value, a.trackType).startsAtHalfHeight) ==>
      q.result == Fail(InvalidParameters, StrConstructionErrUnknown) && q.placed == []
    ensures q.result.Success? ==>
      ValidateRide(a, t, ride).Pass? && ValidateRules(a, w, t, ride.value).None?
      && q.result.position == ResultPosition(a) && q.ride.Some?
  {
    match ValidateRide(a, t, ride)
    case Stop(res) => QueryOutcome(res, ride, [])
    case Pass(entry) =>
      var r := ride.value;
      var rules := ValidateRules(a, w, t, r);
      if rules.Some? then QueryOutcome(rules.value, ride, [])
      else
        var blocks := t.blocks(r.rideType, a.trackType);
        if !w.cheats.sandboxMode && !AllOwned(a, w, blocks) then
          QueryOutcome(Fail(Disallowed, StrLandNotOwnedByPark), ride, [])
        else if !w.freeElements(|blocks|) then
          QueryOutcome(Fail(NoFreeElements, StrTileElementLimitReached), ride, [])
        else if !HeightAligned(a.origin.z, PieceFlagsOf(t, r, a.trackType).startsAtHalfHeight) then
          QueryOutcome(Fail(InvalidParameters, StrConstructionErrUnknown), ride, [])
        else
          var e := Env(a, w, t, Props(t, r), entry);
          var pass := BlockPass(e, InitialPassState(a, w, r), blocks, |blocks|);
          if pass.stop.Some? then QueryOutcome(pass.stop.value, Some(pass.state.ride), pass.state.placed)
          else
            var price := FinalPrice(pass.state.cost, e.props.trackPrice, PiecePricing(t, r, a.trackType), w.noMoney);
            QueryOutcome(Success(ResultPosition(a), price), Some(pass.state.ride), pass.state.placed)
  }

  /** The apply-mode updates of one block, made on the ride's fields. */
  method ApplyInPlace(e: Env, ride: Ride, b: TrackBlock, c: Checked)
    modifies ride
    ensures ride.State() == ApplyRide(e, old(ride.State()), b, c)
  {
    var ids := e.t.ids;
    var tt := e.a.trackType;
    if tt == ids.onRidePhoto {
      ride.lifecycleFlags := ride.lifecycleFlags + {OnRidePhotoUsed};
    } else if tt == ids.cableLiftHill {
      if b.index == 0 {
        ride.lifecycleFlags := ride.lifecycleFlags + {CableLiftHillComponentUsed};
        ride.cableLift := CoordsXYZ(c.x, c.y, c.baseZ);
      }
    } else if tt == ids.blockBrakes {
      ride.numBlockBrakes := ride.numBlockBrakes + 1;
      ride.mode := ContinuousCircuitBlockSectioned;
      if ride.rideType == ids.limLaunchedRollerCoaster {
        ride.mode := PoweredLaunchBlockSectioned;
      }
    }
    if b.index == 0 && ((IsUpToFlat(e.t, tt) && LiftHillSelected(e.a, e.t)) || tt == ids.cableLiftHill) {
      ride.numBlockBrakes := ride.numBlockBrakes + 1;
    }
    var originView := false;
    if ride.overallView.Some? && !e.a.base.flags.flag5 {
      originView := OriginFlag(e, tt);
    }
    if originView || ride.overallView.None? {
      ride.overallView := Some((TruncDiv(c.x, 32), TruncDiv(c.y, 32)));
    }
  }

  /** One block of the second loop made on the ride in place: the checks, and in apply
      mode the ride's updates and the inserted element. */
  method StepInPlace(e: Env, ride: Ride, st: PassState, b: TrackBlock) returns (stop: Option<ActionResult>, next: PassState)
    requires ValidEnv(e) && st.ride == ride.State()
    modifies ride
    ensures next.ride == ride.State()
    ensures BlockStep(e, st, b).Stop? ==> stop == Some(BlockStep(e, st, b).result) && ride.State() == st.ride
    ensures BlockStep(e, st, b).Pass? ==> stop.None? && next == BlockStep(e, st, b).value
  {
    var check := BlockCheck(e, st, b);
    if check.Stop? {
      return Some(check.result), st;
    }
    var c := check.value;
    next := st.(cost := c.cost, trackGround := c.trackGround, mapGround := c.mapGround, trackpieceZ := c.z);
    if e.a.base.flags.apply {
      ApplyInPlace(e, ride, b, c);
      next := next.(ride := ride.State(), placed := st.placed + [PlacedElement(e, b, c)]);
    }
    stop := None;
  }

  /** One more block of the pass, when the earlier ones all passed. */
  lemma BlockPassNext(step: (PassState, TrackBlock) -> Outcome<PassState>, st0: PassState, blocks: seq<TrackBlock>, i: nat)
    requires i < |blocks| && Fold(step, st0, blocks, i).stop.None?
    ensures var st := Fold(step, st0, blocks, i).state;
      step(st, blocks[i]).Stop? ==>
        Fold(step, st0, blocks, i + 1) == PassResult(st, Some(step(st, blocks[i]).result))
    ensures var st := Fold(step, st0, blocks, i).state;
      step(st, blocks[i]).Pass? ==>
        Fold(step, st0, blocks, i + 1) == PassResult(step(st, blocks[i]).value, None)
  {
  }

  /** The second block loop. In apply mode it updates the ride's fields in place, one
      block at a time; a failing block stops the loop and keeps what earlier blocks did. */
  method SecondPass(e: Env, ride: Ride, blocks: seq<TrackBlock>) returns (stop: Option<ActionResult>, cost: int, placed: seq<PlacedTrack>)
    requires ValidEnv(e)
    modifies ride
    ensures var p := BlockPass(e, InitialPassState(e.a, e.w, old(ride.State())), blocks, |blocks|);
      stop == p.stop && cost == p.state.cost && placed == p.state.placed && ride.State() == p.state.ride
  {
    var st := InitialPassState(e.a, e.w, ride.State());
    ghost var st0 := st;
    var i := 0;
    while i < |blocks|
      invariant 0 <= i <= |blocks|
      invariant st.ride == ride.State()
      invariant BlockPass(e, st0, blocks, i) == PassResult(st, None)
    {
      BlockPassNext(StepOf(e), st0, blocks, i);
      var s, next := StepInPlace(e, ride, st, blocks[i]);
      if s.Some? {
        BlockPassStops(StepOf(e), st0, blocks, i + 1, |blocks|);
        return s, st.cost, st.placed;
      }
      st := next;
      i := i + 1;
    }
    stop, cost, placed := None, st.cost, st.placed;
  }

  /** A failure in the first n blocks is the failure of the whole pass. */
  lemma {:induction false} BlockPassStops(step: (PassState, TrackBlock) -> Outcome<PassState>, st0: PassState, blocks: seq<TrackBlock>, n: nat, m: nat)
    requires n <= m <= |blocks|
    requires Fold(step, st0, blocks, n).stop.Some?
    ensures Fold(step, st0, blocks, m) == Fold(step, st0, blocks, n)
  {
    if m > n {
      BlockPassStops(step, st0, blocks, n, m - 1);
    }
  }

  /** TrackPlaceAction::Query as the source runs it: the checks, the ownership loop, the
      capacity and height checks, then the second loop, which in apply mode updates the
      ride in place. `ride` is what get_ride(_rideIndex) returned (null when there is none). */
  method Query(a: TrackPlaceAction, w: World, t: Tables, ride: Ride?) returns (r: ActionResult, placed: seq<PlacedTrack>)
    modifies ride
    ensures var q := QuerySpec(a, w, t, if ride == null then None else Some(old(ride.State())));
      r == q.result && placed == q.placed && (ride != null ==> q.ride == Some(ride.State()))
  {
    placed := [];
    var rideState := if ride == null then None else Some(ride.State());
    var checked := ValidateRide(a, t, rideState);
    if checked.Stop? {
      return checked.result, placed;
    }
    var rules := ValidateRules(a, w, t, ride.State());
    if rules.Some? {
      return rules.value, placed;
    }
    var blocks := t.blocks(ride.rideType, a.trackType);
    var owned, numElements := OwnershipPass(a, w, blocks);
    if !owned {
      return Fail(Disallowed, StrLandNotOwnedByPark), placed;
    }
    if !w.freeElements(numElements) {
      return Fail(NoFreeElements, StrTileElementLimitReached), placed;
    }
    if !HeightAligned(a.origin.z, PieceFlagsOf(t, ride.State(), a.trackType).startsAtHalfHeight) {
      return Fail(InvalidParameters, StrConstructionErrUnknown), placed;
    }
    var e := Env(a, w, t, Props(t, ride.State()), checked.value);
    var pricing := PiecePricing(t, ride.State(), a.trackType);
    var stop, cost;
    stop, cost, placed := SecondPass(e, ride, blocks);
    if stop.Some? {
      return stop.value, placed;
    }
    r := Success(ResultPosition(a), FinalPrice(cost, e.props.trackPrice, pricing, w.noMoney));
  }

  // ---------------------------------------------------------------------------
  // Properties of the second pass

  /** The sum of the block costs of the first n blocks. */
  function TotalCost(e: Env, rideType: int, blocks: seq<TrackBlock>, n: nat): int
    requires ValidEnv(e) && n <= |blocks|
  {
    if n == 0 then 0 else TotalCost(e, rideType, blocks, n - 1) + BlockCost(e, rideType, blocks[n - 1])
  }

  /** The pass never changes the ride's type; outside apply mode it changes neither the
      ride nor the list of inserted elements. */
  lemma {:induction false} BlockPassKeepsRide(e: Env, step: (PassState, TrackBlock) -> Outcome<PassState>, st0: PassState, blocks: seq<TrackBlock>, n: nat)
    requires ValidEnv(e) && StepSpec(e, step) && n <= |blocks|
    ensures Fold(step, st0, blocks, n).state.ride.rideType == st0.ride.rideType
    ensures !e.a.base.flags.apply ==>
      Fold(step, st0, blocks, n).state.ride == st0.ride && Fold(step, st0, blocks, n).state.placed == st0.placed
  {
    if n > 0 {
      BlockPassKeepsRide(e, step, st0, blocks, n - 1);
    }
  }

  /** When every block passes, each stood at least 16 units up and cleared below 255. */
  lemma {:induction false} BlockPassChecksEveryBlock(e: Env, step: (PassState, TrackBlock) -> Outcome<PassState>, st0: PassState, blocks: seq<TrackBlock>, n: nat)
    requires ValidEnv(e) && StepSpec(e, step) && n <= |blocks|
    requires Fold(step, st0, blocks, n).stop.None?
    ensures forall i :: 0 <= i < n ==> WithinHeightLimits(e, blocks[i])
  {
    if n > 0 {
      var prev := Fold(step, st0, blocks, n - 1);
      assert prev.stop.None?;
      assert StepFacts(e, prev.state, blocks[n - 1], step(prev.state, blocks[n - 1]));
      BlockPassChecksEveryBlock(e, step, st0, blocks, n - 1);
    }
  }

  /** When every block passes, the pass added exactly the sum of the block costs. */
  lemma {:induction false} BlockPassCost(e: Env, step: (PassState, TrackBlock) -> Outcome<PassState>, st0: PassState, blocks: seq<TrackBlock>, n: nat)
    requires ValidEnv(e) && StepSpec(e, step) && n <= |blocks|
    requires Fold(step, st0, blocks, n).stop.None?
    ensures Fold(step, st0, blocks, n).state.cost == st0.cost + TotalCost(e, st0.ride.rideType, blocks, n)
  {
    if n > 0 {
      var prev := Fold(step, st0, blocks, n - 1);
      assert prev.stop.None?;
      BlockPassCost(e, step, st0, blocks, n - 1);
      BlockPassKeepsRide(e, step, st0, blocks, n - 1);
      assert StepFacts(e, prev.state, blocks[n - 1], step(prev.state, blocks[n - 1]));
    }
  }

  /** A block at least 16 units up whose clearance stays below 255. */
  predicate WithinHeightLimits(e: Env, b: TrackBlock)
  {
    BlockZ(e, b) >= 16 && BlockClearanceZ(e, b) < 255
  }

  /** In apply mode a pass in which every block passes inserts one element per block, in
      block order, each with the block's sequence index and its quarter mask turned to the
      piece's direction. */
  lemma {:induction false} BlockPassPlacesEveryBlock(e: Env, step: (PassState, TrackBlock) -> Outcome<PassState>, st0: PassState, blocks: seq<TrackBlock>, n: nat)
    requires ValidEnv(e) && StepSpec(e, step) && n <= |blocks| && e.a.base.flags.apply
    requires Fold(step, st0, blocks, n).stop.None?
    ensures var placed := Fold(step, st0, blocks, n).state.placed;
      |placed| == |st0.placed| + n && placed[..|st0.placed|] == st0.placed
      && forall i :: 0 <= i < n ==> PlacedFor(e, placed[|st0.placed| + i], blocks[i])
  {
    if n > 0 {
      var prev := Fold(step, st0, blocks, n - 1);
      assert prev.stop.None?;
      BlockPassPlacesEveryBlock(e, step, st0, blocks, n - 1);
      assert StepFacts(e, prev.state, blocks[n - 1], step(prev.state, blocks[n - 1]));
      var next := step(prev.state, blocks[n - 1]).value;
      assert next == Fold(step, st0, blocks, n).state;
      forall i | 0 <= i < n
        ensures PlacedFor(e, next.placed[|st0.placed| + i], blocks[i])
      {
        if i < n - 1 {
          assert next.placed[|st0.placed| + i] == prev.state.placed[|st0.placed| + i];
        }
      }
      assert next.placed[..|st0.placed|] == prev.state.placed[..|st0.placed|];
    }
  }

  /** An inserted element that carries a block's sequence index, the action's ride and the
      block's quarter mask turned to the piece's direction. */
  predicate PlacedFor(e: Env, p: PlacedTrack, b: TrackBlock)
    requires ValidEnv(e)
  {
    p.sequence == b.index && p.rideIndex == e.a.rideIndex
    && p.quarterMask == NibbleRotate(b.var08 & 0x0F, e.a.origin.direction)
  }

  /** The block-sectioned operating mode block brakes switch a ride to. */
  function BlockSectionedMode(t: Tables, rideType: int): RideMode
  {
    if rideType == t.ids.limLaunchedRollerCoaster then PoweredLaunchBlockSectioned else ContinuousCircuitBlockSectioned
  }

  /** Placing block brakes in apply mode counts one block brake per block and switches
      the ride to a block-sectioned mode. */
  lemma {:induction false} BlockPassCountsBlockBrakes(e: Env, step: (PassState, TrackBlock) -> Outcome<PassState>, st0: PassState, blocks: seq<TrackBlock>, n: nat)
    requires ValidEnv(e) && StepSpec(e, step) && n <= |blocks| && e.a.base.flags.apply
    requires PlacesBlockBrakes(e)
    requires Fold(step, st0, blocks, n).stop.None?
    ensures Fold(step, st0, blocks, n).state.ride.numBlockBrakes == st0.ride.numBlockBrakes + n
    ensures n > 0 ==> Fold(step, st0, blocks, n).state.ride.mode == BlockSectionedMode(e.t, st0.ride.rideType)
  {
    if n > 0 {
      var prev := Fold(step, st0, blocks, n - 1);
      assert prev.stop.None?;
      BlockPassCountsBlockBrakes(e, step, st0, blocks, n - 1);
      BlockPassKeepsRide(e, step, st0, blocks, n - 1);
      assert StepFacts(e, prev.state, blocks[n - 1], step(prev.state, blocks[n - 1]));
    }
  }

  // ---------------------------------------------------------------------------
  // Properties of the query

  /** Without the apply flag the query changes nothing: the ride record is as it was and
      no element is inserted. */
  lemma QueryWithoutApplyChangesNothing(a: TrackPlaceAction, w: World, t: Tables, ride: Option<RideState>)
    requires !a.base.flags.apply
    ensures QuerySpec(a, w, t, ride).ride == ride
    ensures QuerySpec(a, w, t, ride).placed == []
  {
    if ValidateRide(a, t, ride).Pass? {
      var r := ride.value;
      var e := Env(a, w, t, Props(t, r), ValidateRide(a, t, ride).value);
      StepOfSpec(e);
      BlockPassKeepsRide(e, StepOf(e), InitialPassState(a, w, r), t.blocks(r.rideType, a.trackType), |t.blocks(r.rideType, a.trackType)|);
    }
  }

  /** A valid ride whose piece breaks one of the DISALLOWED rules is refused with that
      rule's message before any block is looked at: the ride is unchanged and nothing is
      inserted. A flat ride is refused only by the end-station and pause rules. */
  lemma QueryDisallowed(a: TrackPlaceAction, w: World, t: Tables, r: RideState)
    requires ValidateRide(a, t, Some(r)).Pass?
    requires StationLocked(a, t, r) || PausedRefusal(a, w)
             || (!Props(t, r).flatRide && (SecondPhoto(a, t, r) || SecondCableLift(a, t, r) || TooSteepLift(a, w, t, r)))
    ensures QuerySpec(a, w, t, Some(r)).result.Failure?
    ensures QuerySpec(a, w, t, Some(r)).result.error == Disallowed
    ensures QuerySpec(a, w, t, Some(r)).result == ValidateRules(a, w, t, r).value
    ensures QuerySpec(a, w, t, Some(r)).ride == Some(r) && QuerySpec(a, w, t, Some(r)).placed == []
  {
  }

  /** A successful placement had a valid ride and direction, owned land (or sandbox
      mode), room for its elements, a correctly aligned height, and every block high
      enough and low enough. Its position is the centre of the origin tile and its cost is
      the price of the piece over the summed block costs, or 0 in a no-money park. */
  lemma QuerySuccess(a: TrackPlaceAction, w: World, t: Tables, ride: Option<RideState>)
    requires QuerySpec(a, w, t, ride).result.Success?
    ensures ride.Some? && ride.value.rideType != RIDE_TYPE_NULL && 0 <= a.origin.direction < 4
    ensures var r := ride.value;
      var blocks := t.blocks(r.rideType, a.trackType);
      var e := Env(a, w, t, Props(t, r), t.rideEntries(r.subtype).value);
      && (w.cheats.sandboxMode || AllOwned(a, w, blocks))
      && w.freeElements(|blocks|)
      && HeightAligned(a.origin.z, PieceFlagsOf(t, r, a.trackType).startsAtHalfHeight)
      && (forall i :: 0 <= i < |blocks| ==> WithinHeightLimits(e, blocks[i]))
      && QuerySpec(a, w, t, ride).result.position == CoordsXYZ(a.origin.x + 16, a.origin.y + 16, a.origin.z)
      && QuerySpec(a, w, t, ride).result.cost ==
           FinalPrice(TotalCost(e, r.rideType, blocks, |blocks|), Props(t, r).trackPrice,
                      PiecePricing(t, r, a.trackType), w.noMoney)
  {
    assert ValidateRide(a, t, ride).Pass?;
    var r := ride.value;
    var blocks := t.blocks(r.rideType, a.trackType);
    var e := Env(a, w, t, Props(t, r), t.rideEntries(r.subtype).value);
    StepOfSpec(e);
    BlockPassChecksEveryBlock(e, StepOf(e), InitialPassState(a, w, r), blocks, |blocks|);
    BlockPassCost(e, StepOf(e), InitialPassState(a, w, r), blocks, |blocks|);
  }

  /** In apply mode a successful placement inserts one element per block of the piece. */
  lemma QueryApplyInsertsEveryBlock(a: TrackPlaceAction, w: World, t: Tables, ride: Option<RideState>)
    requires a.base.flags.apply && QuerySpec(a, w, t, ride).result.Success?
    ensures ride.Some?
    ensures var blocks := t.blocks(ride.value.rideType, a.trackType);
      var placed := QuerySpec(a, w, t, ride).placed;
      |placed| == |blocks|
      && forall i :: 0 <= i < |blocks| ==>
           placed[i].sequence == blocks[i].index && placed[i].rideIndex == a.rideIndex
           && placed[i].quarterMask == NibbleRotate(blocks[i].var08 & 0x0F, a.origin.direction)
  {
    assert ValidateRide(a, t, ride).Pass?;
    var r := ride.value;
    var blocks := t.blocks(r.rideType, a.trackType);
    var e := Env(a, w, t, Props(t, r), t.rideEntries(r.subtype).value);
    StepOfSpec(e);
    BlockPassPlacesEveryBlock(e, StepOf(e), InitialPassState(a, w, r), blocks, |blocks|);
    BlockPassRideIndex(e, StepOf(e), InitialPassState(a, w, r), blocks, |blocks|);
  }

  /** Every element the pass inserts belongs to the action's ride. */
  lemma {:induction false} BlockPassRideIndex(e: Env, step: (PassState, TrackBlock) -> Outcome<PassState>, st0: PassState, blocks: seq<TrackBlock>, n: nat)
    requires ValidEnv(e) && StepSpec(e, step) && n <= |blocks|
    ensures var placed := Fold(step, st0, blocks, n).state.placed;
      |st0.placed| <= |placed| && placed[..|st0.placed|] == st0.placed
      && forall i :: |st0.placed| <= i < |placed| ==> placed[i].rideIndex == e.a.rideIndex
  {
    if n > 0 {
      var prev := Fold(step, st0, blocks, n - 1);
      BlockPassRideIndex(e, step, st0, blocks, n - 1);
      if prev.stop.None? {
        var next := step(prev.state, blocks[n - 1]);
        assert StepFacts(e, prev.state, blocks[n - 1], next);
        if next.Pass? && e.a.base.flags.apply {
          assert next.value.placed[..|prev.state.placed|] == prev.state.placed;
          assert next.value.placed[..|st0.placed|] == prev.state.placed[..|st0.placed|];
        }
      }
    }
  }

  /** A successful block-brakes placement in apply mode adds one block brake per block
      and leaves the ride in a block-sectioned mode. */
  lemma QueryBlockBrakes(a: TrackPlaceAction, w: World, t: Tables, ride: Option<RideState>)
    requires a.base.flags.apply && QuerySpec(a, w, t, ride).result.Success?
    requires a.trackType == t.ids.blockBrakes
    requires t.ids.blockBrakes != t.ids.onRidePhoto && t.ids.blockBrakes != t.ids.cableLiftHill
    requires !IsUpToFlat(t, t.ids.blockBrakes)
    ensures ride.Some? && QuerySpec(a, w, t, ride).ride.Some?
    ensures var n := |t.blocks(ride.value.rideType, a.trackType)|;
      var after := QuerySpec(a, w, t, ride).ride.value;
      after.numBlockBrakes == ride.value.numBlockBrakes + n
      && (n > 0 ==> after.mode.ContinuousCircuitBlockSectioned? || after.mode.PoweredLaunchBlockSectioned?)
  {
    assert ValidateRide(a, t, ride).Pass?;
    var r := ride.value;
    var blocks := t.blocks(r.rideType, a.trackType);
    var e := Env(a, w, t, Props(t, r), t.rideEntries(r.subtype).value);
    StepOfSpec(e);
    BlockPassCountsBlockBrakes(e, StepOf(e), InitialPassState(a, w, r), blocks, |blocks|);
  }

  // ---------------------------------------------------------------------------
  // Network form and construction

  /** The fields Serialise writes, in order, after the base action's fields. */
  function Serialise(a: TrackPlaceAction): (s: seq<Value>)
    ensures Deserialise(s) == Some(a)
  {
    [Base(a.base), Int(a.rideIndex), Int(a.trackType), Xyzd(a.origin), Int(a.brakeSpeed),
     Int(a.colour), Int(a.seatRotation), Int(a.trackPlaceFlags)]
  }

  /** Reading the same stream back; None when the stream does not have that shape. */
  function Deserialise(s: seq<Value>): (r: Option<TrackPlaceAction>)
    ensures r.Some? ==> |s| == 8
  {
    if |s| == 8 && s[0].Base? && s[1].Int? && s[2].Int? && s[3].Xyzd? && s[4].Int? && s[5].Int?
       && s[6].Int? && s[7].Int? then
      Some(TrackPlaceAction(s[0].fields, s[1].n, s[2].n, s[3].cd, s[4].n, s[5].n, s[6].n, s[7].n))
    else None
  }

  /** An action survives a trip through the stream. */
  lemma SerialiseRoundTrip(a: TrackPlaceAction)
    ensures Deserialise(Serialise(a)) == Some(a)
  {
  }

  /** A stream that reads back as an action is exactly that action's serialised form. */
  lemma DeserialiseIsExact(s: seq<Value>)
    requires Deserialise(s).Some?
    ensures Serialise(Deserialise(s).value) == s
  {
    assert s == [s[0], s[1], s[2], s[3], s[4], s[5], s[6], s[7]];
  }

  /** The constructor as written: its member initialisers for the ride index, track type,
      brake speed and seat rotation read the members themselves, so those four fields keep
      whatever indeterminate values the object held (`prior`). */
  function ConstructAsWritten(
    rideIndex: int, trackType: int, origin: CoordsXYZD, brakeSpeed: int, colour: int,
    seatRotation: int, liftHillAndAlternativeState: int, base: BaseFields, prior: (int, int, int, int)): (a: TrackPlaceAction)
    ensures a.origin == origin && a.colour == colour && a.trackPlaceFlags == liftHillAndAlternativeState
    ensures a.rideIndex == prior.0 && a.trackType == prior.1 && a.brakeSpeed == prior.2 && a.seatRotation == prior.3
  {
    TrackPlaceAction(base, prior.0, prior.1, origin, prior.2, colour, prior.3, liftHillAndAlternativeState)
  }

  /** Whatever the indeterminate values are, some call loses its ride index, track type,
      brake speed and seat rotation. */
  lemma ConstructAsWrittenLosesArguments(origin: CoordsXYZD, colour: int, flags: int, base: BaseFields, prior: (int, int, int, int))
    ensures var a := ConstructAsWritten(prior.0 + 1, prior.1 + 1, origin, prior.2 + 1, colour, prior.3 + 1, flags, base, prior);
      a.rideIndex != prior.0 + 1 && a.trackType != prior.1 + 1 && a.brakeSpeed != prior.2 + 1 && a.seatRotation != prior.3 + 1
  {
  }

  /** The constructor as intended: every field takes its argument. */
  function Construct(
    rideIndex: int, trackType: int, origin: CoordsXYZD, brakeSpeed: int, colour: int,
    seatRotation: int, liftHillAndAlternativeState: int, base: BaseFields): (a: TrackPlaceAction)
    ensures a.rideIndex == rideIndex && a.trackType == trackType && a.origin == origin
    ensures a.brakeSpeed == brakeSpeed && a.colour == colour && a.seatRotation == seatRotation
    ensures a.trackPlaceFlags == liftHillAndAlternativeState && a.base == base
  {
    TrackPlaceAction(base, rideIndex, trackType, origin, brakeSpeed, colour, seatRotation, liftHillAndAlternativeState)
  }

  /** The intended constructor's arguments survive a trip through the network stream. */
  lemma ConstructRoundTrip(
    rideIndex: int, trackType: int, origin: CoordsXYZD, brakeSpeed: int, colour: int,
    seatRotation: int, flags: int, base: BaseFields)
    ensures var a := Deserialise(Serialise(Construct(rideIndex, trackType, origin, brakeSpeed, colour, seatRotation, flags, base)));
      a.Some? && a.value.rideIndex == rideIndex && a.value.trackType == trackType
      && a.value.brakeSpeed == brakeSpeed && a.value.seatRotation == seatRotation
  {
    SerialiseRoundTrip(Construct(rideIndex, trackType, origin, brakeSpeed, colour, seatRotation, flags, base));
  }
}
