/** Picking up, cancelling and placing a guest or staff member (PeepPickupAction).

    Each player holds at most one peep: the network keeps, per player, the peep being
    carried and the x coordinate it was lifted from. Query only reads that table; Execute
    updates it in place and asks the peep to be lifted, dropped back or placed. */
module PeepPickup {
  import opened GameActions

  /** Sprite table bounds (MAX_SPRITES and SPRITE_INDEX_NULL). Their values come from the
      sprite headers, which are not part of this model. */
  const MAX_SPRITES: int := 10000
  const SPRITE_INDEX_NULL: int := 0xFFFF

  datatype PickupType = Pickup | Cancel | Place

  /** The `_type` byte as the switch reads it: 0, 1 and 2 are the three verbs, any other
      value falls to the default branch. */
  function PickupTypeOf(code: int): (r: Option<PickupType>)
    ensures r == Some(Pickup) <==> code == 0
    ensures r == Some(Cancel) <==> code == 1
    ensures r == Some(Place) <==> code == 2
  {
    if code == 0 then Some(Pickup) else if code == 1 then Some(Cancel) else if code == 2 then Some(Place) else None
  }

  function PickupTypeCode(t: PickupType): int
  {
    match t
    case Pickup => 0
    case Cancel => 1
    case Place => 2
  }

  datatype PeepPickupAction = PeepPickupAction(base: BaseFields, pickupType: int, spriteId: int, loc: CoordsXYZ)

  /** What GET_PEEP finds at a sprite index. */
  datatype Sprite = Sprite(isPeep: bool, x: int, y: int, z: int)

  /** The world as the action sees it. `place(id, tile, apply)` is Peep::Place at a tile
      location (trial placement when `apply` is false); `placeError` is the error text a
      failed placement leaves behind. */
  datatype World = World(
    sprites: int -> Option<Sprite>,
    canBePickedUp: int -> bool,
    place: (int, CoordsXYZ, bool) -> bool,
    placeError: (int, CoordsXYZ) -> StringId)

  /** The calls Execute makes on peeps: Peep::Pickup, Peep::PickupAbort and Peep::Place. */
  datatype PeepEffect = PickedUp(id: int) | PickupAborted(id: int, x: int) | Placed(id: int, tile: CoordsXYZ)

  /** A snapshot of the per-player pickup table and of the calls made on peeps so far. */
  datatype TableState = TableState(held: map<int, int>, oldX: map<int, int>, effects: seq<PeepEffect>)

  /** A player who holds a peep has the x it was lifted from recorded. */
  predicate ValidTable(s: TableState)
  {
    s.held.Keys <= s.oldX.Keys
  }

  /** GetActionFlags: the base flags with ALLOW_WHILE_PAUSED added. */
  function ActionFlags(a: PeepPickupAction): (r: set<GaFlag>)
    ensures AllowWhilePaused in r
    ensures a.base.baseActionFlags <= r
    ensures r - {AllowWhilePaused} == a.base.baseActionFlags - {AllowWhilePaused}
  {
    a.base.baseActionFlags + {AllowWhilePaused}
  }

  /** The fields Serialise writes, in order, after the base action's fields. */
  function Serialise(a: PeepPickupAction): (s: seq<Value>)
    ensures Deserialise(s) == Some(a)
  {
    [Base(a.base), Int(a.pickupType), Int(a.spriteId), Xyz(a.loc)]
  }

  function Deserialise(s: seq<Value>): (r: Option<PeepPickupAction>)
    ensures r.Some? ==> |s| == 4
  {
    if |s| == 4 && s[0].Base? && s[1].Int? && s[2].Int? && s[3].Xyz? then
      Some(PeepPickupAction(s[0].fields, s[1].n, s[2].n, s[3].c))
    else None
  }

  /** An action survives a trip through the stream, and a stream that reads back as an
      action is exactly that action's serialised form. */
  lemma SerialiseRoundTrip(a: PeepPickupAction, s: seq<Value>)
    ensures Deserialise(Serialise(a)) == Some(a)
    ensures Deserialise(s).Some? ==> Serialise(Deserialise(s).value) == s
  {
    if Deserialise(s).Some? {
      assert s == [s[0], s[1], s[2], s[3]];
    }
  }

  /** The sprite is a peep (the check both Query and Execute make). */
  predicate IsPeep(w: World, id: int)
  {
    w.sprites(id).Some? && w.sprites(id).value.isPeep
  }

  function PeepPosition(w: World, id: int): CoordsXYZ
    requires IsPeep(w, id)
  {
    var p := w.sprites(id).value;
    CoordsXYZ(p.x, p.y, p.z)
  }

  /** The tile a placement targets: x and y divided by 32 with C truncation. */
  function PlaceTile(loc: CoordsXYZ): CoordsXYZ
  {
    CoordsXYZ(TruncDiv(loc.x, 32), TruncDiv(loc.y, 32), loc.z)
  }

  function Held(s: TableState, player: int): Option<int>
  {
    if player in s.held then Some(s.held[player]) else None
  }

  /** The Cancel action synthesised for a peep the player already holds: it runs in the
      same player context, for the held peep, at the x it was lifted from. */
  function NestedCancel(a: PeepPickupAction, s: TableState, existing: int): PeepPickupAction
    requires ValidTable(s) && a.base.player in s.held
  {
    PeepPickupAction(a.base, PickupTypeCode(Cancel), existing, CoordsXYZ(s.oldX[a.base.player], 0, 0))
  }

  function CantPlace(error: GaError): ActionResult
  {
    Fail(error, StrErrCantPlacePersonHere)
  }

  /** PeepPickupAction::Query. It reads the table and never changes it. */
  function Query(a: PeepPickupAction, w: World, s: TableState): (r: ActionResult)
    requires ValidTable(s)
    ensures a.spriteId >= MAX_SPRITES || a.spriteId == SPRITE_INDEX_NULL || !IsPeep(w, a.spriteId) ==>
      r == CantPlace(InvalidParameters)
    ensures PickupTypeOf(a.pickupType).None? && 0 <= a.spriteId < MAX_SPRITES && IsPeep(w, a.spriteId) ==>
      r == CantPlace(InvalidParameters)
    ensures r.Success? ==> r.cost == 0
    decreases if PickupTypeOf(a.pickupType) == Some(Pickup) then 1 else 0
  {
    if a.spriteId >= MAX_SPRITES || a.spriteId == SPRITE_INDEX_NULL then CantPlace(InvalidParameters)
    else if !IsPeep(w, a.spriteId) then CantPlace(InvalidParameters)
    else
      var position := PeepPosition(w, a.spriteId);
      match PickupTypeOf(a.pickupType)
      case Some(Pickup) =>
        if !w.canBePickedUp(a.spriteId) then CantPlace(Disallowed)
        else
          (match Held(s, a.base.player)
           case Some(existing) =>
             var nested := Query(NestedCancel(a, s, existing), w, s);
             if existing == a.spriteId then nested else Success(position, 0)
           case None => Success(position, 0))
      case Some(Cancel) => Success(position, 0)
      case Some(Place) =>
        if Held(s, a.base.player) != Some(a.spriteId) then CantPlace(Unknown)
        else if !w.place(a.spriteId, PlaceTile(a.loc), false) then
          Failure(Unknown, StrErrCantPlacePersonHere, w.placeError(a.spriteId, PlaceTile(a.loc)))
        else Success(a.loc, 0)
      case None => CantPlace(InvalidParameters)
  }

  /** The table after cancelling: the player holds nothing, and the peep it held (if
      any) is dropped back at x. */
  function CancelHold(s: TableState, player: int, x: int): TableState
  {
    var aborted := if player in s.held then [PickupAborted(s.held[player], x)] else [];
    TableState(s.held - {player}, s.oldX, s.effects + aborted)
  }

  /** PeepPickupAction::Execute as a function of the table before: the result and the
      table after. */
  function ExecuteSpec(a: PeepPickupAction, w: World, s: TableState): (r: (ActionResult, TableState))
    requires ValidTable(s)
    ensures ValidTable(r.1)
    ensures |s.effects| <= |r.1.effects| && r.1.effects[..|s.effects|] == s.effects
    ensures !IsPeep(w, a.spriteId) ==> r == (CantPlace(InvalidParameters), s)
    decreases if PickupTypeOf(a.pickupType) == Some(Pickup) then 1 else 0
  {
    if !IsPeep(w, a.spriteId) then (CantPlace(InvalidParameters), s)
    else
      var player := a.base.player;
      var position := PeepPosition(w, a.spriteId);
      match PickupTypeOf(a.pickupType)
      case Some(Pickup) =>
        var (nestedResult, s1) :=
          if player in s.held then ExecuteSpec(NestedCancel(a, s, s.held[player]), w, s) else (Success(position, 0), s);
        if player in s.held && s.held[player] == a.spriteId then (nestedResult, s1)
        else
          (Success(position, 0),
           TableState(s1.held[player := a.spriteId], s1.oldX[player := position.x], s1.effects + [PickedUp(a.spriteId)]))
      case Some(Cancel) => (Success(position, 0), CancelHold(s, player, a.loc.x))
      case Some(Place) =>
        if !w.place(a.spriteId, PlaceTile(a.loc), true) then
          (Failure(Unknown, StrErrCantPlacePersonHere, w.placeError(a.spriteId, PlaceTile(a.loc))), s)
        else (Success(a.loc, 0), s.(effects := s.effects + [Placed(a.spriteId, PlaceTile(a.loc))]))
      case None => (CantPlace(InvalidParameters), s)
  }

  /** The network's per-player pickup table, updated in place by Execute. */
  class PickupTable {
    var held: map<int, int>
    var oldX: map<int, int>
    var effects: seq<PeepEffect>

    function State(): TableState
      reads this
    {
      TableState(held, oldX, effects)
    }

    predicate Valid()
      reads this
    {
      ValidTable(State())
    }

    constructor ()
      ensures held == map[] && oldX == map[] && effects == []
      ensures Valid()
    {
      held, oldX, effects := map[], map[], [];
    }

    /** network_set_pickup_peep(player, nullptr) after dropping the held peep back. */
    method CancelInPlace(player: int, x: int)
      requires Valid()
      modifies this
      ensures State() == CancelHold(old(State()), player, x)
      ensures Valid()
    {
      if player in held {
        effects := effects + [PickupAborted(held[player], x)];
      }
      held := held - {player};
    }

    /** PeepPickupAction::Execute: the nested Cancel runs first, on this same table. */
    method Execute(a: PeepPickupAction, w: World) returns (r: ActionResult)
      requires Valid()
      modifies this
      ensures Valid()
      ensures (r, State()) == ExecuteSpec(a, w, old(State()))
      decreases if PickupTypeOf(a.pickupType) == Some(Pickup) then 1 else 0
    {
      if !IsPeep(w, a.spriteId) {
        return CantPlace(InvalidParameters);
      }
      var player := a.base.player;
      var position := PeepPosition(w, a.spriteId);
      var kind := PickupTypeOf(a.pickupType);
      if kind == Some(Pickup) {
        if player in held {
          var existing := held[player];
          var nested := NestedCancel(a, State(), existing);
          var nestedResult := Execute(nested, w);
          if existing == a.spriteId {
            return nestedResult;
          }
        }
        held := held[player := a.spriteId];
        oldX := oldX[player := position.x];
        effects := effects + [PickedUp(a.spriteId)];
        r := Success(position, 0);
      } else if kind == Some(Cancel) {
        CancelInPlace(player, a.loc.x);
        r := Success(position, 0);
      } else if kind == Some(Place) {
        var tile := PlaceTile(a.loc);
        if !w.place(a.spriteId, tile, true) {
          return Failure(Unknown, StrErrCantPlacePersonHere, w.placeError(a.spriteId, tile));
        }
        effects := effects + [Placed(a.spriteId, tile)];
        r := Success(a.loc, 0);
      } else {
        r := CantPlace(InvalidParameters);
      }
    }
  }

  // ---------------------------------------------------------------------------
  // Properties of Query

  /** A Pickup query succeeds exactly for a valid peep that can be picked up, at the
      peep's position, whatever the player already holds. */
  lemma QueryPickup(a: PeepPickupAction, w: World, s: TableState)
    requires ValidTable(s) && PickupTypeOf(a.pickupType) == Some(Pickup)
    ensures Query(a, w, s).Success? <==>
      a.spriteId < MAX_SPRITES && a.spriteId != SPRITE_INDEX_NULL && IsPeep(w, a.spriteId)
      && w.canBePickedUp(a.spriteId)
    ensures Query(a, w, s).Success? ==> Query(a, w, s).position == PeepPosition(w, a.spriteId)
    ensures a.spriteId < MAX_SPRITES && IsPeep(w, a.spriteId) && !w.canBePickedUp(a.spriteId) ==>
      Query(a, w, s) == CantPlace(Disallowed)
  {
    var player := a.base.player;
    if a.spriteId < MAX_SPRITES && IsPeep(w, a.spriteId) && w.canBePickedUp(a.spriteId)
       && player in s.held && s.held[player] == a.spriteId {
      var nested := NestedCancel(a, s, a.spriteId);
      assert Query(nested, w, s) == Success(PeepPosition(w, a.spriteId), 0);
    }
  }

  /** A Place query succeeds exactly when the player holds this very peep and the trial
      placement at the target tile works; the result carries the requested location. */
  lemma QueryPlace(a: PeepPickupAction, w: World, s: TableState)
    requires ValidTable(s) && PickupTypeOf(a.pickupType) == Some(Place)
    requires 0 <= a.spriteId < MAX_SPRITES && a.spriteId != SPRITE_INDEX_NULL && IsPeep(w, a.spriteId)
    ensures Held(s, a.base.player) != Some(a.spriteId) ==> Query(a, w, s) == CantPlace(Unknown)
    ensures Query(a, w, s).Success? <==>
      Held(s, a.base.player) == Some(a.spriteId) && w.place(a.spriteId, PlaceTile(a.loc), false)
    ensures Query(a, w, s).Success? ==> Query(a, w, s).position == a.loc
  {
  }

  // ---------------------------------------------------------------------------
  // Properties of Execute

  /** Cancel drops whatever the player holds back at `loc.x` and leaves the player holding
      nothing; no other player's entry and no lifted-from x changes. */
  lemma ExecuteCancel(a: PeepPickupAction, w: World, s: TableState)
    requires ValidTable(s) && PickupTypeOf(a.pickupType) == Some(Cancel) && IsPeep(w, a.spriteId)
    ensures var (r, t) := ExecuteSpec(a, w, s);
      r == Success(PeepPosition(w, a.spriteId), 0)
      && a.base.player !in t.held
      && (forall p :: p != a.base.player ==> (p in t.held <==> p in s.held))
      && (forall p :: p != a.base.player && p in s.held ==> t.held[p] == s.held[p])
      && t.oldX == s.oldX
      && t.effects == s.effects + (if a.base.player in s.held then [PickupAborted(s.held[a.base.player], a.loc.x)] else [])
  {
  }

  /** Picking up a peep while holding a different one releases the held one first, then
      holds the new one, lifted from its current x. */
  lemma ExecutePickupSwitches(a: PeepPickupAction, w: World, s: TableState)
    requires ValidTable(s) && PickupTypeOf(a.pickupType) == Some(Pickup) && IsPeep(w, a.spriteId)
    requires a.base.player in s.held && s.held[a.base.player] != a.spriteId
    requires IsPeep(w, s.held[a.base.player])
    ensures var (r, t) := ExecuteSpec(a, w, s);
      var player := a.base.player;
      r == Success(PeepPosition(w, a.spriteId), 0)
      && t.held == s.held[player := a.spriteId]
      && t.oldX == s.oldX[player := PeepPosition(w, a.spriteId).x]
      && t.effects == s.effects + [PickupAborted(s.held[player], s.oldX[player]), PickedUp(a.spriteId)]
  {
    var player := a.base.player;
    var nested := NestedCancel(a, s, s.held[player]);
    var (_, s1) := ExecuteSpec(nested, w, s);
    assert s1 == CancelHold(s, player, s.oldX[player]);
    assert s1.held[player := a.spriteId] == s.held[player := a.spriteId];
  }

  /** Picking up the peep the player already holds only runs the nested Cancel: the peep
      is dropped back where it was lifted from, the player holds nothing, and the Cancel's
      result is returned. */
  lemma ExecutePickupSameReleases(a: PeepPickupAction, w: World, s: TableState)
    requires ValidTable(s) && PickupTypeOf(a.pickupType) == Some(Pickup) && IsPeep(w, a.spriteId)
    requires a.base.player in s.held && s.held[a.base.player] == a.spriteId
    ensures var (r, t) := ExecuteSpec(a, w, s);
      r == Success(PeepPosition(w, a.spriteId), 0)
      && t.held == s.held - {a.base.player}
      && t.oldX == s.oldX
      && t.effects == s.effects + [PickupAborted(a.spriteId, s.oldX[a.base.player])]
  {
    var nested := NestedCancel(a, s, a.spriteId);
    assert ExecuteSpec(nested, w, s) == (Success(PeepPosition(w, a.spriteId), 0), CancelHold(s, a.base.player, s.oldX[a.base.player]));
  }

  /** Picking up a peep when holding none holds it. */
  lemma ExecutePickupFresh(a: PeepPickupAction, w: World, s: TableState)
    requires ValidTable(s) && PickupTypeOf(a.pickupType) == Some(Pickup) && IsPeep(w, a.spriteId)
    requires a.base.player !in s.held
    ensures var (r, t) := ExecuteSpec(a, w, s);
      r.Success? && t.held == s.held[a.base.player := a.spriteId]
      && t.effects == s.effects + [PickedUp(a.spriteId)]
  {
  }

  /** Execute changes only the acting player's entries: every other player holds the same
      peep, lifted from the same x, as before. */
  lemma {:induction false} ExecuteTouchesOnlyPlayer(a: PeepPickupAction, w: World, s: TableState, p: int)
    requires ValidTable(s) && p != a.base.player
    ensures var t := ExecuteSpec(a, w, s).1;
      (p in t.held <==> p in s.held) && (p in s.held ==> t.held[p] == s.held[p])
      && (p in t.oldX <==> p in s.oldX) && (p in s.oldX ==> t.oldX[p] == s.oldX[p])
    decreases if PickupTypeOf(a.pickupType) == Some(Pickup) then 1 else 0
  {
    if IsPeep(w, a.spriteId) && PickupTypeOf(a.pickupType) == Some(Pickup) && a.base.player in s.held {
      ExecuteTouchesOnlyPlayer(NestedCancel(a, s, s.held[a.base.player]), w, s, p);
    }
  }

  /** Execute omits Query's sprite-index range check: a sprite index at or beyond
      MAX_SPRITES that still resolves to a peep is rejected by Query but cancelled by
      Execute. */
  lemma ExecuteSkipsRangeCheck(a: PeepPickupAction, w: World, s: TableState)
    requires ValidTable(s) && PickupTypeOf(a.pickupType) == Some(Cancel)
    requires a.spriteId >= MAX_SPRITES && IsPeep(w, a.spriteId)
    ensures Query(a, w, s) == CantPlace(InvalidParameters)
    ensures ExecuteSpec(a, w, s).0.Success?
  {
  }

  /** A Place that the real placement rejects changes nothing. */
  lemma ExecutePlaceFailureChangesNothing(a: PeepPickupAction, w: World, s: TableState)
    requires ValidTable(s) && PickupTypeOf(a.pickupType) == Some(Place) && IsPeep(w, a.spriteId)
    ensures !w.place(a.spriteId, PlaceTile(a.loc), true) <==> ExecuteSpec(a, w, s).0.Failure?
    ensures !w.place(a.spriteId, PlaceTile(a.loc), true) ==>
      ExecuteSpec(a, w, s).1 == s && ExecuteSpec(a, w, s).0.error == Unknown
  {
  }
}
