/** Shared vocabulary of the game-action pipeline: the result every Query/Execute
    returns, the action capability flags, the base fields every action carries,
    and the ordered field stream that Serialise writes for network transport. */
module GameActions {

  datatype Option<T> = None | Some(value: T)

  /** The error kinds of a game action result (GA_ERROR). `Undefined` stands for the
      branches of the track-placement query that return MONEY32_UNDEFINED where a
      result is expected: they are failures whose message is the error text set
      just before the return. */
  datatype GaError = InvalidParameters | Disallowed | NoFreeElements | Unknown | Undefined

  /** Message ids used by the modelled actions. `External(id)` is a message chosen by
      a world routine that is not part of this model (for instance the clearance test). */
  datatype StringId =
    | StrNone
    | StrNotAllowedToModifyStation
    | StrConstructionNotPossibleWhileGameIsPaused
    | StrOnlyOneOnRidePhotoPerRide
    | StrOnlyOneCableLiftHillPerRide
    | StrTooSteepForLiftHill
    | StrLandNotOwnedByPark
    | StrTileElementLimitReached
    | StrConstructionErrUnknown
    | StrTooLow
    | StrTooHigh
    | StrCantBuildPartlyAboveAndPartlyBelowGround
    | StrCanOnlyBuildThisAboveGround
    | StrCanOnlyBuildThisUnderwater
    | StrRideCantBuildThisUnderwater
    | StrCanOnlyBuildThisOnWater
    | StrTooHighForSupports
    | StrErrCantPlacePersonHere
    | External(id: nat)

  datatype CoordsXYZ = CoordsXYZ(x: int, y: int, z: int)
  datatype CoordsXYZD = CoordsXYZD(x: int, y: int, z: int, direction: int)

  /** GameActionResult: a success carries the result position and the cost; a failure
      carries its error kind, its message and the auxiliary error-context text. */
  datatype ActionResult =
    | Success(position: CoordsXYZ, cost: int)
    | Failure(error: GaError, message: StringId, context: StringId)

  /** A failure with no error-context text (MakeResult(error, message)). */
  function Fail(error: GaError, message: StringId): (r: ActionResult)
    ensures r.Failure? && r.error == error && r.message == message && r.context == StrNone
  {
    Failure(error, message, StrNone)
  }

  /** Outcome of one validation stage: either the stage passes with a value, or the whole
      action stops with the given result. */
  datatype Outcome<T> = Pass(value: T) | Stop(result: ActionResult)

  /** The capability flags of an action (GA_FLAGS). */
  datatype GaFlag = AllowWhilePaused | ClientOnly | EditorOnly

  /** The game command flags an action is queried or executed with. */
  datatype CommandFlags = CommandFlags(apply: bool, isGhost: bool, flag5: bool)

  /** The fields every action inherits from GameAction: the issuing player, the command
      flags and the capability flags GameAction::GetActionFlags reports. How
      GameAction::Serialise encodes them is not part of this model: they travel as one
      entry of the stream. */
  datatype BaseFields = BaseFields(player: int, flags: CommandFlags, baseActionFlags: set<GaFlag>)

  /** One entry of the ordered field stream a DataSerialiser carries. */
  datatype Value =
    | Base(fields: BaseFields)
    | Int(n: int)
    | Xyz(c: CoordsXYZ)
    | Xyzd(cd: CoordsXYZD)

  /** C and C++ integer division, which truncates toward zero (Dafny's `/` is Euclidean). */
  function TruncDiv(a: int, b: int): (q: int)
    requires b > 0
    ensures a >= 0 ==> 0 <= a - q * b < b
    ensures a < 0 ==> -b < a - q * b <= 0
  {
    if a >= 0 then a / b else -((-a) / b)
  }

  /** The absolute value, as `abs` in C. */
  function Abs(a: int): (r: nat)
    ensures r == a || r == -a
  {
    if a < 0 then -a else a
  }
}
