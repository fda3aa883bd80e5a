# OpenRCT2 core: track placement, peep pickup, path graph, object selection

A Dafny model of four parts of OpenRCT2:

- **Track placement** (`TrackPlaceAction`, module `TrackPlace`, `track_place.dfy`). The query is a fixed chain of checks:
  - the ride, its type, its entry and the direction;
  - the DISALLOWED rules;
  - an ownership pass over the piece's blocks;
  - the free-element and height-alignment checks;
  - a second pass that checks, prices and, in apply mode, places every block.

  The ride record is a `class` whose fields the second pass updates in place. The world and the static track tables are read-only oracles.
- **Peep pickup** (`PeepPickupAction`, module `PeepPickup`, `peep_pickup.dfy`). This covers Query, which only reads the per-player pickup table, and Execute, which updates that table in place (`class PickupTable`). A Pickup while holding a peep first runs the nested Cancel on the same table.
- **Path graph** (`MapPathing.cpp`, module `MapPathing`, `map_pathing.dfy`). This builds the node list and the hash index, then the direct (edge) and indirect (transport ride) connections. The graph is a `class PathGraph` with the two global containers as fields. Each pass is a method with loops, proved against a function of the map. The index hash is a parameter of the graph: `GetHash` as written, or the corrected hash.
- **Object selection window** (the non-drawing part of `EditorObjectSelection.cpp`, module `ObjectSelection`, `object_selection.dfy`). This covers:
  - the filter flag word and the four item filters;
  - the per-type match counts, which wrap as uint16;
  - the visible list, which is filtered, sorted by the active column and reversed when descending;
  - the handlers that change the flags, the sort column and the page.

  The window is a `class SelectionWindow`. The count table is a fixed-size `array`.

Module `GameActions` (`actions.dfy`) holds what the actions share:
- the GA_ERROR codes and message ids;
- `GameActionResult`;
- the serialised value stream;
- C's truncating integer division.

Decisions where the code is not self-explanatory:
- **Undeclared names in the track query.** The query uses some names that `TrackPlaceAction` does not declare: `x`, `y`, `direction`, `rideIndex`, `brakeSpeed`, `seatRotation`, `colour` and `liftHillAndAlternativeState`. Each is read as the action field it evidently stands for.
- **`MONEY32_UNDEFINED` returns.** In the block loop these become failures. Each carries the message set just before in `gGameCommandErrorText`.
- **Same-peep Pickup.** A Pickup of the peep the player already holds releases it, because the nested Cancel runs. The model follows the code here.
- **Missing transport ride.** In `ConnectRides` a queue whose ride index names no ride contributes no connection. The code dereferences the result of `get_ride` without a check.

## Model

| member | source | states |
|---|---|---|
| TrackPlace.ActionFlags | src/openrct2/actions/TrackPlaceAction.hpp:43-46 | track placement may run while paused exactly when the base action flags allow it |
| TrackPlace.RotateOffset | src/openrct2/actions/TrackPlaceAction.hpp:155-173 | direction 0 keeps a block offset, and every rotation keeps its Manhattan length |
| TrackPlace.RotateOffsetIsQuarterTurns | src/openrct2/actions/TrackPlaceAction.hpp:155-173 | the four direction cases are 0-3 successive quarter turns of the offset |
| TrackPlace.RotateQuarterMask | src/openrct2/actions/TrackPlaceAction.hpp:209-247 | the rol8/ror8/mask sequence rotates each nibble of var_08 within itself by the direction, and direction 0 keeps it |
| TrackPlace.ClearanceHeight | src/openrct2/actions/TrackPlaceAction.hpp:261-269 | with bit 2 of var_09 clear the height added is exactly the ride's clearance; with it set, the clearance capped at 24 |
| TrackPlace.SupportCost | src/openrct2/actions/TrackPlaceAction.hpp:477-483 | support cost is never negative for a non-negative price, and a block below the surface is charged as 10 units high (25 times the support price) |
| TrackPlace.SupportCostMonotone | src/openrct2/actions/TrackPlaceAction.hpp:477-483 | a higher block above the surface never costs less support |
| TrackPlace.FinalPrice | src/openrct2/actions/TrackPlaceAction.hpp:647-660 | 0 in a no-money park; otherwise the block costs plus a multiple of 10, never below them for non-negative prices |
| TrackPlace.HeightAligned | src/openrct2/actions/TrackPlaceAction.hpp:187-201 | passes exactly when the origin z is on an 8-unit step and is at half height exactly when the piece starts at half height |
| TrackPlace.ValidateRide | src/openrct2/actions/TrackPlaceAction.hpp:58-80 | passes exactly for an existing ride with a type and an entry and a valid direction; every failure is INVALID_PARAMETERS with STR_NONE |
| TrackPlace.ValidateRules | src/openrct2/actions/TrackPlaceAction.hpp:95-141 | no rule applies exactly when the ride is not station-locked, the game is not paused (or the action may run paused) and, for a tracked ride, the piece is neither a second on-ride photo, a second cable lift hill nor a lift steeper than the ride allows without the cheat; each refusal is DISALLOWED with its own message, checked in source order |
| TrackPlace.QueryDisallowed | src/openrct2/actions/TrackPlaceAction.hpp:95-141 | a valid ride refused by any rule fails the whole query with that rule's DISALLOWED result, unchanged and with nothing placed |
| TrackPlace.OwnershipPass | src/openrct2/actions/TrackPlaceAction.hpp:150-180 | the loop succeeds exactly when sandbox mode is on or every rotated block is owned, and then counts every block |
| TrackPlace.BlockCheck | src/openrct2/actions/TrackPlaceAction.hpp:249-483 | too low (z < 16) and too high (clearance >= 255) fail with their messages; a passing block sits at the rotated tile and z, has base z / 8 and the clearance formula's height, the rotated mask, consistent ground flags and the block's cost added |
| TrackPlace.ApplyRide | src/openrct2/actions/TrackPlaceAction.hpp:487-551 | apply-mode updates keep type and subtype; add only the photo and cable-lift flags, the photo flag exactly for the photo piece; block 0 of a cable lift hill sets the flag, the cable-lift position and one block brake, other blocks keep both; a block-brakes piece adds exactly one brake and sets the mode for the ride type; on block 0 an up-to-flat piece with the lift hill selected (not block brakes or cable lift hill) adds exactly one brake; the block count rises by at most 2 and only on block 0 or block brakes; an unset overall view becomes the block's tile |
| TrackPlace.PlacedElement | src/openrct2/actions/TrackPlaceAction.hpp:553-603 | the inserted element sits on the block's tile (C division by 32) with the block's heights, the rotated quarter mask, the action's direction, ride, piece and sequence index, the lift-hill and ghost bits, the inverted bit of the alternative flag, the colour, and a brake speed exactly for pieces with a speed setting, a seat rotation otherwise |
| TrackPlace.BlockStep | src/openrct2/actions/TrackPlaceAction.hpp:206-636 | one loop iteration: a failure stops it; a pass is within the height limits, keeps the ride type and adds the block cost; without apply it changes nothing; with apply it appends the block's element |
| TrackPlace.BlockPass | src/openrct2/actions/TrackPlaceAction.hpp:206-636 | the block loop stops only with a failure result |
| TrackPlace.BlockPassFails | src/openrct2/actions/TrackPlaceAction.hpp:206-636 | by induction over the blocks, a stopped pass stopped with a failure |
| TrackPlace.ApplyInPlace | src/openrct2/actions/TrackPlaceAction.hpp:490-551 | the in-place updates of the ride object give exactly the updated ride record |
| TrackPlace.StepInPlace | src/openrct2/actions/TrackPlaceAction.hpp:206-636 | one iteration on the ride object agrees with the block step, and a failing block leaves the ride as it was |
| TrackPlace.SecondPass | src/openrct2/actions/TrackPlaceAction.hpp:204-636 | the loop over the ride object yields the pass's stop, cost, inserted elements and final ride record |
| TrackPlace.BlockPassStops | src/openrct2/actions/TrackPlaceAction.hpp:206-636 | once a block fails, later blocks change nothing: the failure is the result of the whole pass |
| TrackPlace.Query | src/openrct2/actions/TrackPlaceAction.hpp:56-661 | the query on a (possibly null) ride object returns the specified result and elements, and leaves the ride in the specified state |
| TrackPlace.BlockPassKeepsRide | src/openrct2/actions/TrackPlaceAction.hpp:487-488 | the pass never changes the ride type; without apply it changes neither the ride nor the inserted elements |
| TrackPlace.BlockPassChecksEveryBlock | src/openrct2/actions/TrackPlaceAction.hpp:253-277 | when no block fails, every block stood at least 16 up and cleared below 255 |
| TrackPlace.BlockPassCost | src/openrct2/actions/TrackPlaceAction.hpp:287-483 | when no block fails, the pass adds exactly the sum of the block costs |
| TrackPlace.BlockPassPlacesEveryBlock | src/openrct2/actions/TrackPlaceAction.hpp:553-565 | in apply mode a pass without failure inserts one element per block, in block order, each matching its block |
| TrackPlace.BlockPassCountsBlockBrakes | src/openrct2/actions/TrackPlaceAction.hpp:504-512 | block brakes add one block brake per block and switch the ride to the block-sectioned mode for its type |
| TrackPlace.QueryWithoutApplyChangesNothing | src/openrct2/actions/TrackPlaceAction.hpp:487-488 | a query without the apply flag changes no ride and inserts no element, whatever its outcome |
| TrackPlace.QuerySuccess | src/openrct2/actions/TrackPlaceAction.hpp:56-661 | a success had a valid ride and direction, owned land or sandbox, free elements, aligned height, every block within limits, the centred position and the final price |
| TrackPlace.QuerySpec | src/openrct2/actions/TrackPlaceAction.hpp:56-661 | every error kind before the block loop, each with nothing placed: an invalid ride, type, entry or direction is INVALID_PARAMETERS; unowned land outside sandbox mode is DISALLOWED; too few free elements is NO_FREE_ELEMENTS with the element-limit message; a misaligned origin z is INVALID_PARAMETERS with the unknown-construction-error message; a success passed the ride and rule checks and reports the centred position |
| TrackPlace.QueryApplyInsertsEveryBlock | src/openrct2/actions/TrackPlaceAction.hpp:553-565 | a successful apply inserts exactly one element per block of the piece, each for the action's ride with the block's index and turned mask |
| TrackPlace.BlockPassRideIndex | src/openrct2/actions/TrackPlaceAction.hpp:564 | the pass only appends elements, and each appended one belongs to the action's ride |
| TrackPlace.QueryBlockBrakes | src/openrct2/actions/TrackPlaceAction.hpp:504-512 | a successful block-brakes placement adds one block brake per block and leaves a block-sectioned mode |
| TrackPlace.Deserialise | src/openrct2/actions/TrackPlaceAction.hpp:48-54 | only a stream of exactly eight values (the base fields and the seven action fields) reads back as an action |
| TrackPlace.Serialise | src/openrct2/actions/TrackPlaceAction.hpp:48-54 | the serialised form reads back as the same action |
| TrackPlace.SerialiseRoundTrip | src/openrct2/actions/TrackPlaceAction.hpp:48-54 | every action reads back from its serialised form unchanged |
| TrackPlace.DeserialiseIsExact | src/openrct2/actions/TrackPlaceAction.hpp:48-54 | a stream that reads back is exactly the serialised form of what it reads as |
| TrackPlace.ConstructAsWritten | src/openrct2/actions/TrackPlaceAction.hpp:30-41 | the constructor as written keeps origin, colour and flags but takes ride index, track type, brake speed and seat rotation from the uninitialised fields |
| TrackPlace.ConstructAsWrittenLosesArguments | src/openrct2/actions/TrackPlaceAction.hpp:33-38 | for any prior field values some call loses all four self-initialised arguments |
| TrackPlace.Construct | src/openrct2/actions/TrackPlaceAction.hpp:30-41 | the intended constructor stores every argument in its field |
| TrackPlace.ConstructRoundTrip | src/openrct2/actions/TrackPlaceAction.hpp:30-54 | with the intended constructor, ride index, track type, brake speed and seat rotation survive the network stream |
| PeepPickup.PickupTypeOf | src/openrct2/actions/PeepPickupAction.hpp:17-23 | type bytes 0, 1 and 2 are Pickup, Cancel and Place, and any other byte is none of them |
| PeepPickup.ActionFlags | src/openrct2/actions/PeepPickupAction.hpp:41-44 | the base flags plus ALLOW_WHILE_PAUSED and nothing else |
| PeepPickup.Deserialise | src/openrct2/actions/PeepPickupAction.hpp:46-51 | only a stream of exactly four values (the base fields and the three action fields) reads back as an action |
| PeepPickup.Serialise | src/openrct2/actions/PeepPickupAction.hpp:46-51 | the serialised form reads back as the same action |
| PeepPickup.SerialiseRoundTrip | src/openrct2/actions/PeepPickupAction.hpp:46-51 | serialising and reading back are inverse in both directions |
| PeepPickup.Query | src/openrct2/actions/PeepPickupAction.hpp:53-116 | an out-of-range, null or non-peep sprite, or an unknown type, is INVALID_PARAMETERS; a success costs nothing |
| PeepPickup.ExecuteSpec | src/openrct2/actions/PeepPickupAction.hpp:118-186 | execute keeps the pickup table well-formed, only appends peep calls, and for a sprite that is not a peep fails with INVALID_PARAMETERS and changes nothing |
| PeepPickup.PickupTable.CancelInPlace | src/openrct2/actions/PeepPickupAction.hpp:160-171 | the in-place cancel drops the held peep at the given x and clears the player's entry |
| PeepPickup.PickupTable.Execute | src/openrct2/actions/PeepPickupAction.hpp:118-186 | execution on the table object, nested Cancel included, gives exactly the specified result and table |
| PeepPickup.QueryPickup | src/openrct2/actions/PeepPickupAction.hpp:72-94 | a Pickup query succeeds exactly for a valid peep that can be picked up, at its position; a peep that cannot be picked up is DISALLOWED |
| PeepPickup.QueryPlace | src/openrct2/actions/PeepPickupAction.hpp:98-109 | a Place query succeeds exactly when the player holds this peep and the trial placement works, at the requested location; otherwise UNKNOWN |
| PeepPickup.ExecuteCancel | src/openrct2/actions/PeepPickupAction.hpp:160-172 | Cancel drops the held peep at loc.x, leaves the player holding nothing and changes no other entry |
| PeepPickup.ExecutePickupSwitches | src/openrct2/actions/PeepPickupAction.hpp:131-158 | picking up a second peep drops the first at its old x, then holds the new one lifted from its x |
| PeepPickup.ExecutePickupSameReleases | src/openrct2/actions/PeepPickupAction.hpp:135-147 | picking up the peep already held only runs the nested Cancel: it is dropped back and the player holds nothing |
| PeepPickup.ExecutePickupFresh | src/openrct2/actions/PeepPickupAction.hpp:131-158 | picking up with empty hands holds the peep and records one Pickup call |
| PeepPickup.ExecuteTouchesOnlyPlayer | src/openrct2/actions/PeepPickupAction.hpp:118-186 | execute never changes another player's held peep or lifted-from x |
| PeepPickup.ExecuteSkipsRangeCheck | src/openrct2/actions/PeepPickupAction.hpp:118-125 | Execute lacks Query's sprite range check: a Cancel for a peep beyond MAX_SPRITES fails in Query but succeeds in Execute |
| PeepPickup.ExecutePlaceFailureChangesNothing | src/openrct2/actions/PeepPickupAction.hpp:173-179 | a Place fails exactly when the real placement fails, and then changes nothing and reports UNKNOWN |
| MapPathing.Reverse | src/openrct2/world/MapPathing.cpp:81 | the reverse of a direction is a different direction |
| MapPathing.Delta | src/openrct2/world/MapPathing.cpp:108 | every direction delta moves one tile (32 units) along one axis |
| MapPathing.ReverseInverse | src/openrct2/world/MapPathing.cpp:166 | reversing twice is the identity, and the reverse delta steps back |
| MapPathing.GetHashSameSite | src/openrct2/world/MapPathing.cpp:35-38 | the hash as written gives equal hashes to positions on the same tile and z step |
| MapPathing.GetHashCollides | src/openrct2/world/MapPathing.cpp:35-38 | the hash as written gives equal hashes to distinct on-map tiles and z steps |
| MapPathing.GetHash | src/openrct2/world/MapPathing.cpp:35-38 | the as-written hash of an on-map position is non-negative and below 256·8·32 + 256·8 + 256 |
| MapPathing.AsWrittenHashMisroutes | src/openrct2/world/MapPathing.cpp:35-38 | indexed by the as-written hash, the walk east from (0, 0) in a three-tile map lands on the later path at (0, 1024), which shares the key of the path at (32, 0) |
| MapPathing.CollisionSites | src/openrct2/world/MapPathing.cpp:42-66 | in that map the path at (32, 0) is node 1, the path at (0, 1024) node 2, and node 1 is not the index entry for its key |
| MapPathing.IntendedHashRoutes | src/openrct2/world/MapPathing.cpp:35-38 | indexed by the intended hash, the same walk lands on the path at (32, 0) |
| MapPathing.NodeHash | src/openrct2/world/MapPathing.cpp:35-38 | the intended hash of an on-map position is within the tile and z-step range |
| MapPathing.NodeHashIdentifiesSite | src/openrct2/world/MapPathing.cpp:35-38 | on the map the intended hash is equal exactly for the same tile and z step |
| MapPathing.TileNodes | src/openrct2/world/MapPathing.cpp:46-60 | one unconnected node per path element of the tile, at the tile's coordinates |
| MapPathing.WorldNodes | src/openrct2/world/MapPathing.cpp:42-60 | the reset node list has no connections |
| MapPathing.HashIndexLastWins | src/openrct2/world/MapPathing.cpp:62-66 | every node's hash is indexed, and each key maps to the last node that has it |
| MapPathing.ValidPathZ | src/openrct2/world/MapPathing.cpp:69-94 | a flat path accepts exactly its own height; a sloped one its base height going up the slope and two steps higher going down it |
| MapPathing.PathStepSymmetric | src/openrct2/world/MapPathing.cpp:69-94 | for two paths each flat or sloped along the travel axis of the step, the height-and-direction rule accepts a step from a to b exactly when it accepts the step back |
| MapPathing.FirstMatch | src/openrct2/world/MapPathing.cpp:109-124 | a found element is an element of the tile |
| MapPathing.FirstMatchIsFirst | src/openrct2/world/MapPathing.cpp:109-124 | the scan finds the first matching element, and none only when nothing matches |
| MapPathing.NeighbourIsAdjacent | src/openrct2/world/MapPathing.cpp:96-125 | a found neighbour is a node with the same hash as the first accepting element on the tile one step that way; under the intended hash, that tile and z step |
| MapPathing.NextSpec | src/openrct2/world/MapPathing.cpp:96-125 | a found neighbour is an indexed node, and a tile with no accepting element gives none |
| MapPathing.WalkFindsNeighbour | src/openrct2/world/MapPathing.cpp:96-125 | a flat path walking onto a flat path at the same height on the next tile finds that path's indexed node |
| MapPathing.AdjacentPathsConnect | src/openrct2/world/MapPathing.cpp:128-143 | two flat paths on adjacent tiles at the same height, each open towards the other, get a cost-1 connection each way |
| MapPathing.BitScanForward | src/openrct2/world/MapPathing.cpp:134 | -1 exactly for an empty mask, otherwise the lowest set bit |
| MapPathing.ClearBit | src/openrct2/world/MapPathing.cpp:136 | clears exactly the given edge bit |
| MapPathing.MaskedLowestBit | src/openrct2/world/MapPathing.cpp:134-141 | clearing the lowest edge takes its connections off the front and shrinks the mask |
| MapPathing.DirectOfShape | src/openrct2/world/MapPathing.cpp:134-141 | at most one connection per open edge, each of cost 1 and to the node its walk finds; no open edge, no connection |
| MapPathing.DirectOfComplete | src/openrct2/world/MapPathing.cpp:134-141 | every open edge whose walk finds a node contributes a cost-1 connection to it |
| MapPathing.IndirectCost | src/openrct2/world/MapPathing.cpp:167-169 | an indirect cost is never negative |
| MapPathing.IndirectCostBounds | src/openrct2/world/MapPathing.cpp:167-169 | the cost is the Manhattan distance in whole steps of 50, rounded down |
| MapPathing.IndirectCostMonotone | src/openrct2/world/MapPathing.cpp:167-169 | a farther exit never costs less |
| MapPathing.StationLink | src/openrct2/world/MapPathing.cpp:159-174 | none for the node's own station or a null exit; otherwise at most the connection to the indexed node outside the exit, at its cost |
| MapPathing.StationLinksIndexed | src/openrct2/world/MapPathing.cpp:157-175 | every station connection leads to an indexed node at a non-negative cost |
| MapPathing.IndirectOf | src/openrct2/world/MapPathing.cpp:149-178 | only a queue of an existing transport ride gets indirect connections, at most one per station |
| MapPathing.IndirectOfIndexed | src/openrct2/world/MapPathing.cpp:147-179 | every indirect connection leads to an indexed node at a non-negative cost |
| MapPathing.BuiltFromPasses | src/openrct2/world/MapPathing.cpp:197-203 | the reset list followed by the direct pass and the ride pass is the built graph |
| MapPathing.PathGraph.AddTileNodes | src/openrct2/world/MapPathing.cpp:46-60 | the inner iterator loop appends exactly the tile's nodes |
| MapPathing.PathGraph.IndexNodes | src/openrct2/world/MapPathing.cpp:62-66 | the index loop enters every node under its hash, later ones replacing earlier ones |
| MapPathing.PathGraph.ResetNodes | src/openrct2/world/MapPathing.cpp:40-67 | after a reset, the node list is the map's path elements in iteration order, indexed by hash |
| MapPathing.PathGraph.NextInDirection | src/openrct2/world/MapPathing.cpp:96-125 | the element scan returns the specified neighbour |
| MapPathing.PathGraph.ConnectNodes | src/openrct2/world/MapPathing.cpp:128-143 | every indexed node gains its direct connections and nothing else changes |
| MapPathing.PathGraph.EdgeConnections | src/openrct2/world/MapPathing.cpp:132-141 | the bit-scan loop yields the direct connections of the node's edges, lowest edge first |
| MapPathing.PathGraph.ConnectNode | src/openrct2/world/MapPathing.cpp:130-142 | only the visited node changes, gaining its direct connections |
| MapPathing.PathGraph.ConnectRides | src/openrct2/world/MapPathing.cpp:145-180 | every indexed node gains its indirect connections and nothing else changes |
| MapPathing.PathGraph.StationConnections | src/openrct2/world/MapPathing.cpp:157-175 | the station loop yields the node's indirect connections in station order |
| MapPathing.PathGraph.ConnectRide | src/openrct2/world/MapPathing.cpp:147-179 | only the visited node changes, gaining its indirect connections |
| MapPathing.PathGraph.ConnectTwoEdges | src/openrct2/world/MapPathing.cpp:182-195 | the two-edge pass changes neither the nodes nor the index |
| MapPathing.PathGraph.InitMapPathing | src/openrct2/world/MapPathing.cpp:197-203 | the graph built under the chosen hash is a function of the map alone, so rebuilding over the same map gives the same graph |
| ObjectSelection.FilterSelected | src/openrct2-ui/windows/EditorObjectSelection.cpp:1457-1473 | with both or neither selection filter on, everything passes; otherwise an item passes exactly when its selection state matches the filter that is on |
| ObjectSelection.SourcesMatch | src/openrct2-ui/windows/EditorObjectSelection.cpp:1502-1521 | a source matches exactly when its game's filter bit is on, CUSTOM standing for every other source |
| ObjectSelection.FilterSource | src/openrct2-ui/windows/EditorObjectSelection.cpp:1523-1535 | the source loop passes exactly when all filter bits are on or some source matches |
| ObjectSelection.FilterStringIgnoresCase | src/openrct2-ui/windows/EditorObjectSelection.cpp:1475-1500 | searches that differ only in ASCII case select the same items, and a named item containing the text is selected |
| ObjectSelection.FilterString | src/openrct2-ui/windows/EditorObjectSelection.cpp:1475-1500 | an empty search passes everything, an unnamed item fails any other search, and a passing search is no longer than the name, ride type name or path |
| ObjectSelection.FirstRideType | src/openrct2-ui/windows/EditorObjectSelection.cpp:1537-1553 | the first non-null ride type, or 0 when every slot is null |
| ObjectSelection.FilterChunks | src/openrct2-ui/windows/EditorObjectSelection.cpp:1537-1553 | the scan decides by the category bit of the first non-null ride type, and non-rides always pass |
| ObjectSelection.PassesFilters | src/openrct2-ui/windows/EditorObjectSelection.cpp:309-310 | the four filters evaluated in sequence give the specified decision |
| ObjectSelection.GetSelectedObjectType | src/openrct2-ui/windows/EditorObjectSelection.cpp:1605-1612 | no tab shows scenario texts; earlier tabs show their own type and later ones skip one |
| ObjectSelection.SelectedObjectTypeInjective | src/openrct2-ui/windows/EditorObjectSelection.cpp:1605-1612 | different tabs show different object types |
| ObjectSelection.GetObjectFromObjectSelection | src/openrct2-ui/windows/EditorObjectSelection.cpp:1335-1342 | the row under y with C division, or -1 off the list; y just above the top still maps to row 0 |
| ObjectSelection.AllRidesFlags | src/openrct2-ui/windows/EditorObjectSelection.cpp:472-484 | the ALL tab turns every ride category on and no other bit changes |
| ObjectSelection.OneRideFlags | src/openrct2-ui/windows/EditorObjectSelection.cpp:485-504 | a category tab turns its own category on and no non-ride bit changes |
| ObjectSelection.OneRideFlagsExclusive | src/openrct2-ui/windows/EditorObjectSelection.cpp:485-504 | after a category tab exactly that category's bit is on |
| ObjectSelection.DropdownFlags | src/openrct2-ui/windows/EditorObjectSelection.cpp:639-653 | after a selection entry, SELECTED and NONSELECTED are never both on |
| ObjectSelection.SelectedOnlyFlags | src/openrct2-ui/windows/EditorObjectSelection.cpp:639-643 | SELECTED flips, NONSELECTED goes off, and the source and ride bits stay |
| ObjectSelection.NonSelectedOnlyFlags | src/openrct2-ui/windows/EditorObjectSelection.cpp:644-648 | NONSELECTED flips, SELECTED goes off, and the source and ride bits stay |
| ObjectSelection.ToggleEntry | src/openrct2-ui/windows/EditorObjectSelection.cpp:649-652 | a source entry flips its own bit and no other |
| ObjectSelection.DropdownToggleTwice | src/openrct2-ui/windows/EditorObjectSelection.cpp:649-652 | choosing the same source entry twice restores the flags |
| ObjectSelection.SelectionDropdownFilters | src/openrct2-ui/windows/EditorObjectSelection.cpp:639-648 | turning "selected only" on shows exactly the selected items; turning "non-selected only" on shows exactly the others |
| ObjectSelection.SortClick | src/openrct2-ui/windows/EditorObjectSelection.cpp:534-557 | a header click makes its column active, descending only when it was active and ascending |
| ObjectSelection.SortClickTwice | src/openrct2-ui/windows/EditorObjectSelection.cpp:534-557 | two clicks on the active column restore its direction, and a new column ends descending |
| ObjectSelection.CompareAntisymmetric | src/openrct2-ui/windows/EditorObjectSelection.cpp:281-286 | the strcmp sign is antisymmetric and 0 exactly for equal strings |
| ObjectSelection.CompareTransitive | src/openrct2-ui/windows/EditorObjectSelection.cpp:281-286 | the strcmp order is transitive |
| ObjectSelection.LessByName | src/openrct2-ui/windows/EditorObjectSelection.cpp:281-286 | by name: strict, and the reverse comparison is greater |
| ObjectSelection.LessByType | src/openrct2-ui/windows/EditorObjectSelection.cpp:288-294 | by ride type name, then by name: strict, never against the type-name order, and by name alone for equal type names |
| ObjectSelection.LessIsStrictWeakOrder | src/openrct2-ui/windows/EditorObjectSelection.cpp:281-294 | both comparators handed to std::sort are strict weak orders |
| ObjectSelection.SortPermutesAndSorts | src/openrct2-ui/windows/EditorObjectSelection.cpp:347 | the sorted list is a permutation of the filtered list, in comparator order |
| ObjectSelection.OrderSorts | src/openrct2-ui/windows/EditorObjectSelection.cpp:332-352 | the ordered list is a permutation, in the column's order, or against it when descending |
| ObjectSelection.VisibleFrom | src/openrct2-ui/windows/EditorObjectSelection.cpp:304-324 | every listed row is a repository item at its own index |
| ObjectSelection.VisibleFromMember | src/openrct2-ui/windows/EditorObjectSelection.cpp:304-324 | an item is in the filtered list exactly when it is of the page's type, not FLAG_6 and passes all four filters |
| ObjectSelection.VisibleFromIncreasing | src/openrct2-ui/windows/EditorObjectSelection.cpp:304-324 | the filtered list is in repository order, so no item appears twice |
| ObjectSelection.VisibleListExactly | src/openrct2-ui/windows/EditorObjectSelection.cpp:296-355 | the refreshed list holds exactly the visible items of the selected tab |
| ObjectSelection.CountFrom | src/openrct2-ui/windows/EditorObjectSelection.cpp:1564-1572 | the count of matching items never exceeds the number of items |
| ObjectSelection.VisibleWithinCount | src/openrct2-ui/windows/EditorObjectSelection.cpp:1555-1574 | a type's list never holds more items than that type's count |
| ObjectSelection.CountsAfter | src/openrct2-ui/windows/EditorObjectSelection.cpp:1555-1574 | with no filter active the counts are kept; otherwise every type gets a fresh uint16 count |
| ObjectSelection.SelectionWindow.constructor | src/openrct2-ui/windows/EditorObjectSelection.cpp:375-415 | opening takes the configured flags, an empty search and the first page, keeps the sort column, direction and per-type counts left by the last window (file-scope statics), and builds the list afresh |
| ObjectSelection.SelectionWindow.VisibleListRefresh | src/openrct2-ui/windows/EditorObjectSelection.cpp:296-355 | the refresh rebuilds the list as specified and changes no filter, page or sort state |
| ObjectSelection.SelectionWindow.FilterUpdateCounts | src/openrct2-ui/windows/EditorObjectSelection.cpp:1555-1574 | the count array becomes the specified counts |
| ObjectSelection.SelectionWindow.MouseUp | src/openrct2-ui/windows/EditorObjectSelection.cpp:456-565 | each handled widget updates flags, search, sort state, page or selection as specified, recounting and refreshing where the source does; ride tabs, clear and install track keep the sort state; sort headers, page tabs and install track keep the counts; install track keeps the filters; an unhandled widget changes nothing; pressed widgets never change |
| ObjectSelection.SelectionWindow.Dropdown | src/openrct2-ui/windows/EditorObjectSelection.cpp:631-663 | no entry or another widget changes no flags, list, counts or selection; a filter entry updates the flags, recounts and refreshes; the sort state and pressed widgets never change |
| ObjectSelection.SelectionWindow.SetPage | src/openrct2-ui/windows/EditorObjectSelection.cpp:1292-1316 | the current page changes nothing; a new page resets the sort to type (rides) or name (others), ascending, and refreshes |
| ObjectSelection.SelectionWindow.SetPressedTab | src/openrct2-ui/windows/EditorObjectSelection.cpp:1318-1325 | exactly the selected page tab is pressed among the tabs, and no other widget changes |

## Left out

- Logging, `gCommandPosition`, `gCommandExpenditureType` and the network "last action" coordinate (`trackpieceZ`) in the track query: these are output-only side channels.
- The apply-mode world edits of the track query are not modelled: litter removal and wall removal on the piece's own tiles (TrackPlaceAction.hpp:295-315), `map_animation_create`, `track_add_station_element` in apply mode, `sub_6CB945`, `ride_update_max_vehicles`, water-surface marking, `footpath_connect_edges` and tile invalidation. They go to engine code outside the model. The inserted element and the ride record are modelled.
- The wall removal on the neighbouring tiles of a piece that connects to paths (TrackPlaceAction.hpp:423-441) is not modelled either. It runs only in a plain query: neither APPLY nor GHOST set, and the clearance cheat off.
- `TrackPlace.QueryWithoutApplyChangesNothing`: covers only the ride record and the inserted track elements. A plain query does remove the walls of TrackPlaceAction.hpp:423-441, which the model does not represent.
- `TrackPlace.ApplyRide`: does not model `invalidate_test_results(ride)` (TrackPlaceAction.hpp:490), which clears the ride's test results on every applied block. The ride record has no test-result fields.
- The clearance test, the ownership test, the free-element check, the station check and the surface lookup are oracles in `World`. Their bodies are engine code outside the model.
- The track tables, ride properties and ride-group heights are oracles in `Tables`. Their numeric contents are not part of the source.
- `TrackPlaceAction::Execute` is left out: its body is empty in the source.
- `TrackPlace.BlockPassCountsBlockBrakes`: covers only a block-brakes piece that is not also the on-ride photo, cable lift hill or up-to-flat piece. For those ids several switch cases would apply at once.
- `MAX_SPRITES` and `SPRITE_INDEX_NULL` take 10000 and 0xFFFF. Their definitions are not part of the source.
- Peep::Pickup, Peep::PickupAbort and Peep::Place are recorded as calls. Whether a placement works is a world oracle.
- `input_set_flag(INPUT_FLAG_TOOL_ACTIVE, false)` after a nested Cancel is left out. It is local UI input state.
- The pickup table is one per game. The network layer that stores it and `GetPlayer` are parameters.
- `PeepPickup.NestedCancel`: runs the nested Cancel as the acting player. The source builds it with the three-argument constructor (PeepPickupAction.hpp:34-39), which sets no player, and runs it at lines 83-85 and 139-141; which player it then acts for is decided by code outside the model.
- The sprite table's bound is not modelled: `World.sprites` may resolve ids at or above `MAX_SPRITES` to peeps. `PeepPickup.ExecuteSkipsRangeCheck` relies on that to exhibit the missing range check in Execute.
- Fixed-width integers are unbounded `int`: the money32 price arithmetic (TrackPlaceAction.hpp:647-651), the uint32_t result of GetHash (MapPathing.cpp:35) and the uint32 sprite id. No proved property depends on wrap-around: `GetHash` ensures its on-map range fits in 32 bits, and the price arithmetic is modelled with the source's shift as floor division.
- MapPathing builds the graph under either hash (`HashKind`): GetHash as written or the corrected injective one (see Findings). The adjacency property `MapPathing.NeighbourIsAdjacent` is stated for the corrected hash only; under the as-written hash the neighbour merely shares the key.
- MapPathing visits `nodesMap` in node order. `std::unordered_map` iteration order is unspecified. Each node's connections do not depend on that order.
- `footpath_element_next_in_direction` looks up `nodesMap[...]` even when the hash is absent, which inserts a null node. The model returns no neighbour in that case.
- `get_ride` returning null in `ConnectRides` is read as "no transport ride", because the source dereferences it unchecked.
- The element pointer and `type` field of a node are not modelled. The node keeps the path element's fields by value.
- Object selection: drawing, tooltips, scrolling, sounds, the text box (`WindowEditorObjectSelectionTextInput`, lines 1440-1455 of EditorObjectSelection.cpp) and the ADVANCED and CLOSE buttons are left out. So are the load/save intent of INSTALL_TRACK, configuration saving and the already-open window path of Open. They are UI plumbing with no state the filters read.
- `String::ToUpper` is modelled as ASCII upper-casing of bytes. UTF-8 case mapping is outside the model.
- `String::Compare` on ride type names is modelled as strcmp order.
- `std::sort` is not stable. The model fixes one sorted order (insertion order among equal items), and the proved properties hold for every sorted permutation.
- The selection flag byte is modelled by the two bits the window reads (SELECTED and FLAG_6). Their numeric values are not part of the source.
- `SCROLLABLE_ROW_HEIGHT` takes 12. Its definition is not part of the source.
- The ride type descriptor's category is an oracle (`Repository.category`).
- `GetRideTypeStringId` and `language_get_string` are folded into the item's `rideTypeName`.

## Findings

| source | as written | input that shows it | evidently intended | confidence | as-written member | corrected member |
|---|---|---|---|---|---|---|
| src/openrct2/actions/TrackPlaceAction.hpp:33-38 | the constructor initialises `_rideIndex`, `_trackType`, `_brakeSpeed` and `_seatRotation` from themselves, not from the arguments | any call, e.g. rideIndex 5 on an object whose field held 4: the action carries ride 4 | each field takes its constructor argument | high, not executed | TrackPlace.ConstructAsWrittenLosesArguments | TrackPlace.ConstructRoundTrip |
| src/openrct2/world/MapPathing.cpp:35-38 | `(x/32)*8*32 + (y/32)*8 + z/8` packs the y tile and z step into overlapping digits | (320, 352, 80) and (320, 320, 144) hash alike; so do (32, 0, 0) and (0, 1024, 0); in a map with paths at (0, 0), (32, 0) and (0, 1024), visited in that order, the walk east from (0, 0) is connected to (0, 1024) (`MapPathing.AsWrittenHashMisroutes`) | one hash per tile and z step | high, not executed | MapPathing.GetHashCollides | MapPathing.NodeHashIdentifiesSite |
