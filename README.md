# City-building simulation client: observation decoding, action encoding, episode replay

This project models the three pieces of logic in the browser client of a
turn-based, multi-agent city-building game whose rules run on a server:

- **Observation decoding** (`src/components/Utils.js`). The server describes
  the game as a flat vector of numbers. Positions 50..65 hold, cell by cell
  in row-major order, the zero-based index of the player who built there
  (-1 = nobody). Positions 66..81 hold the building type (-1 = empty,
  0 = Park, 1 = House, 2 = Shop). `parseObservationForBoard` turns the
  vector into a 4x4 board of `{owner, type}` cells, where owner is `null`
  or `"P" + (index + 1)`. A vector shorter than 82 gives the all-empty
  fallback board `initialDummyBoard`.
- **The play page** (`src/components/Play.js`). The human clicks an empty
  cell, picks Skip or a building, and submits. `computeActionNumber` turns
  the choice into one integer: 0 for skip or no selection, otherwise
  `1 + b * 16 + (x * 4 + y)`. The page keeps the shown board, the selected
  parcel, the chosen action, an error banner and the last `/step` reply.
- **The replay page** (`src/components/Simulation.js`). A recorded episode
  is a sequence of turns. Each turn holds one observation vector per
  movement, in `observation[0]`. A cursor (turn, movement) walks the episode
  with four saturating steps, and the board shows the vector at the cursor.
  `currentPlayer` follows the movement index.

Files:

- `wrappers.dfy`: `Option`, for JavaScript's `null` / `undefined`.
- `observation.dfy`: module `Observation`.
  - The decoder as a specification function `DecodeBoard`.
  - The nested push loops as the method `ParseObservationForBoard`, proved equal to it.
  - The decimal rendering behind `"P" + (index + 1)`, proved injective.
- `action_encoder.dfy`: module `ActionEncoder`.
  - `ComputeActionNumber`.
  - The server's reading of a code (`DecodeActionNumber`), with the round trip between them proved.
- `play.dfy`: module `Play`. Class `PlayComponent` holds the page's state fields; its handlers are methods.
- `simulation.dfy`: module `Simulation`.
  - The cursor step as a function `Step` over an immutable episode, with lemmas over whole sequences of steps (`Run`).
  - Class `SimulationComponent`, whose methods are the page's handlers and are proved against `Step`.

Modelling decisions:

- The server's replies are parameters of the handlers. `None` means the
  `fetch` or the JSON parse threw, so the `catch` branch runs. `Some(r)` is
  the parsed reply. The request a handler sends is its result.
- `actionType` is a datatype: `Unset` for `""`, `Skip` for `"skip"`, and
  `Building(b)` for `parseInt` of `"0"`, `"1"` or `"2"`. These are the only
  values the page's buttons set.
- A missing `observation[0][0]` behaves differently by handler:
  - In the reset and step handlers, a guard skips the board update.
  - In `fetchSimulationEpisode`, `nextTurn`, `previousTurn` and `previousMovement`, the read throws after the index setters have run. The model therefore moves the cursor and keeps the board (`Simulation.Redraw`).
  - `nextMovement` on an empty episode array throws before any setter, so nothing changes.
- Nested observations have the fixed type `seq<seq<seq<int>>>`. The
  `Array.isArray(observation[0])` test therefore always picks
  `observation[0]`, except when `observation` is empty. In that case the
  source falls back to `observation` itself, which is also empty. `Movements`
  states this.
- Loading an episode decodes the first vector only when the first turn has
  one. A cell's owner and type are copied independently, so a cell can have
  an owner and type -1.
- Value semantics: a `seq<int>` cannot be changed by the decoder, and a
  function gives equal boards for equal inputs, so those two properties hold
  by construction.

## Model

| member | source | states |
|---|---|---|
| `Observation.NatToDecimal` | src/components/Utils.js:78 | the rendering of a number is non-empty and made of decimal digits only |
| `Observation.DecimalRoundTrip` | src/components/Utils.js:78 | reading the rendered digits back gives the number rendered |
| `Observation.PlayerNameInjective` | src/components/Utils.js:78 | two builder indices, taken as unbounded integers, give the same owner name `P<index+1>` exactly when they are equal |
| `Observation.PlayerNameExamples` | src/components/Utils.js:47-52 | indices 0, 1, 2 name the players P1, P2, P3 |
| `Observation.DecodeBoard` | src/components/Utils.js:62-85 | every decoded board, fallback or parsed, has exactly 4 rows of exactly 4 cells |
| `Observation.ParseObservationForBoard` | src/components/Utils.js:62-85 | the length check, the two slices and the nested push loops build exactly the board `DecodeBoard` specifies |
| `Observation.ShortObservationFallsBack` | src/components/Utils.js:63-66 | a vector shorter than 82 yields the fallback board, every cell owner-less with type -1, nothing partially parsed |
| `Observation.DecodedCell` | src/components/Utils.js:67-81 | for a full vector, cell (i, j) has type `obs[66+4i+j]`, has no owner iff `obs[50+4i+j] == -1`, and otherwise is owned by player `obs[50+4i+j]` |
| `Observation.OwnerExample` | src/components/Utils.js:75-78 | builder value 2 at position 55 shows as owner "P3" at row 1, column 1 |
| `Observation.DecodeReadsOnlyWindow` | src/components/Utils.js:67-70 | two full vectors that agree on positions 50..81 decode to the same board |
| `Observation.UnclaimedEmptyIsFallback` | src/components/Utils.js:77-80 | a full vector with -1 in all of 50..81 decodes to a board equal to the fallback board |
| `ActionEncoder.ComputeActionNumber` | src/components/Play.js:83-93 | skip or no choice gives 0 whatever the selection, no selection gives 0, and an offered building on an on-grid parcel gives a code in 0..48 |
| `ActionEncoder.CellIdRoundTrip` | src/components/Play.js:91 | an on-grid parcel's cell number lies in 0..15 and gives back its row (div 4) and column (mod 4) |
| `ActionEncoder.ActionRoundTrip` | src/components/Play.js:90-92 | building b on an on-grid parcel gets a code in 1..48, and the server's div/mod by 16 reads back exactly (b, cell) |
| `ActionEncoder.ActionNumberMeaning` | src/components/Play.js:80-93 | every code the page can compute means either "build the chosen type on the selected cell" or the no-op, and it is the no-op exactly when no building or no parcel is chosen |
| `ActionEncoder.ActionNumberInjective` | src/components/Play.js:90-92 | distinct (building, parcel) choices get distinct codes, and none of them is the skip code 0 |
| `ActionEncoder.ActionOnto` | src/components/Play.js:80-92 | every code in 1..48 decodes to a building type in 0..2 on a cell in 0..15, and that choice on that cell's row and column encodes back to the same code, so the encoding is onto 1..48 |
| `ActionEncoder.ActionExample` | src/components/Play.js:90-92 | a House on row 2, column 3 is action 28 |
| `Play.PlayComponent.constructor` | src/components/Play.js:19-29 | the page starts with the fallback board, no selection, no action, no error, no step info |
| `Play.PlayComponent.HandleParcelClick` | src/components/Play.js:66-73 | clicking an empty cell selects it; clicking a built cell leaves the selection and sets the error; the board, action and step info do not change; the selection always points to an empty cell |
| `Play.PlayComponent.ChooseAction` | src/components/Play.js:274-296 | the Skip and building buttons set the chosen action and change nothing else |
| `Play.PlayComponent.HandleSubmitAction` | src/components/Play.js:96-134 | with no selection: error set, nothing sent, nothing else changed. Otherwise the request carries the code under key "2", and it decodes to a build on the selected, still empty cell, or to the no-op. On failure only the error changes. On a reply: it is kept as step info, the board is re-decoded only if `next_observation[0][0]` exists, and the selection and action are cleared |
| `Play.PlayComponent.HandleResetGame` | src/components/Play.js:37-63 | on a reply: the board is re-decoded only if `observation[0][0]` exists, and step info, selection and action are cleared. On failure only the error changes |
| `Simulation.Step` | src/components/Simulation.js:69-133 | with no episode no step moves. The movement steps never change the turn. A turn step that moves resets the movement to 0 |
| `Simulation.StepSaturates` | src/components/Simulation.js:69-133 | each step moves by one exactly when strictly inside its bound (turn < last, turn > 0, movement < last of the turn, movement > 0), and is a no-op at the bound |
| `Simulation.StepKeepsInBounds` | src/components/Simulation.js:69-133 | every step keeps the cursor among the positions reachable from a load |
| `Simulation.RunKeepsInBounds` | src/components/Simulation.js:69-133 | any sequence of steps keeps the cursor among the positions reachable from a load |
| `Simulation.CursorStaysInside` | src/components/Simulation.js:52-62 | after loading a non-empty episode whose turns each have a movement, any sequence of steps keeps 0 <= turn < len(episode) and 0 <= movement < len(observation[0]) of that turn, so there is always a vector to show |
| `Simulation.NoEpisodeRunIsIdentity` | src/components/Simulation.js:69-133 | with no episode loaded, any sequence of the four steps leaves the cursor unchanged |
| `Simulation.TurnRoundTrip` | src/components/Simulation.js:69-90 | next turn then previous turn returns to the first movement of the starting turn |
| `Simulation.MovementRoundTrip` | src/components/Simulation.js:93-133 | next movement then previous movement returns to the same cursor |
| `Simulation.SingleMovementEpisode` | src/components/Simulation.js:93-116 | when every turn has exactly one movement, the movement index stays 0 whatever steps are taken |
| `Simulation.SingleMovementKeepsFirst` | src/components/Simulation.js:93-116 | the same, from any cursor whose movement is 0 |
| `Simulation.SimulationComponent.constructor` | src/components/Simulation.js:29-41 | the page starts with no episode, cursor (0, 0), the fallback board and current player "P1", and the player name follows the movement index |
| `Simulation.SimulationComponent.FetchSimulationEpisode` | src/components/Simulation.js:44-66 | on a reply: the episode is replaced, the cursor is reset to (0, 0), the player is "P1", and the board is decoded from `episode[0].observation[0][0]` when it exists. On failure nothing changes |
| `Simulation.SimulationComponent.NextTurn` | src/components/Simulation.js:69-78 | the cursor moves as `Step` says; the board is re-decoded at the new turn's first vector only when the cursor moved; the episode is unchanged and the invariant (bounds, player sync, board shows the cursor) holds |
| `Simulation.SimulationComponent.PreviousTurn` | src/components/Simulation.js:81-90 | the same for the previous turn |
| `Simulation.SimulationComponent.NextMovement` | src/components/Simulation.js:93-116 | the same for the next movement, without touching the turn |
| `Simulation.SimulationComponent.PreviousMovement` | src/components/Simulation.js:119-133 | the same for the previous movement, without touching the turn |

## Left out

- HTTP calls to `/reset`, `/step` and `/simulate`, JSON parsing, and the choice of `API_BASE_URL`. These are I/O; their outcomes are the `reply` parameters.
- `async`/`await` ordering, the `setTimeout` that clears the click error after two seconds, the mount-time `useEffect` that calls the reset, and `console` logging.
- All rendering: the board and turn views, the step-info view, the colour and name tables, and the Show/Hide Builders toggle.
- `parseAndDisplayInfo`, which only formats `info` for display. Utils.js does not define it, so it is not part of this model. The `info` and `rewards` fields of replies are not modelled for the same reason.
- The resource key fallback `money || Money`, which is display only.
- The movement buttons, which are commented out in the page.
- The parcel selection state of the replay page, whose cells only log clicks.
- Navbar, the app pages and the static demo board. They are routing and a demo whose empty-cell guard repeats the one of the play page.
- `parseInt` on strings other than `"0"`, `"1"` and `"2"` (NaN codes). The page never produces them.
- Observation.PlayerNameInjective: holds for unbounded integers. The page computes `builderVal + 1` as a double, which is exact only while the result stays within 2^53 in magnitude. Beyond that, for example at 2^53 - 1 and 2^53, two builder values render as the same owner. The model does not represent double rounding.
- JavaScript's exponent notation for numbers of 10^21 or more in `"P" + (index + 1)`. The model renders every integer in plain decimal.
- Non-integer or non-numeric vector entries. Vectors are `seq<int>`.
- The bare-vector observation shape. Observations are fixed to the nested shape, so `Array.isArray` is not modelled.
- An uncaught exception in `nextTurn`, `previousTurn` or `previousMovement` when the target vector is missing. The model keeps the old board and does not model the error report.
