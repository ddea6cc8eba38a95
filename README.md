# Leaderboard client: record normaliser and operation locks

This project models the two exact cores of the leaderboard browser client, a single
React component in `src/App.js`. It proves properties about both.

1. **The record normaliser** (`setPlayerData`). The backend answers with
   `{players, playersInfo, fromRedis}`. When `fromRedis` is set, `players` is a
   flattened array `[username, money, username, money, ...]` that the client walks
   two entries at a time. Otherwise it is an array of `{username, money}` objects
   that the client walks one at a time. Each entry becomes a row
   `{rank, username, money, country, dailydiff}`:
   - ranks run `offset+1, offset+2, ...`;
   - `country` and `dailydiff` are looked up in `playersInfo` by username.

   In the model, `PlayerRecords.Players` is a tagged datatype (`Flat` or `Objs`)
   and stands in for the flag. `PlayerRecords.Normalize` is the specification.
   `PlayerRecords.NormalizeRows` is the client's loop, with its variable stride and
   its `rank` counter, proved equal to it.
2. **The view state and its operation locks.** The component holds four state
   records:
   - `rowState = {rowData, offset, pageCount, perPage}`;
   - one `{disabled, stopped}` record each for reset, simulation and distribution.

   `Leaderboard.App` has these four records as fields. Each handler is a method
   that states the new value of every field. The lock part of each transition is a
   function in `OperationLocks`. The lemmas there state what each transition does
   and what holds over sequences of events. `Paging` holds the two page formulas:
   `ceil(playerCount/100)` and `selected*100`.

Apart from `onGridReady` storing the grid API, `onGridReady` and `getTopPlayer`
(src/App.js:56-63, 141-146) only call `setPlayerData(response, 0)`, so they are `Leaderboard.App.SetPlayerData` with
offset 0. The synchronous first steps of `simulateOneWeekChanges` and
`calculatePrizePool` are `Leaderboard.App.SimulationStarted` and
`Leaderboard.App.DistributionStarted`.

Behaviours of the code worth knowing before reading the lemmas:
- **Mutual exclusion is not kept.** Starting a reset changes only the reset record
  (src/App.js:149), so the simulation button stays enabled while a reset runs.
  `OperationLocks.ResetAndSimulationCanRunTogether` shows two operations running at
  once. Separately, any non-empty fetch re-enables every button, even while an
  operation runs.
- **`rowState.offset` is never written.** `setPlayerData` keeps the previous
  `offset`, so after a page click the first row's rank is `100*s+1` while
  `rowState.offset` keeps its old value.
- **A finished distribution does not enable the buttons.** `distributionStopped`
  leaves all three buttons disabled. Only a later non-empty `setPlayerData`, or
  the day-7 end of a simulation running at the same time, enables them again
  (`OperationLocks.StaysLockedUntilUnlock`). The second way is reachable: the
  "Get Top 100" button is never disabled, so a simulation and a distribution can
  overlap (`OperationLocks.DistributionUnlockedBySimulationEnd`).
- **A missing metadata entry rejects the response.** When `playersInfo[username]`
  is `undefined`, the client throws at the first such username, before any state
  setter runs. The model returns `Err(MissingInfo(username))` for that first
  username and changes no state. It never fills in default values. The model
  looks usernames up as map keys. A username that names an `Object.prototype`
  member (such as `constructor` or `toString`) is therefore an exception; see
  "## Left out".
- **The field is spelt `dailydiff`** (lower case), as in the code.

## Model

| member | source | states |
|---|---|---|
| `PlayerRecords.FlatPairs` | src/App.js:107-115 | The flattened array gives `length/2` pairs. Pair k is `(players[2k], players[2k+1])`. |
| `PlayerRecords.FirstRank` | src/App.js:105 | `offset ? offset + 1 : 1` is `offset + 1` for every offset ≥ 0. |
| `PlayerRecords.BuildRows` | src/App.js:104-127 | On success there is one row per pair, in input order. Row k is ranked `first + k` and takes its username and money from pair k. Its country and dailydiff come from `playersInfo[username]`. |
| `PlayerRecords.BuildOkIff` | src/App.js:107-125 | Building succeeds if and only if every username is a key of the `playersInfo` map. |
| `PlayerRecords.BuildErrFirstMissing` | src/App.js:107-125 | On failure, the reported username is the first one in input order that has no `playersInfo` entry. |
| `PlayerRecords.NormalizeObjs` | src/App.js:117-127 | Object shape gives exactly `players.length` rows. Row k has rank `offset+1+k`, object k's username and money, and that user's `playersInfo` country and dailydiff. |
| `PlayerRecords.NormalizeFlat` | src/App.js:107-116 | Flattened shape gives `players.length/2` rows. Row k has rank `offset+1+k`, username `players[2k]`, money `players[2k+1]`, and that user's `playersInfo` country and dailydiff. |
| `PlayerRecords.NormalizeFailsIffMissing` | src/App.js:113-123 | Normalising fails exactly when some username is not a key of the `playersInfo` map. The error names such a username. The map has no prototype chain; see "## Left out". |
| `PlayerRecords.FlatExample` | src/App.js:105-127 | `["alice",100,"bob",90]` from offset 0 gives alice at rank 1 and bob at rank 2, each with their own country and dailydiff. |
| `PlayerRecords.ObjsExample` | src/App.js:117-127 | `[{cara, 50}]` from offset 200 gives cara at rank 201. |
| `PlayerRecords.ReadPair` | src/App.js:108-124 | Reading entry i gives pair k of the input: `players[2k]` and `players[2k+1]` in the flattened shape, `players[k]`'s username and money in the object shape. |
| `PlayerRecords.NormalizeRows` | src/App.js:104-128 | The loop returns exactly `Normalize`: same rows, or the same first missing username. It steps by 2 or by 1 and keeps a `rank` counter. |
| `Paging.PageCount` | src/App.js:32 | `ceil(playerCount/100)` is the least r with `100*r >= playerCount`. |
| `Paging.PageOffset` | src/App.js:47-48 | The offset of page `selected` is a multiple of 100, and dividing it by 100 gives `selected` back. |
| `Paging.PageOffered` | src/App.js:32-48 | Page s is below the page count if and only if its offset is below the player count. |
| `Paging.ClickedPageRanks` | src/App.js:46-52 | The rows fetched for page s are ranked `100*s+1, 100*s+2, ...`. |
| `OperationLocks.StartLocksAll` | src/App.js:73-89 | Starting a simulation or a distribution disables all three buttons and marks that operation running. The other two `stopped` flags are unchanged. |
| `OperationLocks.ResetStartTouchesOnlyReset` | src/App.js:149 | Reset start sets reset to `{disabled: true, stopped: false}` and leaves simulation and distribution as they were. |
| `OperationLocks.ResetAndSimulationCanRunTogether` | src/App.js:148-149 | From the initial state, the simulation button is still enabled after a reset start. Clicking it leaves both reset and simulation running. |
| `OperationLocks.SimulationStopReleases` | src/App.js:79-83 | Simulation stop enables all three buttons and sets `simulation.stopped`. The other two `stopped` flags are unchanged. |
| `OperationLocks.DistributionStopKeepsLocked` | src/App.js:91-95 | Distribution stop sets `distribution.stopped` and leaves all three buttons disabled. The other two `stopped` flags are unchanged. |
| `OperationLocks.ResetSuccessLocks` | src/App.js:65-71 | Reset success sets reset to `{disabled: true, stopped: true}` and disables the other two buttons. Their `stopped` flags are unchanged. |
| `OperationLocks.RowsArrivedEnables` | src/App.js:134-138 | Arriving rows change no `stopped` flag. Non-empty rows enable all three buttons. Empty rows change nothing. |
| `OperationLocks.SimulateDayEndsOnlyOnDay7` | src/App.js:163-167 | During a simulation, a simulate event changes the locks if and only if its day is 7, and only day 7 ends the run. |
| `OperationLocks.SimulationRunsUntilDay7` | src/App.js:163-173 | A running simulation that receives a sequence of days (the handler unsubscribes after day 7) is still running if and only if day 7 was not among them. |
| `OperationLocks.SimulationWeek` | src/App.js:161-173 | After a simulation start, the simulation ends exactly when day 7 is delivered. |
| `OperationLocks.LabelChangesOnlyByOwnEvents` | src/App.js:65-138 | Across any sequence of events, an operation's `stopped` flag (its button label) changes only through that operation's own handlers. |
| `OperationLocks.StaysLockedUntilUnlock` | src/App.js:65-138 | Once all three buttons are disabled, they stay disabled until non-empty rows or a day-7 simulate event arrive. |
| `OperationLocks.DistributionUnlockedBySimulationEnd` | src/App.js:73-95 | Simulate, a non-empty fetch, Distribute, then a prize-pool response with no rows: every button is disabled. A following day-7 simulate event enables all three with no `setPlayerData`. |
| `OperationLocks.ResetCycle` | src/App.js:148-158 | After reset start and reset success, every button is disabled and reset is stopped. A following fetch enables all three if and only if it has rows. |
| `Leaderboard.App.constructor` | src/App.js:19-22 | Initial state: no rows, offset 0, page count 0, perPage 100, and every operation `{disabled: false, stopped: true}`. |
| `Leaderboard.App.PlayerCountHandler` | src/App.js:29-33 | Only `rowState.pageCount` changes, to `PageCount(playerCount)`. |
| `Leaderboard.App.ResetLeaderboardData` | src/App.js:65-71 | `rowData` becomes empty, and offset, pageCount and perPage are unchanged. The locks become `ResetSucceeded` of the old locks. |
| `Leaderboard.App.SimulationStarted` | src/App.js:73-77 | Rows unchanged. The locks become `SimulationStarted` of the old locks. |
| `Leaderboard.App.SimulationStopped` | src/App.js:79-83 | Rows unchanged. The locks become `SimulationStopped` of the old locks. |
| `Leaderboard.App.DistributionStarted` | src/App.js:85-89 | Rows unchanged. The locks become `DistributionStarted` of the old locks. |
| `Leaderboard.App.DistributionStopped` | src/App.js:91-95 | Rows unchanged. The locks become `DistributionStopped` of the old locks. |
| `Leaderboard.App.SetPlayerData` | src/App.js:98-139 | Returns `Normalize(payload, offset)`. On error, nothing changes. On success, `rowData` is replaced wholesale and offset, pageCount and perPage are unchanged. The locks are re-enabled only when there is at least one row. |
| `Leaderboard.App.HandlePageClick` | src/App.js:46-54 | The response is normalised from offset `100*selected`, so its rows are ranked from `100*selected+1`. The state changes as in `SetPlayerData`. |
| `Leaderboard.App.ResetLeaderboard` | src/App.js:148-149 | Rows unchanged. Only the reset record changes, to `{disabled: true, stopped: false}`. |
| `Leaderboard.App.ResetResponded` | src/App.js:151-158 | On success, `rowData` is emptied and the locks become `ResetSucceeded`. On failure, nothing changes. |
| `Leaderboard.App.SimulateHandler` | src/App.js:163-167 | Rows unchanged. Day 7 stops the simulation; any other day changes nothing. |
| `Leaderboard.App.PrizePoolResponded` | src/App.js:181-187 | The distribution is stopped first, then the response is shown from rank 1. The locks end all disabled unless the response has rows. |

## Left out

- PlayerRecords.NormalizeRows requires a well-formed flattened array: even length, usernames at even indices, amounts at odd ones. `Leaderboard.App.SetPlayerData` and its callers inherit this requirement. On an odd-length array the source would build a row whose `money` is `undefined`. With a number at a username position it would look up the number's string form. Neither case is modelled.
- PlayerRecords.NormalizeFailsIffMissing (and `BuildOkIff`, `BuildErrFirstMissing`, `NormalizeRows`): the `playersInfo` lookup is modelled as membership in a map, which has no prototype chain. A username that names an `Object.prototype` member (`constructor`, `toString`, `valueOf`, `hasOwnProperty`, `__proto__`, ...) and has no own entry is an error in the model. In the source, `playersInfo[username]` finds the inherited member, so nothing throws: the client builds a row with `country` and `dailydiff` `undefined`, and enables the buttons (src/App.js:113-114, 122-123, 134-137).
- `money` and `dailydiff` are integers that the model passes through untouched. A `playersInfo` entry that lacks `country` or `dailydiff` (giving `undefined` in JavaScript) is not modelled: every entry has both fields.
- Paging.PageCount takes a natural number. A fractional or negative `playerCount` from the socket is not modelled.
- The axios requests and the order in which they complete are not modelled. Each response is a method parameter. The last-write-wins race between overlapping fetches is concurrency and is not modelled.
- The socket.io connection is not modelled. This covers its `on`/`off` bookkeeping, the re-registration of the `playerCount` handler each time the effect re-runs (whenever `rowState` or `gridApi` changes, src/App.js:29-43), and `connect_error` logging. The simulate handler's removal of itself after day 7 is kept, as `OperationLocks.DeliverDays`.
- React semantics are not modelled: batching of state updates, and spreads over state captured at render time (`{...reset, ...}`, `{...rowState, ...}`). Each transition updates the current state. So `OperationLocks.RowsArrivedEnables` and `OperationLocks.LabelChangesOnlyByOwnEvents` hold of the model's current-state transitions, not of the running app. In the app, a page response that arrives after a Simulate click spreads the click-time `simulation` record (src/App.js:137). That sets `simulation.stopped` back to true while the week is still running.
- Leaderboard.App.ResetLeaderboardData and Leaderboard.App.ResetResponded promise that `pageCount` is unchanged. In the source, `resetLeaderboardData` writes `{...rowState, rowData: []}` over the `rowState` captured when Reset was clicked, not a functional update (src/App.js:66). If a `playerCount` event lands between the click and the response, the app puts the click-time `pageCount` back. The model applies the reset to the current row state instead.
- The UI is not modelled: SweetAlert popups, `console.log`, ag-grid column sizing, ReactPaginate props, JSX labels, and the `BACKEND_SERVER_URI` setting. The button labels are represented only by the `stopped` flags.
- `getTopPlayer`'s `topLimit` argument only shapes the request URL, so the model has no parameter for it.
