# Mr. Teals bot backend — verified model of its in-memory state

The backend (`app/main.py`) is a small FastAPI service for a demonstration
crypto trading bot. Its logic is a handful of in-memory state updates behind
HTTP and WebSocket endpoints. This project models these updates in Dafny and
proves what they promise:

- **Connection registry** (`ConnectionManager`): connecting appends a
  subscriber; disconnecting removes its first occurrence if it is present;
  broadcasting walks a copy of the registry, attempts every delivery and
  drops each subscriber whose delivery failed
  (module `Connections`, class `ConnectionManager`).
- **Watchlist**: `add_symbol` upper-cases the symbol and appends it unless
  it is already listed; `remove_symbol` upper-cases it and removes it if it
  is listed (module `Watchlists`, class `Watchlist`).
- **Bot run state**: `start_bot`, `pause_bot` and `kill_bot` over
  `bot_running`, `bot_paused` and the feed task. The task handle is reduced
  to a flag `hasTask` (module `BotControl`, pure transition functions and
  class `Bot`).
- **Price feed**: the decision each turn of the `price_feed` loop makes, and
  the price map of one tick, whose keys are exactly the watchlist symbols
  (module `PriceFeed`).
- **Risk settings**: `update_risk` overwrites exactly the settings that were
  supplied (module `Risk`, class `RiskSettings`).

Module `Sequences` holds what the registry and the watchlist share: Python's
`list.remove` (only the first occurrence goes), the guarded
`if x in xs: xs.remove(x)` (`Discard`) and the duplicate-free property.

Each class keeps the source's fields and updates them in place. Its methods
are proved against pure functions (`Discard`, `Broadcasted`, `Added`,
`Removed`, `Start`, `Pause`, `Kill`, `Updated`), and the lemmas state the
promised properties about those functions.

The code has no resume path. `start_bot` does nothing to a bot that is
already running, so a paused bot stays paused and still answers "running".
`pause_bot` only ever sets the pause flag, so only `kill_bot` followed by
`start_bot` brings ticks back. The model follows the code,
and `BotControl.PausedUntilKilled` states this behaviour.

Inputs the code takes from its environment are parameters here:
- the outcome of each `send_json` is one boolean per attempted delivery;
- the prices `random.uniform` draws are one value per watchlist entry;
- the timestamp is a string.

## Model

| member | source | states |
|---|---|---|
| `Sequences.RemoveFirst` | app/main.py:38 | `list.remove` on a list holding `x` shortens it by exactly one |
| `Sequences.RemoveFirstMultiset` | app/main.py:38 | `list.remove(x)` takes away one copy of `x` and nothing else |
| `Sequences.RemoveFirstAt` | app/main.py:38 | only the first occurrence is removed: in `a + [x] + b` with no `x` in `a`, the result is `a + b` |
| `Sequences.RemoveFirstNoDup` | app/main.py:38 | on a duplicate-free list `remove` leaves no copy of `x` and keeps the list duplicate-free |
| `Sequences.Discard` | app/main.py:37-38 | remove-if-present: an absent element leaves the list unchanged, a present one shortens it by one |
| `Sequences.DiscardMultiset` | app/main.py:37-38 | remove-if-present takes away one copy of the element if there is one, and nothing else |
| `Sequences.DiscardAbsent` | app/main.py:36-38 | disconnecting an absent subscriber is a silent no-op, so doing it twice is the same as once |
| `Sequences.DiscardTwice` | app/main.py:36-38 | on a duplicate-free registry the subscriber is gone after one disconnect, and a second disconnect changes nothing |
| `Sequences.AppendThenDiscard` | app/main.py:32-38 | connecting a new subscriber and then disconnecting it gives back the registry as it was |
| `Sequences.AppendNoDup` | app/main.py:32-34 | appending a subscriber that is not yet registered keeps the registry duplicate-free |
| `Sequences.DistinctCount` | app/main.py:89-90 | a duplicate-free list has exactly as many distinct entries as positions |
| `Connections.ConnectionManager.constructor` | app/main.py:29-30 | the registry starts empty |
| `Connections.ConnectionManager.Connect` | app/main.py:32-34 | the subscriber is appended at the end and every earlier entry keeps its place |
| `Connections.ConnectionManager.Disconnect` | app/main.py:36-38 | the registry becomes `Discard` of the old registry: first occurrence removed if present, no change otherwise |
| `Connections.AfterSend` | app/main.py:42-45 | one delivery attempt: a success leaves the registry as it was; a failure disconnects the subscriber, shortening the registry by one if it is still there and changing nothing otherwise |
| `Connections.Broadcasted` | app/main.py:40-45 | the walk over the snapshot, one `AfterSend` per entry in order: the registry never grows and loses at most one entry per attempted delivery |
| `Connections.Survivors` | app/main.py:41-45 | the snapshot entries whose delivery succeeded, in order; never more than the snapshot |
| `Connections.Failed` | app/main.py:41-45 | the snapshot entries whose delivery failed, in order; never more than the snapshot |
| `Connections.OutcomesPartition` | app/main.py:41-45 | every attempted delivery either succeeds or fails: survivors and failures together are exactly the snapshot, as multisets |
| `Connections.ConnectionManager.Broadcast` | app/main.py:40-45 | one delivery attempt per entry of the pre-broadcast snapshot, in order, failures included; the registry ends as the snapshot walk `Broadcasted` leaves it |
| `Connections.BroadcastRemovesFailed` | app/main.py:40-45 | for any registry, the broadcast removes exactly one copy per failed delivery of a subscriber still present |
| `Connections.BroadcastAddsNothing` | app/main.py:40-45 | a broadcast never adds a subscriber |
| `Connections.BroadcastFilters` | app/main.py:41-45 | mid-walk, the entries already walked stay in front and the rest is filtered by the delivery outcomes |
| `Connections.BroadcastKeepsSurvivors` | app/main.py:40-45 | on a duplicate-free registry, the result is exactly the subscribers whose delivery succeeded, in their original relative order |
| `Watchlists.UpperChar` | app/main.py:141 | a lower-case ASCII letter becomes the upper-case letter 32 code points below it; every other character is kept; the result is never a lower-case ASCII letter |
| `Watchlists.Upper` | app/main.py:141 | upper-casing keeps the length and maps each character by ASCII upper-casing |
| `Watchlists.UpperIdempotent` | app/main.py:141 | upper-casing an upper-cased symbol changes nothing |
| `Watchlists.DefaultsWellFormed` | app/main.py:48 | the startup watchlist is upper-case and duplicate-free |
| `Watchlists.Added` | app/main.py:139-144 | the upper-cased symbol ends up listed, the old list is a prefix of the new one, nothing else is added, and the list grows only if the symbol was absent |
| `Watchlists.Removed` | app/main.py:146-151 | an unlisted symbol leaves the list unchanged; otherwise exactly one copy of the upper-cased symbol goes |
| `Watchlists.AddIdempotent` | app/main.py:139-144 | adding the same symbol again, in any letter case, changes nothing |
| `Watchlists.AddKeepsWellFormed` | app/main.py:139-144 | adding keeps the watchlist upper-case and duplicate-free |
| `Watchlists.RemoveKeepsWellFormed` | app/main.py:146-151 | removing keeps the watchlist upper-case and duplicate-free, and the symbol is no longer listed |
| `Watchlists.AddThenRemove` | app/main.py:139-151 | adding an unlisted symbol and then removing it, in any letter case, restores the watchlist |
| `Watchlists.RemoveAbsent` | app/main.py:146-151 | removing an unlisted symbol, once or twice, leaves the watchlist unchanged |
| `Watchlists.Watchlist.constructor` | app/main.py:48 | the watchlist starts as BTC/USD, ETH/USD, SOL/USD and is well formed |
| `Watchlists.Watchlist.AddSymbol` | app/main.py:139-144 | the field becomes `Added` of the old list, the endpoint returns it, and well-formedness is kept |
| `Watchlists.Watchlist.RemoveSymbol` | app/main.py:146-151 | the field becomes `Removed` of the old list, the endpoint returns it, and well-formedness is kept |
| `BotControl.StateOf` | app/main.py:49-51 | the stopped phase is the startup state; running and paused are the states with the matching flags, and a task is held exactly in the running and paused phases |
| `BotControl.Consistent` | app/main.py:109-134 | the invariant paused ⇒ running and task ⇔ running; under it a paused bot still holds its task and a bot that is not running is in the startup state |
| `BotControl.ConsistentIsPhase` | app/main.py:109-134 | the states with paused ⇒ running and task ⇔ running are exactly stopped, running and paused |
| `BotControl.Start` | app/main.py:110-116 | always answers "running"; a stopped bot becomes running, unpaused, with a task; a running bot (paused or not) is unchanged; consistency is kept |
| `BotControl.Pause` | app/main.py:118-124 | a running bot becomes paused and answers "paused"; a stopped bot is unchanged and answers "stopped"; consistency is kept |
| `BotControl.Kill` | app/main.py:126-134 | from any state: not running, not paused, no task (the startup state), answering "killed" |
| `BotControl.Run` | app/main.py:109-134 | the state after a sequence of endpoint calls; whatever came before, a final kill leaves the startup state and a final start leaves the bot running |
| `BotControl.OnlyKillStops` | app/main.py:110-134 | on a running bot, kill is the only call that clears `bot_running`, and it drops the feed task in the same step |
| `BotControl.RunKeepsConsistent` | app/main.py:109-134 | every sequence of start, pause and kill calls preserves paused ⇒ running and task ⇔ running |
| `BotControl.PausedImpliesRunning` | app/main.py:49-51 | from the startup state, after any calls, paused ⇒ running and task ⇔ running hold |
| `BotControl.PausedUntilKilled` | app/main.py:110-124 | a paused bot stays paused through any start and pause calls; only kill leaves that state |
| `BotControl.StartAndKillIdempotent` | app/main.py:110-134 | starting twice is the same as starting once, and killing twice the same as killing once |
| `BotControl.Bot.constructor` | app/main.py:49-51 | the bot starts not running, not paused, without a task |
| `BotControl.Bot.StartBot` | app/main.py:110-116 | the fields and the status answered are those of `Start` on the old fields |
| `BotControl.Bot.PauseBot` | app/main.py:118-124 | the fields and the status answered are those of `Pause` on the old fields |
| `BotControl.Bot.KillBot` | app/main.py:126-134 | the fields and the status answered are those of `Kill` on the old fields |
| `PriceFeed.NextAction` | app/main.py:83-86 | the loop condition fails exactly when not running, and the loop ticks exactly when running and not paused |
| `PriceFeed.TicksOnlyWhileRunning` | app/main.py:83-95 | on consistent states: tick exactly in the running phase, wait exactly when paused, leave exactly when stopped |
| `PriceFeed.PauseAndKillStopTicks` | app/main.py:83-86 | after a pause call no tick is produced; after a kill the loop condition fails (the running loop is cancelled before it checks it, see `BotControl.OnlyKillStops`) |
| `PriceFeed.BuildPriceData` | app/main.py:88-90 | the price map has exactly the watchlist symbols as keys; each symbol maps to the price drawn at its last position; on a duplicate-free watchlist there is one key per entry |
| `PriceFeed.PriceTick` | app/main.py:87-95 | the tick is a prices message with the given timestamp, the watchlist symbols as keys, each symbol's price the one drawn at its last position, and one key per entry on a duplicate-free watchlist |
| `Risk.Updated` | app/main.py:164-176 | every supplied setting takes the supplied value and every other setting keeps its value |
| `Risk.NoChangeIsIdentity` | app/main.py:170-175 | an update that supplies nothing changes nothing |
| `Risk.UpdateIdempotent` | app/main.py:170-175 | repeating an update changes nothing more |
| `Risk.UpdatesCompose` | app/main.py:170-175 | two updates in a row equal one update in which the later arguments win |
| `Risk.RiskSettings.constructor` | app/main.py:75-79 | the settings start at 1000.0, 1000.0 and 0.05 |
| `Risk.RiskSettings.UpdateRisk` | app/main.py:164-176 | the fields become `Updated` of the old settings, and the call returns them |

## Left out

- The FastAPI application, the CORS middleware, the route decorators and the query parsing (app/main.py:14-26 and the decorators). They are framework glue.
- The WebSocket handshake (`websocket.accept`), the JSON encoding of `send_json`, and the `receive_text` loop that detects a disconnect (app/main.py:33, 43, 101-108). They are foreign I/O. Each delivery is an abstract success or failure, and the endpoint's effect is `Connect` and `Disconnect`.
- asyncio scheduling: `sleep`, `create_task`, `cancel` and `CancelledError` (app/main.py:80-99, 115, 132). The feed task is the flag `hasTask`. One turn of the loop is `PriceFeed.NextAction`.
- The "stopped" notice (app/main.py:97). Only `kill_bot` clears `bot_running`, and in the same step, with no await in between, it cancels the feed task (`BotControl.OnlyKillStops`). The task is then suspended at an await, and from Python 3.8 on `CancelledError` is not an `Exception`, so `broadcast`'s handler (app/main.py:44) does not catch it. The loop always ends at app/main.py:98, and the notice is never sent after a kill. On Python 3.7 a cancel that lands inside `send_json` is swallowed by that handler instead: the healthy subscriber is disconnected, the loop then finds `bot_running` false, and the notice goes out. The model does not represent cancellation, so neither path is modelled.
- Interleaving: `broadcast` awaits between deliveries, so other coroutines could connect or disconnect subscribers mid-broadcast. The model treats a broadcast as one uninterrupted walk over its snapshot.
- The order of `price_data`: a Python dict keeps insertion order, so the prices message lists the symbols in watchlist order. `PriceFeed.BuildPriceData` returns a Dafny `map`, which has no order; only the keys and the values are modelled.
- `random.uniform(100, 40000)` prices and `datetime.utcnow()` timestamps (app/main.py:87, 90). These are supplied as inputs.
- The account snapshot, daily performance and last-trade getters (app/main.py:152-162). They return fixed dictionaries. This code has no ledger and no trade execution to model.
- `get_watchlist` (app/main.py:135-137) only returns the list. It is the `symbols` field.
- Watchlists.Upper: models ASCII upper-casing only. Python's `str.upper` also maps non-ASCII letters, and some of them to several characters.
- Floating point: the settings and prices are `real`. `update_risk` only stores values, so no rounding is involved.
- Connections.ConnectionManager.Connect: does not reject a subscriber that is already registered, and neither does the code. Each connection brings its own WebSocket object. The duplicate-free lemmas (`DiscardTwice`, `BroadcastKeepsSurvivors`) therefore assume a duplicate-free registry. With duplicates, `BroadcastRemovesFailed` still holds.
