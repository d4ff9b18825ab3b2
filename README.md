# Missile-command game server: a Dafny model of the simulation core

The Go server keeps one shared game world. It holds two countries, their cities and their missile batteries, a list of missiles in flight and a list of subscribed players. This project models the parts of `main.go` that change that world:

- **Launching a missile** (`Player.LaunchMissile`). An empty silo refuses the launch and nothing changes. Otherwise the silo loses one missile, and a new active missile is appended to the game's list.
- **One tick of the game loop.** `moveMissiles` advances every active missile and switches off the ones that arrived. It returns their destinations in list order. The loop then lowers the population of every city named by a hit. Each matching hit subtracts a random draw below 4 500 000, floored at zero.
- **The subscriber list.** A new player is appended. On cancellation, the first player with the same ID is removed and the others keep their order.
- **The seed world** (`country.go`) and the start of a client connection (`serveWs`).

Modules:

- `World` (world.dfy): the entities. Values are datatypes or `const` fields. What Go updates through a pointer is a mutable field of a class (`City`, `MissileBattery`, `Missile`).
- `Movement` (movement.dfy): one tick of flight as pure functions on `Flight` values. It also has the lemmas that relate the hit list to the deactivated missiles, and the lemmas about repeated ticks.
- `Casualties` (casualties.dfy): one city's population under a sequence of hits, as a function. It has a closed form, bounds, and per-city counting lemmas.
- `Registry` (registry.dfy): "remove the first entry with this ID" as a function, with its lemmas.
- `Game` (game.dfy): the `GameState` and `Player` classes. The imperative methods are proved against the functions above.
- `Server` (server.dfy): what happens when a client connects, and a scenario over the seed world.

The random source, the float trajectory and Go's map iteration order are inputs of the model:

- **Random casualties.** `draw(city, k)` is the number killed when hit `k` of the tick matches `city`. It can be any value in `[0, 4500000)`.
- **Trajectory.** A `Kinematics` value supplies the next position and the altitude. The arrival test is exact: latitude within 0.05 and longitude within 0.2.
- **Map iteration order.** Countries and cities are visited in an order the verifier chooses (`:|`). Every result is proved for every order.

## Model

| member | source | states |
|---|---|---|
| Movement.Step | main.go:100-141 | An inactive missile is returned unchanged. Destination and speed never change. The missile is active after the tick exactly when it was active before and did not arrive within the 0.05/0.2 tolerances. |
| Movement.StepAll | main.go:99-142 | Same length and destinations. No inactive missile changes or is reactivated, and no missile becomes active. |
| Movement.Hits | main.go:136-143 | The hit list a tick returns holds at most one entry per missile. `HitsAreDeactivated` states what it holds. |
| Movement.HitsPrefix | main.go:136-141 | The hit list of the first i+1 missiles is that of the first i, plus missile i's destination when missile i arrives. |
| Movement.HitsAreDeactivated | main.go:136-143 | The hit list is exactly the destinations of the missiles the tick switched from active to inactive, in list order. |
| Movement.HitsCount | main.go:136-143 | The number of hits plus the number of active missiles after the tick equals the number active before it. |
| Movement.InactiveStaysPut | main.go:102-104 | Over any number of ticks, an inactive missile keeps its whole state. |
| Movement.StrikesAtMostOnce | main.go:136-140 | After a missile arrives, it is inactive at every later tick and never appears in a hit list again. |
| Casualties.AfterHits | main.go:296-305 | One city's population after the tick's hits in order. It has no contract beyond its definition; `AfterHitsClosedForm`, `AfterHitsBounds`, `AfterHitsUnmatched` and `StrikeCount` state what it computes. |
| Casualties.Strike | main.go:298-305 | The new population is never negative and never above a non-negative old one. It is zero exactly when the draw is at least the population. |
| Casualties.MatchingDrawsNonNegative | main.go:298 | The draws of a city's hits sum to a non-negative total. |
| Casualties.AfterHitsClosedForm | main.go:296-305 | Successive floored strikes equal one subtraction of the sum of the matching draws, floored at zero. |
| Casualties.AfterHitsBounds | main.go:297-305 | After any hits, 0 <= population <= the population before. |
| Casualties.AfterHitsUnmatched | main.go:296-297 | A city whose name no hit carries keeps its population. |
| Casualties.StrikeCount | main.go:296-298 | A city named k times in the hit list takes exactly k draws. |
| Registry.RemoveFirst | main.go:174-179 | Unsubscribing removes at most one entry and adds none. |
| Registry.RemoveFirstAbsent | main.go:174-179 | With no entry carrying the ID, the list is unchanged. |
| Registry.RemoveFirstSplice | main.go:174-179 | When the first match is at j, the result is xs[..j] + xs[j+1..]: only that entry goes and the rest keep their order. |
| Registry.RemoveAfterAppend | main.go:164-179 | Subscribing a new ID and then unsubscribing it restores the list. |
| Game.MoveMissile | main.go:105-141 | One active missile's new state is `Step` of its old state, and the returned flag is its arrival. |
| Game.StrikeCity | main.go:296-308 | One city's loop over the hits leaves the population `AfterHits` of its old value. |
| Game.StrikeCountry | main.go:295-309 | Every city of a country, visited in any order, ends at `AfterHits` of its own old population. |
| Game.OtherCountryUntouched | main.go:294-310 | Given distinct city objects, a city of another country is not among the values of the struck country's city map. `ApplyCasualties` uses this to keep that city's population while one country is struck. |
| Game.SeedCountries | country.go:3-79 | The seed world: the USA (New York, Los Angeles, batteries with 10 and 5 missiles) and Russia (Moscow, Saint Petersburg, one empty battery), all distinct new objects. |
| Game.GameState.constructor | main.go:320-334 | A new game over the seed world has no missiles and no players, and satisfies the invariant. |
| Game.GameState.MoveMissiles | main.go:99-144 | The missiles' new flights are `StepAll` of the old ones, and the result is `Hits` of the old flights. The invariant is kept. |
| Game.GameState.ApplyCasualties | main.go:292-311 | Every city ends at `AfterHits` of its old population, between 0 and that population. The invariant is kept. |
| Game.GameState.RunTick | main.go:289-311 | One tick: moving the missiles, then applying the casualties of the returned hits. |
| Game.Player.constructor | main.go:62-71 | A player with the given ID, game and country. |
| Game.Player.LaunchMissile | main.go:73-89 | An empty silo gives an EmptySilo error naming its coordinates and changes nothing. Otherwise the count drops by one, and one new missile is appended: active, altitude 1000, Mach 2.5, aimed at the target, from the silo's coordinates and the player's country. Earlier missiles are unchanged. |
| Game.Player.Subscribe | main.go:164 | The player is appended to the subscriber list. The game invariant is kept. |
| Game.Player.Unsubscribe | main.go:173-179 | The list becomes `RemoveFirst` of the old list by this player's ID. The game invariant is kept. |
| Server.ServeClient | main.go:237-240 | A connection adds a Russian player at the end of the list. The launch at Moscow from the first USA battery succeeds exactly when that battery is not empty. On success it decrements the battery and appends the missile, keeping the earlier missiles. On refusal the battery count and the missile list are unchanged. |
| Server.OpeningMoves | main.go:238-240 | Over the seed world, the first two connections both launch. A launch from the Russian battery, which starts empty, is refused, so two missiles are in flight. |

## Left out

- The WebSocket and HTTP layer (`serveWs` beyond lines 237-240, `handleMessage`, `ClientUpdate`, `main`, `serveGame`'s listener) is I/O.
- The JSON encoding, `addTypeToJSON` and the browser client `index.js` are also left out.
- `broadcastGameState`, the player's `Channel`, the delivery goroutine and its `WriteJSON` calls are concurrency and I/O. Only the list changes they make (append, remove the first match) are modelled.
- Concurrency is not modelled. In the code, launches, unsubscriptions and the tick run in different goroutines with no lock. The model runs each operation atomically.
- The 20 ms ticker, `slog` logging and `uuid.New` are left out. IDs are parameters.
- The float trajectory (lines 109-133: normalisation, the `0.1` speed factor, the parabolic height and the `int(...)` truncation) is a `Kinematics` parameter. `rocket_science.go` is not called from `main.go` and is not part of this model. The zero-distance `0/0` case and float rounding in the arrival test are not modelled.
- Movement.Step: states the new position and altitude only as whatever `Kinematics` gives, not the Go formulas.
- `rand.Intn(4500000)` is one shared stream consumed in map order. The model takes `draw(city, k)` per city and hit index, which covers every possible stream.
- The populations are unbounded integers. Go's `int` is 64 bits, and populations below 10^8 never come near overflow.
- `Range`, `Radius` and `StartingPopulation` are carried but never used by the code. The model keeps them as fields.
- The game's `events` channel is used only by `broadcastGameState` (main.go:268, 271), which is left out, so the model omits it.
- Game.Player.LaunchMissile: does not check that the silo belongs to the player's country, because the code does not. `serveWs` launches from a USA battery as the Russian player, at Moscow.
- Game.Player.LaunchMissile: the new missile's position in flight is (0, 0), Go's zero value, because the code never sets it to the launch site.
- Game.Player.LaunchMissile: a negative missile count is launched from like a positive one, because the code tests only `== 0`. The game invariant keeps counts non-negative.
