# World Navigation Game: session and ranking model

A Dafny model of the game logic in `WorldNavigationGame/WorldNavigationApp.swift`.
In the game, a player flies a plane to twenty randomly chosen cities in a row, and
the game keeps each player's statistics across sessions. The model covers:

- the value types `City`, `Player` (with `averageTime`) and `GameSession`
  (`entities.dfy`);
- `DatabaseManager.getRandomCity`. Levels up to 5 draw only from primary cities;
  higher levels draw from the whole catalogue (`city_catalog.dfy`);
- `GameManager` as a class (`game_manager.dfy`). `startNewGame`, `reachedCity`,
  `setNextCity` and `endGame` update its fields in place;
- the ranking step of `endGame` (`rankings.dfy`). It finds or inserts the player,
  then sorts the list by average time. This file also has lemmas about the
  per-name totals that a series of sessions leaves behind;
- the two view handlers that call the manager's methods (`game_flow.dfy`). One is
  the menu's start button with its guard. The other is the game view's "Continue"
  handler with its level formula `min(10, citiesVisited / 2 + 1)`. Each handler
  takes the manager it acts on as a parameter.

Clock readings and durations are exact reals, in seconds. Every operation that
reads `Date()` takes the reading as a parameter `now`. `startNewGame` reads the
clock twice, and the model uses one reading for both. `randomElement()` becomes a
parameter `draw`: the result is the pool element at `draw` modulo the pool size.
`EveryPoolCityCanBeDrawn` shows that every pool element is the result of some draw.

Three behaviours of the Swift code worth knowing, all kept by the model:
- the ranking is ordered with Swift's `sort`, which is not stable. The model
  therefore promises only "ordered and a permutation", and no order among players
  with equal averages;
- `reachedCity` checks only that a leg start time is set, not that the session is
  active. After the twentieth arrival the start time is still set, so a further
  call counts a 21st city and records the session in the rankings again.
  `ReachedCity` keeps this behaviour;
- `setNextCity` has no guard either, and the "Continue" handler does not check
  whether the session is still active. Called after the twentieth arrival, the
  handler draws at level 10 and retargets the ended session.

## Model

| member | source | states |
|---|---|---|
| `Entities.AverageTime` | WorldNavigationGame/WorldNavigationApp.swift:21-23 | with games played, the average times the game count is the total time, and it lies between 0 and the total when the total is non-negative; with no games it is 0 |
| `Entities.IdleSession` | WorldNavigationGame/WorldNavigationApp.swift:26-33 | the default session has no city, no start times, no cities visited, a total of 0 and is inactive |
| `CityCatalog.PrimaryCities` | WorldNavigationGame/WorldNavigationApp.swift:179 | the filtered list holds exactly the primary cities of the catalogue and is no longer than the catalogue |
| `CityCatalog.Pool` | WorldNavigationGame/WorldNavigationApp.swift:178-179 | a city is in the pool exactly when it is in the catalogue and, at levels up to 5, is primary |
| `CityCatalog.GetRandomCity` | WorldNavigationGame/WorldNavigationApp.swift:177-181 | the result is nil exactly when no city qualifies for the level; otherwise it is a catalogue city, and a primary one at levels up to 5 |
| `CityCatalog.EveryPoolCityCanBeDrawn` | WorldNavigationGame/WorldNavigationApp.swift:180 | every city that qualifies for the level is the result of some draw |
| `Rankings.FirstIndexNamed` | WorldNavigationGame/WorldNavigationApp.swift:234 | the index found holds the name and no earlier player does; no index means that no player has the name |
| `Rankings.RecordSession` | WorldNavigationGame/WorldNavigationApp.swift:234-244 | the first player with the name gets the session time added and one more game; without one, a player with the session time and one game is appended |
| `Rankings.RecordSessionFrame` | WorldNavigationGame/WorldNavigationApp.swift:234-244 | the list grows by at most one, every player with another name is unchanged, and names stay in place |
| `Rankings.RecordSessionKeepsNamesDistinct` | WorldNavigationGame/WorldNavigationApp.swift:234-244 | if no two players shared a name before a session is recorded, none do after it |
| `Rankings.InsertByAverage` | WorldNavigationGame/WorldNavigationApp.swift:247 | inserting a player into a list ordered by average time gives an ordered permutation of the list plus that player |
| `Rankings.SortByAverage` | WorldNavigationGame/WorldNavigationApp.swift:247 | the result is a permutation of the input and is non-decreasing in average time |
| `Rankings.AggregatePermutation` | WorldNavigationGame/WorldNavigationApp.swift:247 | reordering the list, as the sort does, changes no name's total time or game count |
| `Rankings.RecordSessionAggregate` | WorldNavigationGame/WorldNavigationApp.swift:234-244 | recording a session adds its time and one game to its player name's totals and leaves every other name's totals unchanged |
| `Rankings.PermutationKeepsNamesDistinct` | WorldNavigationGame/WorldNavigationApp.swift:247 | reordering a list in which no two players share a name, as the sort does, leaves a list in which no two share a name |
| `Rankings.AggregateOfDistinct` | WorldNavigationGame/WorldNavigationApp.swift:234-236 | when no two players share a name, a name's summed time and game count are the `totalTime` and `gamesPlayed` of its one player |
| `Rankings.SessionsCommute` | WorldNavigationGame/WorldNavigationApp.swift:229-247 | two sessions of one player, each followed by any reordering, leave every name with the same total time and game count in either order |
| `Rankings.SessionsCommuteForPlayers` | WorldNavigationGame/WorldNavigationApp.swift:229-247 | from a list without repeated names, two sessions of one player, each followed by any reordering, give every player the same `totalTime` and `gamesPlayed` in either order |
| `Game.GameManager.constructor` | WorldNavigationGame/WorldNavigationApp.swift:185-197 | a fresh manager has no current player, the default session `GameSession()`, the stored players, no results shown and a last leg time of 0 |
| `Game.GameManager.StartNewGame` | WorldNavigationGame/WorldNavigationApp.swift:199-209 | sets the player name and a new active session with the first city, 0 cities visited, total time 0 and both start times at `now`; the players, the results flag and the last leg time are unchanged |
| `Game.GameManager.ReachedCity` | WorldNavigationGame/WorldNavigationApp.swift:211-222 | without a leg start time nothing changes; otherwise the leg time `now - start` is recorded and added to the total, and the city count rises by exactly one; below 20 neither the flags nor the players change; at 20 or more the session ends and the players become the ranking of the recorded list; an active session ends exactly on the 20th city; the total never decreases when `now` is not before the leg start |
| `Game.GameManager.SetNextCity` | WorldNavigationGame/WorldNavigationApp.swift:224-227 | only the current city and the leg start time change; the count, the total and the active flag stay |
| `Game.GameManager.EndGame` | WorldNavigationGame/WorldNavigationApp.swift:229-249 | the session becomes inactive, the results are shown, and the players become an ordered permutation of the list with the session recorded |
| `GameFlow.NextLevel` | WorldNavigationGame/WorldNavigationApp.swift:456 | the level lies in 1..10, is primary-only exactly while at most 9 cities have been visited, and reaches 10 exactly from 18 cities on |
| `GameFlow.NextLevelMonotone` | WorldNavigationGame/WorldNavigationApp.swift:456 | the level never decreases as more cities are visited |
| `GameFlow.NextLevelStep` | WorldNavigationGame/WorldNavigationApp.swift:456 | two more arrivals raise the level by exactly one until it reaches 10 |
| `GameFlow.FirstCity` | WorldNavigationGame/WorldNavigationApp.swift:574-575 | a first city exists exactly when the name is non-empty and the catalogue has a primary city; it is a primary catalogue city |
| `GameFlow.StartButton` | WorldNavigationGame/WorldNavigationApp.swift:573-579 | a session starts exactly when the guard yields a first city, and then it is the new active session for that name, with the players, the results flag and the last leg time unchanged; otherwise the manager is unchanged |
| `GameFlow.ContinueButton` | WorldNavigationGame/WorldNavigationApp.swift:454-464 | the level comes from the cities visited; a drawn city becomes the target with its leg starting at `now`, and the player name, the players, the results flag and the last leg time are unchanged; without a city the manager is unchanged |

## Left out

- The wiring of managers: `MenuView` owns one `GameManager` (WorldNavigationApp.swift:547), and its start button acts on it. `GameView` creates its own with `@StateObject` (line 400) and ignores the one passed in with `.environmentObject` (line 597). The game view's manager never has a current city, so `if let currentCity` (line 408) renders nothing, and its arrival and "Continue" handlers never run on a started session. The model does not capture this: its handlers take a manager as a parameter, and the lemmas hold for whichever manager is passed. Calling both handlers on the same manager follows the evident intent, not the wiring as written.
- StartNewGame: `startNewGame` reads `Date()` separately for `sessionStartTime` and `currentCityStartTime` (lines 204-205). The model sets both from one `now`, so the two readings cannot differ. Nothing reads `sessionStartTime` later, so no behaviour depends on this.
- SQLite storage of the catalogue: opening the database, creating the table, seeding the sample cities and reading and parsing the rows (WorldNavigationApp.swift:47-175). This is foreign C API and file I/O. The catalogue is a `seq<City>` parameter.
- `loadPlayers` and `savePlayers` (UserDefaults with a JSON codec). The constructor takes the decoded list as a parameter, and `EndGame` does not write the list anywhere.
- Arrival detection: `CLLocation.distance` and the 200 km threshold (WorldNavigationApp.swift:348-359). This is a foreign geodesic computation on doubles. `ReachedCity` models what happens once an arrival has been detected.
- Plane movement, rotation (`atan2`), screen projection and the `MKMapRect` extension. These are floating-point drawing code.
- All SwiftUI views, the one-second timers, the `%02d:%02d` time formatting and the results view's rank lookup. This is presentation.
- FirstIndexNamed: compares names character by character. Swift's `String ==` compares by Unicode canonical equivalence, so two names that differ only in normalisation (a precomposed "é" and "e" followed by a combining accent) select the same player in Swift but not in the model. For such names, `RecordSession` in the model appends a second player, and `NamesDistinct` holds for names that Swift treats as equal.
- RecordSession: `gamesPlayed` is an unbounded integer. Swift's `gamesPlayed += 1` traps at `Int.max`, which only a stored list could reach. The model does not capture that trap.
- GetRandomCity: models which cities can be drawn, not the uniform distribution of `randomElement()`.
- SortByAverage: the model sorts by insertion, which is stable. Its contract promises only order and permutation, as Swift's `sort` does, so the tie order is not specified.
- The `id = UUID()` fields of `City` and `Player`. They serve only SwiftUI identity, so records compare by their fields.
- Floating point: times and averages are exact reals, with no rounding, NaN or infinity. `citiesVisited` is a `nat`, because it only starts at 0 and increases by one.
