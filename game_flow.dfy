/**
 * The menu's start button and the game view's "Continue" button: the level
 * policy and the start guard as functions, and the two handlers that apply them
 * to a `GameManager`. Each handler takes the manager it acts on as a parameter:
 * in the app the menu and the game view each own a separate manager.
 */
module GameFlow {
  import opened Wrappers
  import opened Entities
  import opened CityCatalog
  import opened Game

  /** The level at which the rise stops. */
  const MaxLevel := 10

  /**
   * `min(10, citiesVisited / 2 + 1)`: the level for the next city, one level more
   * every two arrivals. It stays in the primary-only range for the first nine.
   */
  function NextLevel(citiesVisited: nat): (level: int)
    ensures 1 <= level <= MaxLevel
    ensures PrimaryOnly(level) <==> citiesVisited <= 9
    ensures level == MaxLevel <==> citiesVisited >= 18
  {
    var rising := citiesVisited / 2 + 1;
    if rising < MaxLevel then rising else MaxLevel
  }

  /** More arrivals never lower the level. */
  lemma NextLevelMonotone(a: nat, b: nat)
    requires a <= b
    ensures NextLevel(a) <= NextLevel(b)
  {
  }

  /** Two more arrivals raise the level by one, until the cap. */
  lemma NextLevelStep(n: nat)
    ensures NextLevel(n + 2) == if NextLevel(n) < MaxLevel then NextLevel(n) + 1 else MaxLevel
  {
  }

  /**
   * The start button's guard: a session starts only for a non-empty name and
   * when a level-1 city can be drawn; that city is a primary city of the catalogue.
   */
  function FirstCity(playerName: string, cities: seq<City>, draw: nat): (first: Option<City>)
    ensures first.Some? <==> playerName != [] && exists c :: c in cities && c.isPrimary
    ensures first.Some? ==> first.value in cities && first.value.isPrimary
  {
    if playerName == [] then None else GetRandomCity(cities, 1, draw)
  }

  /** "Start Game": starts a session when the guard lets it; `started` opens the game view. */
  method StartButton(manager: GameManager, playerName: string, cities: seq<City>, draw: nat, now: real)
    returns (started: bool)
    requires manager.Valid()
    modifies manager
    ensures manager.Valid()
    ensures started <==> FirstCity(playerName, cities, draw).Some?
    ensures started ==>
      && manager.currentPlayer == playerName
      && manager.session == GameSession(FirstCity(playerName, cities, draw), 0, Some(now), Some(now), 0.0, true)
      && manager.players == old(manager.players)
      && manager.showingResults == old(manager.showingResults)
      && manager.lastNavigationTime == old(manager.lastNavigationTime)
    ensures !started ==> unchanged(manager)
  {
    match FirstCity(playerName, cities, draw) {
      case Some(firstCity) =>
        manager.StartNewGame(playerName, firstCity, now);
        started := true;
      case None =>
        started := false;
    }
  }

  /**
   * "Continue" after an arrival: the level follows from the cities visited so far,
   * and a city drawn for it, if any, becomes the next target from `now` on.
   */
  method ContinueButton(manager: GameManager, cities: seq<City>, draw: nat, now: real)
    returns (level: int)
    requires manager.Valid()
    modifies manager
    ensures manager.Valid()
    ensures level == NextLevel(old(manager.session.citiesVisited))
    ensures GetRandomCity(cities, level, draw).None? ==> unchanged(manager)
    ensures GetRandomCity(cities, level, draw).Some? ==>
      && manager.session == old(manager.session).(currentCity := GetRandomCity(cities, level, draw),
                                                  currentCityStartTime := Some(now))
      && manager.players == old(manager.players)
      && manager.showingResults == old(manager.showingResults)
      && manager.currentPlayer == old(manager.currentPlayer)
      && manager.lastNavigationTime == old(manager.lastNavigationTime)
  {
    level := NextLevel(manager.session.citiesVisited);
    match GetRandomCity(cities, level, draw) {
      case Some(nextCity) =>
        manager.SetNextCity(nextCity, now);
      case None =>
    }
  }
}
