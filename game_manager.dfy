/**
 * `GameManager`: the session state machine and the player rankings it updates when
 * a session completes. Each Swift method that reads `Date()` takes the clock
 * reading `now` as a parameter.
 */
module Game {
  import opened Wrappers
  import opened Entities
  import opened Rankings

  /** The arrival that brings `citiesVisited` to this number completes the session. */
  const CitiesPerSession := 20

  class GameManager {
    var currentPlayer: string
    var session: GameSession
    var players: seq<Player>
    var showingResults: bool
    var lastNavigationTime: real

    /**
     * An active session has a target city and a leg start time, and has not yet
     * reached the city that completes it.
     */
    ghost predicate Valid()
      reads this
    {
      session.isActive ==>
        && session.currentCity.Some?
        && session.currentCityStartTime.Some?
        && session.citiesVisited < CitiesPerSession
    }

    /**
     * `init()`. `stored` stands for the list `loadPlayers` decodes from storage,
     * empty when nothing readable is stored.
     */
    constructor (stored: seq<Player>)
      ensures Valid()
      ensures currentPlayer == [] && session == IdleSession() && players == stored
      ensures !showingResults && lastNavigationTime == 0.0
    {
      currentPlayer := [];
      session := IdleSession();
      players := stored;
      showingResults := false;
      lastNavigationTime := 0.0;
    }

    /** A fresh active session for `playerName`, heading for `firstCity`, started at `now`. */
    method StartNewGame(playerName: string, firstCity: City, now: real)
      modifies this
      ensures Valid()
      ensures currentPlayer == playerName
      ensures session == GameSession(Some(firstCity), 0, Some(now), Some(now), 0.0, true)
      ensures players == old(players) && showingResults == old(showingResults)
      ensures lastNavigationTime == old(lastNavigationTime)
    {
      currentPlayer := playerName;
      session := GameSession(Some(firstCity), 0, Some(now), Some(now), 0.0, true);
    }

    /**
     * Arrival at the current city at time `now`. Without a leg start time nothing
     * changes. Otherwise the leg time is recorded and added to the session total,
     * one more city counts as visited, and the arrival that reaches 20 cities ends
     * the game. `isActive` is not consulted: a further arrival after completion is
     * counted and recorded again.
     */
    method ReachedCity(now: real)
      requires Valid()
      modifies this
      ensures Valid()
      ensures old(session.currentCityStartTime).None? ==> unchanged(this)
      ensures old(session.currentCityStartTime).Some? ==>
        var leg := now - old(session.currentCityStartTime).value;
        && lastNavigationTime == leg
        && session.citiesVisited == old(session.citiesVisited) + 1
        && session.totalTime == old(session.totalTime) + leg
        && session.currentCity == old(session.currentCity)
        && session.sessionStartTime == old(session.sessionStartTime)
        && session.currentCityStartTime == old(session.currentCityStartTime)
        && currentPlayer == old(currentPlayer)
        && (session.citiesVisited < CitiesPerSession ==>
              && session.isActive == old(session.isActive)
              && showingResults == old(showingResults)
              && players == old(players))
        && (session.citiesVisited >= CitiesPerSession ==>
              && !session.isActive
              && showingResults
              && IsRanking(players, RecordSession(old(players), currentPlayer, session.totalTime)))
      ensures old(session.isActive) && !session.isActive ==> session.citiesVisited == CitiesPerSession
      ensures (old(session.currentCityStartTime).Some? ==> now >= old(session.currentCityStartTime).value) ==>
        session.totalTime >= old(session.totalTime)
    {
      match session.currentCityStartTime
      case None =>
      case Some(startTime) =>
        var navigationTime := now - startTime;
        lastNavigationTime := navigationTime;
        session := session.(totalTime := session.totalTime + navigationTime);
        session := session.(citiesVisited := session.citiesVisited + 1);
        if session.citiesVisited >= CitiesPerSession {
          EndGame();
        }
    }

    /** A new target city, whose leg starts at `now`; the counters and flags stay. */
    method SetNextCity(city: City, now: real)
      requires Valid()
      modifies this
      ensures Valid()
      ensures session == old(session).(currentCity := Some(city), currentCityStartTime := Some(now))
      ensures currentPlayer == old(currentPlayer) && players == old(players)
      ensures showingResults == old(showingResults) && lastNavigationTime == old(lastNavigationTime)
    {
      session := session.(currentCity := Some(city), currentCityStartTime := Some(now));
    }

    /**
     * The session is over: the results are shown and the session total is folded
     * into the first player of that name (or a new player), then the list is
     * ordered by average time. Writing the list to storage is not modelled.
     */
    method EndGame()
      modifies this
      ensures session == old(session).(isActive := false) && showingResults
      ensures IsRanking(players, RecordSession(old(players), currentPlayer, session.totalTime))
      ensures currentPlayer == old(currentPlayer) && lastNavigationTime == old(lastNavigationTime)
    {
      session := session.(isActive := false);
      showingResults := true;
      var name, sessionTime := currentPlayer, session.totalTime;
      var updated := players;
      match FirstIndexNamed(updated, name) {
        case Some(index) =>
          var p := updated[index];
          updated := updated[index := p.(totalTime := p.totalTime + sessionTime,
                                         gamesPlayed := p.gamesPlayed + 1)];
        case None =>
          updated := updated + [Player(name, sessionTime, 1)];
      }
      assert updated == RecordSession(old(players), name, sessionTime);
      var ranking := SortByAverage(updated);
      players := ranking;
    }
  }
}
