/**
 * The value types of WorldNavigationApp.swift: `City`, `Player` and `GameSession`.
 *
 * Clock readings (`Date`) and durations (`TimeInterval`) are exact reals, in seconds.
 * The SwiftUI identities (`let id = UUID()`) are not part of the model, so two
 * records are equal when their fields are.
 */
module Entities {
  import opened Wrappers

  /** A navigable city; `isPrimary` marks the major cities used at low levels. */
  datatype City = City(
    name: string,
    country: string,
    continent: string,
    latitude: real,
    longitude: real,
    isPrimary: bool)

  /** Cumulative statistics of one player over all completed sessions. */
  datatype Player = Player(name: string, totalTime: real, gamesPlayed: int)

  /**
   * `Player.averageTime`: the mean session time, or 0 for a player with no
   * completed game (a non-positive `gamesPlayed` never divides).
   */
  function AverageTime(p: Player): (avg: real)
    ensures p.gamesPlayed > 0 ==> avg * (p.gamesPlayed as real) == p.totalTime
    ensures p.gamesPlayed <= 0 ==> avg == 0.0
    ensures p.gamesPlayed > 0 && p.totalTime >= 0.0 ==> 0.0 <= avg <= p.totalTime
  {
    if p.gamesPlayed > 0 then p.totalTime / (p.gamesPlayed as real) else 0.0
  }

  /**
   * The state of the game being played. `citiesVisited` only ever starts at 0 and
   * grows by one, so it is a `nat`.
   */
  datatype GameSession = GameSession(
    currentCity: Option<City>,
    citiesVisited: nat,
    sessionStartTime: Option<real>,
    currentCityStartTime: Option<real>,
    totalTime: real,
    isActive: bool)

  /**
   * `GameSession()`: every field at its declared default, which is the session a
   * manager holds before the first game.
   */
  function IdleSession(): (s: GameSession)
    ensures s.currentCity.None? && s.sessionStartTime.None? && s.currentCityStartTime.None?
    ensures s.citiesVisited == 0 && s.totalTime == 0.0 && !s.isActive
  {
    GameSession(None, 0, None, None, 0.0, false)
  }
}
