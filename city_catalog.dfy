/**
 * City selection of `DatabaseManager.getRandomCity`: low levels draw only from the
 * primary cities, higher levels from the whole catalogue.
 *
 * `randomElement()` is modelled by a `draw` supplied by the caller: the result is
 * the pool element at `draw` modulo the pool size, and every element of the pool
 * is the result of some draw.
 */
module CityCatalog {
  import opened Wrappers
  import opened Entities

  /** The highest level at which only primary cities are drawn. */
  const PrimaryOnlyMaxLevel := 5

  predicate PrimaryOnly(level: int) {
    level <= PrimaryOnlyMaxLevel
  }

  /** `cities.filter { $0.isPrimary }`: the primary cities, in catalogue order. */
  function PrimaryCities(cities: seq<City>): (r: seq<City>)
    ensures |r| <= |cities|
    ensures forall c :: c in r <==> c in cities && c.isPrimary
  {
    if cities == [] then []
    else (if cities[0].isPrimary then [cities[0]] else []) + PrimaryCities(cities[1..])
  }

  /** The list `getRandomCity` draws from at the given level. */
  function Pool(cities: seq<City>, level: int): (pool: seq<City>)
    ensures forall c :: c in pool <==> c in cities && (PrimaryOnly(level) ==> c.isPrimary)
    ensures |pool| <= |cities|
  {
    if PrimaryOnly(level) then PrimaryCities(cities) else cities
  }

  /**
   * `getRandomCity(level:)`: `nil` exactly when no city qualifies for the level;
   * otherwise a city of the catalogue, primary at levels up to 5.
   */
  function GetRandomCity(cities: seq<City>, level: int, draw: nat): (r: Option<City>)
    ensures r.None? <==> forall c :: c in cities ==> PrimaryOnly(level) && !c.isPrimary
    ensures r.Some? ==> r.value in cities
    ensures r.Some? && PrimaryOnly(level) ==> r.value.isPrimary
  {
    var pool := Pool(cities, level);
    if pool == [] then None
    else
      assert pool[0] in pool;
      Some(pool[draw % |pool|])
  }

  /** No city of the pool is out of reach: each one is what some draw returns. */
  lemma EveryPoolCityCanBeDrawn(cities: seq<City>, level: int, c: City)
    requires c in cities && (PrimaryOnly(level) ==> c.isPrimary)
    ensures exists draw: nat :: GetRandomCity(cities, level, draw) == Some(c)
  {
    var pool := Pool(cities, level);
    var i :| 0 <= i < |pool| && pool[i] == c;
    assert i % |pool| == i;
    assert GetRandomCity(cities, level, i) == Some(c);
  }
}
