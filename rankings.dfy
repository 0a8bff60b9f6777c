/**
 * The player-statistics step of `GameManager.endGame`: find the first player with
 * the session's name, fold the session time into that player or append a new one,
 * then order the list by average time.
 */
module Rankings {
  import opened Wrappers
  import opened Entities

  /** `i` is the index `players.firstIndex(where: { $0.name == name })` finds. */
  ghost predicate IsFirstNamed(players: seq<Player>, name: string, i: int) {
    && 0 <= i < |players|
    && players[i].name == name
    && forall j :: 0 <= j < i ==> players[j].name != name
  }

  /** `players.firstIndex(where: { $0.name == name })`. */
  function FirstIndexNamed(players: seq<Player>, name: string): (r: Option<nat>)
    ensures r.Some? ==> IsFirstNamed(players, name, r.value)
    ensures r.None? <==> forall j :: 0 <= j < |players| ==> players[j].name != name
  {
    if players == [] then None
    else if players[0].name == name then Some(0)
    else match FirstIndexNamed(players[1..], name)
      case None => None
      case Some(i) => Some(i + 1)
  }

  /**
   * The list after a completed session of `sessionTime` seconds by `name`, before
   * sorting: the first player with that name gets the time added and one more game;
   * without such a player, a new one with one game is appended.
   */
  function RecordSession(players: seq<Player>, name: string, sessionTime: real): (r: seq<Player>)
    ensures forall i :: IsFirstNamed(players, name, i) ==>
      r == players[i := Player(name, players[i].totalTime + sessionTime, players[i].gamesPlayed + 1)]
    ensures (forall j :: 0 <= j < |players| ==> players[j].name != name) ==>
      r == players + [Player(name, sessionTime, 1)]
  {
    match FirstIndexNamed(players, name)
    case Some(i) =>
      players[i := players[i].(totalTime := players[i].totalTime + sessionTime,
                               gamesPlayed := players[i].gamesPlayed + 1)]
    case None => players + [Player(name, sessionTime, 1)]
  }

  /** The list grows by at most one, and every player with another name is untouched. */
  lemma RecordSessionFrame(players: seq<Player>, name: string, sessionTime: real)
    ensures var r := RecordSession(players, name, sessionTime);
      && |players| <= |r| <= |players| + 1
      && (forall j :: 0 <= j < |players| && players[j].name != name ==> r[j] == players[j])
      && (forall j :: 0 <= j < |r| ==> r[j].name == (if j < |players| then players[j].name else name))
  {
  }

  /** No two players share a name: the name is the key of a player's statistics. */
  ghost predicate NamesDistinct(players: seq<Player>) {
    forall i, j :: 0 <= i < j < |players| ==> players[i].name != players[j].name
  }

  /** Folding a session in never creates a second player with the same name. */
  lemma RecordSessionKeepsNamesDistinct(players: seq<Player>, name: string, sessionTime: real)
    requires NamesDistinct(players)
    ensures NamesDistinct(RecordSession(players, name, sessionTime))
  {
  }

  /** Reordering a list never makes two of its players share a name. */
  lemma {:induction false} PermutationKeepsNamesDistinct(a: seq<Player>, b: seq<Player>)
    requires multiset(a) == multiset(b) && NamesDistinct(a)
    ensures NamesDistinct(b)
    decreases |b|
  {
    if b != [] {
      var n := |b| - 1;
      assert b[n] in multiset(a) by {
        assert b[n] in b;
      }
      var k :| 0 <= k < |a| && a[k] == b[n];
      var rest := a[..k] + a[k + 1..];
      PermutationWithout(b, a, k);
      assert NamesDistinct(rest) by {
        forall i, j | 0 <= i < j < |rest| ensures rest[i].name != rest[j].name {
          var i', j' := if i < k then i else i + 1, if j < k then j else j + 1;
          assert rest[i] == a[i'] && rest[j] == a[j'];
        }
      }
      PermutationKeepsNamesDistinct(rest, b[..n]);
      forall i | 0 <= i < n ensures b[i].name != b[n].name {
        assert b[i] in multiset(rest) by {
          assert b[..n][i] == b[i];
        }
        var j :| 0 <= j < |rest| && rest[j] == b[i];
        assert rest[j] == a[if j < k then j else j + 1];
      }
    }
  }

  /** Ascending by `averageTime`: the order `players.sort` leaves the list in. */
  ghost predicate SortedByAverage(players: seq<Player>) {
    forall i, j :: 0 <= i < j < |players| ==> AverageTime(players[i]) <= AverageTime(players[j])
  }

  /** `ranking` is `players` reordered ascending by average time. */
  ghost predicate IsRanking(ranking: seq<Player>, players: seq<Player>) {
    multiset(ranking) == multiset(players) && SortedByAverage(ranking)
  }

  /** Placing `p` between the players whose average is at most its own and the rest keeps the order. */
  lemma InsertionKeepsOrder(sorted: seq<Player>, i: nat, p: Player)
    requires SortedByAverage(sorted) && i <= |sorted|
    requires i > 0 ==> AverageTime(sorted[i - 1]) <= AverageTime(p)
    requires forall j :: i <= j < |sorted| ==> AverageTime(p) < AverageTime(sorted[j])
    ensures SortedByAverage(sorted[..i] + [p] + sorted[i..])
  {
  }

  /** Inserts `p` into an already ordered list, after every player with an average no larger. */
  method InsertByAverage(sorted: seq<Player>, p: Player) returns (r: seq<Player>)
    requires SortedByAverage(sorted)
    ensures IsRanking(r, sorted + [p])
  {
    var i := |sorted|;
    while i > 0 && AverageTime(p) < AverageTime(sorted[i - 1])
      invariant 0 <= i <= |sorted|
      invariant forall j :: i <= j < |sorted| ==> AverageTime(p) < AverageTime(sorted[j])
      decreases i
    {
      i := i - 1;
    }
    r := sorted[..i] + [p] + sorted[i..];
    InsertionKeepsOrder(sorted, i, p);
    assert sorted[..i] + sorted[i..] == sorted;
  }

  /** `players.sort { $0.averageTime < $1.averageTime }`, by insertion. */
  method SortByAverage(players: seq<Player>) returns (r: seq<Player>)
    ensures IsRanking(r, players)
  {
    r := [];
    var k := 0;
    while k < |players|
      invariant 0 <= k <= |players|
      invariant IsRanking(r, players[..k])
    {
      assert players[..k + 1] == players[..k] + [players[k]];
      r := InsertByAverage(r, players[k]);
      k := k + 1;
    }
    assert players[..k] == players;
  }

  // ---------------------------------------------------------------------------
  // Aggregates per name: what a sequence of completed sessions leaves behind,
  // independently of the order the list is kept in.

  /** Total time of every player named `name`. */
  function TimeOf(players: seq<Player>, name: string): real {
    if players == [] then 0.0
    else
      var last := players[|players| - 1];
      TimeOf(players[..|players| - 1], name) + (if last.name == name then last.totalTime else 0.0)
  }

  /** Number of games of every player named `name`. */
  function GamesOf(players: seq<Player>, name: string): int {
    if players == [] then 0
    else
      var last := players[|players| - 1];
      GamesOf(players[..|players| - 1], name) + (if last.name == name then last.gamesPlayed else 0)
  }

  lemma {:induction false} AggregateAppend(a: seq<Player>, b: seq<Player>, name: string)
    ensures TimeOf(a + b, name) == TimeOf(a, name) + TimeOf(b, name)
    ensures GamesOf(a + b, name) == GamesOf(a, name) + GamesOf(b, name)
    decreases |b|
  {
    if b == [] {
      assert a + b == a;
    } else {
      var n := |b| - 1;
      assert (a + b)[..|a + b| - 1] == a + b[..n];
      assert (a + b)[|a + b| - 1] == b[n];
      AggregateAppend(a, b[..n], name);
    }
  }

  /** The aggregates of a list with one player `x` singled out. */
  lemma AggregateSplit(pre: seq<Player>, x: Player, post: seq<Player>, name: string)
    ensures TimeOf(pre + [x] + post, name)
         == TimeOf(pre, name) + TimeOf(post, name) + (if x.name == name then x.totalTime else 0.0)
    ensures GamesOf(pre + [x] + post, name)
         == GamesOf(pre, name) + GamesOf(post, name) + (if x.name == name then x.gamesPlayed else 0)
  {
    assert (pre + [x])[..|pre|] == pre;
    AggregateAppend(pre + [x], post, name);
  }

  /** The aggregates of a list, with player `k` taken out and added back. */
  lemma AggregateRemove(s: seq<Player>, k: nat, name: string)
    requires k < |s|
    ensures TimeOf(s, name)
         == TimeOf(s[..k] + s[k + 1..], name) + (if s[k].name == name then s[k].totalTime else 0.0)
    ensures GamesOf(s, name)
         == GamesOf(s[..k] + s[k + 1..], name) + (if s[k].name == name then s[k].gamesPlayed else 0)
  {
    assert s == s[..k] + [s[k]] + s[k + 1..];
    AggregateSplit(s[..k], s[k], s[k + 1..], name);
    AggregateAppend(s[..k], s[k + 1..], name);
  }

  /** Taking the same player out of two permutations of each other leaves two permutations. */
  lemma PermutationWithout(a: seq<Player>, b: seq<Player>, k: nat)
    requires multiset(a) == multiset(b) && a != [] && k < |b| && b[k] == a[|a| - 1]
    ensures multiset(a[..|a| - 1]) == multiset(b[..k] + b[k + 1..])
  {
    var n := |a| - 1;
    assert a == a[..n] + [a[n]];
    assert b == b[..k] + [b[k]] + b[k + 1..];
    assert multiset(a[..n]) == multiset(a) - multiset{a[n]};
    assert multiset(b[..k] + b[k + 1..]) == multiset(b) - multiset{b[k]};
  }

  /** The aggregates do not depend on the order of the list, so sorting keeps them. */
  lemma {:induction false} AggregatePermutation(a: seq<Player>, b: seq<Player>, name: string)
    requires multiset(a) == multiset(b)
    ensures TimeOf(a, name) == TimeOf(b, name)
    ensures GamesOf(a, name) == GamesOf(b, name)
    decreases |a|
  {
    if a == [] {
      assert |b| == |multiset(b)| == 0;
    } else {
      var n := |a| - 1;
      assert a[n] in multiset(b) by {
        assert a[n] in a;
      }
      var k :| 0 <= k < |b| && b[k] == a[n];
      PermutationWithout(a, b, k);
      AggregatePermutation(a[..n], b[..k] + b[k + 1..], name);
      AggregateRemove(b, k, name);
    }
  }

  /** Replacing one player swaps that player's contribution for the new one's. */
  lemma AggregateUpdate(players: seq<Player>, i: nat, p: Player, name: string)
    requires i < |players|
    ensures var q := players[i];
      TimeOf(players[i := p], name) + (if q.name == name then q.totalTime else 0.0)
        == TimeOf(players, name) + (if p.name == name then p.totalTime else 0.0)
    ensures var q := players[i];
      GamesOf(players[i := p], name) + (if q.name == name then q.gamesPlayed else 0)
        == GamesOf(players, name) + (if p.name == name then p.gamesPlayed else 0)
  {
    var pre, post := players[..i], players[i + 1..];
    AggregateSplit(pre, players[i], post, name);
    AggregateSplit(pre, p, post, name);
    assert players == pre + [players[i]] + post;
    assert players[i := p] == pre + [p] + post;
  }

  lemma {:induction false} AggregateAbsent(players: seq<Player>, name: string)
    requires forall j :: 0 <= j < |players| ==> players[j].name != name
    ensures TimeOf(players, name) == 0.0 && GamesOf(players, name) == 0
    decreases |players|
  {
    if players != [] {
      AggregateAbsent(players[..|players| - 1], name);
    }
  }

  /**
   * A completed session adds its time and one game to the aggregates of the
   * session's player name, and leaves those of every other name as they were.
   */
  lemma RecordSessionAggregate(players: seq<Player>, name: string, sessionTime: real, other: string)
    ensures TimeOf(RecordSession(players, name, sessionTime), name) == TimeOf(players, name) + sessionTime
    ensures GamesOf(RecordSession(players, name, sessionTime), name) == GamesOf(players, name) + 1
    ensures other != name ==>
      && TimeOf(RecordSession(players, name, sessionTime), other) == TimeOf(players, other)
      && GamesOf(RecordSession(players, name, sessionTime), other) == GamesOf(players, other)
  {
    var r := RecordSession(players, name, sessionTime);
    match FirstIndexNamed(players, name)
    case Some(i) =>
      var p := Player(name, players[i].totalTime + sessionTime, players[i].gamesPlayed + 1);
      assert IsFirstNamed(players, name, i);
      assert r == players[i := p];
      AggregateUpdate(players, i, p, name);
      AggregateUpdate(players, i, p, other);
    case None =>
      var p := Player(name, sessionTime, 1);
      assert r == players + [p];
      AggregateAbsent(players, name);
      AggregateSplit(players, p, [], name);
      AggregateSplit(players, p, [], other);
      assert players + [p] + [] == r;
  }

  /**
   * Two completed sessions of one player leave every name's aggregates the same in
   * either order, whatever order each intermediate ranking is kept in.
   */
  lemma SessionsCommute(players: seq<Player>, name: string, t1: real, t2: real,
                        after1: seq<Player>, after2: seq<Player>, anyName: string)
    requires multiset(after1) == multiset(RecordSession(players, name, t1))
    requires multiset(after2) == multiset(RecordSession(players, name, t2))
    ensures TimeOf(RecordSession(after1, name, t2), anyName)
         == TimeOf(RecordSession(after2, name, t1), anyName)
    ensures GamesOf(RecordSession(after1, name, t2), anyName)
         == GamesOf(RecordSession(after2, name, t1), anyName)
  {
    AggregatePermutation(after1, RecordSession(players, name, t1), anyName);
    AggregatePermutation(after2, RecordSession(players, name, t2), anyName);
    RecordSessionAggregate(players, name, t1, anyName);
    RecordSessionAggregate(players, name, t2, anyName);
    RecordSessionAggregate(after1, name, t2, anyName);
    RecordSessionAggregate(after2, name, t1, anyName);
  }

  /** With distinct names, a name's aggregates are the statistics of its one player. */
  lemma AggregateOfDistinct(players: seq<Player>, name: string, i: nat)
    requires NamesDistinct(players) && i < |players| && players[i].name == name
    ensures TimeOf(players, name) == players[i].totalTime
    ensures GamesOf(players, name) == players[i].gamesPlayed
  {
    var pre, post := players[..i], players[i + 1..];
    assert players == pre + [players[i]] + post;
    AggregateSplit(pre, players[i], post, name);
    assert forall j :: 0 <= j < |pre| ==> pre[j] == players[j];
    AggregateAbsent(pre, name);
    assert forall j :: 0 <= j < |post| ==> post[j] == players[i + 1 + j];
    AggregateAbsent(post, name);
  }

  /**
   * Two completed sessions of one player, starting from a list without repeated
   * names and each followed by any reordering (such as the sort), leave every
   * player with the same total time and number of games in either order.
   */
  lemma SessionsCommuteForPlayers(players: seq<Player>, name: string, t1: real, t2: real,
                                  after1: seq<Player>, after2: seq<Player>)
    requires NamesDistinct(players)
    requires multiset(after1) == multiset(RecordSession(players, name, t1))
    requires multiset(after2) == multiset(RecordSession(players, name, t2))
    ensures var r1, r2 := RecordSession(after1, name, t2), RecordSession(after2, name, t1);
      forall i, j :: 0 <= i < |r1| && 0 <= j < |r2| && r1[i].name == r2[j].name ==>
        r1[i].totalTime == r2[j].totalTime && r1[i].gamesPlayed == r2[j].gamesPlayed
  {
    var r1, r2 := RecordSession(after1, name, t2), RecordSession(after2, name, t1);
    RecordSessionKeepsNamesDistinct(players, name, t1);
    RecordSessionKeepsNamesDistinct(players, name, t2);
    PermutationKeepsNamesDistinct(RecordSession(players, name, t1), after1);
    PermutationKeepsNamesDistinct(RecordSession(players, name, t2), after2);
    RecordSessionKeepsNamesDistinct(after1, name, t2);
    RecordSessionKeepsNamesDistinct(after2, name, t1);
    forall i, j | 0 <= i < |r1| && 0 <= j < |r2| && r1[i].name == r2[j].name
      ensures r1[i].totalTime == r2[j].totalTime && r1[i].gamesPlayed == r2[j].gamesPlayed
    {
      SessionsCommute(players, name, t1, t2, after1, after2, r1[i].name);
      AggregateOfDistinct(r1, r1[i].name, i);
      AggregateOfDistinct(r2, r1[i].name, j);
    }
  }
}
