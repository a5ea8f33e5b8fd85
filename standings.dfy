/**
 * League standings as the image generators read them: the computed
 * elimination test and the conference display order
 * (src/utils/image-generator.js, src/utils/imageGenerator.js, src/index.js).
 */
module Standings {
  import opened Wrappers

  /** `SEASON_GAMES_COUNT`: games in a regular season. */
  const SeasonGamesCount := 82

  /** One team's row of the league's standings feed (the fields the core reads). */
  datatype Standing = Standing(
    teamAbbrev: string,
    teamName: string,
    conferenceAbbrev: string,
    divisionAbbrev: string,
    divisionSequence: int,
    wildcardSequence: int,
    points: int,
    gamesPlayed: int,
    regulationWins: int,
    regulationPlusOtWins: int,
    clinchIndicator: Option<string>)

  // ---------------------------------------------------------------------
  // Elimination

  /** Points the team would have by winning every remaining game, two points each. */
  function MaxPossiblePoints(team: Standing): (r: int)
    ensures team.gamesPlayed <= SeasonGamesCount ==> r >= team.points
    ensures team.gamesPlayed == SeasonGamesCount ==> r == team.points
    ensures r - team.points == 2 * (SeasonGamesCount - team.gamesPlayed)
  {
    (SeasonGamesCount - team.gamesPlayed) * 2 + team.points
  }

  predicate HoldsSecondWildcard(t: Standing, conference: string) {
    t.conferenceAbbrev == conference && t.wildcardSequence == 2
  }

  /** Index of the first entry that holds the conference's second wildcard (the `find`). */
  function SecondWildcardIndex(standings: seq<Standing>, conference: string): (r: Option<nat>)
    ensures r.Some? ==> r.value < |standings| && HoldsSecondWildcard(standings[r.value], conference)
    ensures r.Some? ==> forall j :: 0 <= j < r.value ==> !HoldsSecondWildcard(standings[j], conference)
    ensures r.None? <==> forall j :: 0 <= j < |standings| ==> !HoldsSecondWildcard(standings[j], conference)
  {
    if |standings| == 0 then None
    else if HoldsSecondWildcard(standings[0], conference) then Some(0)
    else
      match SecondWildcardIndex(standings[1..], conference)
      case None => None
      case Some(k) => Some(k + 1)
  }

  /** The team holding the second wildcard of `conference`, or `None` where the source falls back to `{}`. */
  function SecondWildcard(standings: seq<Standing>, conference: string): (r: Option<Standing>)
    ensures r.Some? ==> r.value in standings && HoldsSecondWildcard(r.value, conference)
    ensures r.None? <==> forall t :: t in standings ==> !HoldsSecondWildcard(t, conference)
  {
    match SecondWildcardIndex(standings, conference)
    case None => None
    case Some(i) => Some(standings[i])
  }

  /**
   * `isEliminated`: the second-wildcard team already has more points than the
   * team can reach, or exactly as many and more regulation wins, or exactly as
   * many and more regulation-plus-overtime wins (the two tie checks are
   * independent). Without a second-wildcard team every comparison is false.
   */
  function IsEliminated(standings: seq<Standing>, team: Standing): (r: bool)
    ensures SecondWildcard(standings, team.conferenceAbbrev).None? ==> !r
    ensures forall w :: SecondWildcard(standings, team.conferenceAbbrev) == Some(w) ==>
              (w.points > MaxPossiblePoints(team) ==> r) && (w.points < MaxPossiblePoints(team) ==> !r)
  {
    match SecondWildcard(standings, team.conferenceAbbrev)
    case None => false
    case Some(w) =>
      var maxPoints := MaxPossiblePoints(team);
      w.points > maxPoints
      || (w.points == maxPoints
          && (team.regulationWins < w.regulationWins || team.regulationPlusOtWins < w.regulationPlusOtWins))
  }

  /** On a points tie the checks are exactly "fewer regulation wins, or fewer regulation-plus-OT wins". */
  lemma EliminatedOnTie(standings: seq<Standing>, team: Standing, w: Standing)
    requires SecondWildcard(standings, team.conferenceAbbrev) == Some(w)
    requires w.points == MaxPossiblePoints(team)
    ensures IsEliminated(standings, team) <==>
              team.regulationWins < w.regulationWins || team.regulationPlusOtWins < w.regulationPlusOtWins
  {
  }

  /** With a full season or less played, the second-wildcard team is never eliminated by itself. */
  lemma SecondWildcardNotEliminated(standings: seq<Standing>, conference: string, w: Standing)
    requires SecondWildcard(standings, conference) == Some(w)
    requires w.gamesPlayed <= SeasonGamesCount
    ensures !IsEliminated(standings, w)
  {
  }

  /** The worked example: 71 games, 88 points, second wildcard on 95 points: 110 >= 95, not eliminated. */
  lemma WorkedExampleNotEliminated(standings: seq<Standing>, team: Standing, w: Standing)
    requires SecondWildcard(standings, team.conferenceAbbrev) == Some(w)
    requires team.gamesPlayed == 71 && team.points == 88 && w.points == 95
    ensures MaxPossiblePoints(team) == 110 && !IsEliminated(standings, team)
  {
  }

  /**
   * The second tie check does not wait for a regulation-wins tie: a team level
   * on points that leads on regulation wins is still flagged when it trails on
   * regulation-plus-OT wins.
   */
  lemma TieChecksAreIndependent()
    ensures var w := Standing("AAA", "A", "W", "C", 4, 2, 90, 82, 40, 44, None);
            var t := Standing("BBB", "B", "W", "P", 5, 3, 90, 82, 41, 42, None);
            IsEliminated([w, t], t) && t.regulationWins > w.regulationWins
  {
    var w := Standing("AAA", "A", "W", "C", 4, 2, 90, 82, 40, 44, None);
    var t := Standing("BBB", "B", "W", "P", 5, 3, 90, 82, 41, 42, None);
    assert SecondWildcardIndex([w, t], "W") == Some(0);
  }

  // ---------------------------------------------------------------------
  // Display order

  /** JavaScript `<` on strings: lexicographic, a proper prefix first. */
  predicate StrLess(a: string, b: string)
    decreases |a|
  {
    if |a| == 0 then |b| > 0
    else if |b| == 0 then false
    else a[0] < b[0] || (a[0] == b[0] && StrLess(a[1..], b[1..]))
  }

  lemma {:induction false} StrLessIrreflexive(a: string)
    ensures !StrLess(a, a)
    decreases |a|
  {
    if |a| > 0 { StrLessIrreflexive(a[1..]); }
  }

  lemma {:induction false} StrLessAsymmetric(a: string, b: string)
    ensures !(StrLess(a, b) && StrLess(b, a))
    decreases |a|
  {
    if |a| > 0 && |b| > 0 && a[0] == b[0] { StrLessAsymmetric(a[1..], b[1..]); }
  }

  lemma {:induction false} StrLessTransitive(a: string, b: string, c: string)
    requires StrLess(a, b) && StrLess(b, c)
    ensures StrLess(a, c)
    decreases |a|
  {
    if |a| > 0 && a[0] == b[0] && b[0] == c[0] {
      StrLessTransitive(a[1..], b[1..], c[1..]);
    }
  }

  lemma {:induction false} StrLessTotal(a: string, b: string)
    ensures a == b || StrLess(a, b) || StrLess(b, a)
    decreases |a|
  {
    if |a| > 0 && |b| > 0 && a[0] == b[0] {
      StrLessTotal(a[1..], b[1..]);
      if a[1..] == b[1..] {
        assert a == [a[0]] + a[1..] && b == [b[0]] + b[1..];
      }
    }
  }

  /** Both rows carry the same key triple. */
  predicate SameKey(a: Standing, b: Standing) {
    a.wildcardSequence == b.wildcardSequence
    && a.divisionAbbrev == b.divisionAbbrev
    && a.divisionSequence == b.divisionSequence
  }

  /** Ascending order on (wildcardSequence, divisionAbbrev, divisionSequence). */
  predicate KeyLess(a: Standing, b: Standing) {
    a.wildcardSequence < b.wildcardSequence
    || (a.wildcardSequence == b.wildcardSequence
        && (StrLess(a.divisionAbbrev, b.divisionAbbrev)
            || (a.divisionAbbrev == b.divisionAbbrev && a.divisionSequence < b.divisionSequence)))
  }

  predicate KeyLeq(a: Standing, b: Standing) {
    KeyLess(a, b) || SameKey(a, b)
  }

  lemma KeyLessIrreflexive(a: Standing)
    ensures !KeyLess(a, a)
  {
    StrLessIrreflexive(a.divisionAbbrev);
  }

  lemma KeyLessAsymmetric(a: Standing, b: Standing)
    ensures !(KeyLess(a, b) && KeyLess(b, a))
    ensures SameKey(a, b) ==> !KeyLess(a, b)
  {
    StrLessAsymmetric(a.divisionAbbrev, b.divisionAbbrev);
    StrLessIrreflexive(a.divisionAbbrev);
  }

  lemma KeyLessTransitive(a: Standing, b: Standing, c: Standing)
    requires KeyLess(a, b) && KeyLess(b, c)
    ensures KeyLess(a, c)
  {
    if StrLess(a.divisionAbbrev, b.divisionAbbrev) && StrLess(b.divisionAbbrev, c.divisionAbbrev) {
      StrLessTransitive(a.divisionAbbrev, b.divisionAbbrev, c.divisionAbbrev);
    }
  }

  lemma KeyLessTotal(a: Standing, b: Standing)
    ensures SameKey(a, b) || KeyLess(a, b) || KeyLess(b, a)
  {
    StrLessTotal(a.divisionAbbrev, b.divisionAbbrev);
  }

  lemma KeyLeqTransitive(a: Standing, b: Standing, c: Standing)
    requires KeyLeq(a, b) && KeyLeq(b, c)
    ensures KeyLeq(a, c)
  {
    if KeyLess(a, b) && KeyLess(b, c) { KeyLessTransitive(a, b, c); }
  }

  /**
   * The sort comparator: 1 or -1, never 0. On distinct keys it says -1 exactly
   * when the left row comes first in ascending key order, and swapping the
   * arguments flips it; on equal keys it answers -1 both ways.
   */
  function Compare(a: Standing, b: Standing): (r: int)
    ensures r == 1 || r == -1
    ensures !SameKey(a, b) ==> (r == -1 <==> KeyLess(a, b))
    ensures !SameKey(a, b) ==> (r == 1 <==> KeyLess(b, a))
    ensures SameKey(a, b) ==> r == -1
  {
    KeyLessTotal(a, b);
    KeyLessAsymmetric(a, b);
    StrLessAsymmetric(a.divisionAbbrev, b.divisionAbbrev);
    StrLessTotal(a.divisionAbbrev, b.divisionAbbrev);
    if a.wildcardSequence == b.wildcardSequence then
      if a.divisionAbbrev == b.divisionAbbrev then
        if a.divisionSequence > b.divisionSequence then 1 else -1
      else if StrLess(b.divisionAbbrev, a.divisionAbbrev) then 1 else -1
    else if a.wildcardSequence > b.wildcardSequence then 1 else -1
  }

  ghost predicate Sorted(s: seq<Standing>) {
    forall i, j :: 0 <= i < j < |s| ==> KeyLeq(s[i], s[j])
  }

  ghost predicate StrictlySorted(s: seq<Standing>) {
    forall i, j :: 0 <= i < j < |s| ==> KeyLess(s[i], s[j])
  }

  /** No two rows share a key triple: then the comparator is a strict total order on the rows. */
  ghost predicate DistinctKeys(s: seq<Standing>) {
    forall i, j :: 0 <= i < j < |s| ==> !SameKey(s[i], s[j])
  }

  function Insert(x: Standing, s: seq<Standing>): (r: seq<Standing>)
    requires Sorted(s)
    ensures Sorted(r)
    ensures multiset(r) == multiset(s) + multiset{x}
  {
    if |s| == 0 then [x]
    else if KeyLeq(x, s[0]) then
      forall j | 0 <= j < |s| ensures KeyLeq(x, s[j]) {
        if j > 0 { KeyLeqTransitive(x, s[0], s[j]); }
      }
      [x] + s
    else
      var rest := Insert(x, s[1..]);
      KeyLessTotal(x, s[0]);
      KeyLessAsymmetric(x, s[0]);
      assert KeyLeq(s[0], x);
      assert s == [s[0]] + s[1..];
      forall y | y in rest ensures KeyLeq(s[0], y) {
        assert y in multiset(rest);
        if y != x {
          assert y in multiset(s[1..]);
          var j :| 0 <= j < |s[1..]| && s[1..][j] == y;
          assert s[j + 1] == y;
        }
      }
      [s[0]] + rest
  }

  /** A reference sort (insertion sort) in ascending key order. */
  function SortByKey(s: seq<Standing>): (r: seq<Standing>)
    ensures Sorted(r)
    ensures multiset(r) == multiset(s)
    ensures |r| == |s|
  {
    if |s| == 0 then []
    else
      assert s == [s[0]] + s[1..];
      Insert(s[0], SortByKey(s[1..]))
  }

  lemma {:induction false} InsertStrict(x: Standing, s: seq<Standing>)
    requires StrictlySorted(s)
    requires forall y :: y in s ==> !SameKey(x, y)
    ensures StrictlySorted(Insert(x, s))
  {
    if |s| > 0 {
      KeyLessTotal(x, s[0]);
      if !KeyLeq(x, s[0]) {
        var rest := Insert(x, s[1..]);
        InsertStrict(x, s[1..]);
        assert s == [s[0]] + s[1..];
        forall y | y in rest ensures KeyLess(s[0], y) {
          assert y in multiset(rest);
          if y != x {
            assert y in multiset(s[1..]);
            var j :| 0 <= j < |s[1..]| && s[1..][j] == y;
            assert s[j + 1] == y;
          }
        }
      } else {
        forall j | 0 < j < |s| ensures KeyLess(x, s[j]) {
          KeyLessTransitive(x, s[0], s[j]);
        }
      }
    }
  }

  /** With distinct keys the reference sort orders strictly ascending. */
  lemma {:induction false} SortStrictWhenDistinct(s: seq<Standing>)
    requires DistinctKeys(s)
    ensures StrictlySorted(SortByKey(s))
  {
    if |s| > 0 {
      var tail := s[1..];
      assert DistinctKeys(tail) by {
        forall i, j | 0 <= i < j < |tail| ensures !SameKey(tail[i], tail[j]) {
          assert tail[i] == s[i + 1] && tail[j] == s[j + 1];
        }
      }
      SortStrictWhenDistinct(tail);
      var sorted := SortByKey(tail);
      forall y | y in sorted ensures !SameKey(s[0], y) {
        assert y in multiset(tail);
        var j :| 0 <= j < |tail| && tail[j] == y;
        assert s[j + 1] == y;
      }
      InsertStrict(s[0], sorted);
    }
  }

  lemma HeadsEqual(a: seq<Standing>, b: seq<Standing>)
    requires multiset(a) == multiset(b) && |a| > 0
    requires Sorted(a) && StrictlySorted(b)
    ensures |b| > 0 && a[0] == b[0]
  {
    assert a[0] in multiset(b);
    var j :| 0 <= j < |b| && b[j] == a[0];
    assert b[0] in multiset(a);
    var i :| 0 <= i < |a| && a[i] == b[0];
    if j > 0 {
      assert KeyLess(b[0], a[0]);
      if i == 0 {
        KeyLessIrreflexive(a[0]);
      } else {
        assert KeyLeq(a[0], b[0]);
        KeyLessAsymmetric(a[0], b[0]);
        KeyLessAsymmetric(b[0], a[0]);
      }
    }
  }

  lemma TailsPermutation<T>(a: seq<T>, b: seq<T>)
    requires multiset(a) == multiset(b) && |a| > 0 && |b| > 0 && a[0] == b[0]
    ensures multiset(a[1..]) == multiset(b[1..])
  {
    assert a == [a[0]] + a[1..] && b == [b[0]] + b[1..];
    assert multiset(a) == multiset{a[0]} + multiset(a[1..]);
    assert multiset(b) == multiset{a[0]} + multiset(b[1..]);
    forall x ensures multiset(a[1..])[x] == multiset(b[1..])[x] {
      assert multiset(a)[x] == multiset{a[0]}[x] + multiset(a[1..])[x];
      assert multiset(b)[x] == multiset{a[0]}[x] + multiset(b[1..])[x];
    }
  }

  /** A sorted permutation of a strictly sorted sequence is that sequence. */
  lemma {:induction false} SortedPermutationUnique(a: seq<Standing>, b: seq<Standing>)
    requires multiset(a) == multiset(b)
    requires Sorted(a) && StrictlySorted(b)
    ensures a == b
  {
    assert |a| == |multiset(a)| == |multiset(b)| == |b|;
    if |a| > 0 {
      HeadsEqual(a, b);
      TailsPermutation(a, b);
      var a', b' := a[1..], b[1..];
      assert Sorted(a') by {
        forall i, j | 0 <= i < j < |a'| ensures KeyLeq(a'[i], a'[j]) {
          assert a'[i] == a[i + 1] && a'[j] == a[j + 1];
        }
      }
      assert StrictlySorted(b') by {
        forall i, j | 0 <= i < j < |b'| ensures KeyLess(b'[i], b'[j]) {
          assert b'[i] == b[i + 1] && b'[j] == b[j + 1];
        }
      }
      SortedPermutationUnique(a', b');
      assert a == [a[0]] + a' && b == [b[0]] + b';
    }
  }

  /**
   * On rows with distinct keys, any sorted permutation (whatever algorithm
   * `Array.prototype.sort` uses) is exactly the reference sort's output.
   */
  lemma AnySortAgrees(s: seq<Standing>, r: seq<Standing>)
    requires DistinctKeys(s)
    requires multiset(r) == multiset(s) && Sorted(r)
    ensures r == SortByKey(s)
  {
    SortStrictWhenDistinct(s);
    SortedPermutationUnique(r, SortByKey(s));
  }

  /** `standings.filter((t) => t.conferenceAbbrev === conference)`, order kept. */
  function InConference(standings: seq<Standing>, conference: string): (r: seq<Standing>)
    ensures forall t :: t in r <==> t in standings && t.conferenceAbbrev == conference
    ensures |r| <= |standings|
  {
    if |standings| == 0 then []
    else
      var rest := InConference(standings[1..], conference);
      assert standings == [standings[0]] + standings[1..];
      if standings[0].conferenceAbbrev == conference then [standings[0]] + rest else rest
  }

  /**
   * The filter keeps order and multiplicity: a list filters piece by piece,
   * and a single standing survives exactly when its conference matches.
   */
  lemma {:induction false} InConferenceAppend(a: seq<Standing>, b: seq<Standing>, conference: string)
    ensures InConference(a + b, conference) == InConference(a, conference) + InConference(b, conference)
  {
    if |a| == 0 {
      assert a + b == b;
    } else {
      assert (a + b)[0] == a[0] && (a + b)[1..] == a[1..] + b;
      InConferenceAppend(a[1..], b, conference);
    }
  }

  lemma InConferenceSingle(t: Standing, conference: string)
    ensures InConference([t], conference) == if t.conferenceAbbrev == conference then [t] else []
  {
    assert [t][1..] == [];
  }

  /** The rows of one conference, ascending by key: the order both images draw. */
  function ConferenceOrder(standings: seq<Standing>, conference: string): (r: seq<Standing>)
    ensures Sorted(r)
    ensures multiset(r) == multiset(InConference(standings, conference))
    ensures forall t :: t in r <==> t in standings && t.conferenceAbbrev == conference
  {
    var r := SortByKey(InConference(standings, conference));
    forall t ensures t in r <==> t in multiset(InConference(standings, conference)) {
      assert t in r <==> t in multiset(r);
    }
    r
  }
}
