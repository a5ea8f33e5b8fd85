/**
 * The pureimage generator (src/utils/imageGenerator.js), the one the
 * publication script uploads: league rows with one Sports Club Stats and one
 * MoneyPuck cell each, and a team card with one block per provider.
 */
module PureImage {
  import opened Wrappers
  import Text
  import opened Standings

  /** An entry of this file's `wildcardRankings`: a string, the number 11, or `undefined` past its end. */
  datatype RankLabel = Label(text: string) | Number(n: int) | Undefined

  const WildcardRankings: seq<RankLabel> :=
    [Label("1"), Label("2"), Label("3"), Label("1"), Label("2"), Label("3"), Label("WC1"), Label("WC2"),
     Label(""), Label(""), Label(""), Label(""), Label(""), Label(""), Label(""), Number(11)]

  function Rank(i: nat): (r: RankLabel)
    ensures i < 6 ==> r == Label(["1", "2", "3"][i % 3])
    ensures i == 6 ==> r == Label("WC1")
    ensures i == 7 ==> r == Label("WC2")
    ensures 8 <= i < 15 ==> r == Label("")
    ensures i == 15 ==> r == Number(11)
    ensures i >= 16 ==> r == Undefined
  {
    if i < |WildcardRankings| then WildcardRankings[i] else Undefined
  }

  /** West column at x = 60, East column at x = 440. */
  const WestX := 60
  const EastX := 440

  /**
   * One row: the rank centred at x - 20, the name at x + 40, the Sports Club
   * Stats figure right-aligned at x + 240 and the MoneyPuck figure at x + 310,
   * all at height y. No status handling: clinched and eliminated teams show odds too.
   */
  datatype Row = Row(y: int, rank: RankLabel, name: string, scsX: int, scs: string, mpX: int, mp: string)

  function RowFor(team: Standing, i: nat, xOffset: int, scs: map<string, real>, mp: map<string, real>, nf: Text.NumberFormat): Row {
    Row(60 + 30 * i, Rank(i), team.teamName,
        xOffset + 240, Text.FormatOdds(Lookup(scs, team.teamAbbrev), nf),
        xOffset + 310, Text.FormatOdds(Lookup(mp, team.teamAbbrev), nf))
  }

  function StandingsRows(standings: seq<Standing>, conference: string, xOffset: int,
                         scs: map<string, real>, mp: map<string, real>, nf: Text.NumberFormat): seq<Row> {
    RowsFor(ConferenceOrder(standings, conference), xOffset, scs, mp, nf)
  }

  /** Row i for the i-th team of `ordered`. */
  function RowsFor(ordered: seq<Standing>, xOffset: int, scs: map<string, real>, mp: map<string, real>,
                   nf: Text.NumberFormat): seq<Row> {
    seq(|ordered|, i requires 0 <= i < |ordered| => RowFor(ordered[i], i, xOffset, scs, mp, nf))
  }

  /**
   * Every row shows both figures, each the provider's odds for the team through
   * `formatOdds`, and a blank one (`formatOdds(undefined)`) where the provider lacks the team.
   */
  lemma StandingsRowsLayout(standings: seq<Standing>, conference: string, xOffset: int,
                            scs: map<string, real>, mp: map<string, real>, nf: Text.NumberFormat, i: nat)
    requires i < |ConferenceOrder(standings, conference)|
    ensures var team := ConferenceOrder(standings, conference)[i];
            var row := StandingsRows(standings, conference, xOffset, scs, mp, nf)[i];
            && team in standings && team.conferenceAbbrev == conference
            && row.y == 60 + 30 * i && row.rank == Rank(i) && row.name == team.teamName
            && row.scsX == xOffset + 240 && row.mpX == xOffset + 310
            && (row.scs == "" <==> team.teamAbbrev !in scs)
            && (row.mp == "" <==> team.teamAbbrev !in mp)
            && (team.teamAbbrev in scs ==> row.scs == Text.FormatOdds(Some(scs[team.teamAbbrev]), nf))
            && (team.teamAbbrev in mp ==> row.mp == Text.FormatOdds(Some(mp[team.teamAbbrev]), nf))
  {
  }

  /** The body of the `forEach`: the texts drawn for one team. */
  method DrawRow(team: Standing, i: nat, xOffset: int, scs: map<string, real>, mp: map<string, real>, nf: Text.NumberFormat)
    returns (row: Row)
    ensures row == RowFor(team, i, xOffset, scs, mp, nf)
  {
    var scsText := Text.FormatOdds(Lookup(scs, team.teamAbbrev), nf);
    var mpText := Text.FormatOdds(Lookup(mp, team.teamAbbrev), nf);
    row := Row(60 + 30 * i, Rank(i), team.teamName, xOffset + 240, scsText, xOffset + 310, mpText);
  }

  /** `drawStandings`: filter the conference, sort it, and draw each row in a `forEach`. */
  method DrawStandings(standings: seq<Standing>, conference: string, xOffset: int,
                       scs: map<string, real>, mp: map<string, real>, nf: Text.NumberFormat)
    returns (rows: seq<Row>)
    ensures rows == StandingsRows(standings, conference, xOffset, scs, mp, nf)
  {
    var ordered := ConferenceOrder(standings, conference);
    rows := DrawRows(ordered, xOffset, scs, mp, nf);
  }

  /** The `forEach` over the ordered teams. */
  method DrawRows(ordered: seq<Standing>, xOffset: int, scs: map<string, real>, mp: map<string, real>,
                  nf: Text.NumberFormat)
    returns (rows: seq<Row>)
    ensures rows == RowsFor(ordered, xOffset, scs, mp, nf)
  {
    rows := [];
    var i := 0;
    while i < |ordered|
      invariant 0 <= i <= |ordered|
      invariant |rows| == i
      invariant forall k :: 0 <= k < i ==> rows[k] == RowFor(ordered[k], k, xOffset, scs, mp, nf)
    {
      var row := DrawRow(ordered[i], i, xOffset, scs, mp, nf);
      rows := rows + [row];
      i := i + 1;
    }
  }

  /** The league image: both conference columns and the "Updated" line. */
  datatype LeagueImage = LeagueImage(west: seq<Row>, east: seq<Row>, updated: string)

  /** `generateLeaguePlayoffOddsImage`. */
  method GenerateLeaguePlayoffOddsImage(standings: seq<Standing>, scs: map<string, real>, mp: map<string, real>,
                                        updatedAt: string, nf: Text.NumberFormat)
    returns (image: LeagueImage)
    ensures image.west == StandingsRows(standings, "W", WestX, scs, mp, nf)
    ensures image.east == StandingsRows(standings, "E", EastX, scs, mp, nf)
    ensures image.updated == "Updated: " + updatedAt
  {
    var west := DrawStandings(standings, "W", WestX, scs, mp, nf);
    var east := DrawStandings(standings, "E", EastX, scs, mp, nf);
    image := LeagueImage(west, east, "Updated: " + updatedAt);
  }

  // ---------------------------------------------------------------------
  // Team card

  /** What a provider argument of the team card holds: a number, or `false`/`undefined` (both `None`). */
  type ProviderArg = Option<real>

  /** JavaScript truthiness of that argument: 0, `false` and `undefined` are falsy. */
  predicate Truthy(v: ProviderArg) {
    v.Some? && v.value != 0.0
  }

  /** A provider block: its title at (230, y) and its figure at (230, y + 70). */
  datatype Block = Block(title: string, y: int, figure: string)

  /**
   * `generateTeamPlayoffOddsImage`'s provider blocks: MoneyPuck at y = 190
   * when its argument is truthy, which moves the cursor to 330; then Sports
   * Club Stats at the cursor when its argument is truthy.
   */
  function TeamCardBlocks(moneyPuckOdds: ProviderArg, sportsClubStatsOdds: ProviderArg, nf: Text.NumberFormat): (blocks: seq<Block>)
    ensures |blocks| == (if Truthy(moneyPuckOdds) then 1 else 0) + (if Truthy(sportsClubStatsOdds) then 1 else 0)
    ensures Truthy(moneyPuckOdds) ==>
              blocks[0] == Block("MoneyPuck", 190, Text.FormatOdds(moneyPuckOdds, nf))
    ensures Truthy(sportsClubStatsOdds) ==>
              blocks[|blocks| - 1] == Block("Sports Club Stats", if Truthy(moneyPuckOdds) then 330 else 190,
                                            Text.FormatOdds(sportsClubStatsOdds, nf))
  {
    var y := 190;
    var mpBlock := if Truthy(moneyPuckOdds) then [Block("MoneyPuck", y, Text.FormatOdds(moneyPuckOdds, nf))] else [];
    var y := if Truthy(moneyPuckOdds) then 330 else y;
    var scsBlock := if Truthy(sportsClubStatsOdds) then [Block("Sports Club Stats", y, Text.FormatOdds(sportsClubStatsOdds, nf))] else [];
    mpBlock + scsBlock
  }

  /** The team card: its upper-cased heading and its provider blocks. */
  datatype TeamCard = TeamCard(heading: string, blocks: seq<Block>, updated: string)

  function TeamPlayoffOddsCard(teamName: string, moneyPuckOdds: ProviderArg, sportsClubStatsOdds: ProviderArg,
                               updatedAt: string, nf: Text.NumberFormat): (card: TeamCard)
    ensures card.heading == Text.Upper("Playoff odds for the " + teamName)
    ensures card.blocks == TeamCardBlocks(moneyPuckOdds, sportsClubStatsOdds, nf)
    ensures card.updated == "Updated " + updatedAt
  {
    TeamCard(Text.Upper("Playoff odds for the " + teamName), TeamCardBlocks(moneyPuckOdds, sportsClubStatsOdds, nf),
             "Updated " + updatedAt)
  }
}
