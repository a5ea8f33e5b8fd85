/**
 * The canvas image generator (src/utils/image-generator.js), as drawn
 * descriptors rather than pixels: each league row is a record of the texts
 * drawn on it, and the team card is the list of its texts.
 */
module CanvasImage {
  import opened Wrappers
  import Text
  import opened Standings

  /** `wildcardRankings`: the rank label of the row at each index. */
  const WildcardRankings: seq<string> :=
    ["1", "2", "3", "1", "2", "3", "WC1", "WC2", "", "", "", "", "", "", "", ""]

  /** Rank label of row i; `None` past the table, where JavaScript reads `undefined`. */
  function RankLabel(i: nat): (r: Option<string>)
    ensures i < 6 ==> r == Some(["1", "2", "3"][i % 3])
    ensures i == 6 ==> r == Some("WC1")
    ensures i == 7 ==> r == Some("WC2")
    ensures 8 <= i < 16 ==> r == Some("")
    ensures i >= 16 ==> r.None?
  {
    if i < |WildcardRankings| then Some(WildcardRankings[i]) else None
  }

  /** A text drawn at horizontal position x. */
  datatype Cell = Cell(text: string, x: int)

  /** One provider of the `odds` object: its key (drawn as a heading) and its team-to-percentage map. */
  datatype Provider = Provider(name: string, odds: map<string, real>)

  /**
   * One team's row: every text sits at height y; the rank is centred at
   * xOffset - 20, the name starts at xOffset + 35, the points end at
   * xOffset + 240 and a status label starts at xOffset + 320.
   */
  datatype Row = Row(
    y: int,
    rank: Option<string>,
    name: string,
    points: int,
    odds: seq<Cell>,
    status: Option<string>)

  /** The row's `clinchIndicator` after the computed elimination overrides it. */
  function Indicator(standings: seq<Standing>, team: Standing): (r: Option<string>)
    ensures IsEliminated(standings, team) ==> r == Some("e")
    ensures !IsEliminated(standings, team) ==> r == team.clinchIndicator
  {
    if IsEliminated(standings, team) then Some("e") else team.clinchIndicator
  }

  /** JavaScript truthiness of an indicator: defined and not the empty string. */
  predicate Truthy(indicator: Option<string>) {
    indicator.Some? && indicator.value != ""
  }

  function NameText(name: string, indicator: Option<string>): string {
    if Truthy(indicator) then name + " (" + indicator.value + ")" else name
  }

  /** The status label drawn for an indicator letter, if any. */
  function StatusLabel(indicator: Option<string>): (r: Option<string>)
    ensures r.Some? ==> indicator.Some? && indicator.value in ["e", "x", "p", "y", "z"]
    ensures indicator.Some? && indicator.value in ["e", "x", "p", "y", "z"] ==> r.Some?
    ensures r == Some("Eliminated") <==> indicator == Some("e")
    ensures r == Some("Clinched Playoffs") <==> indicator == Some("x")
    ensures r == Some("President's Trophy") <==> indicator == Some("p")
    ensures r == Some("Clinched Division") <==> indicator == Some("y")
    ensures r == Some("Clinched Conference") <==> indicator == Some("z")
  {
    match indicator
    case None => None
    case Some(c) =>
      if c == "e" then Some("Eliminated")
      else if c == "x" then Some("Clinched Playoffs")
      else if c == "p" then Some("President's Trophy")
      else if c == "y" then Some("Clinched Division")
      else if c == "z" then Some("Clinched Conference")
      else None
  }

  /** Provider k's cell for a team the provider holds: its formatted odds at x = xOffset + 320 - 70 k. */
  function ProviderCell(p: Provider, abbrev: string, k: int, xOffset: int, nf: Text.NumberFormat): Cell
    requires abbrev in p.odds
  {
    Cell(Text.FormatOdds(Some(p.odds[abbrev]), nf), xOffset + 320 - 70 * k)
  }

  /** `c` is the cell of provider k, which holds the team. */
  predicate HasCell(providers: seq<Provider>, abbrev: string, xOffset: int, nf: Text.NumberFormat, c: Cell, k: int) {
    0 <= k < |providers| && abbrev in providers[k].odds && c == ProviderCell(providers[k], abbrev, k, xOffset, nf)
  }

  /** The odds cells of one team: a cell for each provider (in order) whose map holds the team. */
  function OddsCells(providers: seq<Provider>, abbrev: string, xOffset: int, nf: Text.NumberFormat): seq<Cell> {
    if |providers| == 0 then []
    else
      var n := |providers| - 1;
      var p := providers[n];
      OddsCells(providers[..n], abbrev, xOffset, nf)
        + (if abbrev in p.odds then [ProviderCell(p, abbrev, n, xOffset, nf)] else [])
  }

  /** Every drawn cell is the cell of some provider holding the team. */
  lemma {:induction false} OddsCellsSound(providers: seq<Provider>, abbrev: string, xOffset: int, nf: Text.NumberFormat, c: Cell)
    requires c in OddsCells(providers, abbrev, xOffset, nf)
    ensures exists k :: HasCell(providers, abbrev, xOffset, nf, c, k)
  {
    var n := |providers| - 1;
    var init := providers[..n];
    if c in OddsCells(init, abbrev, xOffset, nf) {
      OddsCellsSound(init, abbrev, xOffset, nf, c);
      var k :| HasCell(init, abbrev, xOffset, nf, c, k);
      assert init[k] == providers[k];
      assert HasCell(providers, abbrev, xOffset, nf, c, k);
    } else {
      assert HasCell(providers, abbrev, xOffset, nf, c, n);
    }
  }

  /** Every provider holding the team gets its cell. */
  lemma {:induction false} OddsCellsComplete(providers: seq<Provider>, abbrev: string, xOffset: int, nf: Text.NumberFormat, k: int)
    requires 0 <= k < |providers| && abbrev in providers[k].odds
    ensures ProviderCell(providers[k], abbrev, k, xOffset, nf) in OddsCells(providers, abbrev, xOffset, nf)
  {
    var n := |providers| - 1;
    var init := providers[..n];
    if k < n {
      OddsCellsComplete(init, abbrev, xOffset, nf, k);
      assert init[k] == providers[k];
    }
  }

  /** A cell is drawn exactly for each provider index k whose map holds the team, at x = xOffset + 320 - 70 k. */
  lemma OddsCellsExactly(providers: seq<Provider>, abbrev: string, xOffset: int, nf: Text.NumberFormat, c: Cell)
    ensures c in OddsCells(providers, abbrev, xOffset, nf) <==> exists k :: HasCell(providers, abbrev, xOffset, nf, c, k)
  {
    if c in OddsCells(providers, abbrev, xOffset, nf) {
      OddsCellsSound(providers, abbrev, xOffset, nf, c);
    }
    if exists k :: HasCell(providers, abbrev, xOffset, nf, c, k) {
      var k :| HasCell(providers, abbrev, xOffset, nf, c, k);
      OddsCellsComplete(providers, abbrev, xOffset, nf, k);
    }
  }

  /** The no-provider-holds-the-team case: no cell at all. */
  lemma {:induction false} OddsCellsEmpty(providers: seq<Provider>, abbrev: string, xOffset: int, nf: Text.NumberFormat)
    requires forall k :: 0 <= k < |providers| ==> abbrev !in providers[k].odds
    ensures OddsCells(providers, abbrev, xOffset, nf) == []
  {
    if |providers| > 0 {
      OddsCellsEmpty(providers[..|providers| - 1], abbrev, xOffset, nf);
    }
  }

  /** The row drawn for `team` at index i. */
  function RowFor(standings: seq<Standing>, providers: seq<Provider>, team: Standing, i: nat, xOffset: int, nf: Text.NumberFormat): Row {
    var indicator := Indicator(standings, team);
    Row(60 + 30 * i,
        RankLabel(i),
        NameText(team.teamName, indicator),
        team.points,
        if indicator.None? then OddsCells(providers, team.teamAbbrev, xOffset, nf) else [],
        StatusLabel(indicator))
  }

  /** The rows `drawConferenceStandings` draws, one per conference team in display order. */
  function ConferenceRows(standings: seq<Standing>, providers: seq<Provider>, conference: string, xOffset: int, nf: Text.NumberFormat): seq<Row> {
    RowsFor(standings, providers, ConferenceOrder(standings, conference), xOffset, nf)
  }

  /** Row i for the i-th team of `ordered`. */
  function RowsFor(standings: seq<Standing>, providers: seq<Provider>, ordered: seq<Standing>, xOffset: int, nf: Text.NumberFormat): seq<Row> {
    seq(|ordered|, i requires 0 <= i < |ordered| => RowFor(standings, providers, ordered[i], i, xOffset, nf))
  }

  /** What each drawn row shows, stated against the conference's display order. */
  lemma ConferenceRowsLayout(standings: seq<Standing>, providers: seq<Provider>, conference: string, xOffset: int, nf: Text.NumberFormat, i: nat)
    requires i < |ConferenceOrder(standings, conference)|
    ensures var team := ConferenceOrder(standings, conference)[i];
            var row := ConferenceRows(standings, providers, conference, xOffset, nf)[i];
            var indicator := Indicator(standings, team);
            && |ConferenceRows(standings, providers, conference, xOffset, nf)| == |ConferenceOrder(standings, conference)|
            && team in standings && team.conferenceAbbrev == conference
            && row.y == 60 + 30 * i
            && row.rank == RankLabel(i)
            && row.points == team.points
            && (IsEliminated(standings, team) ==> row.status == Some("Eliminated") && row.odds == [])
            && (row.name == team.teamName <==> !Truthy(indicator))
            && (Truthy(indicator) ==> row.name == team.teamName + " (" + indicator.value + ")")
            && row.status == StatusLabel(indicator)
            && (indicator.Some? ==> row.odds == [])
            && (indicator.None? ==> forall c :: c in row.odds <==>
                  exists k :: HasCell(providers, team.teamAbbrev, xOffset, nf, c, k))
  {
    var team := ConferenceOrder(standings, conference)[i];
    var indicator := Indicator(standings, team);
    if Truthy(indicator) {
      var n := NameText(team.teamName, indicator);
      assert |n| > |team.teamName|;
    }
    forall c ensures c in OddsCells(providers, team.teamAbbrev, xOffset, nf) <==>
                  exists k :: HasCell(providers, team.teamAbbrev, xOffset, nf, c, k) {
      OddsCellsExactly(providers, team.teamAbbrev, xOffset, nf, c);
    }
  }

  /** The `Object.values(odds).forEach` of one row: a cell for each provider holding the team. */
  method DrawOddsCells(providers: seq<Provider>, abbrev: string, xOffset: int, nf: Text.NumberFormat)
    returns (cells: seq<Cell>)
    ensures cells == OddsCells(providers, abbrev, xOffset, nf)
  {
    cells := [];
    var j := 0;
    while j < |providers|
      invariant 0 <= j <= |providers|
      invariant cells == OddsCells(providers[..j], abbrev, xOffset, nf)
    {
      var p := providers[j];
      if abbrev in p.odds {
        cells := cells + [ProviderCell(p, abbrev, j, xOffset, nf)];
      }
      assert providers[..j + 1][..j] == providers[..j];
      j := j + 1;
    }
    assert providers[..j] == providers;
  }

  /** One iteration of the row loop: override the indicator on a computed elimination, then lay out the row. */
  method DrawRow(standings: seq<Standing>, providers: seq<Provider>, team: Standing, i: nat, xOffset: int, nf: Text.NumberFormat)
    returns (row: Row)
    ensures row == RowFor(standings, providers, team, i, xOffset, nf)
  {
    var clinchIndicator := team.clinchIndicator;
    if IsEliminated(standings, team) {
      clinchIndicator := Some("e");
    }
    var cells: seq<Cell> := [];
    if clinchIndicator.None? {
      cells := DrawOddsCells(providers, team.teamAbbrev, xOffset, nf);
    }
    row := Row(60 + 30 * i, RankLabel(i), NameText(team.teamName, clinchIndicator), team.points,
               cells, StatusLabel(clinchIndicator));
  }

  /**
   * `drawConferenceStandings`: filter and sort the conference, then draw one
   * row per team in that order.
   */
  method DrawConferenceStandings(standings: seq<Standing>, providers: seq<Provider>, conference: string, xOffset: int, nf: Text.NumberFormat)
    returns (rows: seq<Row>)
    ensures rows == ConferenceRows(standings, providers, conference, xOffset, nf)
  {
    var ordered := ConferenceOrder(standings, conference);
    rows := DrawRows(standings, providers, ordered, xOffset, nf);
  }

  /** The row loop over the ordered teams. */
  method DrawRows(standings: seq<Standing>, providers: seq<Provider>, ordered: seq<Standing>, xOffset: int, nf: Text.NumberFormat)
    returns (rows: seq<Row>)
    ensures rows == RowsFor(standings, providers, ordered, xOffset, nf)
  {
    rows := [];
    var i := 0;
    while i < |ordered|
      invariant 0 <= i <= |ordered|
      invariant |rows| == i
      invariant forall k :: 0 <= k < i ==> rows[k] == RowFor(standings, providers, ordered[k], k, xOffset, nf)
    {
      var row := DrawRow(standings, providers, ordered[i], i, xOffset, nf);
      rows := rows + [row];
      i := i + 1;
    }
  }

  /** The provider headings of one conference column: provider i centred at x0 - 65 i. */
  function ProviderHeadings(providers: seq<Provider>, x0: int): (r: seq<Cell>)
    ensures |r| == |providers|
    ensures forall i :: 0 <= i < |providers| ==> r[i].text == providers[i].name && r[i].x == x0 - 65 * i
  {
    seq(|providers|, i requires 0 <= i < |providers| => Cell(providers[i].name, x0 - 65 * i))
  }

  /** The league image: headings (y = 30) and rows of both conference columns, and the credit line. */
  datatype LeagueImage = LeagueImage(
    westHeadings: seq<Cell>,
    eastHeadings: seq<Cell>,
    west: seq<Row>,
    east: seq<Row>,
    credit: string)

  /** `generateLeaguePlayoffOddsImage`: the West column at x = 60, the East column at x = 460. */
  method GenerateLeaguePlayoffOddsImage(standings: seq<Standing>, providers: seq<Provider>, updatedAt: string,
                                        attributionLine: string, nf: Text.NumberFormat)
    returns (image: LeagueImage)
    ensures image.west == ConferenceRows(standings, providers, "W", 60, nf)
    ensures image.east == ConferenceRows(standings, providers, "E", 460, nf)
    ensures image.westHeadings == [Cell("Western Conference", 60), Cell("Pts.", 290)] + ProviderHeadings(providers, 350)
    ensures image.eastHeadings == [Cell("Eastern Conference", 460), Cell("Pts.", 690)] + ProviderHeadings(providers, 750)
    ensures image.credit == attributionLine + " \U{2022} Updated: " + updatedAt
  {
    var westHeadings := [Cell("Western Conference", 60), Cell("Pts.", 290)] + ProviderHeadings(providers, 350);
    var eastHeadings := [Cell("Eastern Conference", 460), Cell("Pts.", 690)] + ProviderHeadings(providers, 750);
    var west := DrawConferenceStandings(standings, providers, "W", 60, nf);
    var east := DrawConferenceStandings(standings, providers, "E", 460, nf);
    image := LeagueImage(westHeadings, eastHeadings, west, east, attributionLine + " \U{2022} Updated: " + updatedAt);
  }

  // ---------------------------------------------------------------------
  // Team card

  const Up := "\U{23F6}"
  const Down := "\U{23F7}"

  /** A delta line: a direction glyph, a space, then a magnitude. */
  datatype Delta = Delta(glyph: string, magnitude: string) {
    function Text(): string { glyph + " " + magnitude }
  }

  /** The delta line as written: the glyph, then `formatOdds(change)` of the signed change. */
  function TeamCardDeltaAsWritten(odds: real, cachedOdds: Option<real>, nf: Text.NumberFormat): (r: Option<Delta>)
    ensures r.Some? <==> cachedOdds.Some? && odds != cachedOdds.value
    ensures r.Some? ==> r.value.glyph == if odds > cachedOdds.value then Up else Down
    ensures r.Some? && odds < cachedOdds.value ==> r.value.magnitude == Text.Hopeless
    ensures r.Some? && odds > cachedOdds.value ==> r == TeamCardDelta(odds, cachedOdds, nf)
  {
    match cachedOdds
    case None => None
    case Some(cached) =>
      if odds == cached then None
      else
        var change := odds - cached;
        Some(Delta(if change > 0.0 then Up else Down, Text.FormatOdds(Some(change), nf)))
  }

  /** As written, a drop from 50% to 40% reads "0% x" while the rise from 40% to 50% reads "10%". */
  lemma DecreaseRendersAsZero(nf: Text.NumberFormat)
    ensures TeamCardDeltaAsWritten(40.0, Some(50.0), nf) == Some(Delta(Down, Text.Hopeless))
    ensures TeamCardDeltaAsWritten(50.0, Some(40.0), nf) == Some(Delta(Up, nf(10.0) + "%"))
  {
    assert Text.FormatOdds(Some(50.0 - 40.0), nf) == nf(10.0) + "%";
  }

  function Abs(x: real): real {
    if x < 0.0 then -x else x
  }

  /** The delta line as intended: the glyph gives the direction, the magnitude is `formatOdds(|change|)`. */
  function TeamCardDelta(odds: real, cachedOdds: Option<real>, nf: Text.NumberFormat): (r: Option<Delta>)
    ensures r.Some? <==> cachedOdds.Some? && odds != cachedOdds.value
    ensures r.Some? ==> r.value.glyph == if odds > cachedOdds.value then Up else Down
    ensures r.Some? ==> r.value.magnitude == Text.FormatOdds(Some(Abs(odds - cachedOdds.value)), nf)
  {
    match cachedOdds
    case None => None
    case Some(cached) =>
      if odds == cached then None
      else
        var change := odds - cached;
        Some(Delta(if change > 0.0 then Up else Down, Text.FormatOdds(Some(Abs(change)), nf)))
  }

  /** A rise and a fall of the same size render the same magnitude, with opposite glyphs. */
  lemma DeltaMagnitudeSymmetric(a: real, b: real, nf: Text.NumberFormat)
    requires a != b
    ensures TeamCardDelta(a, Some(b), nf).Some? && TeamCardDelta(b, Some(a), nf).Some?
    ensures TeamCardDelta(a, Some(b), nf).value.magnitude == TeamCardDelta(b, Some(a), nf).value.magnitude
    ensures TeamCardDelta(a, Some(b), nf).value.glyph != TeamCardDelta(b, Some(a), nf).value.glyph
  {
    assert Abs(a - b) == Abs(b - a);
  }

  /** The as-written delta breaks that symmetry for every change bigger than 0.001. */
  lemma AsWrittenDeltaAsymmetric(a: real, b: real, nf: Text.NumberFormat)
    requires 0.001 < a - b < 99.995
    ensures TeamCardDeltaAsWritten(a, Some(b), nf).value.magnitude != TeamCardDeltaAsWritten(b, Some(a), nf).value.magnitude
  {
  }

  /** The team card's texts: heading, the MoneyPuck title and figure, and the optional delta line. */
  datatype TeamCard = TeamCard(
    heading: string,
    title: string,
    titleY: int,
    figure: string,
    figureY: int,
    delta: Option<Delta>,
    deltaY: int,
    nextY: int)

  /**
   * `generateTeamPlayoffOddsImage`: the title at y = 250, the figure 70 below,
   * the delta 130 below the title; drawing a delta moves the cursor down 50.
   */
  function TeamPlayoffOddsCard(teamName: string, odds: real, cachedOdds: Option<real>, nf: Text.NumberFormat): (r: TeamCard)
    ensures r.heading == Text.Upper("Playoff odds for the " + teamName)
    ensures r.titleY == 250 && r.figureY == 320 && r.deltaY == 380
    ensures r.figure == Text.FormatOdds(Some(odds), nf)
    ensures r.delta.Some? <==> cachedOdds.Some? && cachedOdds.value != odds
    ensures r.delta == TeamCardDeltaAsWritten(odds, cachedOdds, nf)
    ensures r.delta.Some? && odds < cachedOdds.value ==> r.delta.value.magnitude == Text.Hopeless
    ensures r.nextY == if r.delta.Some? then 300 else 250
  {
    var y := 250;
    var delta := TeamCardDeltaAsWritten(odds, cachedOdds, nf);
    TeamCard(Text.Upper("Playoff odds for the " + teamName), "MoneyPuck", y, Text.FormatOdds(Some(odds), nf), y + 70,
             delta, y + 130, if delta.Some? then y + 50 else y)
  }
}
