/**
 * The MoneyPuck adapter's row-to-map step (src/moneypuck.js): the parsed
 * simulation rows become a team-code-to-percentage map.
 */
module MoneyPuck {

  /** The columns of a parsed simulations row that the adapter reads (`madePlayoffs` as a fraction). */
  datatype CsvRow = CsvRow(teamCode: string, scenerio: string, madePlayoffs: real)

  predicate Contributes(row: CsvRow) {
    row.scenerio == "ALL"
  }

  /** The map after the first |rows| rows: each `'ALL'` row sets its team to madePlayoffs * 100. */
  function LeagueOdds(rows: seq<CsvRow>): map<string, real> {
    if |rows| == 0 then map[]
    else
      var m := LeagueOdds(rows[..|rows| - 1]);
      var row := rows[|rows| - 1];
      if Contributes(row) then m[row.teamCode := row.madePlayoffs * 100.0] else m
  }

  /** The keys are exactly the team codes of the `'ALL'` rows; an empty list gives an empty map. */
  lemma {:induction false} LeagueOddsKeys(rows: seq<CsvRow>, code: string)
    ensures code in LeagueOdds(rows) <==>
              exists i :: 0 <= i < |rows| && Contributes(rows[i]) && rows[i].teamCode == code
  {
    if |rows| > 0 {
      var init := rows[..|rows| - 1];
      LeagueOddsKeys(init, code);
      forall i | 0 <= i < |init| ensures init[i] == rows[i] { }
    }
  }

  /** A team's entry comes from its last `'ALL'` row: later rows for the same team overwrite earlier ones. */
  lemma {:induction false} LeagueOddsLastWins(rows: seq<CsvRow>, i: nat)
    requires i < |rows| && Contributes(rows[i])
    requires forall j :: i < j < |rows| ==> !(Contributes(rows[j]) && rows[j].teamCode == rows[i].teamCode)
    ensures rows[i].teamCode in LeagueOdds(rows)
    ensures LeagueOdds(rows)[rows[i].teamCode] == rows[i].madePlayoffs * 100.0
  {
    var n := |rows| - 1;
    if i < n {
      var init := rows[..n];
      forall j | i < j < |init| ensures !(Contributes(init[j]) && init[j].teamCode == rows[i].teamCode) {
        assert init[j] == rows[j];
      }
      LeagueOddsLastWins(init, i);
    }
  }

  /** `getLeagueLiveOdds` after parsing: the `forEach` that fills `leagueOdds`. */
  method GetLeagueLiveOdds(rows: seq<CsvRow>) returns (leagueOdds: map<string, real>)
    ensures leagueOdds == LeagueOdds(rows)
    ensures forall code :: code in leagueOdds ==>
              exists i :: 0 <= i < |rows| && Contributes(rows[i]) && rows[i].teamCode == code
                          && leagueOdds[code] == rows[i].madePlayoffs * 100.0
  {
    leagueOdds := map[];
    var k := 0;
    while k < |rows|
      invariant 0 <= k <= |rows|
      invariant leagueOdds == LeagueOdds(rows[..k])
      invariant forall code :: code in leagueOdds ==>
                  exists i :: 0 <= i < k && Contributes(rows[i]) && rows[i].teamCode == code
                              && leagueOdds[code] == rows[i].madePlayoffs * 100.0
    {
      var row := rows[k];
      if row.scenerio == "ALL" {
        leagueOdds := leagueOdds[row.teamCode := row.madePlayoffs * 100.0];
      }
      assert rows[..k + 1][..k] == rows[..k];
      k := k + 1;
    }
    assert rows[..k] == rows;
  }
}
