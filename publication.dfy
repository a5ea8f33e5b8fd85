/**
 * The league-wide publication run (src/index.js): configuration checks, cache
 * clearing, the change check on the league fingerprint, the league post with
 * its image and caption, then one threaded reply per team, each skipped when
 * its odds are stale, unchanged or zero. The run is specified by `Run`, a
 * function from the configuration, the teams table, what the world answers and
 * the cache to the final cache and the trace of effects; the class `Bot`
 * performs the same steps on mutable state and is proved equal to it.
 */
module Publication {
  import opened Wrappers
  import Text
  import Standings
  import PureImage
  import opened Effects

  /** An entry of the teams table. */
  datatype Team = Team(abbreviation: string, name: string, hashtag: string)

  /**
   * The environment (`TEAM_CODE`, `REDIS_URL`, `MASTODON_BASE_URL`,
   * `MASTODON_TOKEN`, "" when unset) and whether `--cache:clear` was passed.
   */
  datatype Config = Config(teamCode: string, redisUrl: string, mastodonBaseUrl: string, mastodonToken: string,
                           clearCache: bool)

  /** The two providers' league odds (percent by team abbreviation) and sample times (milliseconds). */
  datatype Feeds = Feeds(sportsClubStatsOdds: map<string, real>, sportsClubStatsLastUpdate: int,
                         moneyPuckOdds: map<string, real>, moneyPuckLastUpdate: int)

  /**
   * What the run observes: the clock; the provider calls (`None` when one
   * throws); the standings request (`None` when it fails); whether the media
   * upload with a given description succeeds; the id of the status a post of
   * a given text creates (`None` when the post throws); the number and date
   * formatters.
   */
  datatype World = World(now: int, feeds: Option<Feeds>, standings: Option<seq<Standings.Standing>>,
                         uploadOk: string -> bool, post: string -> Option<string>,
                         nf: Text.NumberFormat, formatDate: int -> string)

  /** A provider's odds are shown for a team while less than this many whole days old. */
  const FreshDays := 2

  predicate Configured(config: Config) {
    config.redisUrl != "" && config.mastodonBaseUrl != "" && config.mastodonToken != ""
  }

  /** Every team's abbreviation when `TEAM_CODE` is unset, otherwise just the upper-cased code. */
  function TeamList(teams: seq<Team>, teamCode: string): (codes: seq<string>)
    ensures teamCode == "" ==> |codes| == |teams| && forall i :: 0 <= i < |teams| ==> codes[i] == teams[i].abbreviation
    ensures teamCode != "" ==> codes == [Text.Upper(teamCode)]
  {
    if teamCode == "" then seq(|teams|, i requires 0 <= i < |teams| => teams[i].abbreviation)
    else [Text.Upper(teamCode)]
  }

  /** Index of the first entry with this abbreviation. */
  function FindTeamIndex(teams: seq<Team>, code: string): (r: Option<nat>)
    ensures r.None? <==> forall j :: 0 <= j < |teams| ==> teams[j].abbreviation != code
    ensures r.Some? ==> r.value < |teams| && teams[r.value].abbreviation == code
    ensures r.Some? ==> forall j :: 0 <= j < r.value ==> teams[j].abbreviation != code
  {
    if |teams| == 0 then None
    else if teams[0].abbreviation == code then Some(0)
    else
      match FindTeamIndex(teams[1..], code)
      case None => None
      case Some(k) => Some(k + 1)
  }

  /** `Teams.find`: the first entry with this abbreviation. */
  function FindTeam(teams: seq<Team>, code: string): (r: Option<Team>)
    ensures r.None? <==> forall j :: 0 <= j < |teams| ==> teams[j].abbreviation != code
    ensures r.Some? ==> r.value in teams && r.value.abbreviation == code
  {
    match FindTeamIndex(teams, code)
    case None => None
    case Some(i) => Some(teams[i])
  }

  // ---------------------------------------------------------------------
  // The league post

  /** One caption line: team name, MoneyPuck odds, Sports Club Stats odds. */
  function CaptionLine(team: Standings.Standing, feeds: Feeds, nf: Text.NumberFormat): string {
    CaptionMoneyPuck(team, feeds, nf) + CaptionSportsClubStats(team, feeds, nf)
  }

  function CaptionMoneyPuck(team: Standings.Standing, feeds: Feeds, nf: Text.NumberFormat): string {
    team.teamName + " | MP: " + Text.FormatOdds(Lookup(feeds.moneyPuckOdds, team.teamAbbrev), nf)
  }

  function CaptionSportsClubStats(team: Standings.Standing, feeds: Feeds, nf: Text.NumberFormat): string {
    " | SCS: " + Text.FormatOdds(Lookup(feeds.sportsClubStatsOdds, team.teamAbbrev), nf) + "\n"
  }

  /** The caption lines of rows in the given order. */
  function CaptionLines(ordered: seq<Standings.Standing>, feeds: Feeds, nf: Text.NumberFormat): string {
    if |ordered| == 0 then ""
    else CaptionLines(ordered[..|ordered| - 1], feeds, nf) + CaptionLine(ordered[|ordered| - 1], feeds, nf)
  }

  lemma {:induction false} CaptionLinesAppend(a: seq<Standings.Standing>, b: seq<Standings.Standing>, feeds: Feeds,
                                              nf: Text.NumberFormat)
    ensures CaptionLines(a + b, feeds, nf) == CaptionLines(a, feeds, nf) + CaptionLines(b, feeds, nf)
  {
    if |b| == 0 {
      assert a + b == a;
    } else {
      assert (a + b)[..|a + b| - 1] == a + b[..|b| - 1];
      CaptionLinesAppend(a, b[..|b| - 1], feeds, nf);
    }
  }

  /**
   * The image description: a caption line per team in the comparator's order,
   * then the update time.
   */
  function LeagueDescription(standings: seq<Standings.Standing>, feeds: Feeds, updatedAt: string,
                             nf: Text.NumberFormat): string {
    CaptionLines(Standings.SortByKey(standings), feeds, nf) + "\nUpdated: " + updatedAt
  }

  /**
   * On rows with distinct keys the caption follows any sorted permutation of
   * the standings, so it does not depend on how the engine sorts.
   */
  lemma CaptionFollowsAnySort(standings: seq<Standings.Standing>, ordered: seq<Standings.Standing>, feeds: Feeds,
                              updatedAt: string, nf: Text.NumberFormat)
    requires Standings.DistinctKeys(standings)
    requires multiset(ordered) == multiset(standings) && Standings.Sorted(ordered)
    ensures LeagueDescription(standings, feeds, updatedAt, nf) == CaptionLines(ordered, feeds, nf) + "\nUpdated: " + updatedAt
  {
    Standings.AnySortAgrees(standings, ordered);
  }

  predicate Positive(odds: map<string, real>, key: string) {
    key in odds && odds[key] > 0.0
  }

  /** A team is tagged when its odds are positive at both providers. */
  predicate Tagged(t: Team, feeds: Feeds) {
    Positive(feeds.sportsClubStatsOdds, t.abbreviation) && Positive(feeds.moneyPuckOdds, t.abbreviation)
  }

  /** The teams whose odds are positive at both providers, in table order. */
  function HashtagTeams(teams: seq<Team>, feeds: Feeds): (r: seq<Team>)
    ensures forall t :: t in r <==> t in teams && Tagged(t, feeds)
    ensures |r| <= |teams|
  {
    if |teams| == 0 then []
    else
      var rest := HashtagTeams(teams[1..], feeds);
      assert teams == [teams[0]] + teams[1..];
      if Tagged(teams[0], feeds) then [teams[0]] + rest else rest
  }

  /** The selection keeps table order and multiplicity: it works team by team. */
  lemma {:induction false} HashtagTeamsAppend(a: seq<Team>, b: seq<Team>, feeds: Feeds)
    ensures HashtagTeams(a + b, feeds) == HashtagTeams(a, feeds) + HashtagTeams(b, feeds)
  {
    if |a| == 0 {
      assert a + b == b;
    } else {
      var t, tail := a[0], a[1..];
      var head := if Tagged(t, feeds) then [t] else [];
      assert a == [t] + tail;
      assert a + b == [t] + (tail + b);
      HashtagTeamsCons(t, tail + b, feeds);
      HashtagTeamsCons(t, tail, feeds);
      HashtagTeamsAppend(tail, b, feeds);
      var x, y := HashtagTeams(tail, feeds), HashtagTeams(b, feeds);
      assert head + (x + y) == (head + x) + y;
    }
  }

  /** One team in front is kept exactly when it is tagged. */
  lemma HashtagTeamsCons(t: Team, rest: seq<Team>, feeds: Feeds)
    ensures HashtagTeams([t] + rest, feeds) == (if Tagged(t, feeds) then [t] else []) + HashtagTeams(rest, feeds)
  {
    assert ([t] + rest)[0] == t && ([t] + rest)[1..] == rest;
  }

  /** `#tag` for each team, separated by single spaces. */
  function JoinHashtags(ts: seq<Team>): (r: string)
    ensures |ts| == 0 <==> r == ""
    ensures |ts| > 0 ==> Text.StartsWith(r, "#" + ts[0].hashtag)
  {
    if |ts| == 0 then ""
    else if |ts| == 1 then "#" + ts[0].hashtag
    else "#" + ts[0].hashtag + " " + JoinHashtags(ts[1..])
  }

  /** One more team adds a single space and its tag at the end. */
  lemma {:induction false} JoinHashtagsSnoc(ts: seq<Team>, t: Team)
    ensures JoinHashtags([t]) == "#" + t.hashtag
    ensures |ts| > 0 ==> JoinHashtags(ts + [t]) == JoinHashtags(ts) + " #" + t.hashtag
  {
    if |ts| == 1 {
      assert (ts + [t])[1..] == [t];
    } else if |ts| > 1 {
      assert (ts + [t])[0] == ts[0] && (ts + [t])[1..] == ts[1..] + [t];
      JoinHashtagsSnoc(ts[1..], t);
    }
  }

  /** The league status text. */
  function LeagueStatus(teams: seq<Team>, feeds: Feeds): (s: string)
    ensures Text.StartsWith(s, "#nhl ")
    ensures s[|"#nhl "|..] == JoinHashtags(HashtagTeams(teams, feeds))
  {
    "#nhl " + JoinHashtags(HashtagTeams(teams, feeds))
  }

  // ---------------------------------------------------------------------
  // One team

  /** What `\s` matches in a JavaScript regular expression, and the full stop. */
  predicate SpaceOrDot(c: char) {
    c == '.' || c == ' ' || c == '\t' || c == '\n' || c == '\r' || c == '\U{000B}' || c == '\U{000C}'
    || c == '\U{00A0}' || c == '\U{1680}' || ('\U{2000}' <= c <= '\U{200A}') || c == '\U{2028}'
    || c == '\U{2029}' || c == '\U{202F}' || c == '\U{205F}' || c == '\U{3000}' || c == '\U{FEFF}'
  }

  /** `name.replace(/(\s|\.)/g, '')`. */
  function StripSpacesAndDots(s: string): (r: string)
    ensures forall i :: 0 <= i < |r| ==> !SpaceOrDot(r[i])
    ensures multiset(r) <= multiset(s)
    ensures forall c :: !SpaceOrDot(c) ==> multiset(r)[c] == multiset(s)[c]
    ensures (forall i :: 0 <= i < |s| ==> !SpaceOrDot(s[i])) ==> r == s
  {
    if |s| == 0 then ""
    else
      assert s == [s[0]] + s[1..];
      if SpaceOrDot(s[0]) then StripSpacesAndDots(s[1..]) else [s[0]] + StripSpacesAndDots(s[1..])
  }

  /** Stripping works character by character, so it keeps the order of what remains. */
  lemma {:induction false} StripAppend(a: string, b: string)
    ensures StripSpacesAndDots(a + b) == StripSpacesAndDots(a) + StripSpacesAndDots(b)
  {
    if |a| == 0 {
      assert a + b == b;
    } else {
      assert (a + b)[0] == a[0] && (a + b)[1..] == a[1..] + b;
      StripAppend(a[1..], b);
    }
  }

  function TeamHashtags(team: Team): string {
    "\n\n#NHL #" + team.hashtag + " #" + team.abbreviation + " #" + StripSpacesAndDots(team.name)
  }

  function TeamHeading(team: Team): string {
    "Updated playoff chances for the " + team.name + ":\n\n"
  }

  function MoneyPuckLine(odds: Option<real>, nf: Text.NumberFormat): string {
    "\U{2022} MoneyPuck: " + Text.FormatOdds(odds, nf) + "\n"
  }

  function SportsClubStatsLine(odds: Option<real>, nf: Text.NumberFormat): string {
    "\U{2022} Sports Club Stats: " + Text.FormatOdds(odds, nf) + "\n"
  }

  /**
   * The team status text: the heading, a line for each provider whose odds are
   * fresh (MoneyPuck first), and the hashtags.
   */
  function TeamMessage(team: Team, showMoneyPuck: bool, showSportsClubStats: bool,
                       moneyPuckOdds: Option<real>, sportsClubStatsOdds: Option<real>, nf: Text.NumberFormat): string
  {
    TeamHeading(team)
    + (if showMoneyPuck then MoneyPuckLine(moneyPuckOdds, nf) else "")
    + (if showSportsClubStats then SportsClubStatsLine(sportsClubStatsOdds, nf) else "")
    + TeamHashtags(team)
  }

  /**
   * The message is the heading, then the provider lines, then the hashtags: both
   * lines with MoneyPuck first, one line, or none, as the two flags say.
   */
  lemma TeamMessageParts(team: Team, showMoneyPuck: bool, showSportsClubStats: bool,
                         moneyPuckOdds: Option<real>, sportsClubStatsOdds: Option<real>, nf: Text.NumberFormat)
    ensures var m := TeamMessage(team, showMoneyPuck, showSportsClubStats, moneyPuckOdds, sportsClubStatsOdds, nf);
            var h := TeamHeading(team);
            var tags := TeamHashtags(team);
            var mp := MoneyPuckLine(moneyPuckOdds, nf);
            var scs := SportsClubStatsLine(sportsClubStatsOdds, nf);
            && |m| >= |h| + |tags|
            && m[..|h|] == h
            && m[|m| - |tags|..] == tags
            && (showMoneyPuck && showSportsClubStats ==> m[|h|..|m| - |tags|] == mp + scs)
            && (showMoneyPuck && !showSportsClubStats ==> m[|h|..|m| - |tags|] == mp)
            && (!showMoneyPuck && showSportsClubStats ==> m[|h|..|m| - |tags|] == scs)
            && (!showMoneyPuck && !showSportsClubStats ==> |m| == |h| + |tags|)
  {
    var h := TeamHeading(team);
    var tags := TeamHashtags(team);
    var first := if showMoneyPuck then MoneyPuckLine(moneyPuckOdds, nf) else "";
    var second := if showSportsClubStats then SportsClubStatsLine(sportsClubStatsOdds, nf) else "";
    Text.ConcatParts(h, first, second, tags);
  }

  /** `odds < 0.01` in JavaScript: `undefined` compares false. */
  predicate Below(odds: Option<real>) {
    odds.Some? && odds.value < 0.01
  }

  /** The outcome of `postTeamOdds` before it touches the network. */
  datatype TeamStep =
    | InvalidTeam
    | NoRecentOdds
    | Unchanged
    | OddsZero
    | Publish(key: string, fingerprint: Stored, message: string, description: string, card: PureImage.TeamCard)

  /**
   * The team's decision: an unknown code is fatal; stale odds at both
   * providers, a fingerprint equal to the cached one, or odds below 0.01 at
   * both providers skip the team, checked in that order; otherwise the status,
   * its image and the fingerprint to cache.
   */
  function DecideTeam(teams: seq<Team>, teamCode: string, feeds: Feeds, cache: Cache, now: int,
                      updatedAt: string, nf: Text.NumberFormat): (step: TeamStep)
    ensures step.InvalidTeam? <==> FindTeam(teams, Text.Upper(teamCode)).None?
    ensures step.Publish? ==>
              var team := FindTeam(teams, Text.Upper(teamCode)).value;
              && step.key == Key(team.abbreviation)
              && step.fingerprint == TeamOdds(Lookup(feeds.sportsClubStatsOdds, team.abbreviation),
                                              Lookup(feeds.moneyPuckOdds, team.abbreviation))
  {
    match FindTeam(teams, Text.Upper(teamCode))
    case None => InvalidTeam
    case Some(team) =>
      var scs := Lookup(feeds.sportsClubStatsOdds, team.abbreviation);
      var mp := Lookup(feeds.moneyPuckOdds, team.abbreviation);
      var showScs := Fresh(now, feeds.sportsClubStatsLastUpdate, FreshDays);
      var showMp := Fresh(now, feeds.moneyPuckLastUpdate, FreshDays);
      var fingerprint := TeamOdds(scs, mp);
      if !showScs && !showMp then NoRecentOdds
      else if Holds(cache, Key(team.abbreviation), fingerprint) then Unchanged
      else if Below(scs) && Below(mp) then OddsZero
      else
        var message := TeamMessage(team, showMp, showScs, mp, scs, nf);
        Publish(Key(team.abbreviation), fingerprint, message, message + "\n\nUpdated " + updatedAt,
                PureImage.TeamPlayoffOddsCard(team.name, if showMp then mp else None,
                                              if showScs then scs else None, updatedAt, nf))
  }

  /**
   * The skip rules of a known team, each as an if-and-only-if, and what a
   * publication carries: the team's key, the raw odds as fingerprint, the
   * status text with a line for each fresh provider, the description, and the
   * card with a stale provider's argument left falsy.
   */
  lemma TeamSkipRules(teams: seq<Team>, teamCode: string, feeds: Feeds, cache: Cache, now: int,
                      updatedAt: string, nf: Text.NumberFormat)
    requires FindTeam(teams, Text.Upper(teamCode)).Some?
    ensures var step := DecideTeam(teams, teamCode, feeds, cache, now, updatedAt, nf);
              var team := FindTeam(teams, Text.Upper(teamCode)).value;
              var scs := Lookup(feeds.sportsClubStatsOdds, team.abbreviation);
              var mp := Lookup(feeds.moneyPuckOdds, team.abbreviation);
              var showScs := Fresh(now, feeds.sportsClubStatsLastUpdate, FreshDays);
              var showMp := Fresh(now, feeds.moneyPuckLastUpdate, FreshDays);
              && (step.NoRecentOdds? <==> !showScs && !showMp)
              && (step.Unchanged? <==> (showScs || showMp) && Holds(cache, Key(team.abbreviation), TeamOdds(scs, mp)))
              && (step.OddsZero? <==> (showScs || showMp) && !Holds(cache, Key(team.abbreviation), TeamOdds(scs, mp))
                                      && Below(scs) && Below(mp))
              && (step.Publish? ==>
                    && step.key == Key(team.abbreviation)
                    && step.fingerprint == TeamOdds(scs, mp)
                    && step.message == TeamMessage(team, showMp, showScs, mp, scs, nf)
                    && step.description == step.message + "\n\nUpdated " + updatedAt
                    && step.card == PureImage.TeamPlayoffOddsCard(team.name, if showMp then mp else None,
                                                                  if showScs then scs else None, updatedAt, nf))
  {
  }

  /** Every status post comes right after a successful media upload. */
  ghost predicate PostsFollowUploads(trace: seq<Effect>) {
    forall i :: 0 <= i < |trace| && trace[i].Post? ==> i > 0 && trace[i - 1].Upload? && trace[i - 1].ok
  }

  /** Every status post replies to `thread`. */
  ghost predicate RepliesTo(trace: seq<Effect>, thread: Option<string>) {
    forall i :: 0 <= i < |trace| && trace[i].Post? ==> trace[i].replyTo == thread
  }

  /**
   * The shape every stretch of team posts keeps: its cache is its writes
   * replayed on `start`; writes follow successful posts, posts follow
   * successful uploads, failures exit 1; it halts exactly when it ends with an
   * exit, nothing exits earlier, and it does not start with a write.
   */
  ghost predicate WellFormed(o: Outcome, start: Cache) {
    && o.cache == Replay(start, o.trace)
    && WritesFollowPosts(o.trace)
    && PostsFollowUploads(o.trace)
    && FailuresExit(o.trace)
    && (o.halted <==> |o.trace| > 0 && o.trace[|o.trace| - 1].Exit?)
    && (forall i :: 0 <= i < |o.trace| - 1 ==> !o.trace[i].Exit?)
    && (|o.trace| > 0 ==> !o.trace[0].Set?)
  }

  /**
   * `postTeamOdds` after the decision: an invalid code exits 1; a skip does
   * nothing; a publication uploads the image, posts the status in the thread
   * and only then caches the fingerprint, exiting 1 at the first failure.
   */
  function TeamEffects(step: TeamStep, cache: Cache, w: World, thread: Option<string>): (o: Outcome)
    ensures WellFormed(o, cache) && RepliesTo(o.trace, thread)
    ensures step.InvalidTeam? ==> o == Outcome(cache, [Exit(1)], true)
    ensures (step.NoRecentOdds? || step.Unchanged? || step.OddsZero?) ==> o == Outcome(cache, [], false)
    ensures step.Publish? && o.halted ==> o.cache == cache && o.trace[|o.trace| - 1] == Exit(1)
    ensures step.Publish? && !o.halted ==>
              && o.cache == cache[step.key := step.fingerprint]
              && o.trace == [Upload(step.description, true), Post(step.message, thread, true), Set(step.key, step.fingerprint)]
  {
    match step
    case InvalidTeam => Outcome(cache, [Exit(1)], true)
    case Publish(key, fingerprint, message, description, _) =>
      if !w.uploadOk(description) then
        ReplayWithoutWrites(cache, [Upload(description, false), Exit(1)]);
        Outcome(cache, [Upload(description, false), Exit(1)], true)
      else if w.post(message).None? then
        ReplayWithoutWrites(cache, [Upload(description, true), Post(message, thread, false), Exit(1)]);
        Outcome(cache, [Upload(description, true), Post(message, thread, false), Exit(1)], true)
      else
        var trace := [Upload(description, true), Post(message, thread, true), Set(key, fingerprint)];
        assert trace[..2] == [Upload(description, true), Post(message, thread, true)];
        ReplayWithoutWrites(cache, trace[..2]);
        Outcome(cache[key := fingerprint], trace, false)
    case _ => Outcome(cache, [], false)
  }

  /** The team loop over `codes`, stopping at the first exit. */
  function TeamsRun(codes: seq<string>, teams: seq<Team>, feeds: Feeds, w: World, updatedAt: string,
                    thread: Option<string>, cache: Cache): Outcome
  {
    if |codes| == 0 then Outcome(cache, [], false)
    else
      var r := TeamsRun(codes[..|codes| - 1], teams, feeds, w, updatedAt, thread, cache);
      if r.halted then r
      else
        var s := TeamEffects(DecideTeam(teams, codes[|codes| - 1], feeds, r.cache, w.now, updatedAt, w.nf),
                             r.cache, w, thread);
        Outcome(s.cache, r.trace + s.trace, s.halted)
  }

  /** Two well-formed stretches, the first not halted, make a well-formed stretch. */
  lemma WellFormedAppend(a: Outcome, b: Outcome, start: Cache)
    requires WellFormed(a, start) && !a.halted
    requires WellFormed(b, a.cache)
    ensures WellFormed(Outcome(b.cache, a.trace + b.trace, b.halted), start)
  {
    var t := a.trace + b.trace;
    ReplayAppend(start, a.trace, b.trace);
    assert |a.trace| > 0 ==> !a.trace[|a.trace| - 1].Exit?;
    WritesFollowPostsAppend(a.trace, b.trace);
    FailuresExitAppend(a.trace, b.trace);
    forall i | 0 <= i < |t| && t[i].Post? ensures i > 0 && t[i - 1].Upload? && t[i - 1].ok {
      if i < |a.trace| {
        assert t[i] == a.trace[i];
        if i > 0 { assert t[i - 1] == a.trace[i - 1]; }
      } else {
        assert t[i] == b.trace[i - |a.trace|];
        if i > |a.trace| { assert t[i - 1] == b.trace[i - 1 - |a.trace|]; }
      }
    }
    forall i | 0 <= i < |t| - 1 ensures !t[i].Exit? {
      if i < |a.trace| { assert t[i] == a.trace[i]; } else { assert t[i] == b.trace[i - |a.trace|]; }
    }
    if |b.trace| > 0 { assert t[|t| - 1] == b.trace[|b.trace| - 1]; } else { assert t == a.trace; }
    if |a.trace| == 0 && |b.trace| > 0 { assert t[0] == b.trace[0]; }
    if |a.trace| > 0 { assert t[0] == a.trace[0]; }
  }

  lemma RepliesToAppend(a: seq<Effect>, b: seq<Effect>, thread: Option<string>)
    requires RepliesTo(a, thread) && RepliesTo(b, thread)
    ensures RepliesTo(a + b, thread)
  {
    forall i | 0 <= i < |a + b| && (a + b)[i].Post? ensures (a + b)[i].replyTo == thread {
      if i < |a| { assert (a + b)[i] == a[i]; } else { assert (a + b)[i] == b[i - |a|]; }
    }
  }

  lemma {:induction false} TeamsRunWellFormed(codes: seq<string>, teams: seq<Team>, feeds: Feeds, w: World,
                                              updatedAt: string, thread: Option<string>, cache: Cache)
    ensures var o := TeamsRun(codes, teams, feeds, w, updatedAt, thread, cache);
            WellFormed(o, cache) && RepliesTo(o.trace, thread)
  {
    if |codes| > 0 {
      var r := TeamsRun(codes[..|codes| - 1], teams, feeds, w, updatedAt, thread, cache);
      TeamsRunWellFormed(codes[..|codes| - 1], teams, feeds, w, updatedAt, thread, cache);
      if !r.halted {
        var s := TeamEffects(DecideTeam(teams, codes[|codes| - 1], feeds, r.cache, w.now, updatedAt, w.nf),
                             r.cache, w, thread);
        WellFormedAppend(r, s, cache);
        RepliesToAppend(r.trace, s.trace, thread);
      }
    }
  }

  /** One more code in the loop, when the prefix before it has not exited. */
  lemma TeamsRunStep(codes: seq<string>, i: nat, teams: seq<Team>, feeds: Feeds, w: World, updatedAt: string,
                     thread: Option<string>, cache: Cache)
    requires i < |codes|
    requires !TeamsRun(codes[..i], teams, feeds, w, updatedAt, thread, cache).halted
    ensures var r := TeamsRun(codes[..i], teams, feeds, w, updatedAt, thread, cache);
            var s := TeamEffects(DecideTeam(teams, codes[i], feeds, r.cache, w.now, updatedAt, w.nf), r.cache, w, thread);
            TeamsRun(codes[..i + 1], teams, feeds, w, updatedAt, thread, cache) == Outcome(s.cache, r.trace + s.trace, s.halted)
  {
    assert codes[..i + 1][..i] == codes[..i];
  }

  /** Once a prefix of the loop has exited, the rest of the loop adds nothing. */
  lemma {:induction false} TeamsRunStopsAtExit(codes: seq<string>, i: nat, teams: seq<Team>, feeds: Feeds, w: World,
                                               updatedAt: string, thread: Option<string>, cache: Cache)
    requires i <= |codes|
    requires TeamsRun(codes[..i], teams, feeds, w, updatedAt, thread, cache).halted
    ensures TeamsRun(codes, teams, feeds, w, updatedAt, thread, cache)
            == TeamsRun(codes[..i], teams, feeds, w, updatedAt, thread, cache)
    decreases |codes| - i
  {
    if i < |codes| {
      var prefix := codes[..|codes| - 1];
      assert prefix[..i] == codes[..i];
      TeamsRunStopsAtExit(prefix, i, teams, feeds, w, updatedAt, thread, cache);
    } else {
      assert codes[..i] == codes;
    }
  }

  /**
   * With no team abbreviated "league", the team loop never writes or deletes
   * the league key.
   */
  lemma {:induction false} TeamsRunKeepsLeagueKey(codes: seq<string>, teams: seq<Team>, feeds: Feeds, w: World,
                                                  updatedAt: string, thread: Option<string>, cache: Cache)
    requires forall i :: 0 <= i < |teams| ==> teams[i].abbreviation != "league"
    ensures var o := TeamsRun(codes, teams, feeds, w, updatedAt, thread, cache);
            (LeagueKey in o.cache <==> LeagueKey in cache) && (LeagueKey in cache ==> o.cache[LeagueKey] == cache[LeagueKey])
  {
    if |codes| > 0 {
      var r := TeamsRun(codes[..|codes| - 1], teams, feeds, w, updatedAt, thread, cache);
      TeamsRunKeepsLeagueKey(codes[..|codes| - 1], teams, feeds, w, updatedAt, thread, cache);
      if !r.halted {
        TeamStepKeepsLeagueKey(teams, codes[|codes| - 1], feeds, w, updatedAt, thread, r.cache);
      }
    }
  }

  lemma TeamStepKeepsLeagueKey(teams: seq<Team>, code: string, feeds: Feeds, w: World, updatedAt: string,
                               thread: Option<string>, cache: Cache)
    requires forall i :: 0 <= i < |teams| ==> teams[i].abbreviation != "league"
    ensures var o := TeamEffects(DecideTeam(teams, code, feeds, cache, w.now, updatedAt, w.nf), cache, w, thread);
            (LeagueKey in o.cache <==> LeagueKey in cache) && (LeagueKey in cache ==> o.cache[LeagueKey] == cache[LeagueKey])
  {
    var step := DecideTeam(teams, code, feeds, cache, w.now, updatedAt, w.nf);
    if step.Publish? {
      var team := FindTeam(teams, Text.Upper(code)).value;
      KeyInjective(team.abbreviation, "league");
      assert step.key != LeagueKey;
    }
  }

  /**
   * A team whose publication went through is skipped as unchanged when it is
   * decided again on the cache it left, with the same feeds and clock.
   */
  lemma PublishedTeamIsUnchanged(teams: seq<Team>, teamCode: string, feeds: Feeds, cache: Cache, w: World,
                                 updatedAt: string, thread: Option<string>)
    requires DecideTeam(teams, teamCode, feeds, cache, w.now, updatedAt, w.nf).Publish?
    requires !TeamEffects(DecideTeam(teams, teamCode, feeds, cache, w.now, updatedAt, w.nf), cache, w, thread).halted
    ensures var after := TeamEffects(DecideTeam(teams, teamCode, feeds, cache, w.now, updatedAt, w.nf), cache, w, thread).cache;
            DecideTeam(teams, teamCode, feeds, after, w.now, updatedAt, w.nf).Unchanged?
  {
  }

  // ---------------------------------------------------------------------
  // The whole run

  /** The keys `--cache:clear` deletes: the league key, then every team's key. */
  function ClearKeys(teams: seq<Team>): (keys: seq<string>)
    ensures |keys| == |teams| + 1 && keys[0] == LeagueKey
    ensures forall i :: 0 <= i < |teams| ==> keys[i + 1] == Key(teams[i].abbreviation)
  {
    [LeagueKey] + seq(|teams|, i requires 0 <= i < |teams| => Key(teams[i].abbreviation))
  }

  function Max(a: int, b: int): (r: int)
    ensures r >= a && r >= b && (r == a || r == b)
  {
    if a >= b then a else b
  }

  /**
   * The run: configuration and team list checks (exit 1); `--cache:clear`
   * deletes and exits 0; then the odds requests, the league change check
   * (exit 0 when unchanged), the standings request, the league upload and
   * post (exit 1 on failure), the league fingerprint write, the team loop
   * replying to the league status, and exit 0.
   */
  function Run(config: Config, teams: seq<Team>, w: World, cache: Cache): (o: Outcome)
    ensures o.halted && |o.trace| > 0
    ensures !Configured(config) ==> o == Outcome(cache, [Exit(1)], true)
    ensures Configured(config) && config.teamCode == "" && |teams| == 0 ==> o == Outcome(cache, [Exit(1)], true)
    ensures Configured(config) && (config.teamCode != "" || |teams| > 0) && config.clearCache ==>
              o.trace == Deletes(ClearKeys(teams)) + [Exit(0)]
    ensures Configured(config) && (config.teamCode != "" || |teams| > 0) && !config.clearCache ==>
              o.trace[0] == FetchOdds
    ensures Configured(config) && (config.teamCode != "" || |teams| > 0) && !config.clearCache && w.feeds.Some?
            && Holds(cache, LeagueKey, LeagueOdds(w.feeds.value.moneyPuckOdds, w.feeds.value.sportsClubStatsOdds)) ==>
              o == Outcome(cache, [FetchOdds, Exit(0)], true)
  {
    if !Configured(config) then Outcome(cache, [Exit(1)], true)
    else
      var codes := TeamList(teams, config.teamCode);
      if |codes| == 0 then Outcome(cache, [Exit(1)], true)
      else if config.clearCache then
        var trace := Deletes(ClearKeys(teams)) + [Exit(0)];
        Outcome(Replay(cache, trace), trace, true)
      else FetchRun(codes, teams, w, cache)
  }

  /**
   * The run from the odds requests on: exit 1 when a provider call fails, exit 0
   * when the league fingerprint is unchanged, exit 1 when the standings
   * request fails, then the league post and the team loop.
   */
  function FetchRun(codes: seq<string>, teams: seq<Team>, w: World, cache: Cache): Outcome {
    match w.feeds
    case None => Outcome(cache, [FetchOdds, Exit(1)], true)
    case Some(feeds) =>
      if Holds(cache, LeagueKey, LeagueOdds(feeds.moneyPuckOdds, feeds.sportsClubStatsOdds)) then
        Outcome(cache, [FetchOdds, Exit(0)], true)
      else
        match w.standings
        case None => Outcome(cache, [FetchOdds, FetchStandings, Exit(1)], true)
        case Some(standings) =>
          var p := PublishRun(codes, teams, w, feeds, standings, cache);
          Outcome(p.cache, [FetchOdds, FetchStandings] + p.trace, true)
  }

  /**
   * The league post and what follows it: upload and post (exit 1 on failure),
   * the league fingerprint write, the team loop replying to the league
   * status, and exit 0 unless the loop exited.
   */
  function PublishRun(codes: seq<string>, teams: seq<Team>, w: World, feeds: Feeds,
                      standings: seq<Standings.Standing>, cache: Cache): Outcome
  {
    var fingerprint := LeagueOdds(feeds.moneyPuckOdds, feeds.sportsClubStatsOdds);
    var updatedAt := w.formatDate(Max(feeds.sportsClubStatsLastUpdate, feeds.moneyPuckLastUpdate));
    var description := LeagueDescription(standings, feeds, updatedAt, w.nf);
    var status := LeagueStatus(teams, feeds);
    if !w.uploadOk(description) then
      Outcome(cache, [Upload(description, false), Exit(1)], true)
    else if w.post(status).None? then
      Outcome(cache, [Upload(description, true), Post(status, None, false), Exit(1)], true)
    else
      var t := TeamsRun(codes, teams, feeds, w, updatedAt, w.post(status), cache[LeagueKey := fingerprint]);
      Outcome(t.cache, [Upload(description, true), Post(status, None, true), Set(LeagueKey, fingerprint)]
                       + t.trace + (if t.halted then [] else [Exit(0)]), true)
  }

  /** The league status is the fourth effect; every later post replies to the status it created. */
  ghost predicate ThreadedUnderLeague(trace: seq<Effect>, w: World) {
    forall j :: 0 <= j < |trace| && trace[j].Post? ==>
      || (j == 3 && trace[j].replyTo.None?)
      || (j > 3 && trace[3].Post? && trace[j].replyTo == w.post(trace[3].status))
  }

  lemma ExitOnlyWellFormed(cache: Cache, code: int)
    ensures WellFormed(Outcome(cache, [Exit(code)], true), cache)
  {
    ReplayWithoutWrites(cache, [Exit(code)]);
  }

  /** The properties `RunWellFormed` promises of a whole run's outcome. */
  ghost predicate RunProperties(o: Outcome, cache: Cache, w: World) {
    && ExitsOnceAtEnd(o.trace)
    && o.cache == Replay(cache, o.trace)
    && WritesFollowPosts(o.trace)
    && PostsFollowUploads(o.trace)
    && FailuresExit(o.trace)
    && ThreadedUnderLeague(o.trace, w)
  }

  /** The runs that stop before the team loop leave the cache alone and keep every property. */
  lemma EarlyStopProperties(cache: Cache, trace: seq<Effect>, w: World, description: string, status: string)
    requires || trace == [Exit(1)]
             || trace == [FetchOdds, Exit(1)]
             || trace == [FetchOdds, Exit(0)]
             || trace == [FetchOdds, FetchStandings, Exit(1)]
             || trace == [FetchOdds, FetchStandings, Upload(description, false), Exit(1)]
             || trace == [FetchOdds, FetchStandings, Upload(description, true), Post(status, None, false), Exit(1)]
    ensures RunProperties(Outcome(cache, trace, true), cache, w)
  {
    ReplayWithoutWrites(cache, trace);
  }

  lemma ClearRunProperties(cache: Cache, teams: seq<Team>, w: World)
    ensures var trace := Deletes(ClearKeys(teams)) + [Exit(0)];
            RunProperties(Outcome(Replay(cache, trace), trace, true), cache, w)
  {
    var trace := Deletes(ClearKeys(teams)) + [Exit(0)];
    assert forall i :: 0 <= i < |trace| - 1 ==> trace[i].Del?;
  }

  /** The league effects, then a well-formed team loop replying to the league status, then exit 0 unless it exited. */
  lemma LeagueThenTeamsProperties(cache: Cache, w: World, description: string, status: string, fingerprint: Stored,
                                  t: Outcome)
    requires w.post(status).Some?
    requires WellFormed(t, cache[LeagueKey := fingerprint]) && RepliesTo(t.trace, w.post(status))
    ensures var league := [FetchOdds, FetchStandings, Upload(description, true), Post(status, None, true),
                           Set(LeagueKey, fingerprint)];
            RunProperties(Outcome(t.cache, league + t.trace + (if t.halted then [] else [Exit(0)]), true), cache, w)
  {
    var league := [FetchOdds, FetchStandings, Upload(description, true), Post(status, None, true),
                   Set(LeagueKey, fingerprint)];
    var c1 := cache[LeagueKey := fingerprint];
    assert league[..4] == [FetchOdds, FetchStandings, Upload(description, true), Post(status, None, true)];
    ReplayWithoutWrites(cache, league[..4]);
    var a := Outcome(c1, league, false);
    assert WellFormed(a, cache);
    WellFormedAppend(a, t, cache);
    var b := Outcome(t.cache, league + t.trace, t.halted);
    var whole := league + t.trace + (if t.halted then [] else [Exit(0)]);
    if !t.halted {
      ExitOnlyWellFormed(t.cache, 0);
      WellFormedAppend(b, Outcome(t.cache, [Exit(0)], true), cache);
    } else {
      assert whole == league + t.trace;
    }
    forall j | 0 <= j < |whole| && whole[j].Post?
      ensures || (j == 3 && whole[j].replyTo.None?)
              || (j > 3 && whole[3].Post? && whole[j].replyTo == w.post(whole[3].status))
    {
      assert whole[3] == Post(status, None, true);
      if 5 <= j < 5 + |t.trace| {
        assert whole[j] == t.trace[j - 5];
      }
    }
  }

  /** The outcome of a run that publishes the league post. */
  lemma PublishedRunShape(config: Config, teams: seq<Team>, w: World, cache: Cache, feeds: Feeds,
                          updatedAt: string, description: string, status: string)
    requires Configured(config) && |TeamList(teams, config.teamCode)| > 0 && !config.clearCache
    requires w.feeds == Some(feeds) && w.standings.Some?
    requires !Holds(cache, LeagueKey, LeagueOdds(feeds.moneyPuckOdds, feeds.sportsClubStatsOdds))
    requires updatedAt == w.formatDate(Max(feeds.sportsClubStatsLastUpdate, feeds.moneyPuckLastUpdate))
    requires description == LeagueDescription(w.standings.value, feeds, updatedAt, w.nf)
    requires status == LeagueStatus(teams, feeds)
    requires w.uploadOk(description) && w.post(status).Some?
    ensures var fingerprint := LeagueOdds(feeds.moneyPuckOdds, feeds.sportsClubStatsOdds);
            var t := TeamsRun(TeamList(teams, config.teamCode), teams, feeds, w, updatedAt, w.post(status),
                              cache[LeagueKey := fingerprint]);
            Run(config, teams, w, cache)
            == Outcome(t.cache, [FetchOdds, FetchStandings, Upload(description, true), Post(status, None, true),
                                 Set(LeagueKey, fingerprint)] + t.trace + (if t.halted then [] else [Exit(0)]), true)
  {
    var fingerprint := LeagueOdds(feeds.moneyPuckOdds, feeds.sportsClubStatsOdds);
    var t := TeamsRun(TeamList(teams, config.teamCode), teams, feeds, w, updatedAt, w.post(status),
                      cache[LeagueKey := fingerprint]);
    var tail := if t.halted then [] else [Exit(0)];
    assert [FetchOdds, FetchStandings]
             + ([Upload(description, true), Post(status, None, true), Set(LeagueKey, fingerprint)] + t.trace + tail)
           == [FetchOdds, FetchStandings, Upload(description, true), Post(status, None, true),
               Set(LeagueKey, fingerprint)] + t.trace + tail;
  }

  lemma FetchedRunProperties(config: Config, teams: seq<Team>, w: World, cache: Cache, feeds: Feeds)
    requires Configured(config) && |TeamList(teams, config.teamCode)| > 0 && !config.clearCache
    requires w.feeds == Some(feeds)
    ensures RunProperties(Run(config, teams, w, cache), cache, w)
  {
    var fingerprint := LeagueOdds(feeds.moneyPuckOdds, feeds.sportsClubStatsOdds);
    var updatedAt := w.formatDate(Max(feeds.sportsClubStatsLastUpdate, feeds.moneyPuckLastUpdate));
    var status := LeagueStatus(teams, feeds);
    if Holds(cache, LeagueKey, fingerprint) || w.standings.None? {
      EarlyStopProperties(cache, Run(config, teams, w, cache).trace, w, "", "");
    } else {
      var description := LeagueDescription(w.standings.value, feeds, updatedAt, w.nf);
      if !w.uploadOk(description) || w.post(status).None? {
        EarlyStopProperties(cache, Run(config, teams, w, cache).trace, w, description, status);
      } else {
        var codes := TeamList(teams, config.teamCode);
        PublishedRunShape(config, teams, w, cache, feeds, updatedAt, description, status);
        TeamsRunWellFormed(codes, teams, feeds, w, updatedAt, w.post(status), cache[LeagueKey := fingerprint]);
        LeagueThenTeamsProperties(cache, w, description, status, fingerprint,
                                  TeamsRun(codes, teams, feeds, w, updatedAt, w.post(status), cache[LeagueKey := fingerprint]));
      }
    }
  }

  /**
   * Every run ends with exactly one exit; its cache is its deletes and writes
   * replayed on the initial cache; every write follows a successful post,
   * every post a successful upload, every failure is followed by exit 1; and
   * the team posts form a thread under the league status.
   */
  lemma RunWellFormed(config: Config, teams: seq<Team>, w: World, cache: Cache)
    ensures RunProperties(Run(config, teams, w, cache), cache, w)
  {
    if !Configured(config) || |TeamList(teams, config.teamCode)| == 0 {
      EarlyStopProperties(cache, [Exit(1)], w, "", "");
    } else if config.clearCache {
      ClearRunProperties(cache, teams, w);
    } else if w.feeds.None? {
      EarlyStopProperties(cache, [FetchOdds, Exit(1)], w, "", "");
    } else {
      FetchedRunProperties(config, teams, w, cache, w.feeds.value);
    }
  }

  /**
   * Running again with the same feeds after a run that exited 0 without
   * clearing: the league fingerprint is cached, so the second run fetches
   * the odds and exits 0, publishing nothing and leaving the cache alone.
   */
  lemma RerunPublishesNothing(config: Config, teams: seq<Team>, w: World, cache: Cache)
    requires forall i :: 0 <= i < |teams| ==> teams[i].abbreviation != "league"
    requires !config.clearCache
    requires Run(config, teams, w, cache).trace[|Run(config, teams, w, cache).trace| - 1] == Exit(0)
    ensures var after := Run(config, teams, w, cache).cache;
            Run(config, teams, w, after) == Outcome(after, [FetchOdds, Exit(0)], true)
  {
    var codes := TeamList(teams, config.teamCode);
    if Configured(config) && |codes| > 0 && w.feeds.Some? {
      var feeds := w.feeds.value;
      var fingerprint := LeagueOdds(feeds.moneyPuckOdds, feeds.sportsClubStatsOdds);
      var updatedAt := w.formatDate(Max(feeds.sportsClubStatsLastUpdate, feeds.moneyPuckLastUpdate));
      var status := LeagueStatus(teams, feeds);
      if !Holds(cache, LeagueKey, fingerprint) && w.standings.Some? {
        var description := LeagueDescription(w.standings.value, feeds, updatedAt, w.nf);
        if w.uploadOk(description) && w.post(status).Some? {
          PublishedRunShape(config, teams, w, cache, feeds, updatedAt, description, status);
          TeamsRunKeepsLeagueKey(codes, teams, feeds, w, updatedAt, w.post(status), cache[LeagueKey := fingerprint]);
        }
      }
    }
  }

  /** A team loop that stops does so on a failure, with exit code 1. */
  lemma {:induction false} TeamsRunFailsWithExitOne(codes: seq<string>, teams: seq<Team>, feeds: Feeds, w: World,
                                                    updatedAt: string, thread: Option<string>, cache: Cache)
    ensures var o := TeamsRun(codes, teams, feeds, w, updatedAt, thread, cache);
            o.halted ==> |o.trace| > 0 && o.trace[|o.trace| - 1] == Exit(1)
  {
    if |codes| > 0 {
      TeamsRunFailsWithExitOne(codes[..|codes| - 1], teams, feeds, w, updatedAt, thread, cache);
    }
  }

  /**
   * As written, the league fingerprint is stored before the team loop. When a
   * team's upload or post then fails, the run exits 1, yet a second run on the
   * same odds stops at the fingerprint check and never reaches that team.
   */
  lemma TeamFailureIsNotRetried(config: Config, teams: seq<Team>, w: World, cache: Cache, feeds: Feeds)
    requires forall i :: 0 <= i < |teams| ==> teams[i].abbreviation != "league"
    requires Configured(config) && |TeamList(teams, config.teamCode)| > 0 && !config.clearCache
    requires w.feeds == Some(feeds) && w.standings.Some?
    requires !Holds(cache, LeagueKey, LeagueOdds(feeds.moneyPuckOdds, feeds.sportsClubStatsOdds))
    requires var updatedAt := w.formatDate(Max(feeds.sportsClubStatsLastUpdate, feeds.moneyPuckLastUpdate));
             var status := LeagueStatus(teams, feeds);
             && w.uploadOk(LeagueDescription(w.standings.value, feeds, updatedAt, w.nf))
             && w.post(status).Some?
             && TeamsRun(TeamList(teams, config.teamCode), teams, feeds, w, updatedAt, w.post(status),
                         cache[LeagueKey := LeagueOdds(feeds.moneyPuckOdds, feeds.sportsClubStatsOdds)]).halted
    ensures var first := Run(config, teams, w, cache);
            && first.trace[|first.trace| - 1] == Exit(1)
            && Run(config, teams, w, first.cache) == Outcome(first.cache, [FetchOdds, Exit(0)], true)
  {
    var fingerprint := LeagueOdds(feeds.moneyPuckOdds, feeds.sportsClubStatsOdds);
    var updatedAt := w.formatDate(Max(feeds.sportsClubStatsLastUpdate, feeds.moneyPuckLastUpdate));
    var description := LeagueDescription(w.standings.value, feeds, updatedAt, w.nf);
    var status := LeagueStatus(teams, feeds);
    var codes := TeamList(teams, config.teamCode);
    PublishedRunShape(config, teams, w, cache, feeds, updatedAt, description, status);
    TeamsRunKeepsLeagueKey(codes, teams, feeds, w, updatedAt, w.post(status), cache[LeagueKey := fingerprint]);
    TeamsRunFailsWithExitOne(codes, teams, feeds, w, updatedAt, w.post(status), cache[LeagueKey := fingerprint]);
  }

  /**
   * The publishing step with the league fingerprint stored only after every
   * team has gone through, so that a run a team cut short is retried.
   */
  function PublishRunRetrying(codes: seq<string>, teams: seq<Team>, w: World, feeds: Feeds,
                              standings: seq<Standings.Standing>, cache: Cache): Outcome
  {
    var fingerprint := LeagueOdds(feeds.moneyPuckOdds, feeds.sportsClubStatsOdds);
    var updatedAt := w.formatDate(Max(feeds.sportsClubStatsLastUpdate, feeds.moneyPuckLastUpdate));
    var description := LeagueDescription(standings, feeds, updatedAt, w.nf);
    var status := LeagueStatus(teams, feeds);
    if !w.uploadOk(description) then
      Outcome(cache, [Upload(description, false), Exit(1)], true)
    else if w.post(status).None? then
      Outcome(cache, [Upload(description, true), Post(status, None, false), Exit(1)], true)
    else
      var t := TeamsRun(codes, teams, feeds, w, updatedAt, w.post(status), cache);
      var league := [Upload(description, true), Post(status, None, true)];
      if t.halted then Outcome(t.cache, league + t.trace, true)
      else Outcome(t.cache[LeagueKey := fingerprint], league + t.trace + [Set(LeagueKey, fingerprint), Exit(0)], true)
  }

  /** The fetching step in front of PublishRunRetrying. */
  function FetchRunRetrying(codes: seq<string>, teams: seq<Team>, w: World, cache: Cache): Outcome {
    match w.feeds
    case None => Outcome(cache, [FetchOdds, Exit(1)], true)
    case Some(feeds) =>
      if Holds(cache, LeagueKey, LeagueOdds(feeds.moneyPuckOdds, feeds.sportsClubStatsOdds)) then
        Outcome(cache, [FetchOdds, Exit(0)], true)
      else
        match w.standings
        case None => Outcome(cache, [FetchOdds, FetchStandings, Exit(1)], true)
        case Some(standings) =>
          var p := PublishRunRetrying(codes, teams, w, feeds, standings, cache);
          Outcome(p.cache, [FetchOdds, FetchStandings] + p.trace, true)
  }

  /**
   * With the fingerprint stored last, a run that exits 1 leaves the league
   * fingerprint unstored, so a second run on the same odds publishes again; a
   * run that exits 0 stores it, so a second run stops at once.
   */
  lemma FailedRunIsRetried(codes: seq<string>, teams: seq<Team>, w: World, cache: Cache, feeds: Feeds)
    requires forall i :: 0 <= i < |teams| ==> teams[i].abbreviation != "league"
    requires w.feeds == Some(feeds) && w.standings.Some?
    requires !Holds(cache, LeagueKey, LeagueOdds(feeds.moneyPuckOdds, feeds.sportsClubStatsOdds))
    ensures var first := FetchRunRetrying(codes, teams, w, cache);
            && |first.trace| > 2
            && (first.trace[|first.trace| - 1] == Exit(1) ==>
                  FetchRunRetrying(codes, teams, w, first.cache).trace[..2] == [FetchOdds, FetchStandings])
            && (first.trace[|first.trace| - 1] == Exit(0) ==>
                  FetchRunRetrying(codes, teams, w, first.cache) == Outcome(first.cache, [FetchOdds, Exit(0)], true))
  {
    var fingerprint := LeagueOdds(feeds.moneyPuckOdds, feeds.sportsClubStatsOdds);
    var updatedAt := w.formatDate(Max(feeds.sportsClubStatsLastUpdate, feeds.moneyPuckLastUpdate));
    var status := LeagueStatus(teams, feeds);
    var p := PublishRunRetrying(codes, teams, w, feeds, w.standings.value, cache);
    if w.uploadOk(LeagueDescription(w.standings.value, feeds, updatedAt, w.nf)) && w.post(status).Some? {
      var t := TeamsRun(codes, teams, feeds, w, updatedAt, w.post(status), cache);
      TeamsRunKeepsLeagueKey(codes, teams, feeds, w, updatedAt, w.post(status), cache);
      TeamsRunFailsWithExitOne(codes, teams, feeds, w, updatedAt, w.post(status), cache);
      if t.halted {
        assert !Holds(p.cache, LeagueKey, fingerprint);
      } else {
        assert Holds(p.cache, LeagueKey, fingerprint);
      }
    }
  }

  /** `--cache:clear` removes exactly the league key and every team's key and publishes nothing. */
  lemma ClearCacheRemovesKeys(config: Config, teams: seq<Team>, w: World, cache: Cache)
    requires Configured(config) && |TeamList(teams, config.teamCode)| > 0 && config.clearCache
    ensures Run(config, teams, w, cache).cache == Without(cache, ClearKeys(teams))
    ensures forall i :: 0 <= i < |Run(config, teams, w, cache).trace| - 1 ==> Run(config, teams, w, cache).trace[i].Del?
  {
    var trace := Deletes(ClearKeys(teams)) + [Exit(0)];
    ReplayAppend(cache, Deletes(ClearKeys(teams)), [Exit(0)]);
    ReplayWithoutWrites(Replay(cache, Deletes(ClearKeys(teams))), [Exit(0)]);
    ReplayDeletes(cache, ClearKeys(teams));
  }

  // ---------------------------------------------------------------------
  // The script on mutable state

  /** The script's state: the key-value store and the effects performed so far. */
  class Bot {
    var cache: Cache
    var trace: seq<Effect>

    constructor (initial: Cache)
      ensures cache == initial && trace == []
    {
      cache := initial;
      trace := [];
    }

    /** The `--cache:clear` deletes, one key at a time. */
    method ClearCache(teams: seq<Team>)
      modifies this
      ensures trace == old(trace) + Deletes(ClearKeys(teams))
      ensures cache == Without(old(cache), ClearKeys(teams))
    {
      var keys := ClearKeys(teams);
      var i := 0;
      while i < |keys|
        invariant 0 <= i <= |keys|
        invariant trace == old(trace) + Deletes(keys[..i])
        invariant cache == Without(old(cache), keys[..i])
      {
        assert keys[..i + 1][..i] == keys[..i];
        assert Deletes(keys[..i + 1]) == Deletes(keys[..i]) + [Del(keys[i])];
        cache := cache - {keys[i]};
        trace := trace + [Del(keys[i])];
        i := i + 1;
      }
      assert keys[..i] == keys;
    }

    /** The caption lines, appended team by team in the given order. */
    static method BuildCaption(ordered: seq<Standings.Standing>, feeds: Feeds, nf: Text.NumberFormat)
      returns (caption: string)
      ensures caption == CaptionLines(ordered, feeds, nf)
    {
      caption := "";
      var i := 0;
      while i < |ordered|
        invariant 0 <= i <= |ordered|
        invariant caption == CaptionLines(ordered[..i], feeds, nf)
      {
        ghost var before := caption;
        var team := ordered[i];
        caption := caption + CaptionMoneyPuck(team, feeds, nf);
        caption := caption + CaptionSportsClubStats(team, feeds, nf);
        assert caption == before + CaptionLine(team, feeds, nf);
        assert ordered[..i + 1][..i] == ordered[..i];
        i := i + 1;
      }
      assert ordered[..i] == ordered;
    }

    /**
     * `postLeagueOdds`: draws the league image, builds the caption over the
     * sorted standings, uploads, posts the status; an upload or post failure
     * exits 1. Returns the new status id, `None` when the run exited.
     */
    method PostLeagueOdds(teams: seq<Team>, standings: seq<Standings.Standing>, feeds: Feeds, updatedAt: string,
                          w: World)
      returns (thread: Option<string>)
      modifies this
      ensures cache == old(cache)
      ensures var description := LeagueDescription(standings, feeds, updatedAt, w.nf);
              var status := LeagueStatus(teams, feeds);
              && thread == (if w.uploadOk(description) then w.post(status) else None)
              && trace == old(trace) + (if !w.uploadOk(description) then [Upload(description, false), Exit(1)]
                                        else if w.post(status).None? then
                                          [Upload(description, true), Post(status, None, false), Exit(1)]
                                        else [Upload(description, true), Post(status, None, true)])
    {
      // The uploaded picture is PureImage.GenerateLeaguePlayoffOddsImage's; an Upload effect records only its description.
      var description := BuildCaption(Standings.SortByKey(standings), feeds, w.nf);
      description := description + "\nUpdated: " + updatedAt;
      var status := "#nhl " + JoinHashtags(HashtagTeams(teams, feeds));
      if !w.uploadOk(description) {
        trace := trace + [Upload(description, false), Exit(1)];
        return None;
      }
      thread := w.post(status);
      if thread.None? {
        trace := trace + [Upload(description, true), Post(status, None, false), Exit(1)];
        return;
      }
      trace := trace + [Upload(description, true), Post(status, None, true)];
    }

    /**
     * The checks of `postTeamOdds` that precede the network: the team lookup,
     * freshness, the cached fingerprint, the zero odds; then the status text.
     */
    method DecideTeamOdds(teams: seq<Team>, teamCode: string, feeds: Feeds, w: World, updatedAt: string)
      returns (step: TeamStep)
      ensures step == DecideTeam(teams, teamCode, feeds, cache, w.now, updatedAt, w.nf)
    {
      var found := FindTeam(teams, Text.Upper(teamCode));
      if found.None? {
        return InvalidTeam;
      }
      var team := found.value;
      var showScs := Fresh(w.now, feeds.sportsClubStatsLastUpdate, FreshDays);
      var showMp := Fresh(w.now, feeds.moneyPuckLastUpdate, FreshDays);
      if !showScs && !showMp {
        return NoRecentOdds;
      }
      var scs := Lookup(feeds.sportsClubStatsOdds, team.abbreviation);
      var mp := Lookup(feeds.moneyPuckOdds, team.abbreviation);
      var newOdds := TeamOdds(scs, mp);
      if Holds(cache, Key(team.abbreviation), newOdds) {
        return Unchanged;
      }
      if Below(scs) && Below(mp) {
        return OddsZero;
      }
      var message := BuildTeamMessage(team, showMp, showScs, mp, scs, w.nf);
      var card := PureImage.TeamPlayoffOddsCard(team.name, if showMp then mp else None,
                                                if showScs then scs else None, updatedAt, w.nf);
      step := Publish(Key(team.abbreviation), newOdds, message, message + "\n\nUpdated " + updatedAt, card);
    }

    /** The status text, appended piece by piece. */
    static method BuildTeamMessage(team: Team, showMoneyPuck: bool, showSportsClubStats: bool,
                                   moneyPuckOdds: Option<real>, sportsClubStatsOdds: Option<real>, nf: Text.NumberFormat)
      returns (message: string)
      ensures message == TeamMessage(team, showMoneyPuck, showSportsClubStats, moneyPuckOdds, sportsClubStatsOdds, nf)
    {
      message := TeamHeading(team);
      message := message + (if showMoneyPuck then MoneyPuckLine(moneyPuckOdds, nf) else "");
      message := message + (if showSportsClubStats then SportsClubStatsLine(sportsClubStatsOdds, nf) else "");
      message := message + TeamHashtags(team);
    }

    /** The network half of `postTeamOdds`: upload, post in the thread, then the fingerprint write. */
    method PerformTeamStep(step: TeamStep, w: World, thread: Option<string>) returns (halted: bool)
      modifies this
      ensures var o := TeamEffects(step, old(cache), w, thread);
              cache == o.cache && trace == old(trace) + o.trace && halted == o.halted
    {
      match step {
        case InvalidTeam =>
          trace := trace + [Exit(1)];
          return true;
        case Publish(key, fingerprint, message, description, _) =>
          if !w.uploadOk(description) {
            trace := trace + [Upload(description, false), Exit(1)];
            return true;
          }
          if w.post(message).None? {
            trace := trace + [Upload(description, true), Post(message, thread, false), Exit(1)];
            return true;
          }
          cache := cache[key := fingerprint];
          trace := trace + [Upload(description, true), Post(message, thread, true), Set(key, fingerprint)];
          return false;
        case _ =>
          return false;
      }
    }

    /** `postTeamOdds` for one code: returns whether the run exited. */
    method PostTeamOdds(teams: seq<Team>, teamCode: string, feeds: Feeds, w: World, updatedAt: string,
                        thread: Option<string>)
      returns (halted: bool)
      modifies this
      ensures var o := TeamEffects(DecideTeam(teams, teamCode, feeds, old(cache), w.now, updatedAt, w.nf),
                                   old(cache), w, thread);
              cache == o.cache && trace == old(trace) + o.trace && halted == o.halted
    {
      var step := DecideTeamOdds(teams, teamCode, feeds, w, updatedAt);
      halted := PerformTeamStep(step, w, thread);
    }

    /** One iteration of the team loop: the loop's state after code `i` is that of `TeamsRun` on one more code. */
    method PostNextTeam(codes: seq<string>, i: nat, teams: seq<Team>, feeds: Feeds, w: World, updatedAt: string,
                        thread: Option<string>, ghost start: Cache, ghost base: seq<Effect>)
      returns (halted: bool)
      modifies this
      requires i < |codes|
      requires var r := TeamsRun(codes[..i], teams, feeds, w, updatedAt, thread, start);
               cache == r.cache && trace == base + r.trace && !r.halted
      ensures var r := TeamsRun(codes[..i + 1], teams, feeds, w, updatedAt, thread, start);
              cache == r.cache && trace == base + r.trace && halted == r.halted
    {
      ghost var r := TeamsRun(codes[..i], teams, feeds, w, updatedAt, thread, start);
      TeamsRunStep(codes, i, teams, feeds, w, updatedAt, thread, start);
      ghost var before := trace;
      halted := PostTeamOdds(teams, codes[i], feeds, w, updatedAt, thread);
      AppendAssociative(base, r.trace, trace[|before|..]);
    }

    /** The `for await` loop over the team codes, stopping at the first exit. */
    method PostTeams(codes: seq<string>, teams: seq<Team>, feeds: Feeds, w: World, updatedAt: string,
                     thread: Option<string>)
      returns (halted: bool)
      modifies this
      ensures var r := TeamsRun(codes, teams, feeds, w, updatedAt, thread, old(cache));
              cache == r.cache && trace == old(trace) + r.trace && halted == r.halted
    {
      ghost var c0 := cache;
      ghost var t0 := trace;
      var i := 0;
      halted := false;
      while i < |codes| && !halted
        invariant 0 <= i <= |codes|
        invariant var r := TeamsRun(codes[..i], teams, feeds, w, updatedAt, thread, c0);
                  cache == r.cache && trace == old(trace) + r.trace && halted == r.halted
      {
        halted := PostNextTeam(codes, i, teams, feeds, w, updatedAt, thread, c0, t0);
        i := i + 1;
      }
      if halted {
        TeamsRunStopsAtExit(codes, i, teams, feeds, w, updatedAt, thread, c0);
      } else {
        assert codes[..i] == codes;
      }
    }

    /** `PublishRun` on the state: the league post, the league write, then the team loop. */
    method PublishAll(codes: seq<string>, teams: seq<Team>, w: World, feeds: Feeds,
                      standings: seq<Standings.Standing>)
      modifies this
      ensures var o := PublishRun(codes, teams, w, feeds, standings, old(cache));
              cache == o.cache && trace == old(trace) + o.trace
    {
      var fingerprint := LeagueOdds(feeds.moneyPuckOdds, feeds.sportsClubStatsOdds);
      var updatedAt := w.formatDate(Max(feeds.sportsClubStatsLastUpdate, feeds.moneyPuckLastUpdate));
      var thread := PostLeagueOdds(teams, standings, feeds, updatedAt, w);
      if thread.None? {
        return;
      }
      cache := cache[LeagueKey := fingerprint];
      trace := trace + [Set(LeagueKey, fingerprint)];
      ghost var league := [Upload(LeagueDescription(standings, feeds, updatedAt, w.nf), true),
                           Post(LeagueStatus(teams, feeds), None, true), Set(LeagueKey, fingerprint)];
      assert trace == old(trace) + league;
      ghost var c1 := cache;
      var halted := PostTeams(codes, teams, feeds, w, updatedAt, thread);
      ghost var t := TeamsRun(codes, teams, feeds, w, updatedAt, thread, c1);
      AppendAssociative(old(trace), league, t.trace);
      if !halted {
        trace := trace + [Exit(0)];
        AppendAssociative(old(trace), league + t.trace, [Exit(0)]);
      } else {
        assert league + t.trace + [] == league + t.trace;
      }
    }

    /** `FetchRun` on the state. */
    method FetchAndPublish(codes: seq<string>, teams: seq<Team>, w: World)
      modifies this
      ensures var o := FetchRun(codes, teams, w, old(cache));
              cache == o.cache && trace == old(trace) + o.trace
    {
      if w.feeds.None? {
        trace := trace + [FetchOdds, Exit(1)];
        return;
      }
      var feeds := w.feeds.value;
      if Holds(cache, LeagueKey, LeagueOdds(feeds.moneyPuckOdds, feeds.sportsClubStatsOdds)) {
        trace := trace + [FetchOdds, Exit(0)];
        return;
      }
      if w.standings.None? {
        trace := trace + [FetchOdds, FetchStandings, Exit(1)];
        return;
      }
      ghost var p := PublishRun(codes, teams, w, feeds, w.standings.value, cache);
      trace := trace + [FetchOdds, FetchStandings];
      PublishAll(codes, teams, w, feeds, w.standings.value);
      AppendAssociative(old(trace), [FetchOdds, FetchStandings], p.trace);
    }

    /** The whole run, from the configuration checks to the exit. */
    method Execute(config: Config, teams: seq<Team>, w: World)
      modifies this
      ensures var o := Run(config, teams, w, old(cache));
              cache == o.cache && trace == old(trace) + o.trace
    {
      if !Configured(config) {
        trace := trace + [Exit(1)];
        return;
      }
      var codes := TeamList(teams, config.teamCode);
      if |codes| == 0 {
        trace := trace + [Exit(1)];
        return;
      }
      if config.clearCache {
        ClearCacheRemovesKeys(config, teams, w, cache);
        ClearCache(teams);
        trace := trace + [Exit(0)];
        return;
      }
      FetchAndPublish(codes, teams, w);
    }
  }
}
