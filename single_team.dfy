/**
 * The older single-team script (index.js): one team named by `TEAM_NAME` and
 * `TEAM_CODE`, a plain-text status without media, and the status text itself
 * as the cached fingerprint.
 */
module SingleTeam {
  import opened Wrappers
  import opened Effects
  import SportsClubStats
  import Text

  /**
   * The environment (`TEAM_NAME`, `TEAM_CODE`, `REDIS_URL`,
   * `MASTODON_BASE_URL`, `MASTODON_TOKEN`, "" when unset) and whether
   * `--cache:clear` was passed.
   */
  datatype Config = Config(teamName: string, teamCode: string, redisUrl: string, mastodonBaseUrl: string,
                           mastodonToken: string, clearCache: bool)

  /**
   * The four provider answers: the Sports Club Stats feed and its sample time,
   * the MoneyPuck figure for the team and its sample time (milliseconds).
   */
  datatype Fetched = Fetched(sportsClubStatsFeed: SportsClubStats.Feed, sportsClubStatsLastUpdate: int,
                             moneyPuckOdds: real, moneyPuckLastUpdate: int)

  /**
   * What the run observes: the clock, the provider answers (`None` when a
   * request throws), whether posting a given text succeeds, and `toFixed(1)`.
   */
  datatype World = World(now: int, fetched: Option<Fetched>, postOk: string -> bool, toFixed1: real -> string)

  /** Here a provider's line is shown while its sample is less than this many whole days old. */
  const FreshDays := 3

  predicate Configured(config: Config) {
    && config.teamName != "" && config.teamCode != "" && config.redisUrl != ""
    && config.mastodonBaseUrl != "" && config.mastodonToken != ""
  }

  function Heading(teamName: string): string {
    "Update on playoff chances for the " + teamName + ":\n\n"
  }

  function SportsClubStatsLine(odds: real, toFixed1: real -> string): string {
    "SportsClubStats: " + toFixed1(odds) + "%\n"
  }

  function MoneyPuckLine(odds: real, toFixed1: real -> string): string {
    "MoneyPuck: " + toFixed1(odds) + "%"
  }

  /**
   * The status text: the heading, the Sports Club Stats line when that sample
   * is fresh, then the MoneyPuck line when that one is. `None` when the Sports
   * Club Stats line would format a missing figure (`toFixed` on `undefined` throws).
   */
  function StatusText(teamName: string, showSportsClubStats: bool, showMoneyPuck: bool,
                      sportsClubStatsOdds: Option<real>, moneyPuckOdds: real, toFixed1: real -> string): (r: Option<string>)
    ensures r.None? <==> showSportsClubStats && sportsClubStatsOdds.None?
    ensures r.Some? && !showSportsClubStats && !showMoneyPuck ==> r.value == Heading(teamName)
    ensures r.Some? && showSportsClubStats && !showMoneyPuck ==>
              r.value == Heading(teamName) + SportsClubStatsLine(sportsClubStatsOdds.value, toFixed1)
    ensures r.Some? && !showSportsClubStats && showMoneyPuck ==>
              r.value == Heading(teamName) + MoneyPuckLine(moneyPuckOdds, toFixed1)
    ensures r.Some? && showSportsClubStats && showMoneyPuck ==>
              r.value == Heading(teamName) + SportsClubStatsLine(sportsClubStatsOdds.value, toFixed1)
                         + MoneyPuckLine(moneyPuckOdds, toFixed1)
    ensures r.Some? ==> Text.StartsWith(r.value, Heading(teamName))
  {
    if showSportsClubStats && sportsClubStatsOdds.None? then None
    else
      var h := Heading(teamName);
      var scs := if showSportsClubStats then SportsClubStatsLine(sportsClubStatsOdds.value, toFixed1) else "";
      var mp := if showMoneyPuck then MoneyPuckLine(moneyPuckOdds, toFixed1) else "";
      Text.ConcatParts(h, scs, mp, "");
      Some(h + scs + mp)
  }

  /**
   * The run: configuration check (exit 1); `--cache:clear` deletes the team's
   * key and exits 0; the provider requests and the team lookup (exit 1 on a
   * failure); the text; exit 0 when it equals the cached text; the post (exit
   * 1 on failure); the text written to the cache; exit 0.
   */
  function Run(config: Config, w: World, cache: Cache): (o: Outcome)
    ensures o.halted && |o.trace| > 0
    ensures !Configured(config) ==> o == Outcome(cache, [Exit(1)], true)
    ensures Configured(config) && config.clearCache ==>
              o == Outcome(cache - {Key(config.teamCode)}, [Del(Key(config.teamCode)), Exit(0)], true)
    ensures Configured(config) && !config.clearCache ==> o.trace[0] == FetchOdds
  {
    if !Configured(config) then Outcome(cache, [Exit(1)], true)
    else if config.clearCache then
      Outcome(cache - {Key(config.teamCode)}, [Del(Key(config.teamCode)), Exit(0)], true)
    else
      match w.fetched
      case None => Outcome(cache, [FetchOdds, Exit(1)], true)
      case Some(f) =>
        match SportsClubStats.TeamOdds(f.sportsClubStatsFeed, config.teamName)
        case Failure(_) => Outcome(cache, [FetchOdds, Exit(1)], true)
        case Success(scs) =>
          var text := StatusText(config.teamName, Fresh(w.now, f.sportsClubStatsLastUpdate, FreshDays),
                                 Fresh(w.now, f.moneyPuckLastUpdate, FreshDays), scs, f.moneyPuckOdds, w.toFixed1);
          if text.None? then Outcome(cache, [FetchOdds, Exit(1)], true)
          else PostRun(config.teamCode, text.value, w, cache)
  }

  /** Exit 0 when the cached text is this text; otherwise post, and write the text only after the post succeeds. */
  function PostRun(teamCode: string, text: string, w: World, cache: Cache): (o: Outcome)
    ensures Holds(cache, Key(teamCode), Message(text)) ==> o == Outcome(cache, [FetchOdds, Exit(0)], true)
    ensures !Holds(cache, Key(teamCode), Message(text)) && !w.postOk(text) ==>
              o == Outcome(cache, [FetchOdds, Post(text, None, false), Exit(1)], true)
    ensures !Holds(cache, Key(teamCode), Message(text)) && w.postOk(text) ==>
              o.cache == cache[Key(teamCode) := Message(text)]
              && o.trace == [FetchOdds, Post(text, None, true), Set(Key(teamCode), Message(text)), Exit(0)]
  {
    if Holds(cache, Key(teamCode), Message(text)) then Outcome(cache, [FetchOdds, Exit(0)], true)
    else if !w.postOk(text) then Outcome(cache, [FetchOdds, Post(text, None, false), Exit(1)], true)
    else
      Outcome(cache[Key(teamCode) := Message(text)],
              [FetchOdds, Post(text, None, true), Set(Key(teamCode), Message(text)), Exit(0)], true)
  }

  /**
   * Every run ends with exactly one exit; its cache is its deletes and writes
   * replayed; the one write follows the successful post, and a failed post
   * is followed by exit 1.
   */
  ghost predicate WellFormed(o: Outcome, start: Cache) {
    && ExitsOnceAtEnd(o.trace)
    && o.cache == Replay(start, o.trace)
    && WritesFollowPosts(o.trace)
    && FailuresExit(o.trace)
  }

  lemma ExitOnlyWellFormed(cache: Cache, code: int)
    ensures WellFormed(Outcome(cache, [Exit(code)], true), cache)
  {
    assert [Exit(code)][..0] == [];
  }

  lemma ClearWellFormed(cache: Cache, key: string)
    ensures WellFormed(Outcome(cache - {key}, [Del(key), Exit(0)], true), cache)
  {
    var t := [Del(key), Exit(0)];
    assert t[..1] == [Del(key)] && t[..1][..0] == [];
    assert Replay(cache, t[..1]) == cache - {key};
  }

  lemma FetchExitWellFormed(cache: Cache, code: int)
    ensures WellFormed(Outcome(cache, [FetchOdds, Exit(code)], true), cache)
  {
    var t := [FetchOdds, Exit(code)];
    assert t[..1] == [FetchOdds];
    ReplayWithoutWrites(cache, t);
  }

  lemma FailedPostWellFormed(cache: Cache, text: string)
    ensures WellFormed(Outcome(cache, [FetchOdds, Post(text, None, false), Exit(1)], true), cache)
  {
    var t := [FetchOdds, Post(text, None, false), Exit(1)];
    assert t[..2] == [FetchOdds, Post(text, None, false)];
    ReplayWithoutWrites(cache, t);
  }

  lemma PostedWellFormed(cache: Cache, key: string, text: string)
    ensures WellFormed(Outcome(cache[key := Message(text)],
                               [FetchOdds, Post(text, None, true), Set(key, Message(text)), Exit(0)], true), cache)
  {
    var t := [FetchOdds, Post(text, None, true), Set(key, Message(text)), Exit(0)];
    assert t[..3] == [FetchOdds, Post(text, None, true), Set(key, Message(text))];
    assert t[..3][..2] == [FetchOdds, Post(text, None, true)];
    ReplayWithoutWrites(cache, t[..3][..2]);
    assert Replay(cache, t[..3]) == cache[key := Message(text)];
  }

  lemma PostRunWellFormed(teamCode: string, text: string, w: World, cache: Cache)
    ensures WellFormed(PostRun(teamCode, text, w, cache), cache)
  {
    if Holds(cache, Key(teamCode), Message(text)) {
      FetchExitWellFormed(cache, 0);
    } else if !w.postOk(text) {
      FailedPostWellFormed(cache, text);
    } else {
      PostedWellFormed(cache, Key(teamCode), text);
    }
  }

  lemma RunWellFormed(config: Config, w: World, cache: Cache)
    ensures WellFormed(Run(config, w, cache), cache)
  {
    if !Configured(config) {
      ExitOnlyWellFormed(cache, 1);
    } else if config.clearCache {
      ClearWellFormed(cache, Key(config.teamCode));
    } else if w.fetched.None? {
      FetchExitWellFormed(cache, 1);
    } else {
      var f := w.fetched.value;
      var scs := SportsClubStats.TeamOdds(f.sportsClubStatsFeed, config.teamName);
      if scs.Failure? {
        FetchExitWellFormed(cache, 1);
      } else {
        var text := StatusText(config.teamName, Fresh(w.now, f.sportsClubStatsLastUpdate, FreshDays),
                               Fresh(w.now, f.moneyPuckLastUpdate, FreshDays), scs.value, f.moneyPuckOdds, w.toFixed1);
        if text.None? {
          FetchExitWellFormed(cache, 1);
        } else {
          PostRunWellFormed(config.teamCode, text.value, w, cache);
        }
      }
    }
  }

  /**
   * Running again with the same answers after a run that exited 0 without
   * clearing: the text is cached, so nothing is posted and the cache stays.
   */
  lemma RerunPostsNothing(config: Config, w: World, cache: Cache)
    requires !config.clearCache
    requires Run(config, w, cache).trace[|Run(config, w, cache).trace| - 1] == Exit(0)
    ensures var after := Run(config, w, cache).cache;
            Run(config, w, after) == Outcome(after, [FetchOdds, Exit(0)], true)
  {
  }

  /** The script's state: the key-value store and the effects performed so far. */
  class Script {
    var cache: Cache
    var trace: seq<Effect>

    constructor (initial: Cache)
      ensures cache == initial && trace == []
    {
      cache := initial;
      trace := [];
    }

    /** The status text, built with `+=` as the script does. */
    static method BuildText(teamName: string, showSportsClubStats: bool, showMoneyPuck: bool,
                            sportsClubStatsOdds: Option<real>, moneyPuckOdds: real, toFixed1: real -> string)
      returns (text: Option<string>)
      ensures text == StatusText(teamName, showSportsClubStats, showMoneyPuck, sportsClubStatsOdds, moneyPuckOdds, toFixed1)
    {
      var message := Heading(teamName);
      if showSportsClubStats && sportsClubStatsOdds.None? {
        return None;
      }
      message := message + (if showSportsClubStats then SportsClubStatsLine(sportsClubStatsOdds.value, toFixed1) else "");
      message := message + (if showMoneyPuck then MoneyPuckLine(moneyPuckOdds, toFixed1) else "");
      return Some(message);
    }

    /** The run on the state. */
    method Execute(config: Config, w: World)
      modifies this
      ensures var o := Run(config, w, old(cache));
              cache == o.cache && trace == old(trace) + o.trace
    {
      if !Configured(config) {
        trace := trace + [Exit(1)];
        return;
      }
      var key := Key(config.teamCode);
      if config.clearCache {
        cache := cache - {key};
        trace := trace + [Del(key), Exit(0)];
        return;
      }
      if w.fetched.None? {
        trace := trace + [FetchOdds, Exit(1)];
        return;
      }
      var f := w.fetched.value;
      var scs := SportsClubStats.TeamOdds(f.sportsClubStatsFeed, config.teamName);
      if scs.Failure? {
        trace := trace + [FetchOdds, Exit(1)];
        return;
      }
      var text := BuildText(config.teamName, Fresh(w.now, f.sportsClubStatsLastUpdate, FreshDays),
                            Fresh(w.now, f.moneyPuckLastUpdate, FreshDays), scs.value, f.moneyPuckOdds, w.toFixed1);
      if text.None? {
        trace := trace + [FetchOdds, Exit(1)];
        return;
      }
      var message := text.value;
      if Holds(cache, key, Message(message)) {
        trace := trace + [FetchOdds, Exit(0)];
        return;
      }
      if !w.postOk(message) {
        trace := trace + [FetchOdds, Post(message, None, false), Exit(1)];
        return;
      }
      trace := trace + [FetchOdds, Post(message, None, true)];
      cache := cache[key := Message(message)];
      trace := trace + [Set(key, Message(message)), Exit(0)];
    }
  }
}
