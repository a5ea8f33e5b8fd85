/**
 * What the two publication scripts share (src/index.js, index.js): the cache
 * keys and stored fingerprints, the freshness rule, and the effects a run
 * performs, recorded in order as a trace.
 */
module Effects {
  import opened Wrappers

  const DayMs := 86_400_000

  const KeyPrefix := "hockey-bot-odds-"

  /** `hockey-bot-odds-<scope>`. */
  function Key(scope: string): string {
    KeyPrefix + scope
  }

  const LeagueKey := Key("league")

  lemma KeyInjective(a: string, b: string)
    ensures Key(a) == Key(b) <==> a == b
  {
    if Key(a) == Key(b) {
      assert a == Key(a)[|KeyPrefix|..] && b == Key(b)[|KeyPrefix|..];
    }
  }

  /**
   * `dayjs().diff(ts, 'day')` on millisecond timestamps: whole days elapsed,
   * truncated toward zero (a timestamp in the future gives 0 or less).
   */
  function AgeInDays(now: int, ts: int): (r: int)
    ensures now >= ts ==> r >= 0 && r * DayMs <= now - ts < (r + 1) * DayMs
    ensures now < ts ==> r <= 0
  {
    var d := now - ts;
    if d >= 0 then d / DayMs else -((-d) / DayMs)
  }

  /** A provider's sample is shown when its whole-day age is below the threshold. */
  predicate Fresh(now: int, ts: int, thresholdDays: nat) {
    AgeInDays(now, ts) < thresholdDays
  }

  /** For a threshold of a day or more, fresh means less than threshold * 24 hours old. */
  lemma FreshWithinWindow(now: int, ts: int, thresholdDays: nat)
    requires thresholdDays >= 1
    ensures Fresh(now, ts, thresholdDays) <==> now - ts < thresholdDays * DayMs
  {
    var r := AgeInDays(now, ts);
    if now >= ts {
      if r < thresholdDays {
        assert (r + 1) * DayMs <= thresholdDays * DayMs;
      } else {
        assert thresholdDays * DayMs <= r * DayMs;
      }
    }
  }

  /**
   * A cached value. JSON.stringify of the league pair, of the team pair
   * (an `undefined` member is left out, so `None`), or a plain message: each
   * serialisation is modelled by the value it serialises, which makes it injective.
   */
  datatype Stored =
    | LeagueOdds(leagueMoneyPuck: map<string, real>, leagueSportsClubStats: map<string, real>)
    | TeamOdds(sportsClubStatsOdds: Option<real>, moneyPuckOdds: Option<real>)
    | Message(text: string)

  /** The key-value store. */
  type Cache = map<string, Stored>

  /** `(await redisClient.get(key)) === value`: a missing key reads `null`, which equals no string. */
  predicate Holds(cache: Cache, key: string, value: Stored) {
    key in cache && cache[key] == value
  }

  /**
   * The effects of a run: provider and standings requests, cache deletes and
   * writes, media uploads and status posts (each with its outcome; a post may
   * reply to an earlier status), and the process exit.
   */
  datatype Effect =
    | FetchOdds
    | FetchStandings
    | Del(key: string)
    | Upload(description: string, ok: bool)
    | Post(status: string, replyTo: Option<string>, ok: bool)
    | Set(key: string, value: Stored)
    | Exit(code: int)

  /** A stretch of a run: the cache after it, its effects, and whether it ended the process. */
  datatype Outcome = Outcome(cache: Cache, trace: seq<Effect>, halted: bool)

  /** The cache a trace leaves behind: its deletes and writes applied in order. */
  function Replay(cache: Cache, trace: seq<Effect>): Cache {
    if |trace| == 0 then cache
    else
      var c := Replay(cache, trace[..|trace| - 1]);
      match trace[|trace| - 1]
      case Del(k) => c - {k}
      case Set(k, v) => c[k := v]
      case _ => c
  }

  lemma {:induction false} ReplayAppend(cache: Cache, a: seq<Effect>, b: seq<Effect>)
    ensures Replay(cache, a + b) == Replay(Replay(cache, a), b)
  {
    if |b| > 0 {
      var b' := b[..|b| - 1];
      assert (a + b)[..|a + b| - 1] == a + b';
      ReplayAppend(cache, a, b');
    } else {
      assert a + b == a;
    }
  }

  lemma AppendAssociative(a: seq<Effect>, b: seq<Effect>, c: seq<Effect>)
    ensures a + b + c == a + (b + c)
  {
  }

  /** A trace without deletes or writes leaves the cache as it was. */
  lemma {:induction false} ReplayWithoutWrites(cache: Cache, trace: seq<Effect>)
    requires forall i :: 0 <= i < |trace| ==> !trace[i].Del? && !trace[i].Set?
    ensures Replay(cache, trace) == cache
  {
    if |trace| > 0 {
      ReplayWithoutWrites(cache, trace[..|trace| - 1]);
    }
  }

  /** A delete of each key, in order. */
  function Deletes(keys: seq<string>): (trace: seq<Effect>)
    ensures |trace| == |keys| && forall i :: 0 <= i < |keys| ==> trace[i] == Del(keys[i])
  {
    seq(|keys|, i requires 0 <= i < |keys| => Del(keys[i]))
  }

  /** The cache with every key of `keys` removed and every other entry kept. */
  function Without(cache: Cache, keys: seq<string>): (r: Cache)
    ensures forall k :: k in r <==> k in cache && k !in keys
    ensures forall k :: k in r ==> r[k] == cache[k]
  {
    if |keys| == 0 then cache
    else
      assert keys == keys[..|keys| - 1] + [keys[|keys| - 1]];
      Without(cache, keys[..|keys| - 1]) - {keys[|keys| - 1]}
  }

  lemma {:induction false} ReplayDeletes(cache: Cache, keys: seq<string>)
    ensures Replay(cache, Deletes(keys)) == Without(cache, keys)
  {
    if |keys| > 0 {
      assert Deletes(keys)[..|keys| - 1] == Deletes(keys[..|keys| - 1]);
      ReplayDeletes(cache, keys[..|keys| - 1]);
    }
  }

  /** Every cache write comes right after a status post that succeeded. */
  ghost predicate WritesFollowPosts(trace: seq<Effect>) {
    forall i :: 0 <= i < |trace| && trace[i].Set? ==> i > 0 && trace[i - 1].Post? && trace[i - 1].ok
  }

  /** The run ends with its exit, and nothing exits before. */
  ghost predicate ExitsOnceAtEnd(trace: seq<Effect>) {
    && |trace| > 0
    && trace[|trace| - 1].Exit?
    && forall i :: 0 <= i < |trace| - 1 ==> !trace[i].Exit?
  }

  /** A failed upload or post is followed at once by exit code 1. */
  ghost predicate FailuresExit(trace: seq<Effect>) {
    forall i :: 0 <= i < |trace| && ((trace[i].Upload? || trace[i].Post?) && !trace[i].ok) ==>
                  i + 1 < |trace| && trace[i + 1] == Exit(1)
  }

  lemma WritesFollowPostsAppend(a: seq<Effect>, b: seq<Effect>)
    requires WritesFollowPosts(a) && WritesFollowPosts(b)
    requires |b| > 0 ==> !b[0].Set?
    ensures WritesFollowPosts(a + b)
  {
    forall i | 0 <= i < |a + b| && (a + b)[i].Set?
      ensures i > 0 && (a + b)[i - 1].Post? && (a + b)[i - 1].ok
    {
      if i >= |a| {
        assert (a + b)[i] == b[i - |a|];
        if i - |a| > 0 {
          assert (a + b)[i - 1] == b[i - 1 - |a|];
        }
      }
    }
  }

  lemma FailuresExitAppend(a: seq<Effect>, b: seq<Effect>)
    requires FailuresExit(a) && FailuresExit(b)
    ensures FailuresExit(a + b)
  {
    forall i | 0 <= i < |a + b| && (((a + b)[i].Upload? || (a + b)[i].Post?) && !(a + b)[i].ok)
      ensures i + 1 < |a + b| && (a + b)[i + 1] == Exit(1)
    {
      if i < |a| {
        assert (a + b)[i] == a[i];
        assert (a + b)[i + 1] == a[i + 1];
      } else {
        assert (a + b)[i] == b[i - |a|];
        assert (a + b)[i + 1] == b[i + 1 - |a|];
      }
    }
  }
}
