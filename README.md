# hockey-bot in Dafny

A model of the hockey-bot, which posts NHL playoff chances to Mastodon, with proofs about that model.
The bot reads two providers' odds, MoneyPuck and Sports Club Stats.
It reads the NHL standings and a key-value cache.
It decides whether anything changed since the last post.
If so, it posts a league image with a caption, and then one status per team in a thread under it.
Before exiting it stores a fingerprint of what it posted, so an unchanged rerun posts nothing.

Modules, one per part of the program:

- `Wrappers` has `Option`, `Result`, and `Lookup` (a JavaScript property read that may be `undefined`).
- `Text` covers `src/utils/text.js`:
  - `formatOdds`, with `Intl.NumberFormat` as an uninterpreted parameter;
  - `hashCode`, with ECMAScript `ToInt32` written out, and a proof that it is the polynomial hash modulo 2^32;
  - an ASCII `toUpperCase`.
- `Standings` covers the standings entity:
  - the elimination test and the wildcard-ordering comparator;
  - the comparator as a strict order;
  - an insertion sort as the reference sort, with a proof that any sort agrees with it when the keys are distinct.
- `CanvasImage` covers `src/utils/image-generator.js`:
  - the rows of `drawConferenceStandings`, with the elimination override, the status labels and the provider cells;
  - the headings;
  - the team card's change line.
- `PureImage` covers `src/utils/imageGenerator.js`:
  - the rows of `drawStandings` and the `wildcardRankings` labels;
  - where the provider blocks go on the team card.
- `SportsClubStats` covers `src/sportsclubstats.js`: the row lookup, and the module with its two memo variables as a class.
- `MoneyPuck` covers `src/moneypuck.js`: the fold from CSV rows to the league map.
- `Effects` has the vocabulary shared by both entry points:
  - cache keys;
  - whole-day freshness, as dayjs `diff(..., 'day')` computes it;
  - the cache values;
  - the effects a run performs, and the cache a trace of effects leaves behind.
- `Publication` covers `src/index.js`:
  - the whole run as a function from configuration, team list, observed world and cache to an outcome (new cache, effect trace);
  - a class `Bot` whose methods perform the same run step by step on its `cache` and `trace` fields, each proved equal to the function;
  - lemmas about the run:
    - exactly one exit, at the end;
    - the cache is the replay of the trace's deletes and writes;
    - every write directly follows a successful post, and every post directly follows a successful upload;
    - failures exit 1;
    - team statuses reply to the league status;
    - a rerun on unchanged odds posts nothing;
    - `--cache:clear` removes exactly the league key and the team keys.
- `SingleTeam` covers the older `index.js`: one team, a plain-text status, and the text itself as the cached fingerprint. It has the same kind of function, class and lemmas.

The observed world is a parameter of each run:

- the clock;
- the provider answers;
- the standings;
- whether an upload or a post succeeds, and the status id a post returns;
- the number and date formatters.

A provider request that throws is `None`. The process then exits 1, because nothing catches it. In the Sports Club Stats client a throwing request fails the call and memoises nothing, so a later call in the same process requests again.

Behaviour of the code that a reader might not expect, and that the model keeps:

- Official clinch indicators: the code (`src/utils/image-generator.js:109-112`) overwrites any official indicator with `e` whenever `isEliminated` holds, so the computed elimination wins over the indicator the standings give.
- Tie-break: the elimination test treats a points tie as elimination when the team trails on regulation wins, or separately on regulation-plus-overtime wins. So it is not a conservative estimate: a team with more regulation wins can be declared eliminated (`Standings.TieChecksAreIndependent`).
- Freshness: "fresh" means fewer than N whole days old, where dayjs truncates the difference toward zero. So a sample 2 days 23 hours old is fresh at N = 3, and a future timestamp is always fresh.
- Stale odds in the older script: `index.js` does not stop when both providers are stale. It can post the heading alone (`SingleTeam.StatusText`).

## Model

| member | source | states |
|---|---|---|
| Wrappers.Lookup | src/index.js:115-116 | a property read gives a value exactly when the key is present, and gives the mapped value |
| Text.FormatOdds | src/utils/text.js:1-23 | empty exactly for undefined; "100% ✓" exactly at or above 99.995; "0% ×" exactly at or below 0.001; otherwise the number formatter's text followed by "%" |
| Text.ToInt32 | src/utils/text.js:26 | result is a signed 32-bit integer congruent to the input modulo 2^32 |
| Text.ToInt32Congruent | src/utils/text.js:26 | inputs congruent modulo 2^32 have the same ToInt32 |
| Text.ShiftLeft5 | src/utils/text.js:26 | `a << 5` on a signed 32-bit value: the low 32 bits of a × 32, read as signed; used by HashStep and characterised by HashStepIsTimes31 |
| Text.HashStep | src/utils/text.js:26 | one reduce step: `(a << 5) - a` plus the code unit, truncated to signed 32 bits; characterised by HashStepIsTimes31 |
| Text.HashStepIsTimes31 | src/utils/text.js:26 | one reduce step, shifting left by 5, subtracting, adding the code unit and truncating to 32 bits, equals ToInt32(31 a + c) |
| Text.HashCode | src/utils/text.js:26 | the reduce over code units yields a signed 32-bit integer |
| Text.HashCodeAppend | src/utils/text.js:26 | appending one code unit multiplies the hash by 31 and adds the unit, modulo 2^32 |
| Text.HashCodeIsPolynomial | src/utils/text.js:26 | the hash is the polynomial sum of c_i 31^(n-1-i), reduced by ToInt32 |
| Text.CodeUnits | src/utils/text.js:26 | a character below U+10000 is one code unit equal to it; above, a high surrogate (D800-DBFF) then a low surrogate (DC00-DFFF) that decode back to the character |
| Text.Utf16 | src/utils/text.js:26 | `split('')` yields at least one code unit per character, and exactly the characters for text in the basic plane |
| Text.Utf16Append | src/utils/text.js:26 | the code units of a concatenation are those of its parts, in order, so each character contributes its own code units |
| Text.Utf16Single | src/utils/text.js:26 | a one-character string yields exactly that character's code units |
| Text.HashString | src/utils/text.js:26 | the hash of a string is a signed 32-bit integer, and 0 for "" |
| Text.UpperChar | src/index.js:37 | a-z map to A-Z; every other character is unchanged |
| Text.Upper | src/index.js:151 | same length, with each character upper-cased |
| Standings.MaxPossiblePoints | src/utils/image-generator.js:72 | points plus two per remaining game of 82; never below the points while games remain; equal to the points after game 82 |
| Standings.HoldsSecondWildcard | src/utils/image-generator.js:71 | the `find` test: the same conference and wildcardSequence 2; used by SecondWildcardIndex and SecondWildcard |
| Standings.SecondWildcardIndex | src/utils/image-generator.js:70-71 | the first index holding wildcardSequence 2 in the conference, or none exactly when no team holds it |
| Standings.SecondWildcard | src/utils/image-generator.js:70-71 | the team found belongs to the standings and holds the second wildcard; none exactly when nobody does |
| Standings.IsEliminated | src/utils/image-generator.js:69-85 | never eliminated without a second wildcard; eliminated when the wildcard has more points than the team's maximum; not eliminated when it has fewer |
| Standings.EliminatedOnTie | src/utils/image-generator.js:76-83 | on a points tie, eliminated exactly when fewer regulation wins or fewer regulation-plus-overtime wins |
| Standings.SecondWildcardNotEliminated | src/utils/image-generator.js:69-85 | the second wildcard holder itself is never eliminated |
| Standings.WorkedExampleNotEliminated | src/utils/image-generator.js:72-75 | 88 points after 71 games can still reach 110, so a 95-point wildcard does not eliminate |
| Standings.TieChecksAreIndependent | src/utils/image-generator.js:77-82 | a team with more regulation wins is still eliminated when it trails on regulation-plus-overtime wins |
| Standings.StrLessIrreflexive | src/utils/image-generator.js:101 | string `<` by code unit is irreflexive |
| Standings.StrLessAsymmetric | src/utils/image-generator.js:101 | string `<` is asymmetric |
| Standings.StrLessTransitive | src/utils/image-generator.js:101 | string `<` is transitive |
| Standings.StrLessTotal | src/utils/image-generator.js:101 | any two strings are equal or ordered one way |
| Standings.KeyLessIrreflexive | src/utils/image-generator.js:96-104 | the (wildcardSequence, divisionAbbrev, divisionSequence) order is irreflexive |
| Standings.KeyLessAsymmetric | src/utils/image-generator.js:96-104 | the key order is asymmetric, and equal keys are unordered |
| Standings.KeyLessTransitive | src/utils/image-generator.js:96-104 | the key order is transitive |
| Standings.KeyLessTotal | src/utils/image-generator.js:96-104 | any two standings have equal keys or are ordered one way |
| Standings.KeyLeqTransitive | src/utils/image-generator.js:96-104 | the non-strict key order is transitive |
| Standings.Compare | src/utils/image-generator.js:96-104 | returns only 1 or -1; -1 exactly when a's key is smaller and 1 exactly when b's is; -1 on equal keys (never 0) |
| Standings.Insert | src/utils/image-generator.js:96-104 | inserting into a sorted sequence keeps it sorted and adds exactly that element |
| Standings.SortByKey | src/utils/image-generator.js:96-104 | the sorted result is ordered by key and is a permutation of the input |
| Standings.InsertStrict | src/utils/imageGenerator.js:63-71 | inserting a key not present keeps the order strict |
| Standings.SortStrictWhenDistinct | src/utils/imageGenerator.js:63-71 | with distinct keys the sorted result is strictly ordered |
| Standings.HeadsEqual | src/index.js:105-113 | a sorted and a strictly sorted permutation of the same elements start with the same element |
| Standings.TailsPermutation | src/index.js:105-113 | removing an equal head keeps two permutations permutations |
| Standings.SortedPermutationUnique | src/index.js:105-113 | a sorted and a strictly sorted permutation of the same elements are equal |
| Standings.AnySortAgrees | src/index.js:104-113 | with distinct keys, every sorted permutation, and so any engine's sort with this comparator, is the reference sort |
| Standings.InConference | src/utils/image-generator.js:94-95 | the filter keeps exactly the standings of that conference |
| Standings.InConferenceAppend | src/utils/image-generator.js:94-95 | the filter distributes over concatenation, so it keeps the standings' order and multiplicity |
| Standings.InConferenceSingle | src/utils/image-generator.js:94-95 | one standing is kept exactly when its conference matches |
| Standings.ConferenceOrder | src/utils/image-generator.js:94-104 | sorted by key, a permutation of the conference filter, holding exactly that conference's teams |
| CanvasImage.RankLabel | src/utils/image-generator.js:39 | "1","2","3","1","2","3" for the six division places, then "WC1", "WC2", then "" up to index 15, and undefined beyond |
| CanvasImage.Indicator | src/utils/image-generator.js:109-112 | 'e' when computed eliminated, otherwise the official clinch indicator unchanged |
| CanvasImage.Truthy | src/utils/image-generator.js:119 | JavaScript truthiness of the indicator: defined and not the empty string; used by NameText and ConferenceRowsLayout |
| CanvasImage.NameText | src/utils/image-generator.js:119 | the name, decorated with ` (indicator)` for a truthy indicator; characterised by ConferenceRowsLayout |
| CanvasImage.StatusLabel | src/utils/image-generator.js:138-161 | e gives "Eliminated", x "Clinched Playoffs", p "President's Trophy", y "Clinched Division", z "Clinched Conference", each exactly for its letter; any other indicator gives no label |
| CanvasImage.OddsCells | src/utils/image-generator.js:124-136 | the odds cells of one row; characterised by OddsCellsSound, OddsCellsComplete, OddsCellsExactly and OddsCellsEmpty |
| CanvasImage.ProviderCell | src/utils/image-generator.js:127-133 | provider k's cell: the formatted odds at xOffset + 320 - 70 k; characterised by OddsCellsSound, OddsCellsComplete and OddsCellsExactly |
| CanvasImage.OddsCellsSound | src/utils/image-generator.js:126-135 | every cell drawn is the formatted odds of some provider holding the team, in that provider's column |
| CanvasImage.OddsCellsComplete | src/utils/image-generator.js:126-135 | every provider holding the team gets its cell at xOffset + 320 - 70 k |
| CanvasImage.OddsCellsExactly | src/utils/image-generator.js:124-136 | a cell is drawn if and only if it is some holding provider's cell |
| CanvasImage.OddsCellsEmpty | src/utils/image-generator.js:128 | no cell when no provider holds the team |
| CanvasImage.ConferenceRowsLayout | src/utils/image-generator.js:93-171 | row i shows the i-th team of the conference order: y, rank label, points; "Eliminated" and no odds when eliminated; the status is the indicator's label; with a truthy indicator the name is `name (indicator)`, otherwise the plain name; odds cells only without an indicator, and then exactly the holding providers' cells |
| CanvasImage.DrawOddsCells | src/utils/image-generator.js:126-135 | the `forEach` over providers draws the cells of the reference definition |
| CanvasImage.DrawRow | src/utils/image-generator.js:105-170 | one iteration draws the reference row for its team and index |
| CanvasImage.RowFor | src/utils/image-generator.js:105-170 | the reference row for one team and index; characterised by ConferenceRowsLayout, and drawn by DrawRow |
| CanvasImage.ConferenceRows | src/utils/image-generator.js:93-171 | the reference rows of one conference; characterised by ConferenceRowsLayout, and drawn by DrawConferenceStandings |
| CanvasImage.RowsFor | src/utils/image-generator.js:105 | the `.map` over the ordered teams, row i for team i; characterised by ConferenceRowsLayout, and drawn by DrawRows |
| CanvasImage.DrawRows | src/utils/image-generator.js:105-171 | the loop draws the reference row for every index |
| CanvasImage.DrawConferenceStandings | src/utils/image-generator.js:93-171 | filter, sort and draw give the reference rows of the conference |
| CanvasImage.ProviderHeadings | src/utils/image-generator.js:53-55 | provider i's heading is its name, centred 65 i to the left of the first |
| CanvasImage.GenerateLeaguePlayoffOddsImage | src/utils/image-generator.js:45-62 | West rows at x = 60 and East rows at x = 460, the headings in order, and the credit line with "Updated:" |
| CanvasImage.TeamCardDeltaAsWritten | src/utils/image-generator.js:261-265 | a change line exactly when cached odds exist and differ; the glyph follows the sign; every decrease renders as "0% ×"; every rise renders exactly as the corrected line, the formatted change |
| CanvasImage.DecreaseRendersAsZero | src/utils/image-generator.js:262-265 | 50 → 40 renders as "⏷ 0% ×", while 40 → 50 renders the formatted 10 |
| CanvasImage.TeamCardDelta | src/utils/image-generator.js:261-266 | a change line exactly when cached odds exist and differ; the glyph follows the sign; the figure is the formatted size of the change |
| CanvasImage.DeltaMagnitudeSymmetric | src/utils/image-generator.js:261-266 | swapping old and new odds keeps the figure and flips the glyph |
| CanvasImage.AsWrittenDeltaAsymmetric | src/utils/image-generator.js:262-265 | as written, swapping old and new odds changes the rendered figure |
| CanvasImage.TeamPlayoffOddsCard | src/utils/image-generator.js:245-267 | upper-cased heading, figure at y = 320, change line at y = 380 exactly when the odds changed, built from `formatOdds(change)` as the code does, so any drop shows "0% ×"; the cursor moves by 50 when it is drawn |
| PureImage.Rank | src/utils/imageGenerator.js:36 | the labels of the pure-JS table, including the number 11 at index 15 and undefined beyond |
| PureImage.StandingsRowsLayout | src/utils/imageGenerator.js:61-93 | row i shows the i-th team of the conference order at y = 60 + 30 i, with its rank and name; each provider's cell is `formatOdds` of that provider's odds for the team, and empty exactly when that provider lacks the team |
| PureImage.DrawRow | src/utils/imageGenerator.js:72-92 | one iteration draws the reference row |
| PureImage.RowFor | src/utils/imageGenerator.js:72-92 | the reference row for one team and index; characterised by StandingsRowsLayout, and drawn by DrawRow |
| PureImage.StandingsRows | src/utils/imageGenerator.js:61-93 | the reference rows of one conference; characterised by StandingsRowsLayout, and drawn by DrawStandings |
| PureImage.RowsFor | src/utils/imageGenerator.js:72 | the `forEach` over the ordered teams, row i for team i; characterised by StandingsRowsLayout, and drawn by DrawRows |
| PureImage.DrawRows | src/utils/imageGenerator.js:72-93 | the `forEach` draws the reference row for every index |
| PureImage.DrawStandings | src/utils/imageGenerator.js:61-93 | filter, sort and draw give the reference rows |
| PureImage.GenerateLeaguePlayoffOddsImage | src/utils/imageGenerator.js:95-104 | the West column at x = 60, the East at x = 440, and the "Updated:" line |
| PureImage.Truthy | src/utils/imageGenerator.js:153 | JavaScript truthiness of a provider argument: defined and not 0; characterised by TeamCardBlocks |
| PureImage.TeamCardBlocks | src/utils/imageGenerator.js:150-173 | one block per truthy provider argument; MoneyPuck first at y = 190; Sports Club Stats at y = 330 after it, otherwise at 190 |
| PureImage.TeamPlayoffOddsCard | src/utils/imageGenerator.js:145-189 | the upper-cased heading, the provider blocks, and "Updated" plus the date |
| SportsClubStats.FindRow | src/sportsclubstats.js:29 | the first row whose label is the team name, or none exactly when no label matches |
| SportsClubStats.Last | src/sportsclubstats.js:33 | the last entry of the series, undefined exactly when the series is empty |
| SportsClubStats.NotFound | src/sportsclubstats.js:31 | the `Could not find team` message; used by TeamOdds |
| SportsClubStats.TeamOdds | src/sportsclubstats.js:29-34 | an error exactly when no row matches; otherwise the last entry of the first matching row's series |
| SportsClubStats.Client.constructor | src/sportsclubstats.js:8-9 | both memo variables start unset and no request has been made |
| SportsClubStats.Client.GetLastUpdate | src/sportsclubstats.js:12-19 | a HEAD request exactly while no time is memoised; a successful one memoises and returns the time, a throwing one fails and leaves the memo unset; a memoised time is returned without a request; the odds memo is untouched |
| SportsClubStats.Client.GetLiveOdds | src/sportsclubstats.js:20-35 | a GET exactly while no feed is memoised; a successful one memoises the feed, a throwing one fails and leaves the memo unset; the result is otherwise the lookup in the memoised feed |
| SportsClubStats.LookupTwice | src/sportsclubstats.js:20-35 | two lookups make one request, and both answer from the first response |
| SportsClubStats.LookupAfterFailedRequest | src/sportsclubstats.js:21-25 | after a GET that throws, the next lookup requests again and answers from the new response |
| SportsClubStats.LastUpdateAfterFailedRequest | src/sportsclubstats.js:13-17 | after a HEAD that throws, the next call requests again and returns the new time |
| MoneyPuck.LeagueOdds | src/moneypuck.js:27-33 | the fold over the parsed rows; characterised by LeagueOddsKeys and LeagueOddsLastWins, and computed by GetLeagueLiveOdds |
| MoneyPuck.LeagueOddsKeys | src/moneypuck.js:27-33 | a team has an entry exactly when some row with scenario ALL names it |
| MoneyPuck.LeagueOddsLastWins | src/moneypuck.js:27-33 | the last ALL row for a team sets its value, madePlayoffs × 100 |
| MoneyPuck.GetLeagueLiveOdds | src/moneypuck.js:13-34 | the `forEach` builds the reference map, and every entry comes from an ALL row of that team |
| Effects.Key | src/index.js:184 | the `hockey-bot-odds-` key of a scope; characterised by KeyInjective |
| Effects.KeyInjective | src/index.js:184 | two scopes share a cache key exactly when they are equal |
| Effects.AgeInDays | src/index.js:165 | for past samples, the truncated whole-day age d satisfies d days ≤ age < d + 1 days; for future samples d ≤ 0 |
| Effects.Fresh | src/index.js:165-170 | the `diff(…, 'day') < N` freshness test; characterised by FreshWithinWindow |
| Effects.FreshWithinWindow | src/index.js:165-170 | fresh at N ≥ 1 days exactly when the sample is less than N × 24 hours old |
| Effects.Holds | src/index.js:188 | the `redisClient.get(key) === value` comparison, false for a missing key; used by TeamSkipRules and RerunPublishesNothing |
| Effects.Replay | src/index.js:253-264 | the cache after a stretch of effects: writes set, deletes remove, everything else leaves it alone; characterised by ReplayAppend, ReplayWithoutWrites and ReplayDeletes |
| Effects.ReplayAppend | src/index.js:253-264 | the cache after two stretches of effects is the second replayed on the first's result |
| Effects.ReplayWithoutWrites | src/index.js:59-63 | effects other than deletes and writes leave the cache unchanged |
| Effects.Deletes | src/index.js:50-55 | one delete per key, in order |
| Effects.Without | src/index.js:50-55 | exactly the keys not deleted remain, with their values |
| Effects.ReplayDeletes | src/index.js:50-55 | replaying the deletes leaves the cache without those keys |
| Effects.WritesFollowPostsAppend | src/index.js:253-255 | "every write directly follows a successful post" holds for a concatenation when the second part does not start with a write |
| Effects.FailuresExitAppend | src/index.js:233-251 | "every failed upload or post is directly followed by exit 1" holds for concatenations |
| Publication.Configured | src/index.js:26 | the Redis URL, the Mastodon base URL and the token are all set; characterised by Run |
| Publication.TeamList | src/index.js:32-42 | without TEAM_CODE, every team's abbreviation in order; with it, the upper-cased code alone |
| Publication.FindTeamIndex | src/index.js:151 | the first team with that abbreviation, or none exactly when none has it |
| Publication.FindTeam | src/index.js:151-155 | none exactly when no abbreviation matches; otherwise a listed team with that abbreviation |
| Publication.CaptionMoneyPuck | src/index.js:115 | the team name, the MP separator and the formatted MoneyPuck odds of one caption line; part of CaptionLine |
| Publication.CaptionSportsClubStats | src/index.js:116 | the Sports Club Stats part of one caption line; part of CaptionLine |
| Publication.CaptionLine | src/index.js:115-116 | one caption line, the MoneyPuck part then the Sports Club Stats part; used by CaptionLines |
| Publication.CaptionLines | src/index.js:104-117 | the caption over the sorted standings; characterised by CaptionLinesAppend and CaptionFollowsAnySort, and built by Bot.BuildCaption |
| Publication.LeagueDescription | src/index.js:103-118 | the caption of the reference sort plus the `Updated:` line; characterised by CaptionFollowsAnySort |
| Publication.CaptionLinesAppend | src/index.js:114-117 | the caption of a concatenation is the concatenation of the captions |
| Publication.CaptionFollowsAnySort | src/index.js:103-118 | with distinct keys, the caption built from any sorted order equals the reference caption plus the "Updated:" line |
| Publication.Positive | src/index.js:122 | `odds[abbreviation] > 0`, false for a missing entry; used by Tagged |
| Publication.Tagged | src/index.js:122 | the hashtag filter, both providers positive; characterised by HashtagTeams and HashtagTeamsCons |
| Publication.HashtagTeams | src/index.js:121-122 | exactly the teams both providers give positive odds, in list order |
| Publication.HashtagTeamsAppend | src/index.js:121-122 | the selection distributes over concatenation, so it keeps the teams' order and multiplicity |
| Publication.HashtagTeamsCons | src/index.js:121-122 | a team in front is kept exactly when both providers give it positive odds |
| Publication.JoinHashtags | src/index.js:123 | empty exactly for no teams; otherwise starts with the first team's hashtag |
| Publication.JoinHashtagsSnoc | src/index.js:123 | one team yields `#tag`; one more team appends a single space and its `#tag` |
| Publication.LeagueStatus | src/index.js:131 | "#nhl " followed by the joined hashtags |
| Publication.StripSpacesAndDots | src/index.js:207 | no whitespace or dot remains; every other character keeps its number of occurrences; a name without them is unchanged |
| Publication.StripAppend | src/index.js:207 | stripping distributes over concatenation, so the remaining characters keep their order |
| Publication.TeamHeading | src/index.js:200 | the heading of a team message; characterised by TeamMessageParts |
| Publication.MoneyPuckLine | src/index.js:202 | the MoneyPuck line of a team message; characterised by TeamMessageParts |
| Publication.SportsClubStatsLine | src/index.js:205 | the Sports Club Stats line of a team message; characterised by TeamMessageParts |
| Publication.TeamHashtags | src/index.js:207 | the hashtag tail of a team message; characterised by TeamMessageParts and StripSpacesAndDots |
| Publication.TeamMessage | src/index.js:199-207 | the team message; characterised by TeamMessageParts, and built by Bot.BuildTeamMessage |
| Publication.TeamMessageParts | src/index.js:199-207 | the team message is the heading, then the provider lines, then the hashtags: MoneyPuck then Sports Club Stats when both are fresh, the one fresh line alone, or nothing between heading and hashtags |
| Publication.Below | src/index.js:194 | `odds < 0.01`, false for a missing entry; used by DecideTeam and characterised by TeamSkipRules |
| Publication.DecideTeam | src/index.js:149-197 | an invalid team exactly when the upper-cased code is not listed; a published step is keyed by the team and fingerprinted with its two provider values |
| Publication.TeamSkipRules | src/index.js:165-221 | no recent odds exactly when both providers are stale; unchanged exactly when fresh and the fingerprint is cached; zero exactly when fresh, not cached and both below 0.01; otherwise the message, description and card the source builds |
| Publication.TeamEffects | src/index.js:223-256 | well-formed and replying to the thread; an invalid team exits 1; skips do nothing; a failure exits 1 without writing; success uploads, posts in the thread and writes the fingerprint |
| Publication.WellFormedAppend | src/index.js:269-271 | well-formed stretches compose when the first did not exit |
| Publication.RepliesToAppend | src/index.js:269-271 | replying to the thread is kept by concatenation |
| Publication.TeamsRun | src/index.js:269-271 | the team loop over the codes; characterised by TeamsRunWellFormed, TeamsRunStep, TeamsRunStopsAtExit, TeamsRunKeepsLeagueKey and TeamsRunFailsWithExitOne, and run by Bot.PostTeams |
| Publication.TeamsRunWellFormed | src/index.js:267-271 | the team loop is well-formed, and every post in it replies to the league status |
| Publication.TeamsRunStep | src/index.js:269-271 | one more team extends the loop by that team's effects on the cache so far |
| Publication.TeamsRunStopsAtExit | src/index.js:269-271 | once a team exits the process, no later team does anything |
| Publication.TeamsRunKeepsLeagueKey | src/index.js:264-271 | the team loop never changes the league fingerprint (no team is called "league") |
| Publication.TeamStepKeepsLeagueKey | src/index.js:253-255 | one team's step never changes the league fingerprint |
| Publication.PublishedTeamIsUnchanged | src/index.js:179-191 | after a team is published, the same odds decide "unchanged" |
| Publication.ClearKeys | src/index.js:48-55 | the league key first, then one key per listed team |
| Publication.Max | src/index.js:73-76 | the later of the two sample times |
| Publication.FetchRun | src/index.js:59-85 | the provider fetch, the league fingerprint check and the standings fetch; characterised by Run, FetchedRunProperties and RerunPublishesNothing |
| Publication.PublishRun | src/index.js:259-271 | the league post (lines 93-142), the league write and the team loop; characterised by PublishedRunShape and LeagueThenTeamsProperties |
| Publication.Run | src/index.js:25-70 | halts with a non-empty trace; missing configuration or an empty team list exit 1 alone; clearing deletes and exits 0; otherwise the provider fetch comes first; cached league odds exit 0 with nothing else |
| Publication.ExitOnlyWellFormed | src/index.js:26-29 | a bare exit is a well-formed stretch |
| Publication.EarlyStopProperties | src/index.js:59-142 | each early stop (missing configuration, fetch failure, unchanged league, standings failure, upload or post failure) satisfies the run properties |
| Publication.ClearRunProperties | src/index.js:47-57 | the clearing run satisfies the run properties |
| Publication.LeagueThenTeamsProperties | src/index.js:259-274 | the league post, league write and a well-formed team loop satisfy the run properties |
| Publication.PublishedRunShape | src/index.js:93-142 | on the publishing path, the run is the league post, the league write, the team loop and exit 0 unless the loop exited |
| Publication.FetchedRunProperties | src/index.js:59-274 | every run that reaches the fetch satisfies the run properties |
| Publication.RunWellFormed | src/index.js:25-274 | every run exits once at the end; its cache is its trace replayed; writes follow successful posts and posts follow successful uploads; failures exit 1; team posts reply to the league status |
| Publication.RerunPublishesNothing | src/index.js:65-70 | a second run on the same odds, after a run that exited 0, exits 0 right after the fetch, with the cache unchanged |
| Publication.TeamsRunFailsWithExitOne | src/index.js:233-251 | a team loop that stops ends on exit code 1 |
| Publication.TeamFailureIsNotRetried | src/index.js:262-271 | as written: when a team's upload or post fails after the league fingerprint is stored, the run exits 1, and a second run on the same odds exits 0 right after the fetch, never reaching that team |
| Publication.PublishRunRetrying | src/index.js:259-271 | the corrected publishing step, with the league write after the team loop; characterised by FailedRunIsRetried |
| Publication.FetchRunRetrying | src/index.js:59-85 | the fetch in front of the corrected publishing step; characterised by FailedRunIsRetried |
| Publication.FailedRunIsRetried | src/index.js:262-271 | with the fingerprint stored after the team loop: a run that exits 1 leaves it unstored, so a second run fetches the standings and publishes again; a run that exits 0 stores it, so a second run stops at once |
| Publication.ClearCacheRemovesKeys | src/index.js:47-57 | clearing removes exactly the league key and the team keys, and performs only deletes before the exit |
| Publication.Bot.constructor | src/index.js:44-45 | the bot starts on the given cache with no effects |
| Publication.Bot.ClearCache | src/index.js:49-55 | the delete loop performs the deletes of the reference and leaves the cache without those keys |
| Publication.Bot.BuildCaption | src/index.js:103-117 | the `+=` loop yields the reference caption |
| Publication.Bot.PostLeagueOdds | src/index.js:93-142 | the league upload and post: thread id on success; upload failure and post failure each exit 1; the cache is untouched |
| Publication.Bot.DecideTeamOdds | src/index.js:149-221 | the decision of the reference, made on the current cache |
| Publication.Bot.BuildTeamMessage | src/index.js:199-207 | the `+=` steps yield the reference message |
| Publication.Bot.PerformTeamStep | src/index.js:223-256 | the upload, post and write of the reference, on the state |
| Publication.Bot.PostTeamOdds | src/index.js:149-257 | one team's whole step on the state |
| Publication.Bot.PostNextTeam | src/index.js:269-271 | one loop iteration extends the state from the first i teams to the first i + 1 |
| Publication.Bot.PostTeams | src/index.js:267-271 | the `for await` loop leaves the state of the reference loop |
| Publication.Bot.PublishAll | src/index.js:259-274 | the league post, the league write, the team loop and exit 0, on the state |
| Publication.Bot.FetchAndPublish | src/index.js:59-85 | the fetch, the unchanged-league exit and the standings failure, then the publication, on the state |
| Publication.Bot.Execute | src/index.js:25-274 | the whole run on the state: its cache and the effects it appends are those of the reference run |
| SingleTeam.Heading | index.js:71 | the heading of the single-team text; characterised by StatusText |
| SingleTeam.SportsClubStatsLine | index.js:73 | the Sports Club Stats line, `toFixed(1)` then `%` and a newline; characterised by StatusText |
| SingleTeam.MoneyPuckLine | index.js:76 | the MoneyPuck line, `toFixed(1)` then `%`; characterised by StatusText |
| SingleTeam.StatusText | index.js:70-77 | fails exactly when the Sports Club Stats line would format a missing figure; otherwise the heading followed by the Sports Club Stats line when it is fresh and then the MoneyPuck line when it is fresh (the heading alone when both are stale) |
| SingleTeam.PostRun | index.js:80-105 | cached text exits 0; a failed post exits 1 without writing; a successful post is followed by writing the text under the team key, then exit 0 |
| SingleTeam.Configured | index.js:23 | all five variables are set; characterised by Run |
| SingleTeam.Run | index.js:22-68 | halts with a non-empty trace; missing configuration exits 1 alone; clearing deletes only the team key and exits 0; otherwise the fetch comes first |
| SingleTeam.ExitOnlyWellFormed | index.js:23-26 | the configuration exit is well-formed |
| SingleTeam.ClearWellFormed | index.js:52-56 | the clearing run is well-formed |
| SingleTeam.FetchExitWellFormed | index.js:58-88 | a fetch failure or an unchanged text is well-formed |
| SingleTeam.FailedPostWellFormed | index.js:92-101 | a failed post exits 1 and is well-formed |
| SingleTeam.PostedWellFormed | index.js:92-109 | a successful post, the write and exit 0 are well-formed |
| SingleTeam.PostRunWellFormed | index.js:80-109 | every ending after the text is built is well-formed |
| SingleTeam.RunWellFormed | index.js:22-109 | every run exits once at the end; its cache is its trace replayed; the write follows the successful post; a failed post exits 1 |
| SingleTeam.RerunPostsNothing | index.js:80-88 | after a run that exited 0, the same answers find the text cached, so nothing is posted |
| SingleTeam.Script.constructor | index.js:29 | the script starts on the given cache with no effects |
| SingleTeam.Script.BuildText | index.js:70-77 | the `+=` steps yield the reference text, and fail where `toFixed` is called on a missing figure |
| SingleTeam.Script.Execute | index.js:22-109 | the whole script on the state: its cache and the effects it appends are those of the reference run |

## Left out

- Drawing is not modelled: pixels, fonts, colours, logos, dividers and PNG encoding. The layout is modelled as the data-dependent texts and their coordinates; the texts left out are listed below.
- The images are not part of the effect trace. An upload is recorded with its description only.
- Asynchronous interleaving is not modelled. The async `map` in `drawConferenceStandings` and the `Promise.all` of deletes are taken in list order.
- `src/utils/mastodon.js` (retries, idempotency key, media handling), `src/utils/redis.js` and `src/utils/svg2png.js` are not part of this model. An upload's or a post's success is a function of its text.
- `Intl.NumberFormat`, `toFixed(1)`, and dayjs parsing, time zones and formatting are uninterpreted function parameters.
- JSON serialisation of the fingerprints is modelled as a datatype. This treats `JSON.stringify` as injective, with no key-order or NaN subtleties.
- Odds are reals, not IEEE doubles, so rounding at the 99.995 and 0.001 thresholds is not modelled.
- CSV parsing in `src/moneypuck.js` is left out: the fold starts from parsed rows. `getLastUpdate` of both providers is an observed time.
- `src/index.js:60` calls `SportsClubStats.getLeagueLiveOdds`, and `index.js:66` calls `MoneyPuck.getLiveOdds`. Neither is defined in the provider files, so their answers are inputs to the runs, not invented behaviour.
- `toUpperCase` is modelled for ASCII letters only.
- String comparison in the comparator is by code point, like JavaScript's comparison of code units on basic-plane text.
- The record line of the canvas team card (`src/utils/image-generator.js:271`) and the `teamLogos` lookup are not modelled, because they only draw.
- Fixed labels are not modelled, because they do not depend on the data: the column headings of the pure league image ("Western Conference", "SCS", "MP", "Eastern Conference", `src/utils/imageGenerator.js:51-59`) and the attribution line of both team cards (`src/utils/image-generator.js:281`, `src/utils/imageGenerator.js:183`). The "Updated" line of the canvas team card (`src/utils/image-generator.js:287`) is not modelled either; it only repeats the timestamp the league image carries.
- Effects.AgeInDays: times are taken on a fixed UTC offset. dayjs's day difference corrects for a change of offset between the two times (daylight saving), so near such a change the whole-day age, and with it freshness, can differ from the model's by one day.
- Text.FormatOdds: the number formatter's output is not constrained, so the contract does not state the two-fraction-digit rounding.

## Findings

| source | as written | input that shows it | evidently intended | confidence | as-written member | corrected member |
|---|---|---|---|---|---|---|
| src/utils/image-generator.js:265 | the change line formats the signed change with `formatOdds`, which maps every value at or below 0.001 to "0% ×" | odds 40 with cached odds 50: renders "⏷ 0% ×" instead of a 10-point drop | format the size of the change, the glyph already gives the direction | not executed | CanvasImage.DecreaseRendersAsZero | CanvasImage.DeltaMagnitudeSymmetric |
| src/index.js:264 | the league fingerprint is stored before the team loop (lines 269-271), and a failing team upload or post exits 1 (lines 233-251) | a team whose post fails: the run exits 1, and the rerun on the same odds stops at the fingerprint check (lines 66-70), so that team's update is never posted | store the league fingerprint once every team has gone through, so a failed run is retried | not executed | Publication.TeamFailureIsNotRetried | Publication.FailedRunIsRetried |
