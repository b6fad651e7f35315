# Hype boost bot: a Dafny model of its decision core

Hype is a Mastodon bot. Every cycle it:

- fetches the trending posts of the instances it subscribes to;
- scores each post by its hashtags, related terms, engagement, media and spam signals;
- drops posts below a quality threshold;
- normalizes the scores onto 0..100 and ranks the posts;
- boosts (reblogs) the best ones.

The boosts are subject to:

- a daily cap and an hourly cap on public boosts;
- a per-run maximum;
- a per-author daily limit and a per-hashtag per-run limit;
- content filters;
- a bounded cache of posts already seen.

When a post is unknown to the bot's home server, the bot can resolve it by search and boost the federated copy.

This project models that decision core (the `Hype` class of hype/hype.py) and the settings coercions of hype/config.py, and proves properties about the model.

Modules, one per file:

| module | file | what it models |
|---|---|---|
| `Wrappers` | wrappers.dfy | `Option` and `Result` |
| `Seqs` | seqs.dfy | `list.count` and the bounded `deque` |
| `Text` | text.dfy | `strip`, `lower`, `in`, `split`/`join` |
| `Statuses` | statuses.dfy | a post as the bot reads it, with the defaults for missing keys |
| `Settings` | settings.dfy | `Instance` and the settings record `Config`, with its defaults |
| `PyValues` | pyvalues.dfy | an already-parsed YAML document; Python's `int()`, `float()` and truthiness |
| `ConfigLoader` | loader.dfy | `Config.__init__` over a parsed settings document |
| `Filters` | filters.dfy | the content rules and the filtered-instance rule |
| `Spam` | spam.dfy | the emoji counter and the link detector |
| `Scoring` | scoring.dfy | `score_status` and the related-hashtag bonus |
| `Candidates` | candidates.dfy | the candidate list: fetch, score, quality threshold |
| `Normalize` | normalize.dfy | `_normalize_scores`, which works in place on an array |
| `Ranking` | ranking.dfy | the stable descending sort |
| `Federation` | federation.dfy | the reblog-with-federation-fallback decision |
| `Bot` | hype.dfy | the admission state (`class Hype`), its operations and the boost cycle |

How the model stands in for the parts of the source it does not run:

- **Outside world.** The trending fetch (`fetch`), `math.log1p` (`log1p`), the clock and the outcomes of the Mastodon API calls (`attempts`) are parameters.
- **Clock.** One boost cycle runs under a single clock reading, given as integer day and hour keys.
- **Imperative operations** are methods proved against specification functions:
  - `Hype.RememberStatus` against `Remembered`;
  - `Hype.CountPublicBoost` against `Counted`;
  - `NormalizeScores` against `Normalized`;
  - `ScoreStatus` against `BaseScore`;
  - `Hype.Boost` against `Prepared`, `Boosted` and `Winners`.
- **Read-only checks** are functions: `SeenStatus`, `ShouldSkipStatus`, `ReblogWithFallback`, and the others like them.

## Model

| member | source | states |
|---|---|---|
| Seqs.Count | hype/hype.py:162 | `list.count(x)` is the number of occurrences of `x`; it is positive exactly when `x` occurs |
| Seqs.CountAppend | hype/hype.py:162 | occurrence counts add up over concatenated run lists |
| Seqs.KeepLast | hype/hype.py:71-74 | a `deque(maxlen=n)` keeps the last `n` elements in order and evicts the oldest ones first |
| Seqs.KeepLastAppend | hype/hype.py:208-210 | evicting after every append leaves the same cache as evicting once after all the appends |
| Seqs.KeepLastShort | hype/hype.py:71-74 | a cache within its bound loses nothing |
| Text.StripLeft | hype/hype.py:230 | `strip` drops exactly the leading whitespace |
| Text.StripRight | hype/hype.py:230 | `strip` drops exactly the trailing whitespace |
| Text.StripEmptyIffBlank | hype/hype.py:230-235 | a content warning strips to nothing exactly when it is all whitespace |
| Text.LowerChar | hype/hype.py:161 | a lowered character is never an upper-case letter; other characters are unchanged |
| Text.Lower | hype/hype.py:161 | lowering keeps the length and lowers each character |
| Text.LowerIsLower | hype/config.py:169 | lowering is idempotent and its result is lower-case |
| Text.LowerAppend | hype/hype.py:312-316 | lowering distributes over concatenation |
| Text.ContainsFrom | hype/hype.py:327 | the scan finds an occurrence at or after `from` exactly when there is one |
| Text.Contains | hype/hype.py:327 | Python's `in` on strings is plain substring containment |
| Text.Split | hype/hype.py:685 | `split("@")` yields at least one piece and no piece holds an `@` |
| Text.JoinSplit | hype/hype.py:685 | joining the pieces of a split gives back the string |
| Text.SplitCount | hype/hype.py:685-686 | a split has one more piece than the string has separators |
| Text.JoinLast | hype/hype.py:686 | a string is its leading pieces, the separator, then its last piece |
| PyValues.Lookup | hype/config.py:83 | `d.get(key)` is None exactly when the key is absent; otherwise it is a stored value of that key |
| PyValues.LookupAt | hype/config.py:104 | with distinct keys, a lookup returns the value stored with that key |
| PyValues.ShowNat | hype/config.py:118-120 | decimal spelling is a non-empty digit string |
| PyValues.DigitsValueShowNat | hype/config.py:118-120 | reading a spelled number back gives the number |
| PyValues.StripNoSpaceEnds | hype/config.py:118-120 | a string without whitespace at its ends is its own strip |
| PyValues.ParseIntShowInt | hype/config.py:118-120 | `int(str(n)) == n` for every integer |
| PyValues.DropUnderscores | hype/config.py:118-120 | dropping the underscores from digits and underscores leaves digits, and leaves a digit string as it is |
| PyValues.DropUnderscoresAppend | hype/config.py:118-120 | dropping underscores distributes over concatenation |
| PyValues.DigitsGrouped | hype/config.py:118-120 | a plain digit string is a valid `int()` digit group with nothing to drop |
| PyValues.GroupedAround | hype/config.py:118-120 | one underscore between two digit runs still makes a valid `int()` digit group |
| PyValues.ParseGrouped | hype/config.py:118-120 | `int()` of unsigned grouped digits is the number their digits spell |
| PyValues.ParseNegative | hype/config.py:118-120 | `int()` of `-` and grouped digits is that number negated |
| PyValues.UnderscoreIgnored | hype/config.py:118-120 | a single underscore between digits is ignored: `int("1_000") == int("1000") == 1000` |
| PyValues.UnderscoreAtEndRefused | hype/config.py:118-120 | an underscore before the first digit or after the last one makes `int()` raise |
| PyValues.Trunc | hype/config.py:118-120 | `int(x)` on a float rounds toward zero |
| PyValues.ToInt | hype/config.py:118-132 | `int()` keeps ints, maps booleans to 1 and 0, and fails on null, lists and mappings |
| PyValues.ToIntShowInt | hype/config.py:118-120 | `int()` of a quoted integer gives that integer |
| PyValues.Pow10 | hype/config.py:144 | powers of ten are positive |
| PyValues.IndexOfEither | hype/config.py:144 | the first position holding one of two characters, or the length when there is none |
| PyValues.DigitsHaveNoMarks | hype/config.py:144 | a digit string has no decimal point and no exponent mark |
| PyValues.ParseFloatShowInt | hype/config.py:144 | `float(str(n)) == n` |
| PyValues.ToFloat | hype/config.py:144-146 | `float()` keeps numbers and fails on null, lists and mappings |
| Settings.ClampLimit | hype/config.py:25 | every limit ends in 1..20; one in 1..20 is kept; one at most 0 or above 20 becomes 20 |
| Settings.MakeInstance | hype/config.py:23-25 | an `Instance` keeps its name and has a limit in 1..20 |
| Statuses.FirstTruthy | hype/hype.py:169 | `a or b` is the first non-empty value, and is present exactly when one of them is non-empty |
| Statuses.TagNames | hype/hype.py:158-161 | the tag names are the post's tags, lowered, in order |
| Statuses.LowerAll | hype/hype.py:315 | each word is lowered, in order |
| Filters.ShouldSkipIff | hype/hype.py:221-259 | `_should_skip_status` holds exactly when one of its six rules fires |
| Filters.MoreEngagementStillPasses | hype/hype.py:245-250 | raising engagement counts never turns a passing post into a skipped one |
| Filters.CountAtMinimumPasses | hype/hype.py:221-259 | the minimums are inclusive: with every count at or above its minimum, only the media, content-warning and language rules can skip a post |
| Filters.ServerOf | hype/hype.py:685-686 | the server is what follows the last `@`, or "" when there is none |
| Filters.LocalAccountServer | hype/hype.py:685-687 | a local account is filtered exactly when "" is on the deny list |
| Spam.CountEmojis | hype/hype.py:280-296 | the count is the number of characters in the emoji ranges: 0 when none is, the length when all are |
| Spam.CountEmojisAppend | hype/hype.py:295-296 | emoji counts add up over concatenated text |
| Spam.SearchLinkFrom | hype/hype.py:303-304 | the search from a position finds a link exactly when one starts at or after it |
| Spam.HasLinks | hype/hype.py:298-304 | `_has_links` holds exactly when some position starts a link of the pattern |
| Spam.HasLinksInContext | hype/hype.py:303-304 | surrounding text never hides a link |
| Spam.BarePrefixIsNoLink | hype/hype.py:303 | wherever `www.` or `https://` occurs, a link starts there exactly when a URL character follows the prefix |
| Scoring.TagScoreAppend | hype/hype.py:341-346 | the hashtag sum is additive over the tag list |
| Scoring.TagScoreUnknownTags | hype/hype.py:343 | tags without a weight contribute 0 |
| Scoring.TagScoreCons | hype/hype.py:342-346 | a weighted tag adds its weight, negative or not, once per occurrence |
| Scoring.FirstMatch | hype/hype.py:326-333 | the first related term, in declaration order, that occurs in the text; none exactly when no term occurs |
| Scoring.BonusFirstMatch | hype/hype.py:319-333 | a main hashtag already among the tags, or with a base weight of 0 or less, adds nothing; otherwise the first matching term adds base × multiplier, and no match adds nothing |
| Scoring.SumBonusesAppend | hype/hype.py:318-335 | bonuses of different main hashtags add up |
| Scoring.SumBonusesSingle | hype/hype.py:319-333 | a one-entry table gives exactly that entry's bonus |
| Scoring.SubstringMatch | hype/hype.py:327 | "container" matches text containing "containers" |
| Scoring.CalculateRelatedHashtagScore | hype/hype.py:306-335 | the loops compute the related bonus: 0 with an empty table, otherwise the sum of the per-entry bonuses |
| Scoring.EntryBonus | hype/hype.py:320-333 | the inner loop returns the bonus of one main hashtag, breaking at the first match |
| Scoring.ScoreStatus | hype/hype.py:337-379 | the score is the tag score plus the related bonus, engagement and media bonus, minus the emoji and link penalties |
| Scoring.MediaBonusDelta | hype/hype.py:361-362 | having media adds exactly `prefer_media` |
| Scoring.EmojiPenaltyStep | hype/hype.py:369-372 | emojis up to the threshold cost nothing; each further one costs `spam_emoji_penalty` |
| Scoring.ExcessPenaltyStep | hype/hype.py:370-372 | one more counted item adds one penalty once the threshold is reached |
| Scoring.EngagementMonotone | hype/hype.py:353-358 | with an increasing `log1p`, more reblogs, favourites or replies never lower the engagement term |
| ConfigLoader.LoadInterval | hype/config.py:82-84 | `interval` is taken when truthy; otherwise the prior value stays |
| ConfigLoader.LimitOf | hype/config.py:103 | a subscription's limit is read from its `limit` key |
| ConfigLoader.InstancesFrom | hype/config.py:102-105 | one `Instance` per subscription entry, in order, named by its key, each with its limit clamped |
| ConfigLoader.LoadInstances | hype/config.py:101-108 | every subscribed instance has a limit in 1..20; a missing or falsy value gives none |
| ConfigLoader.StringsOf | hype/config.py:111-113 | succeeds exactly when every item is a string, and then spells the items |
| ConfigLoader.KeysOf | hype/config.py:112 | iterating over a mapping yields its keys, in order |
| ConfigLoader.CharStrings | hype/config.py:112 | iterating over a string yields its characters |
| ConfigLoader.LoadFiltered | hype/config.py:110-116 | a missing or falsy value gives no filtered instances; a list gives its elements |
| ConfigLoader.LoadInt | hype/config.py:118-131 | `int(config.get(key, prior))` |
| ConfigLoader.LoadBool | hype/config.py:133-138 | `bool(config.get(key, prior))` is the value's truthiness, or the prior value |
| ConfigLoader.CoercePreferMedia | hype/config.py:139-146 | true gives 1, false gives 0, a number becomes a float, a numeric string is parsed, anything else keeps the prior value |
| ConfigLoader.LoadLanguages | hype/config.py:161-163 | an absent value keeps the prior list; a null or empty one gives `[]` |
| ConfigLoader.ScoresFrom | hype/config.py:168-171 | succeeds exactly when every entry is a string key with an `int()`-convertible value; then every key is lower-case and each lowered entry key is present |
| ConfigLoader.ScoresFromKeys | hype/config.py:168-171 | the weights have no key other than the lowered entry keys |
| ConfigLoader.ScoresFromLastWins | hype/config.py:168-171 | a key's weight is `int(v)` of the last entry that lowers to that key |
| ConfigLoader.LoadHashtagScores | hype/config.py:168-171 | a missing or falsy mapping gives no weights; every key is lower-case |
| ConfigLoader.CheckFields | hype/config.py:95-99 | `fields` is read only when truthy, and must then be a mapping |
| ConfigLoader.Load | hype/config.py:79-81 | an empty or null document keeps every prior setting; a non-mapping document fails |
| ConfigLoader.LoadFromFields | hype/config.py:81-171 | each of the sixteen settings config.py reads is, after a successful load, the coercion of its key; every setting it does not read keeps its prior value |
| ConfigLoader.LoadedLimitsInRange | hype/config.py:23-25 | every instance limit after any successful load lies in 1..20 |
| ConfigLoader.LoadIntervalAbsent | hype/config.py:82-84 | an absent `interval` keeps the prior interval, 60 by default |
| ConfigLoader.LoadLanguagesFalsy | hype/config.py:161-163 | a null or empty `languages_allowlist` becomes `[]` |
| ConfigLoader.LoadedScoresLowerCase | hype/config.py:168-171 | every hashtag weight after a load is keyed by a lower-case name |
| ConfigLoader.LoadEmptyMapping | hype/config.py:81-171 | a non-empty mapping with none of the keys the loader reads loads without error, empties the instance lists and the weights, and keeps the interval, caps, limits, languages, cache size and media preference |
| ConfigLoader.UnreadSettings | hype/config.py:82-171 | with none of those keys present, each coercion returns its prior value, or an empty list or mapping |
| Candidates.PyTake | hype/hype.py:738 | `s[:limit]` is a prefix of length `limit`, capped by the length; a negative limit drops that many items from the end |
| Candidates.Scores | hype/hype.py:425 | the scores of the entries, in order |
| Candidates.InstanceEntries | hype/hype.py:738 | an instance contributes exactly its first `min(limit, fetched)` posts, in order (a negative limit drops that many from the end), each with its score |
| Candidates.Collected | hype/hype.py:601-609 | every collected entry carries the score of its post |
| Candidates.CollectedBound | hype/hype.py:738 | a cycle collects at most 20 posts per subscribed instance |
| Candidates.CollectCandidates | hype/hype.py:601-609 | the collection loop builds exactly the collected list |
| Candidates.ScoreInstance | hype/hype.py:606-609 | the inner loop scores one instance's posts, in order |
| Candidates.AtLeast | hype/hype.py:617-620 | keeps only entries at or above the threshold, every such entry, and nothing that was not there |
| Candidates.AtLeastSingle | hype/hype.py:617-620 | a single entry is kept exactly when it reaches the threshold |
| Candidates.AtLeastAppend | hype/hype.py:617-620 | filtering distributes over concatenation, so kept entries stay in their order and multiplicity |
| Candidates.Qualified | hype/hype.py:616-625 | the threshold applies only when it is positive |
| Candidates.QualifiedMeetsThreshold | hype/hype.py:616-631 | with a positive threshold, every kept entry reaches it, and nothing is kept when nothing does |
| Normalize.MinOf | hype/hype.py:426 | `min` is a lower bound attained by some score |
| Normalize.MaxOf | hype/hype.py:427 | `max` is an upper bound attained by some score |
| Normalize.Normalized | hype/hype.py:422-434 | one normalized score per input score |
| Normalize.NormalizedAt | hype/hype.py:428-434 | each score becomes 100 when all are equal, and `(x - lo) / span * 100` otherwise |
| Normalize.RescaleFacts | hype/hype.py:432-434 | rescaling keeps order both ways and maps the ends of the range to 0 and 100 |
| Normalize.NormalizedInRange | hype/hype.py:422-434 | every normalized score lies in 0..100 |
| Normalize.NormalizedAllEqual | hype/hype.py:428-431 | all-equal scores all become 100 |
| Normalize.NormalizedEnds | hype/hype.py:432-434 | otherwise a score becomes 0 exactly when it is the minimum, and 100 exactly when it is the maximum |
| Normalize.NormalizedKeepsOrder | hype/hype.py:422-434 | normalization keeps the order of any two scores, both ways |
| Normalize.NormalizeScores | hype/hype.py:422-434 | the in-place loop leaves the normalized scores and keeps each entry's instance and post |
| Normalize.RescaleEach | hype/hype.py:428-434 | the loop sets every entry's score to 100 when all scores are equal, and to its rescaled score otherwise; nothing else changes |
| Ranking.Insert | hype/hype.py:634-637 | insertion adds one element and keeps the others |
| Ranking.Rank | hype/hype.py:634-637 | ranking permutes the candidates |
| Ranking.InsertDescending | hype/hype.py:634-637 | inserting into a descending list keeps it descending |
| Ranking.RankDescending | hype/hype.py:634-637 | the ranked list is descending by (score, created_at) |
| Ranking.InsertStable | hype/hype.py:634-637 | an inserted element goes ahead of those that share its key |
| Ranking.RankStable | hype/hype.py:634-637 | candidates with equal keys keep their relative order |
| Ranking.TieNewerFirst | hype/hype.py:634-637 | on equal scores the newer post ranks first |
| Ranking.RankFirstIsBest | hype/hype.py:634-637 | the first ranked candidate has the highest score |
| Federation.ReblogWithFallback | hype/hype.py:477-571 | a boost succeeds exactly when there is a status to track, exactly when the reason is a direct reblog or a reblog after resolving |
| Federation.ReblogSucceedsIff | hype/hype.py:490-546 | success iff the post has a URI and the direct reblog succeeds, or it answers 404, federation is on, the search finds the post and the retry succeeds |
| Federation.TrackedStatus | hype/hype.py:499-546 | the trending post is tracked after a direct reblog, and the search's copy after federation |
| Federation.NoFederationNoSearch | hype/hype.py:504-514 | with federation off, only a direct reblog can succeed, and a 404 ends the attempt |
| Bot.Bump | hype/hype.py:211 | the author's count goes up by exactly one; every other author's count stays |
| Bot.Ticked | hype/hype.py:128-139 | a changed day key zeroes the day count and the author counts; a changed hour key zeroes only the hour count; nothing else changes |
| Bot.TickedIdempotent | hype/hype.py:128-139 | ticking twice at the same clock is ticking once |
| Bot.NewHourSameDay | hype/hype.py:137-139 | a new hour on the same day resets only the hour count |
| Bot.Counted | hype/hype.py:148-151 | a counted boost adds exactly one to both counters and changes nothing else |
| Bot.CountedWithinCaps | hype/hype.py:141-151 | a boost counted while the cap is open leaves both counters within their caps |
| Bot.RememberKeys | hype/hype.py:205-210 | the cache takes the id, then the URL when there is one |
| Bot.AnyAtLimit | hype/hype.py:157-164 | some tag of the list has reached the limit in the run |
| Bot.HashtagDiversityHit | hype/hype.py:153-165 | false when disabled; otherwise true iff some lowered tag already occurs at least `max_boosts_per_hashtag_per_run` times in the run list |
| Bot.SeenStatus | hype/hype.py:167-183 | seen iff the id or URL is cached, or the post is reblogged, or the author limit is hit, or the hashtag limit is hit |
| Bot.RememberedIsSeen | hype/hype.py:204-210 | with a cache of size 1 or more, a remembered post is then seen |
| Bot.ZeroCacheKeepsNothing | hype/hype.py:71-74 | a cache of size 0 keeps nothing |
| Bot.AuthorLimitReached | hype/hype.py:176-180 | once an author's count reaches the daily maximum, that author's posts are seen |
| Bot.HashtagLimitReached | hype/hype.py:153-165 | once a tag reaches the run maximum, posts carrying it are seen |
| Bot.BoostedNone | hype/hype.py:655-657 | a cycle that boosts nothing leaves the state as it was |
| Bot.BoostedStep | hype/hype.py:716-718 | each boost is a counted boost followed by remembering the tracked post |
| Bot.BoostedLast | hype/hype.py:716-718 | the state after a list of boosts is the state after all but the last, counted, with the last post remembered |
| Bot.BumpedCountsAuthors | hype/hype.py:211 | every boosted author's count is at least one |
| Bot.Rescored | hype/hype.py:433-434 | each entry keeps its instance and post and takes its new score |
| Bot.RescoredInPlace | hype/hype.py:633 | the entries after in-place normalization are the rescored entries |
| Bot.PreparedOrdered | hype/hype.py:633-637 | the ranked list is descending, with scores in 0..100 |
| Bot.InRescoredRank | hype/hype.py:633-637 | every ranked entry is a qualified entry with its new score |
| Bot.CollectedScored | hype/hype.py:606-609 | a collected entry's score is its post's raw score |
| Bot.PreparedMeetsThreshold | hype/hype.py:616-625 | with a positive threshold, every ranked post reaches it on its raw score |
| Bot.PreparedEmptyWhenNoneQualifies | hype/hype.py:616-631 | when no post reaches a positive threshold, nothing is ranked |
| Bot.AttemptedMeetThreshold | hype/hype.py:616-625 | with a positive threshold, every ranked post the loop can attempt reached it on its raw score |
| Bot.VisitedExtend | hype/hype.py:657 | attempts stay in ranked order as the loop moves on |
| Bot.VisitedWiden | hype/hype.py:657 | attempts below one position are below every later one |
| Bot.WithinLimitsExtend | hype/hype.py:658-659 | an attempt made below the run maximum and with the caps open keeps every attempt within limits |
| Bot.WinnersStep | hype/hype.py:710-718 | an attempt adds its tracked post when it succeeds, and nothing when it fails |
| Bot.WinnersAtMostTried | hype/hype.py:710-712 | no more posts are remembered than attempted, and none when every attempt fails |
| Bot.CountsBeforeExtend | hype/hype.py:710-718 | an attempt appended after the others is made with every earlier success already counted |
| Bot.Step | hype/hype.py:657-724 | one iteration adds at most the current position to the attempts, and adds a post to the boosts only when that attempt succeeded, the post added being the tracked one |
| Bot.StepStops | hype/hype.py:658-662 | at the run's maximum or with a cap closed the loop breaks, with nothing new |
| Bot.StepSkips | hype/hype.py:679-696 | a seen, filtered-instance or rule-filtered post is passed over, with nothing new |
| Bot.StepAttempts | hype/hype.py:698-724 | an eligible post is attempted; a success is boosted and breaks the loop exactly when it fills the hour's cap; a failure goes on |
| Bot.Greedy | hype/hype.py:657-724 | running the loop on from any point only appends: earlier attempts and boosts stay as they were |
| Bot.GreedyUnfold | hype/hype.py:657-724 | the loop is one iteration followed, unless that iteration breaks, by the loop from the next position |
| Bot.RecordStart | hype/hype.py:651-657 | before the loop nothing is attempted or boosted, and the loop's record holds |
| Bot.RecordSkip | hype/hype.py:657-696 | passing over a post keeps the loop's record: ranked order, admitted attempts, counts before each attempt, caps and winners |
| Bot.RecordAttempt | hype/hype.py:698-718 | an attempt below the run's maximum with both caps open keeps the loop's record, with the attempt made after exactly the earlier successes |
| Bot.StepRecord | hype/hype.py:657-724 | every iteration of the loop preserves its record |
| Bot.GreedyAttemptsEligible | hype/hype.py:657-712 | with the run's maximum and both caps allowing a boost, the next post that is neither seen nor filtered is attempted |
| Bot.Hype.constructor | hype/hype.py:70-77 | the cache is the saved ids cut to `seen_cache_size`, the rest of the saved state is kept, and the run's hashtags start empty |
| Bot.Hype.TickCounters | hype/hype.py:128-139 | the new state is the ticked old one |
| Bot.Hype.PublicCapAvailable | hype/hype.py:141-146 | ticks, then answers iff day_count < daily_public_cap and hour_count < per_hour_public_cap |
| Bot.Hype.CountPublicBoost | hype/hype.py:148-151 | ticks, then adds one to both counters |
| Bot.Hype.RememberStatus | hype/hype.py:204-219 | appends the id and URL to the cache and evicts beyond its bound; adds one to the author's count; records the tags only under hashtag diversity; nothing else changes |
| Bot.Hype.AppendTags | hype/hype.py:216-219 | the tag loop appends every name, in order |
| Bot.Hype.ConsiderCandidate | hype/hype.py:667-718 | a candidate is attempted exactly when it is not seen and passes the filters; a failed attempt changes nothing; a success counts and remembers the tracked post |
| Bot.Hype.DecisionStep | hype/hype.py:657-724 | one iteration is exactly `Step`, with the state being the start state with the successes counted and remembered; it stops exactly at the run's maximum, at a closed cap, or after a boost that fills the hour's cap; it is one step of `Greedy` |
| Bot.Hype.DecisionLoop | hype/hype.py:657-724 | the attempts and boosts are exactly those of `Greedy`: every unseen, admitted post is attempted until a stop; attempts are in ranked order, each with the earlier successes counted, below the run maximum and with both caps open; the state is the start state with exactly the successful posts counted and remembered |
| Bot.Hype.RankedCandidates | hype/hype.py:601-637 | the ranked list is `Prepared`: collected, threshold-filtered, normalized and sorted |
| Bot.Hype.NormalizedCopy | hype/hype.py:633 | normalizing a copy of the candidate list in place gives the rescored entries |
| Bot.Hype.Boost | hype/hype.py:573-724 | resets the run hashtags; without subscriptions boosts nothing; otherwise ticks, ranks nothing when a cap is closed and `Prepared` otherwise, then the decision loop's guarantees hold (details below) |

What `Bot.Hype.Boost` promises:

- **No subscribed instances.** Nothing changes except the run's hashtag list.
- **Otherwise,** let `t` be the state after the first tick. Then:
  - when a cap is closed at `t`, nothing is ranked; otherwise the ranked list is exactly `Prepared`;
  - the final state is `t` with the successful posts remembered and counted;
  - the positions attempted and the posts boosted are exactly those of `Bot.Greedy`, the loop's behaviour as a function: a post is skipped only when it is seen, from a filtered instance or filtered by the content rules; the loop stops only at the end of the list, at the run's maximum, at a closed cap, or after a boost that fills the hour's cap;
  - reblog attempts are made in ranked order;
  - every attempt is made with exactly the earlier successes counted, below the run's maximum and with both caps open;
  - every attempted post is not reblogged, is not from a filtered instance and passes the content rules;
  - with a positive threshold, every attempted post reaches it on its raw score;
  - the remembered posts are exactly the tracked posts of the successful attempts;
  - the boosts never exceed `max_boosts_per_run`, and the counters never exceed their caps.

## Left out

Outside the core:

- **Network and client calls.** `login`, `update_profile`, `init_client`, `_fetch_trending_statuses` and `_fetch_status_from_remote` are network I/O.
  - The trending fetch is the parameter `fetch`, with the cut to `instance.limit` kept.
  - The API outcomes are the parameter `attempts`.
- **Persistence and process.**
  - `_load_state` and `_save_state` are file I/O. The constructor takes the loaded state as a value, and `Bot.FreshState` is `_load_state`'s fallback.
  - Logging, the `debug_decisions` tracing and the `schedule` loop in `start` are side effects only.
- **Floating point and clock.** `math.log1p` is a parameter, and age decay (`0.5 ** (age / half_life)` with the wall clock) is left out.
  - `Scoring.ScoreStatus` is `score_status` with age decay disabled.
  - `_created_at` takes integer timestamps: ISO-8601 parsing is the library's.
- **YAML file reading** in `Config.__init__` belongs to the library. The loader works on an already-parsed document, and the auth file (`bot_account`) is not read.

Settings not kept:

- **`log_level`, `profile_prefix`, `fields` values and `state_path`** are read by config.py but play no part in decisions. For `fields`, only its shape check is kept.

Deliberately weaker or coarser than the source:

- **Text.Lower** lowers ASCII letters only. Python's `str.lower` also lowers other Unicode letters.
- **PyValues.ParseFloat** accepts decimal literals with an optional exponent only. `inf`, `nan` and underscores in the mantissa are not modelled, so such a `prefer_media` string keeps the prior value in the model. The exponent is read like an `int()` literal, underscores included.
- **PyValues.ToInt** reads only the ASCII digits `0`-`9` from a string, where Python's `int()` also accepts any other Unicode decimal digit (`int("٣") == 3`). A setting written with such digits fails to load in the model, while config.py stores its value. Single underscores between digits are accepted, as in Python.
- **ConfigLoader.LimitOf** fails for a limit that is a float or a string. (`Instance` would compare it, or raise.)
- **ConfigLoader.LoadLanguages** fails for a truthy allowlist that is not a list of strings. The source keeps such a value as it is.
- **ConfigLoader.StringsOf** fails when a filtered instance name is not a string, so the model keeps only names the filter can match.
- **Bot.Hype.Boost** reads the clock once per cycle. The source reads it at every tick, so a cycle that crosses midnight or an hour boundary resets counters halfway through in the source but not in the model.
- **ConfigLoader.InstancesFrom** fails for a subscription whose name is not a string, such as an integer YAML key. config.py keeps such a key as the instance's name; the model's `Instance` names are strings.
- **Statuses.Acct** (and `Statuses.Author` beside it) reads a post whose `account` or `acct` is present but null as having no account name: "" (and "unknown"). In the source, a null `account` raises in `_seen_status` (hype/hype.py:170), and a null `acct` raises at the split in `boost` (hype/hype.py:685); either ends the cycle there.
- **Statuses.Sid** reads a present but null `id` as "unknown", the key of a post with no `id`. In the source `status.get("id", "unknown")` gives None for it (hype/hype.py:167, 205), so the two posts have different seen-cache keys there and the same one in the model.
- **ConfigLoader.InstancesFrom** (and the other readers of a mapping) take a mapping as its list of entries. A YAML mapping with a repeated key gives a dict holding the last value once, but here it gives both entries.
- **Ranking.Rank**: `collected.sort(...)` sorts in place. The model computes the same (stable) order as a value.
- **Bot.Hype.constructor** requires `seen_cache_size >= 0`, because `deque(maxlen=n)` raises for a negative `n`.

Where the code and the design description of the system differ, the model follows the code:

- **Author limit.** It is a count per UTC calendar day, cleared when the day key changes, not a rolling 24-hour window per author.
- **Link penalty.** It is subtracted whenever a link is present, with no test that the penalty is positive.
- **Seen cache.** It holds the status ids as well as the URLs.
- **URL key.** `_seen_status` and `_remember_status` use `url or uri`, while the federation fallback uses `uri or url`.
- **Tracked post.** The seen and author checks look at the trending post, but a federated boost remembers the search's copy, whose id and account may differ.
- **Undeclared settings.** hype/hype.py reads settings that hype/config.py does not declare:
  - `min_replies`;
  - `related_hashtags`;
  - the spam penalties and threshold;
  - `min_score_threshold`;
  - `hashtag_diversity_enforced` and its maximum;
  - `federate_missing_statuses`;
  - age decay;
  - `debug_decisions`;
  - `logfile_path`.

  `Settings.Defaults` gives `min_replies`, `related_hashtags`, the spam settings, `min_score_threshold` and hashtag diversity the values of the test configuration (tests/test_seen_status.py), which switches each of them off. That configuration has no `federate_missing_statuses`; the model chooses `false` for it. Age decay, `debug_decisions` and `logfile_path` play no part in the model.
