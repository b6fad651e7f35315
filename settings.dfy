/**
 * The settings the bot's core reads, and the subscribed-instance record of
 * hype/config.py.
 */
module Settings {
  import opened PyValues

  /** The largest number of trending posts taken from one instance. */
  const MaxInstanceLimit: int := 20

  /** `Instance.__init__`: a limit outside 1..20 becomes 20. */
  function ClampLimit(limit: int): (r: int)
    ensures 1 <= r <= MaxInstanceLimit
    ensures 1 <= limit <= MaxInstanceLimit ==> r == limit
    ensures limit <= 0 || limit > MaxInstanceLimit ==> r == MaxInstanceLimit
  {
    if limit > 0 && limit <= MaxInstanceLimit then limit else MaxInstanceLimit
  }

  /** A subscribed instance: its host name and how many trending posts to take from it. */
  datatype Instance = Instance(name: string, limit: int)

  /** The only way the source builds an `Instance`. */
  function MakeInstance(name: string, limit: int): (inst: Instance)
    ensures inst.name == name
    ensures 1 <= inst.limit <= MaxInstanceLimit
    ensures 1 <= limit <= MaxInstanceLimit ==> inst.limit == limit
  {
    Instance(name, ClampLimit(limit))
  }

  /** A related-term table: main hashtag -> (term, multiplier) pairs, in declaration order. */
  type RelatedTable = seq<(string, seq<(string, real)>)>

  /**
   * Every setting hype/hype.py reads from its configuration object. The
   * integer fields are Python ints, the weights and penalties Python numbers.
   * The polling interval is kept as the parsed value it was given, since
   * hype/config.py stores it without conversion.
   */
  datatype Config = Config(
    interval: Value,
    subscribedInstances: seq<Instance>,
    filteredInstances: seq<string>,
    dailyPublicCap: int,
    perHourPublicCap: int,
    maxBoostsPerRun: int,
    maxBoostsPerAuthorPerDay: int,
    authorDiversityEnforced: bool,
    hashtagDiversityEnforced: bool,
    maxBoostsPerHashtagPerRun: int,
    preferMedia: real,
    requireMedia: bool,
    skipSensitiveWithoutCw: bool,
    minReblogs: int,
    minFavourites: int,
    minReplies: int,
    languagesAllowlist: seq<string>,
    seenCacheSize: int,
    hashtagScores: map<string, real>,
    relatedHashtags: RelatedTable,
    spamEmojiThreshold: int,
    spamEmojiPenalty: real,
    spamLinkPenalty: real,
    minScoreThreshold: real,
    federateMissingStatuses: bool)

  /**
   * The class-level defaults of `Config` in hype/config.py. Of the settings
   * that class does not declare, hashtag diversity, minimum replies, related
   * hashtags, the spam penalties and the quality threshold take the values of
   * the test configuration in tests/test_seen_status.py, which leaves each of
   * them switched off. That configuration has no `federate_missing_statuses`;
   * the model chooses `false` for it, which keeps the fallback off too.
   */
  const Defaults: Config := Config(
    interval := VInt(60),
    subscribedInstances := [],
    filteredInstances := [],
    dailyPublicCap := 48,
    perHourPublicCap := 1,
    maxBoostsPerRun := 5,
    maxBoostsPerAuthorPerDay := 1,
    authorDiversityEnforced := true,
    hashtagDiversityEnforced := false,
    maxBoostsPerHashtagPerRun := 1,
    preferMedia := 0.0,
    requireMedia := true,
    skipSensitiveWithoutCw := true,
    minReblogs := 0,
    minFavourites := 0,
    minReplies := 0,
    languagesAllowlist := [],
    seenCacheSize := 6000,
    hashtagScores := map[],
    relatedHashtags := [],
    spamEmojiThreshold := 2,
    spamEmojiPenalty := 0.0,
    spamLinkPenalty := 0.0,
    minScoreThreshold := 0.0,
    federateMissingStatuses := false)
}
