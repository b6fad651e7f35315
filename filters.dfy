/** The content rules that reject a status before any boost is attempted (hype/hype.py). */
module Filters {
  import opened Wrappers
  import opened Text
  import opened Statuses
  import opened Settings

  /**
   * `_should_skip_status`: a status is skipped when media is required and it
   * has none, when it is sensitive with a blank content warning and such posts
   * are skipped, when a non-empty language allowlist lacks its lower-cased
   * language, or when any of its engagement counts is below the minimum.
   */
  predicate ShouldSkipStatus(cfg: Config, s: Status)
  {
    var spoiler := Strip(s.spoilerText.GetOr(""));
    var lang := Lower(s.language.GetOr(""));
    || (cfg.requireMedia && !HasMedia(s))
    || (cfg.skipSensitiveWithoutCw && s.sensitive && spoiler == [])
    || (cfg.languagesAllowlist != [] && lang !in cfg.languagesAllowlist)
    || s.reblogsCount < cfg.minReblogs
    || s.favouritesCount < cfg.minFavourites
    || s.repliesCount < cfg.minReplies
  }

  /** The content warning is missing or made of whitespace only. */
  ghost predicate BlankWarning(s: Status) {
    forall i :: 0 <= i < |s.spoilerText.GetOr("")| ==> IsSpace(s.spoilerText.GetOr("")[i])
  }

  /** `_should_skip_status` is exactly the disjunction of its six rules. */
  lemma ShouldSkipIff(cfg: Config, s: Status)
    ensures ShouldSkipStatus(cfg, s) <==>
      || (cfg.requireMedia && s.mediaCount == 0)
      || (cfg.skipSensitiveWithoutCw && s.sensitive && BlankWarning(s))
      || (|cfg.languagesAllowlist| > 0 && Lower(s.language.GetOr("")) !in cfg.languagesAllowlist)
      || s.reblogsCount < cfg.minReblogs
      || s.favouritesCount < cfg.minFavourites
      || s.repliesCount < cfg.minReplies
  {
    StripEmptyIffBlank(s.spoilerText.GetOr(""));
  }

  /**
   * More engagement never gets a status skipped: a status that passes keeps
   * passing when its counts grow, and nothing else changes.
   */
  lemma MoreEngagementStillPasses(cfg: Config, s: Status, reblogs: nat, favourites: nat, replies: nat)
    requires !ShouldSkipStatus(cfg, s)
    requires reblogs >= s.reblogsCount && favourites >= s.favouritesCount && replies >= s.repliesCount
    ensures !ShouldSkipStatus(cfg, s.(reblogsCount := reblogs, favouritesCount := favourites, repliesCount := replies))
  {
  }

  /**
   * The minimums are inclusive: with every count at or above its minimum
   * (equal to it included), only the media, content-warning and language
   * rules can skip a status.
   */
  lemma CountAtMinimumPasses(cfg: Config, s: Status)
    requires s.reblogsCount >= cfg.minReblogs && s.favouritesCount >= cfg.minFavourites
    requires s.repliesCount >= cfg.minReplies
    ensures ShouldSkipStatus(cfg, s) <==>
      || (cfg.requireMedia && !HasMedia(s))
      || (cfg.skipSensitiveWithoutCw && s.sensitive && Strip(s.spoilerText.GetOr("")) == [])
      || (cfg.languagesAllowlist != [] && Lower(s.language.GetOr("")) !in cfg.languagesAllowlist)
  {
  }

  /**
   * The server part of an account name: what follows the last `@`, or ""
   * when there is no `@` (`acct.split("@")`, then the last piece if there are two or more).
   */
  function ServerOf(acct: string): (server: string)
    ensures '@' !in server
    ensures '@' !in acct ==> server == ""
    ensures '@' in acct ==> exists user :: acct == user + "@" + server
  {
    var parts := Split(acct, '@');
    SplitCount(acct, '@');
    if |parts| > 1 then
      JoinSplit(acct, '@');
      JoinLast(parts, '@');
      assert acct == Join(parts[..|parts| - 1], '@') + "@" + parts[|parts| - 1];
      parts[|parts| - 1]
    else
      ""
  }

  /** The filtered-instance rule of `boost`: the author's server is on the deny list. */
  predicate FromFilteredInstance(cfg: Config, s: Status) {
    ServerOf(Acct(s)) in cfg.filteredInstances
  }

  /** A local account name (no `@`) is judged as the server "". */
  lemma LocalAccountServer(cfg: Config, s: Status)
    requires '@' !in Acct(s)
    ensures FromFilteredInstance(cfg, s) <==> "" in cfg.filteredInstances
  {
  }
}
