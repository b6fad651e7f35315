/**
 * The `Hype` class of hype/hype.py: the admission state the bot keeps between
 * cycles (the seen cache, the authors boosted today, the hashtags boosted in
 * the current run, and the day and hour counters behind the public caps),
 * the operations that read and update it, and the boost cycle.
 */
module Bot {
  import opened Wrappers
  import opened Seqs
  import opened Text
  import opened Statuses
  import opened Settings
  import opened Filters
  import opened Scoring
  import opened Candidates
  import opened Normalize
  import opened Ranking
  import opened Federation

  /**
   * The admission state as a value. A day or hour key stands for the
   * formatted UTC clock (`%Y-%m-%d`, `%Y-%m-%dT%H`); None is the empty key of
   * a fresh state, which no clock reading equals.
   */
  datatype BotState = BotState(
    seen: seq<string>,
    boostedToday: map<string, nat>,
    hashtagsThisRun: seq<string>,
    day: Option<int>,
    dayCount: nat,
    hour: Option<int>,
    hourCount: nat)

  /** The state `_load_state` falls back to when there is no readable state file. */
  const FreshState: BotState := BotState([], map[], [], None, 0, None, 0)

  /** `_boosted_today.get(author, 0)` */
  function AuthorCount(m: map<string, nat>, author: string): nat {
    if author in m then m[author] else 0
  }

  /** One more boost for `author` today. */
  function Bump(m: map<string, nat>, author: string): (r: map<string, nat>)
    ensures AuthorCount(r, author) == AuthorCount(m, author) + 1
    ensures forall a :: a != author ==> AuthorCount(r, a) == AuthorCount(m, a)
    ensures r.Keys == m.Keys + {author}
  {
    m[author := AuthorCount(m, author) + 1]
  }

  /**
   * `_tick_counters` at the given clock: a new day starts the day count and
   * the per-author counts afresh, a new hour starts the hour count afresh.
   */
  function Ticked(st: BotState, dayKey: int, hourKey: int): (t: BotState)
    ensures t.day == Some(dayKey) && t.hour == Some(hourKey)
    ensures t.seen == st.seen && t.hashtagsThisRun == st.hashtagsThisRun
    ensures st.day == Some(dayKey) ==> t.dayCount == st.dayCount && t.boostedToday == st.boostedToday
    ensures st.day != Some(dayKey) ==> t.dayCount == 0 && t.boostedToday == map[]
    ensures st.hour == Some(hourKey) ==> t.hourCount == st.hourCount
    ensures st.hour != Some(hourKey) ==> t.hourCount == 0
  {
    var d := if st.day == Some(dayKey) then st else st.(day := Some(dayKey), dayCount := 0, boostedToday := map[]);
    if d.hour == Some(hourKey) then d else d.(hour := Some(hourKey), hourCount := 0)
  }

  /** Ticking twice at the same clock is ticking once. */
  lemma TickedIdempotent(st: BotState, dayKey: int, hourKey: int)
    ensures Ticked(Ticked(st, dayKey, hourKey), dayKey, hourKey) == Ticked(st, dayKey, hourKey)
  {
  }

  /** A new hour within the same day clears only the hour count. */
  lemma NewHourSameDay(st: BotState, dayKey: int, hourKey: int)
    requires st.day == Some(dayKey) && st.hour != Some(hourKey)
    ensures Ticked(st, dayKey, hourKey) == st.(hour := Some(hourKey), hourCount := 0)
  {
  }

  /** The check of `_public_cap_available`, made on the ticked state. */
  predicate CapOpen(cfg: Config, st: BotState) {
    st.dayCount < cfg.dailyPublicCap && st.hourCount < cfg.perHourPublicCap
  }

  /** `_count_public_boost` after its tick: one more boost today and this hour. */
  function Counted(st: BotState): (r: BotState)
    ensures r.dayCount == st.dayCount + 1 && r.hourCount == st.hourCount + 1
    ensures r.(dayCount := st.dayCount, hourCount := st.hourCount) == st
  {
    st.(dayCount := st.dayCount + 1, hourCount := st.hourCount + 1)
  }

  /** A boost counted while the cap was open leaves both counters within their caps. */
  lemma CountedWithinCaps(cfg: Config, st: BotState)
    requires CapOpen(cfg, st)
    ensures Counted(st).dayCount <= cfg.dailyPublicCap && Counted(st).hourCount <= cfg.perHourPublicCap
  {
  }

  /** What `_remember_status` appends to the seen cache: the id, then the URL when there is one. */
  function RememberKeys(s: Status): (keys: seq<string>)
    ensures 1 <= |keys| <= 2 && keys[0] == Sid(s)
    ensures |keys| == 2 <==> TrackedUrl(s).Some?
    ensures TrackedUrl(s).Some? ==> keys[1] == TrackedUrl(s).value
  {
    [Sid(s)] + (if TrackedUrl(s).Some? then [TrackedUrl(s).value] else [])
  }

  /**
   * `_remember_status(s)`: the cache takes the keys of `s` and evicts the
   * oldest ones beyond `seen_cache_size`, the author's count goes up by one,
   * and with hashtag diversity on the run records the post's tag names.
   */
  function Remembered(cfg: Config, st: BotState, s: Status): BotState
    requires cfg.seenCacheSize >= 0
  {
    st.(seen := KeepLast(st.seen + RememberKeys(s), cfg.seenCacheSize as nat),
        boostedToday := Bump(st.boostedToday, Author(s)),
        hashtagsThisRun :=
          if cfg.hashtagDiversityEnforced then st.hashtagsThisRun + TagNames(s) else st.hashtagsThisRun)
  }

  /** Some tag of `names` has been boosted `limit` times or more in `run`. */
  function AnyAtLimit(run: seq<string>, names: seq<string>, limit: int): (r: bool)
    ensures r <==> exists i :: 0 <= i < |names| && Count(run, names[i]) >= limit
  {
    if names == [] then false
    else if Count(run, names[0]) >= limit then true
    else
      var r := AnyAtLimit(run, names[1..], limit);
      assert r ==> exists i :: 0 <= i < |names| && Count(run, names[i]) >= limit by {
        if r {
          var i :| 0 <= i < |names[1..]| && Count(run, names[1..][i]) >= limit;
          assert names[i + 1] == names[1..][i];
        }
      }
      assert (exists i :: 0 <= i < |names| && Count(run, names[i]) >= limit) ==> r by {
        if exists i :: 0 <= i < |names| && Count(run, names[i]) >= limit {
          var i :| 0 <= i < |names| && Count(run, names[i]) >= limit;
          assert i > 0 && names[1..][i - 1] == names[i];
        }
      }
      r
  }

  /**
   * `_hashtag_diversity_hit`: with hashtag diversity on, some tag of the post
   * has already been boosted `max_boosts_per_hashtag_per_run` times in this run.
   */
  function HashtagDiversityHit(cfg: Config, run: seq<string>, s: Status): (r: bool)
    ensures r <==> (cfg.hashtagDiversityEnforced &&
      exists i :: 0 <= i < |s.tags| && Count(run, Lower(s.tags[i])) >= cfg.maxBoostsPerHashtagPerRun)
  {
    var names := TagNames(s);
    var hit := AnyAtLimit(run, names, cfg.maxBoostsPerHashtagPerRun);
    assert hit <==> exists i :: 0 <= i < |s.tags| && Count(run, Lower(s.tags[i])) >= cfg.maxBoostsPerHashtagPerRun by {
      if hit {
        var i :| 0 <= i < |names| && Count(run, names[i]) >= cfg.maxBoostsPerHashtagPerRun;
        assert names[i] == Lower(s.tags[i]);
      }
    }
    cfg.hashtagDiversityEnforced && hit
  }

  /**
   * `_seen_status`: the post's id or URL is in the cache, the bot already
   * reblogged it, its author has had the day's share of boosts, or one of its
   * hashtags has had the run's share.
   */
  predicate SeenStatus(cfg: Config, st: BotState, s: Status): (r: bool)
    ensures r <==>
      (Sid(s) in st.seen
       || (TrackedUrl(s).Some? && TrackedUrl(s).value in st.seen)
       || s.reblogged
       || (cfg.authorDiversityEnforced && AuthorCount(st.boostedToday, Author(s)) >= cfg.maxBoostsPerAuthorPerDay)
       || (cfg.hashtagDiversityEnforced &&
           exists i :: 0 <= i < |s.tags| && Count(st.hashtagsThisRun, Lower(s.tags[i])) >= cfg.maxBoostsPerHashtagPerRun))
  {
    Sid(s) in st.seen
    || (TrackedUrl(s).Some? && TrackedUrl(s).value in st.seen)
    || s.reblogged
    || (cfg.authorDiversityEnforced && AuthorCount(st.boostedToday, Author(s)) >= cfg.maxBoostsPerAuthorPerDay)
    || HashtagDiversityHit(cfg, st.hashtagsThisRun, s)
  }

  /** Once remembered, a post is seen, as long as the cache holds anything at all. */
  lemma RememberedIsSeen(cfg: Config, st: BotState, s: Status)
    requires cfg.seenCacheSize >= 1
    ensures SeenStatus(cfg, Remembered(cfg, st, s), s)
  {
    var all := st.seen + RememberKeys(s);
    var kept := Remembered(cfg, st, s).seen;
    assert kept[|kept| - 1] == all[|all| - 1];
    assert all[|all| - 1] == RememberKeys(s)[|RememberKeys(s)| - 1];
  }

  /** A cache of size zero forgets at once: remembering leaves nothing in it. */
  lemma ZeroCacheKeepsNothing(cfg: Config, st: BotState, s: Status)
    requires cfg.seenCacheSize == 0
    ensures Remembered(cfg, st, s).seen == []
  {
  }

  /**
   * Author diversity: once an author's count reaches the daily maximum, every
   * further post by that author is seen.
   */
  lemma AuthorLimitReached(cfg: Config, st: BotState, s: Status, t: Status)
    requires cfg.seenCacheSize >= 0 && cfg.authorDiversityEnforced
    requires Author(t) == Author(s) && AuthorCount(st.boostedToday, Author(s)) + 1 >= cfg.maxBoostsPerAuthorPerDay
    ensures SeenStatus(cfg, Remembered(cfg, st, s), t)
  {
  }

  /**
   * Hashtag diversity: a post sharing a tag with one just remembered is seen
   * when that tag then reaches the run's maximum.
   */
  lemma {:induction false} HashtagLimitReached(cfg: Config, st: BotState, s: Status, t: Status, i: nat, j: nat)
    requires cfg.seenCacheSize >= 0 && cfg.hashtagDiversityEnforced
    requires i < |s.tags| && j < |t.tags| && Lower(s.tags[i]) == Lower(t.tags[j])
    requires Count(st.hashtagsThisRun, Lower(t.tags[j])) + 1 >= cfg.maxBoostsPerHashtagPerRun
    ensures SeenStatus(cfg, Remembered(cfg, st, s), t)
  {
    var tag := Lower(t.tags[j]);
    var names := TagNames(s);
    CountAppend(st.hashtagsThisRun, names, tag);
    assert names[i] == tag;
    assert Count(names, tag) >= 1;
    assert Count(Remembered(cfg, st, s).hashtagsThisRun, Lower(t.tags[j])) >= cfg.maxBoostsPerHashtagPerRun;
  }

  /** The keys remembered for a sequence of boosted posts, in order. */
  function KeysOf(won: seq<Status>): seq<string> {
    if won == [] then [] else KeysOf(won[..|won| - 1]) + RememberKeys(won[|won| - 1])
  }

  /** The per-author counts after a sequence of boosted posts. */
  function Bumped(m: map<string, nat>, won: seq<Status>): map<string, nat> {
    if won == [] then m else Bump(Bumped(m, won[..|won| - 1]), Author(won[|won| - 1]))
  }

  /** The tag names of a sequence of boosted posts, in order. */
  function TagsOf(won: seq<Status>): seq<string> {
    if won == [] then [] else TagsOf(won[..|won| - 1]) + TagNames(won[|won| - 1])
  }

  /** The state after the decision loop boosted the posts `won`, in order, starting from `st`. */
  function Boosted(cfg: Config, st: BotState, won: seq<Status>): BotState
    requires cfg.seenCacheSize >= 0
  {
    st.(seen := KeepLast(st.seen + KeysOf(won), cfg.seenCacheSize as nat),
        boostedToday := Bumped(st.boostedToday, won),
        hashtagsThisRun := st.hashtagsThisRun + (if cfg.hashtagDiversityEnforced then TagsOf(won) else []),
        dayCount := st.dayCount + |won|,
        hourCount := st.hourCount + |won|)
  }

  /** Boosting nothing changes nothing, given a cache within its bound. */
  lemma BoostedNone(cfg: Config, st: BotState)
    requires cfg.seenCacheSize >= 0 && |st.seen| <= cfg.seenCacheSize
    ensures Boosted(cfg, st, []) == st
  {
    KeepLastShort(st.seen, cfg.seenCacheSize as nat);
  }

  /** One more boost is `_count_public_boost` followed by `_remember_status`. */
  lemma BoostedStep(cfg: Config, st: BotState, won: seq<Status>, x: Status)
    requires cfg.seenCacheSize >= 0
    ensures Boosted(cfg, st, won + [x]) == Remembered(cfg, Counted(Boosted(cfg, st, won)), x)
  {
    var w := won + [x];
    assert w[..|w| - 1] == won;
    BoostedLast(cfg, st, w);
  }

  /** The state after boosting `w` is the state after all but its last post, counted, with that post remembered. */
  lemma BoostedLast(cfg: Config, st: BotState, w: seq<Status>)
    requires cfg.seenCacheSize >= 0 && w != []
    ensures Boosted(cfg, st, w) == Remembered(cfg, Counted(Boosted(cfg, st, w[..|w| - 1])), w[|w| - 1])
  {
    BoostedLastSeen(cfg, st, w);
    BoostedLastRest(cfg, st, w);
    SameState(Boosted(cfg, st, w), Remembered(cfg, Counted(Boosted(cfg, st, w[..|w| - 1])), w[|w| - 1]));
  }

  /** The seen cache part of `BoostedLast`. */
  lemma BoostedLastSeen(cfg: Config, st: BotState, w: seq<Status>)
    requires cfg.seenCacheSize >= 0 && w != []
    ensures Boosted(cfg, st, w).seen == Remembered(cfg, Counted(Boosted(cfg, st, w[..|w| - 1])), w[|w| - 1]).seen
  {
    var keys := KeysOf(w[..|w| - 1]);
    var last := RememberKeys(w[|w| - 1]);
    assert KeysOf(w) == keys + last;
    assert (st.seen + keys) + last == st.seen + (keys + last);
    KeepLastAppend(st.seen + keys, last, cfg.seenCacheSize as nat);
  }

  /** The counters, author counts and run hashtags part of `BoostedLast`. */
  lemma BoostedLastRest(cfg: Config, st: BotState, w: seq<Status>)
    requires cfg.seenCacheSize >= 0 && w != []
    ensures var a := Boosted(cfg, st, w);
      var b := Remembered(cfg, Counted(Boosted(cfg, st, w[..|w| - 1])), w[|w| - 1]);
      && a.boostedToday == b.boostedToday && a.hashtagsThisRun == b.hashtagsThisRun
      && a.day == b.day && a.dayCount == b.dayCount && a.hour == b.hour && a.hourCount == b.hourCount
  {
    var init := w[..|w| - 1];
    var x := w[|w| - 1];
    var run := st.hashtagsThisRun;
    assert TagsOf(w) == TagsOf(init) + TagNames(x);
    assert run + (TagsOf(init) + TagNames(x)) == (run + TagsOf(init)) + TagNames(x);
    assert Bumped(st.boostedToday, w) == Bump(Bumped(st.boostedToday, init), Author(x));
  }

  /** Two states that agree field by field are equal. */
  lemma SameState(a: BotState, b: BotState)
    requires a.seen == b.seen && a.boostedToday == b.boostedToday && a.hashtagsThisRun == b.hashtagsThisRun
    requires a.day == b.day && a.dayCount == b.dayCount && a.hour == b.hour && a.hourCount == b.hourCount
    ensures a == b
  {
  }

  /** With a positive threshold, every ranked position the loop attempts holds a post that reached it on its raw score. */
  lemma AttemptedMeetThreshold(cfg: Config, log1p: Log1p, fetch: Fetch, tried: seq<nat>)
    requires cfg.minScoreThreshold > 0.0
    ensures forall m :: 0 <= m < |tried| && tried[m] < |Prepared(cfg, log1p, fetch)| ==>
      BaseScore(cfg, log1p, Prepared(cfg, log1p, fetch)[tried[m]].status) >= cfg.minScoreThreshold
  {
    PreparedMeetsThreshold(cfg, log1p, fetch);
  }

  /** Every boosted post's author is counted at least once. */
  lemma {:induction false} BumpedCountsAuthors(m: map<string, nat>, won: seq<Status>, k: nat)
    requires k < |won|
    ensures AuthorCount(Bumped(m, won), Author(won[k])) >= 1
  {
    var n := |won| - 1;
    if k < n {
      BumpedCountsAuthors(m, won[..n], k);
    }
  }

  /** Each candidate's entry with its score replaced by the matching new one. */
  function Rescored(entries: seq<Entry>, scores: seq<real>): (r: seq<Entry>)
    requires |scores| == |entries|
    ensures |r| == |entries|
    ensures forall i :: 0 <= i < |r| ==> r[i] == entries[i].(score := scores[i])
  {
    seq(|entries|, i requires 0 <= i < |entries| => entries[i].(score := scores[i]))
  }

  /** Entries that differ from `q` only in their scores, which are the normalized scores of `q`. */
  lemma RescoredInPlace(q: seq<Entry>, r: seq<Entry>)
    requires |r| == |q| && Scores(r) == Normalized(Scores(q))
    requires forall i :: 0 <= i < |q| ==> r[i].instance == q[i].instance && r[i].status == q[i].status
    ensures r == Rescored(q, Normalized(Scores(q)))
  {
    var ns := Normalized(Scores(q));
    var x := Rescored(q, ns);
    forall i | 0 <= i < |q| ensures r[i] == x[i] {
      assert x[i] == q[i].(score := ns[i]);
      assert r[i].score == Scores(r)[i] == ns[i];
    }
  }

  /**
   * The ranked candidate list of one cycle: every subscribed instance's
   * trending posts, scored, cut by the quality threshold on raw scores,
   * normalized onto 0..100 and sorted.
   */
  function Prepared(cfg: Config, log1p: Log1p, fetch: Fetch): seq<Entry> {
    var q := Qualified(cfg, Collected(cfg, log1p, fetch, cfg.subscribedInstances));
    Rank(Rescored(q, Normalized(Scores(q))))
  }

  /** The ranked list is in descending order of (normalized score, creation time), scores in 0..100. */
  lemma PreparedOrdered(cfg: Config, log1p: Log1p, fetch: Fetch)
    ensures Descending(Prepared(cfg, log1p, fetch))
    ensures forall e :: e in Prepared(cfg, log1p, fetch) ==> 0.0 <= e.score <= 100.0
  {
    var q := Qualified(cfg, Collected(cfg, log1p, fetch, cfg.subscribedInstances));
    var x := Rescored(q, Normalized(Scores(q)));
    RankDescending(x);
    NormalizedInRange(Scores(q));
    forall e | e in Prepared(cfg, log1p, fetch) ensures 0.0 <= e.score <= 100.0 {
      var i := InRescoredRank(q, Normalized(Scores(q)), e);
    }
  }

  /** A ranked, rescored entry is one of the original entries with a new score. */
  lemma InRescoredRank(q: seq<Entry>, scores: seq<real>, e: Entry) returns (i: nat)
    requires |scores| == |q| && e in Rank(Rescored(q, scores))
    ensures i < |q| && e == q[i].(score := scores[i])
  {
    var x := Rescored(q, scores);
    assert e in multiset(Rank(x));
    assert e in x;
    i :| 0 <= i < |x| && x[i] == e;
  }

  /** A collected entry carries the raw score of its post. */
  lemma CollectedScored(cfg: Config, log1p: Log1p, fetch: Fetch, e: Entry)
    requires e in Collected(cfg, log1p, fetch, cfg.subscribedInstances)
    ensures e.score == BaseScore(cfg, log1p, e.status)
  {
    var c := Collected(cfg, log1p, fetch, cfg.subscribedInstances);
    var j :| 0 <= j < |c| && c[j] == e;
  }

  /** With a positive threshold, the raw score of every ranked post reaches it. */
  lemma PreparedMeetsThreshold(cfg: Config, log1p: Log1p, fetch: Fetch)
    requires cfg.minScoreThreshold > 0.0
    ensures forall e :: e in Prepared(cfg, log1p, fetch) ==> BaseScore(cfg, log1p, e.status) >= cfg.minScoreThreshold
  {
    var c := Collected(cfg, log1p, fetch, cfg.subscribedInstances);
    var q := Qualified(cfg, c);
    QualifiedMeetsThreshold(cfg, c);
    forall e | e in Prepared(cfg, log1p, fetch)
      ensures BaseScore(cfg, log1p, e.status) >= cfg.minScoreThreshold
    {
      var i := InRescoredRank(q, Normalized(Scores(q)), e);
      assert q[i] in q;
      CollectedScored(cfg, log1p, fetch, q[i]);
    }
  }

  /** With a positive threshold that no collected post reaches, nothing is ranked, so nothing is attempted. */
  lemma PreparedEmptyWhenNoneQualifies(cfg: Config, log1p: Log1p, fetch: Fetch)
    requires cfg.minScoreThreshold > 0.0
    requires forall e :: e in Collected(cfg, log1p, fetch, cfg.subscribedInstances) ==> e.score < cfg.minScoreThreshold
    ensures Prepared(cfg, log1p, fetch) == []
  {
    var c := Collected(cfg, log1p, fetch, cfg.subscribedInstances);
    assert forall i :: 0 <= i < |c| ==> c[i].score < cfg.minScoreThreshold by {
      forall i | 0 <= i < |c| ensures c[i].score < cfg.minScoreThreshold {
        assert c[i] in c;
      }
    }
    QualifiedMeetsThreshold(cfg, c);
    assert Rescored([], Normalized(Scores([]))) == [];
  }

  /** The filters the decision loop applies to a candidate it goes on to reblog, apart from the cache. */
  predicate Admitted(cfg: Config, s: Status) {
    !s.reblogged && !FromFilteredInstance(cfg, s) && !ShouldSkipStatus(cfg, s)
  }

  /** Positions of the ranked list, strictly increasing and below `n`, paired with a count each. */
  ghost predicate Visited(tried: seq<nat>, before: seq<nat>, n: nat) {
    |tried| == |before|
    && (forall m :: 0 <= m < |tried| ==> tried[m] < n)
    && (forall m :: 0 < m < |tried| ==> tried[m - 1] < tried[m])
  }

  /**
   * Every reblog attempt was made with `before[m]` boosts already done in this
   * cycle, below the run's maximum, and with both public caps still open.
   */
  ghost predicate WithinLimits(cfg: Config, st: BotState, before: seq<nat>) {
    forall m :: 0 <= m < |before| ==>
      before[m] < cfg.maxBoostsPerRun
      && st.dayCount + before[m] < cfg.dailyPublicCap
      && st.hourCount + before[m] < cfg.perHourPublicCap
  }

  /** Recording one more attempt, at position `k` after every earlier one, with `b` boosts before it. */
  lemma VisitedExtend(tried: seq<nat>, before: seq<nat>, k: nat, b: nat, n: nat)
    requires Visited(tried, before, k) && k < n
    ensures Visited(tried + [k], before + [b], n)
  {
    var t := tried + [k];
    forall m | 0 < m < |t| ensures t[m - 1] < t[m] {
      if m < |tried| {
        assert t[m - 1] == tried[m - 1] && t[m] == tried[m];
      }
    }
  }

  /** Attempts below `k` are also below any larger bound. */
  lemma VisitedWiden(tried: seq<nat>, before: seq<nat>, k: nat, n: nat)
    requires Visited(tried, before, k) && k <= n
    ensures Visited(tried, before, n)
  {
  }

  /** An attempt made with caps open and the run's maximum not reached keeps every attempt within limits. */
  lemma WithinLimitsExtend(cfg: Config, st: BotState, before: seq<nat>, b: nat)
    requires WithinLimits(cfg, st, before)
    requires b < cfg.maxBoostsPerRun && st.dayCount + b < cfg.dailyPublicCap && st.hourCount + b < cfg.perHourPublicCap
    ensures WithinLimits(cfg, st, before + [b])
  {
    var e := before + [b];
    forall m | 0 <= m < |e|
      ensures e[m] < cfg.maxBoostsPerRun && st.dayCount + e[m] < cfg.dailyPublicCap && st.hourCount + e[m] < cfg.perHourPublicCap
    {
      if m < |before| {
        assert e[m] == before[m];
      }
    }
  }

  /** The decision on the candidate at position `k`. */
  function Decision(cfg: Config, ranked: seq<Entry>, attempts: nat -> Attempt, k: nat): (bool, Option<Status>, Reason)
    requires k < |ranked|
  {
    ReblogWithFallback(cfg, ranked[k].status, attempts(k))
  }

  /** The posts remembered for the attempts at `tried`: the tracked status of each one that succeeded. */
  function Winners(cfg: Config, ranked: seq<Entry>, attempts: nat -> Attempt, tried: seq<nat>): seq<Status>
    requires forall m :: 0 <= m < |tried| ==> tried[m] < |ranked|
  {
    if tried == [] then []
    else
      var d := Decision(cfg, ranked, attempts, tried[|tried| - 1]);
      Winners(cfg, ranked, attempts, tried[..|tried| - 1]) + (if d.0 then [d.1.value] else [])
  }

  /** One more attempt adds its tracked status when it succeeded, and nothing otherwise. */
  lemma WinnersStep(cfg: Config, ranked: seq<Entry>, attempts: nat -> Attempt, tried: seq<nat>, k: nat)
    requires forall m :: 0 <= m < |tried| ==> tried[m] < |ranked|
    requires k < |ranked|
    ensures forall m :: 0 <= m < |tried + [k]| ==> (tried + [k])[m] < |ranked|
    ensures var d := Decision(cfg, ranked, attempts, k);
      Winners(cfg, ranked, attempts, tried + [k])
      == Winners(cfg, ranked, attempts, tried) + (if d.0 then [d.1.value] else [])
  {
    var t := tried + [k];
    assert t[..|t| - 1] == tried;
    assert forall m :: 0 <= m < |t| ==> t[m] < |ranked| by {
      forall m | 0 <= m < |t| ensures t[m] < |ranked| {
        if m < |tried| {
          assert t[m] == tried[m];
        }
      }
    }
  }

  /** Only successful attempts are remembered, and each at most once. */
  lemma {:induction false} WinnersAtMostTried(cfg: Config, ranked: seq<Entry>, attempts: nat -> Attempt, tried: seq<nat>)
    requires forall m :: 0 <= m < |tried| ==> tried[m] < |ranked|
    ensures |Winners(cfg, ranked, attempts, tried)| <= |tried|
    ensures (forall m :: 0 <= m < |tried| ==> !Decision(cfg, ranked, attempts, tried[m]).0)
      ==> Winners(cfg, ranked, attempts, tried) == []
  {
    if tried != [] {
      WinnersAtMostTried(cfg, ranked, attempts, tried[..|tried| - 1]);
    }
  }

  /** Every position of `tried` is a position of the ranked list. */
  predicate InRanked(tried: seq<nat>, ranked: seq<Entry>) {
    forall m :: 0 <= m < |tried| ==> tried[m] < |ranked|
  }

  /** `before[m]` is the number of posts the attempts ahead of the `m`-th one boosted. */
  ghost predicate CountsBefore(cfg: Config, ranked: seq<Entry>, attempts: nat -> Attempt, tried: seq<nat>, before: seq<nat>)
    requires InRanked(tried, ranked)
  {
    |before| == |tried|
    && forall m :: 0 <= m < |tried| ==> before[m] == |Winners(cfg, ranked, attempts, tried[..m])|
  }

  /** One more attempt, made with all the boosts so far done before it. */
  lemma CountsBeforeExtend(cfg: Config, ranked: seq<Entry>, attempts: nat -> Attempt, tried: seq<nat>, before: seq<nat>, k: nat)
    requires InRanked(tried, ranked) && k < |ranked| && CountsBefore(cfg, ranked, attempts, tried, before)
    ensures InRanked(tried + [k], ranked)
    ensures CountsBefore(cfg, ranked, attempts, tried + [k], before + [|Winners(cfg, ranked, attempts, tried)|])
  {
    var t := tried + [k];
    var b := before + [|Winners(cfg, ranked, attempts, tried)|];
    assert InRanked(t, ranked) by {
      forall m | 0 <= m < |t| ensures t[m] < |ranked| {
        if m < |tried| {
          assert t[m] == tried[m];
        }
      }
    }
    forall m | 0 <= m < |t| ensures b[m] == |Winners(cfg, ranked, attempts, t[..m])| {
      assert t[..m] == tried[..m];
      if m == |tried| {
        assert tried[..m] == tried;
      }
    }
  }

  /**
   * One iteration of the decision loop of `boost` as a function, on the
   * candidate ranked `k`, with the positions `tried` attempted and the posts
   * `won` boosted so far: stop at the run's maximum or at a closed cap; skip
   * a post that is seen, from a filtered instance or filtered by the content
   * rules; otherwise attempt it, and on success stop when the boost used up
   * the hour's cap. `start` is already ticked to the cycle's clock, so
   * ticking again changes nothing. The result is whether the loop stops,
   * and the attempts and boosts after the iteration.
   */
  function Step(cfg: Config, start: BotState, ranked: seq<Entry>, attempts: nat -> Attempt,
                k: nat, tried: seq<nat>, won: seq<Status>): (r: (bool, seq<nat>, seq<Status>))
    requires cfg.seenCacheSize >= 0 && k < |ranked|
    ensures r.1 == tried || r.1 == tried + [k]
    ensures r.2 == won || (Decision(cfg, ranked, attempts, k).0 && r.1 == tried + [k]
      && r.2 == won + [Decision(cfg, ranked, attempts, k).1.value])
  {
    var st := Boosted(cfg, start, won);
    if |won| >= cfg.maxBoostsPerRun || !CapOpen(cfg, st) then (true, tried, won)
    else if SeenStatus(cfg, st, ranked[k].status) || !Admitted(cfg, ranked[k].status) then (false, tried, won)
    else
      var d := Decision(cfg, ranked, attempts, k);
      if !d.0 then (false, tried + [k], won)
      else (Counted(st).hourCount >= cfg.perHourPublicCap, tried + [k], won + [d.1.value])
  }

  /** `Step` at the run's maximum or at a closed cap: stop, with nothing new. */
  lemma StepStops(cfg: Config, start: BotState, ranked: seq<Entry>, attempts: nat -> Attempt,
                  k: nat, tried: seq<nat>, won: seq<Status>)
    requires cfg.seenCacheSize >= 0 && k < |ranked|
    requires |won| >= cfg.maxBoostsPerRun || !CapOpen(cfg, Boosted(cfg, start, won))
    ensures Step(cfg, start, ranked, attempts, k, tried, won) == (true, tried, won)
  {
  }

  /** `Step` on a seen or filtered post, with room for a boost: go on, with nothing new. */
  lemma StepSkips(cfg: Config, start: BotState, ranked: seq<Entry>, attempts: nat -> Attempt,
                  k: nat, tried: seq<nat>, won: seq<Status>)
    requires cfg.seenCacheSize >= 0 && k < |ranked|
    requires |won| < cfg.maxBoostsPerRun && CapOpen(cfg, Boosted(cfg, start, won))
    requires SeenStatus(cfg, Boosted(cfg, start, won), ranked[k].status) || !Admitted(cfg, ranked[k].status)
    ensures Step(cfg, start, ranked, attempts, k, tried, won) == (false, tried, won)
  {
  }

  /** `Step` on an eligible post: it is attempted, and a success is boosted and may fill the hour's cap. */
  lemma StepAttempts(cfg: Config, start: BotState, ranked: seq<Entry>, attempts: nat -> Attempt,
                     k: nat, tried: seq<nat>, won: seq<Status>)
    requires cfg.seenCacheSize >= 0 && k < |ranked|
    requires |won| < cfg.maxBoostsPerRun && CapOpen(cfg, Boosted(cfg, start, won))
    requires !SeenStatus(cfg, Boosted(cfg, start, won), ranked[k].status) && Admitted(cfg, ranked[k].status)
    ensures var d := Decision(cfg, ranked, attempts, k);
      Step(cfg, start, ranked, attempts, k, tried, won)
      == if d.0 then (Boosted(cfg, start, won).hourCount + 1 >= cfg.perHourPublicCap, tried + [k], won + [d.1.value])
         else (false, tried + [k], won)
  {
  }

  /** The whole decision loop from position `k` on: iterate `Step` until it stops or the list ends. */
  function Greedy(cfg: Config, start: BotState, ranked: seq<Entry>, attempts: nat -> Attempt,
                  k: nat, tried: seq<nat>, won: seq<Status>): (r: (seq<nat>, seq<Status>))
    requires cfg.seenCacheSize >= 0 && k <= |ranked|
    ensures tried <= r.0 && won <= r.1
    decreases |ranked| - k
  {
    if k == |ranked| then (tried, won)
    else
      var s := Step(cfg, start, ranked, attempts, k, tried, won);
      if s.0 then (s.1, s.2)
      else
        var g := Greedy(cfg, start, ranked, attempts, k + 1, s.1, s.2);
        PrefixTrans(tried, s.1, g.0);
        PrefixTrans(won, s.2, g.1);
        g
  }

  /** One iteration of the loop: `Step`, then the rest of the loop unless it stopped. */
  lemma GreedyUnfold(cfg: Config, start: BotState, ranked: seq<Entry>, attempts: nat -> Attempt,
                     k: nat, tried: seq<nat>, won: seq<Status>)
    requires cfg.seenCacheSize >= 0 && k < |ranked|
    ensures var r := Step(cfg, start, ranked, attempts, k, tried, won);
      Greedy(cfg, start, ranked, attempts, k, tried, won)
      == if r.0 then (r.1, r.2) else Greedy(cfg, start, ranked, attempts, k + 1, r.1, r.2)
  {
  }

  /**
   * The loop does not give up early: whenever the run's maximum and both
   * caps allow another boost and the next post is neither seen nor filtered,
   * that post is attempted.
   */
  lemma GreedyAttemptsEligible(cfg: Config, start: BotState, ranked: seq<Entry>, attempts: nat -> Attempt,
                               k: nat, tried: seq<nat>, won: seq<Status>)
    requires cfg.seenCacheSize >= 0 && k < |ranked|
    requires |won| < cfg.maxBoostsPerRun && CapOpen(cfg, Boosted(cfg, start, won))
    requires !SeenStatus(cfg, Boosted(cfg, start, won), ranked[k].status) && Admitted(cfg, ranked[k].status)
    ensures tried + [k] <= Greedy(cfg, start, ranked, attempts, k, tried, won).0
  {
    var r := Step(cfg, start, ranked, attempts, k, tried, won);
    assert r.1 == tried + [k];
    GreedyUnfold(cfg, start, ranked, attempts, k, tried, won);
  }

  /**
   * What the decision loop has done after looking at the first `k` ranked
   * candidates, starting from `start`: the attempts were made in ranked
   * order, only on admitted posts, each with `before[m]` boosts (the
   * successes among the earlier attempts) already done, below the run's
   * maximum and with both caps open, and `won` holds exactly the successes.
   */
  ghost predicate Record(cfg: Config, start: BotState, ranked: seq<Entry>, attempts: nat -> Attempt, k: nat,
                         boosted: nat, tried: seq<nat>, before: seq<nat>, won: seq<Status>)
  {
    && k <= |ranked|
    && boosted == |won|
    && Visited(tried, before, k)
    && InRanked(tried, ranked)
    && CountsBefore(cfg, ranked, attempts, tried, before)
    && WithinLimits(cfg, start, before)
    && (forall m :: 0 <= m < |tried| ==> Admitted(cfg, ranked[tried[m]].status))
    && won == Winners(cfg, ranked, attempts, tried)
    && (boosted > 0 ==>
          boosted <= cfg.maxBoostsPerRun
          && start.dayCount + boosted <= cfg.dailyPublicCap
          && start.hourCount + boosted <= cfg.perHourPublicCap)
  }

  /** Before the loop: nothing is attempted and nothing boosted. */
  lemma RecordStart(cfg: Config, start: BotState, ranked: seq<Entry>, attempts: nat -> Attempt)
    ensures Record(cfg, start, ranked, attempts, 0, 0, [], [], [])
  {
  }

  /** Passing over the candidate ranked `k` without attempting it. */
  lemma RecordSkip(cfg: Config, start: BotState, ranked: seq<Entry>, attempts: nat -> Attempt, k: nat,
                   boosted: nat, tried: seq<nat>, before: seq<nat>, won: seq<Status>)
    requires k < |ranked| && Record(cfg, start, ranked, attempts, k, boosted, tried, before, won)
    ensures Record(cfg, start, ranked, attempts, k + 1, boosted, tried, before, won)
  {
    VisitedWiden(tried, before, k, k + 1);
  }

  /**
   * Attempting the admitted candidate ranked `k` below the run's maximum and
   * with both caps open, and recording its tracked post when it succeeds.
   */
  lemma RecordAttempt(cfg: Config, start: BotState, ranked: seq<Entry>, attempts: nat -> Attempt, k: nat,
                      boosted: nat, tried: seq<nat>, before: seq<nat>, won: seq<Status>)
    requires cfg.seenCacheSize >= 0 && k < |ranked| && Record(cfg, start, ranked, attempts, k, boosted, tried, before, won)
    requires boosted < cfg.maxBoostsPerRun && CapOpen(cfg, Boosted(cfg, start, won)) && Admitted(cfg, ranked[k].status)
    ensures var d := Decision(cfg, ranked, attempts, k);
      var won' := won + (if d.0 then [d.1.value] else []);
      Record(cfg, start, ranked, attempts, k + 1, |won'|, tried + [k], before + [boosted], won')
  {
    VisitedExtend(tried, before, k, boosted, k + 1);
    WithinLimitsExtend(cfg, start, before, boosted);
    WinnersStep(cfg, ranked, attempts, tried, k);
    CountsBeforeExtend(cfg, ranked, attempts, tried, before, k);
    var t := tried + [k];
    forall m | 0 <= m < |t| ensures Admitted(cfg, ranked[t[m]].status) {
      if m < |tried| {
        assert t[m] == tried[m];
      }
    }
  }

  /** The boost counts before the attempts: one more entry, `boosted`, when a step attempted a post. */
  function NextBefore(tried: seq<nat>, tried': seq<nat>, before: seq<nat>, boosted: nat): seq<nat>
  {
    if |tried'| > |tried| then before + [boosted] else before
  }

  /** One iteration of the decision loop, as `Step` gives it, keeps `Record`. */
  lemma StepRecord(cfg: Config, start: BotState, ranked: seq<Entry>, attempts: nat -> Attempt, k: nat,
                   tried: seq<nat>, before: seq<nat>, won: seq<Status>)
    requires cfg.seenCacheSize >= 0 && k < |ranked| && Record(cfg, start, ranked, attempts, k, |won|, tried, before, won)
    ensures var r := Step(cfg, start, ranked, attempts, k, tried, won);
      Record(cfg, start, ranked, attempts, k + 1, |r.2|, r.1, NextBefore(tried, r.1, before, |won|), r.2)
  {
    var st := Boosted(cfg, start, won);
    if |won| >= cfg.maxBoostsPerRun || !CapOpen(cfg, st) {
      StepStops(cfg, start, ranked, attempts, k, tried, won);
      RecordSkip(cfg, start, ranked, attempts, k, |won|, tried, before, won);
    } else if SeenStatus(cfg, st, ranked[k].status) || !Admitted(cfg, ranked[k].status) {
      StepSkips(cfg, start, ranked, attempts, k, tried, won);
      RecordSkip(cfg, start, ranked, attempts, k, |won|, tried, before, won);
    } else {
      StepAttempts(cfg, start, ranked, attempts, k, tried, won);
      RecordAttempt(cfg, start, ranked, attempts, k, |won|, tried, before, won);
    }
  }

  class Hype {
    const config: Config
    /** `_seen`: a deque bounded by `seen_cache_size`. */
    var seen: seq<string>
    /** `_boosted_today`, which `state["authors_boosted_today"]` always refers to as well. */
    var boostedToday: map<string, nat>
    var hashtagsThisRun: seq<string>
    var day: Option<int>
    var dayCount: nat
    var hour: Option<int>
    var hourCount: nat

    function State(): BotState
      reads this
    {
      BotState(seen, boostedToday, hashtagsThisRun, day, dayCount, hour, hourCount)
    }

    ghost predicate Valid()
      reads this
    {
      0 <= config.seenCacheSize && |seen| <= config.seenCacheSize
    }

    /**
     * `Hype(config)` with the state `_load_state` read (`FreshState` when it
     * found none). `deque(maxlen=n)` refuses a negative `n`.
     */
    constructor (cfg: Config, saved: BotState)
      requires cfg.seenCacheSize >= 0
      ensures config == cfg && Valid()
      ensures State() == saved.(seen := KeepLast(saved.seen, cfg.seenCacheSize as nat), hashtagsThisRun := [])
    {
      config := cfg;
      seen := KeepLast(saved.seen, cfg.seenCacheSize as nat);
      boostedToday := saved.boostedToday;
      hashtagsThisRun := [];
      day := saved.day;
      dayCount := saved.dayCount;
      hour := saved.hour;
      hourCount := saved.hourCount;
    }

    method TickCounters(dayKey: int, hourKey: int)
      requires Valid()
      modifies this
      ensures Valid() && State() == Ticked(old(State()), dayKey, hourKey)
    {
      if day != Some(dayKey) {
        day := Some(dayKey);
        dayCount := 0;
        boostedToday := map[];
      }
      if hour != Some(hourKey) {
        hour := Some(hourKey);
        hourCount := 0;
      }
    }

    method PublicCapAvailable(dayKey: int, hourKey: int) returns (available: bool)
      requires Valid()
      modifies this
      ensures Valid() && State() == Ticked(old(State()), dayKey, hourKey)
      ensures available <==> CapOpen(config, State())
    {
      TickCounters(dayKey, hourKey);
      available := dayCount < config.dailyPublicCap && hourCount < config.perHourPublicCap;
    }

    method CountPublicBoost(dayKey: int, hourKey: int)
      requires Valid()
      modifies this
      ensures Valid() && State() == Counted(Ticked(old(State()), dayKey, hourKey))
    {
      TickCounters(dayKey, hourKey);
      dayCount := dayCount + 1;
      hourCount := hourCount + 1;
    }

    method RememberStatus(s: Status)
      requires Valid()
      modifies this
      ensures Valid() && State() == Remembered(config, old(State()), s)
    {
      var cache := RememberedSeen(seen, s, config.seenCacheSize as nat);
      var author := Author(s);
      var counts := boostedToday[author := AuthorCount(boostedToday, author) + 1];
      var run := hashtagsThisRun;
      if config.hashtagDiversityEnforced {
        run := AppendTags(run, TagNames(s));
      }
      seen, boostedToday, hashtagsThisRun := cache, counts, run;
    }

    /** The seen cache after `_remember_status` records the post's id and then its tracked URL, if any. */
    static method RememberedSeen(seen: seq<string>, s: Status, n: nat) returns (cache: seq<string>)
      ensures cache == KeepLast(seen + RememberKeys(s), n)
    {
      var sid := Sid(s);
      cache := KeepLast(seen + [sid], n);
      var url := TrackedUrl(s);
      if url.Some? {
        KeepLastAppend(seen + [sid], [url.value], n);
        assert seen + [sid] + [url.value] == seen + RememberKeys(s);
        cache := KeepLast(cache + [url.value], n);
      }
    }

    /** The loop of `_remember_status` that records each tag name of the post. */
    static method AppendTags(run: seq<string>, names: seq<string>) returns (r: seq<string>)
      ensures r == run + names
    {
      r := run;
      var i := 0;
      while i < |names|
        invariant 0 <= i <= |names|
        invariant r == run + names[..i]
      {
        assert names[..i + 1] == names[..i] + [names[i]];
        r := r + [names[i]];
        i := i + 1;
      }
      assert names[..i] == names;
    }

    /**
     * One pass of the decision loop on a candidate, with the caps open: skip
     * it when seen, from a filtered instance or filtered by the content
     * rules; otherwise attempt the reblog, and on success count the boost and
     * remember the tracked status.
     */
    method ConsiderCandidate(status: Status, at: Attempt, dayKey: int, hourKey: int, ghost start: BotState, ghost won: seq<Status>)
      returns (attempted: bool, success: bool, ghost winner: Status)
      requires Valid() && config.seenCacheSize >= 0 && State() == Boosted(config, start, won)
      requires start.day == Some(dayKey) && start.hour == Some(hourKey)
      modifies this
      ensures Valid()
      ensures attempted <==> !SeenStatus(config, old(State()), status) && Admitted(config, status)
      ensures success ==> attempted
      ensures attempted ==> success == ReblogWithFallback(config, status, at).0
      ensures success ==> winner == ReblogWithFallback(config, status, at).1.value
      ensures success ==> State() == Boosted(config, start, won + [winner])
      ensures !success ==> State() == old(State())
    {
      winner := status;
      if SeenStatus(config, State(), status) || FromFilteredInstance(config, status) || ShouldSkipStatus(config, status) {
        return false, false, winner;
      }
      attempted := true;
      var decision := ReblogWithFallback(config, status, at);
      success := decision.0;
      if success {
        var tracked := decision.1.value;
        winner := tracked;
        BoostedStep(config, start, won, tracked);
        CountPublicBoost(dayKey, hourKey);
        RememberStatus(tracked);
      }
    }

    /** `Record` on the object's settings, with the object's state being `start` with the posts `won` boosted. */
    ghost predicate Progress(start: BotState, ranked: seq<Entry>, attempts: nat -> Attempt, k: nat,
                             boosted: nat, tried: seq<nat>, before: seq<nat>, won: seq<Status>)
      reads this
    {
      && Valid()
      && State() == Boosted(config, start, won)
      && Record(config, start, ranked, attempts, k, boosted, tried, before, won)
    }

    /**
     * One iteration of the decision loop on the candidate ranked `k`: stop at
     * the run's maximum or a closed cap, otherwise consider the candidate,
     * and stop after a boost that used up the hour's cap: what `Step` gives,
     * with the state being `start` with the successes boosted.
     */
    method DecisionStep(ranked: seq<Entry>, attempts: nat -> Attempt, dayKey: int, hourKey: int, k: nat,
                        boosted: nat, ghost start: BotState, ghost tried: seq<nat>, ghost won: seq<Status>)
      returns (stop: bool, boosted': nat, ghost tried': seq<nat>, ghost won': seq<Status>)
      requires k < |ranked| && start.day == Some(dayKey) && start.hour == Some(hourKey)
      requires Valid() && State() == Boosted(config, start, won) && boosted == |won|
      modifies this
      ensures Valid() && State() == Boosted(config, start, won') && boosted' == |won'|
      ensures (stop, tried', won') == Step(config, start, ranked, attempts, k, tried, won)
      ensures Greedy(config, start, ranked, attempts, k, tried, won)
        == if stop then (tried', won') else Greedy(config, start, ranked, attempts, k + 1, tried', won')
      ensures stop <==>
        || boosted >= config.maxBoostsPerRun
        || !CapOpen(config, old(State()))
        || (|won'| > |won| && hourCount >= config.perHourPublicCap)
    {
      ghost var st := State();
      boosted', tried', won' := boosted, tried, won;
      GreedyUnfold(config, start, ranked, attempts, k, tried, won);
      if boosted >= config.maxBoostsPerRun {
        StepStops(config, start, ranked, attempts, k, tried, won);
        return true, boosted', tried', won';
      }
      var open := PublicCapAvailable(dayKey, hourKey);
      assert State() == st;
      if !open {
        StepStops(config, start, ranked, attempts, k, tried, won);
        return true, boosted', tried', won';
      }
      var attempted, success, winner := ConsiderCandidate(ranked[k].status, attempts(k), dayKey, hourKey, start, won);
      if !attempted {
        StepSkips(config, start, ranked, attempts, k, tried, won);
        return false, boosted', tried', won';
      }
      StepAttempts(config, start, ranked, attempts, k, tried, won);
      tried' := tried + [k];
      stop := false;
      if success {
        won' := won + [winner];
        boosted' := boosted + 1;
        stop := hourCount >= config.perHourPublicCap;
      }
    }

    /**
     * The decision loop of `boost` over the ranked candidates, with both clock
     * keys already current: stop at the run's maximum or a closed cap, skip a
     * seen, filtered-instance or rule-filtered post, attempt the reblog, and
     * count and remember each success, stopping once the hour's cap is used.
     * What it attempts and boosts is exactly what `Greedy` gives.
     */
    method DecisionLoop(ranked: seq<Entry>, attempts: nat -> Attempt, dayKey: int, hourKey: int)
      returns (boosted: nat, ghost tried: seq<nat>, ghost before: seq<nat>, ghost won: seq<Status>)
      requires Valid() && day == Some(dayKey) && hour == Some(hourKey)
      modifies this
      ensures Progress(old(State()), ranked, attempts, |ranked|, boosted, tried, before, won)
      ensures (tried, won) == Greedy(config, old(State()), ranked, attempts, 0, [], [])
    {
      ghost var start := State();
      BoostedNone(config, start);
      boosted, tried, before, won := 0, [], [], [];
      var k := 0;
      var stop := false;
      ghost var spec := Greedy(config, start, ranked, attempts, k, tried, won);
      while k < |ranked| && !stop
        invariant Progress(start, ranked, attempts, k, boosted, tried, before, won)
        invariant spec == if stop then (tried, won) else Greedy(config, start, ranked, attempts, k, tried, won)
        decreases |ranked| - k
      {
        StepRecord(config, start, ranked, attempts, k, tried, before, won);
        before := NextBefore(tried, Step(config, start, ranked, attempts, k, tried, won).1, before, boosted);
        stop, boosted, tried, won := DecisionStep(ranked, attempts, dayKey, hourKey, k, boosted, start, tried, won);
        k := k + 1;
      }
      VisitedWiden(tried, before, k, |ranked|);
    }

    /**
     * The part of `boost` that builds the ranked list: fetch and score, apply
     * the quality threshold, stop when nothing is left, normalize the scores
     * in place and sort.
     */
    method RankedCandidates(fetch: Fetch, log1p: Log1p) returns (order: seq<Entry>)
      ensures order == Prepared(config, log1p, fetch)
    {
      var collected := CollectCandidates(config, log1p, fetch);
      collected := Qualified(config, collected);
      if collected == [] {
        assert Rescored(collected, Normalized(Scores(collected))) == [];
        return [];
      }
      var rescored := NormalizedCopy(collected);
      order := Rank(rescored);
    }

    /** `_normalize_scores(collected)` run on a list of its own: the entries come back rescored. */
    static method NormalizedCopy(collected: seq<Entry>) returns (rescored: seq<Entry>)
      ensures rescored == Rescored(collected, Normalized(Scores(collected)))
    {
      var entries := new Entry[|collected|](i requires 0 <= i < |collected| => collected[i]);
      assert entries[..] == collected;
      NormalizeScores(entries);
      RescoredInPlace(collected, entries[..]);
      rescored := entries[..];
    }

    /**
     * `boost()` at a fixed clock: `fetch` gives each instance's trending
     * posts and `attempts(k)` the API outcomes for the candidate ranked `k`.
     * Returns how many posts were boosted; the ghost results record the
     * ranked list, the positions attempted, the number of boosts done before
     * each attempt, and the posts remembered. Without subscribed instances
     * nothing but the run's hashtags changes; otherwise, after the first tick
     * `t`, the ranked list is empty when a cap is closed and `Prepared`
     * otherwise, the loop's `Progress` holds over all of it, and the
     * attempts and boosts are those of `Greedy` from `t`.
     */
    method Boost(fetch: Fetch, log1p: Log1p, dayKey: int, hourKey: int, attempts: nat -> Attempt)
      returns (boosted: nat, ghost ranked: seq<Entry>, ghost tried: seq<nat>, ghost before: seq<nat>, ghost won: seq<Status>)
      requires Valid()
      modifies this
      ensures Valid()
      ensures config.subscribedInstances == [] ==>
        boosted == 0 && tried == [] && State() == old(State()).(hashtagsThisRun := [])
      ensures config.subscribedInstances != [] ==>
        var t := Ticked(old(State()).(hashtagsThisRun := []), dayKey, hourKey);
        && ranked == (if CapOpen(config, t) then Prepared(config, log1p, fetch) else [])
        && Progress(t, ranked, attempts, |ranked|, boosted, tried, before, won)
        && (tried, won) == Greedy(config, t, ranked, attempts, 0, [], [])
      ensures config.minScoreThreshold > 0.0 && config.subscribedInstances != [] ==>
        forall m :: 0 <= m < |tried| && tried[m] < |ranked| ==>
          BaseScore(config, log1p, ranked[tried[m]].status) >= config.minScoreThreshold
    {
      hashtagsThisRun := [];
      boosted, ranked, tried, before, won := 0, [], [], [], [];
      if config.subscribedInstances == [] {
        return;
      }
      ghost var t := Ticked(State(), dayKey, hourKey);
      var open := PublicCapAvailable(dayKey, hourKey);
      BoostedNone(config, t);
      if !open {
        RecordStart(config, t, ranked, attempts);
        return;
      }
      var order := RankedCandidates(fetch, log1p);
      ranked := order;
      boosted, tried, before, won := DecisionLoop(order, attempts, dayKey, hourKey);
      if config.minScoreThreshold > 0.0 {
        AttemptedMeetThreshold(config, log1p, fetch, tried);
      }
    }
  }
}
