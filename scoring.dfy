/**
 * `score_status` and `_calculate_related_hashtag_score` of hype/hype.py.
 * Python floats become exact reals. The engagement term applies an opaque
 * `log1p` to each count; age decay is not part of this model.
 */
module Scoring {
  import opened Wrappers
  import opened Text
  import opened Statuses
  import opened Settings
  import opened Spam

  /** `math.log1p`, supplied by the caller: the model fixes nothing about its values. */
  type Log1p = nat -> real

  /** `hashtag_scores.get(tag, 0)` */
  function Weight(cfg: Config, tag: string): real {
    if tag in cfg.hashtagScores then cfg.hashtagScores[tag] else 0.0
  }

  /** `sum(hashtag_scores.get(t, 0) for t in tags)` */
  function TagScore(cfg: Config, tags: seq<string>): real {
    if tags == [] then 0.0 else Weight(cfg, tags[0]) + TagScore(cfg, tags[1..])
  }

  /** The tag sum is additive over the tag list. */
  lemma {:induction false} TagScoreAppend(cfg: Config, a: seq<string>, b: seq<string>)
    ensures TagScore(cfg, a + b) == TagScore(cfg, a) + TagScore(cfg, b)
  {
    if a == [] {
      assert a + b == b;
    } else {
      assert (a + b)[1..] == a[1..] + b;
      TagScoreAppend(cfg, a[1..], b);
    }
  }

  /** Tags without a configured weight count 0: only weighted tags move the sum. */
  lemma {:induction false} TagScoreUnknownTags(cfg: Config, tags: seq<string>)
    requires forall i :: 0 <= i < |tags| ==> tags[i] !in cfg.hashtagScores
    ensures TagScore(cfg, tags) == 0.0
  {
    if tags != [] {
      TagScoreUnknownTags(cfg, tags[1..]);
    }
  }

  /** Every tag that carries a weight adds that weight, negative or not, once per occurrence. */
  lemma {:induction false} TagScoreCons(cfg: Config, tag: string, rest: seq<string>)
    requires tag in cfg.hashtagScores
    ensures TagScore(cfg, [tag] + rest) == cfg.hashtagScores[tag] + TagScore(cfg, rest)
  {
    assert ([tag] + rest)[1..] == rest;
  }

  /**
   * The text related terms are looked for in: the lower-cased content, a
   * space, and the lower-cased tag names joined by spaces.
   */
  function RelatedText(s: Status): string {
    Lower(Content(s)) + " " + Join(TagNames(s), ' ')
  }

  /** A term of the table occurs in the text after lower-casing the term. */
  ghost predicate TermMatches(term: (string, real), text: string) {
    IsSubstring(Lower(term.0), text)
  }

  /** The index of the first term, in declaration order, that occurs in `text`. */
  function FirstMatch(terms: seq<(string, real)>, text: string): (k: Option<nat>)
    ensures k.None? <==> forall j :: 0 <= j < |terms| ==> !TermMatches(terms[j], text)
    ensures k.Some? ==> k.value < |terms| && TermMatches(terms[k.value], text)
    ensures k.Some? ==> forall j :: 0 <= j < k.value ==> !TermMatches(terms[j], text)
  {
    if terms == [] then None
    else if Contains(text, Lower(terms[0].0)) then Some(0)
    else match FirstMatch(terms[1..], text)
      case None => None
      case Some(k) => Some(k + 1)
  }

  /**
   * What one main hashtag of the table adds, given the post's lower-cased tag
   * names and its related text: nothing when the post already carries the
   * main hashtag or its weight is not positive; otherwise its weight times
   * the multiplier of its first matching term, or nothing if no term matches.
   */
  function Bonus(cfg: Config, entry: (string, seq<(string, real)>), names: seq<string>, text: string): real {
    var main := Lower(entry.0);
    if main in names then 0.0
    else match FirstMatch(entry.1, text)
      case None => 0.0
      case Some(k) => if Weight(cfg, main) > 0.0 then Weight(cfg, main) * entry.1[k].1 else 0.0
  }

  /**
   * At most one term of a main hashtag pays: nothing when the post carries
   * the main hashtag or its weight is not positive, nothing when no term
   * matches, and otherwise the weight times the multiplier of the first
   * matching term in declaration order (the one `FirstMatch` picks).
   */
  lemma BonusFirstMatch(cfg: Config, entry: (string, seq<(string, real)>), names: seq<string>, text: string)
    ensures Lower(entry.0) in names ==> Bonus(cfg, entry, names, text) == 0.0
    ensures Weight(cfg, Lower(entry.0)) <= 0.0 ==> Bonus(cfg, entry, names, text) == 0.0
    ensures (forall j :: 0 <= j < |entry.1| ==> !TermMatches(entry.1[j], text)) ==> Bonus(cfg, entry, names, text) == 0.0
    ensures Lower(entry.0) !in names && Weight(cfg, Lower(entry.0)) > 0.0 && FirstMatch(entry.1, text).Some? ==>
      Bonus(cfg, entry, names, text) == Weight(cfg, Lower(entry.0)) * entry.1[FirstMatch(entry.1, text).value].1
  {
  }

  /** The bonuses of the table's main hashtags, added up in order. */
  function SumBonuses(cfg: Config, table: RelatedTable, names: seq<string>, text: string): real {
    if table == [] then 0.0
    else SumBonuses(cfg, table[..|table| - 1], names, text) + Bonus(cfg, table[|table| - 1], names, text)
  }

  /** The related-hashtag bonus of a status. */
  function RelatedBonus(cfg: Config, s: Status): real {
    if cfg.relatedHashtags == [] then 0.0 else SumBonuses(cfg, cfg.relatedHashtags, TagNames(s), RelatedText(s))
  }

  /** Bonuses of different main hashtags are independent and add up. */
  lemma {:induction false} SumBonusesAppend(cfg: Config, a: RelatedTable, b: RelatedTable, names: seq<string>, text: string)
    ensures SumBonuses(cfg, a + b, names, text) == SumBonuses(cfg, a, names, text) + SumBonuses(cfg, b, names, text)
    decreases |b|
  {
    if b == [] {
      assert a + b == a;
    } else {
      var b' := b[..|b| - 1];
      assert (a + b)[..|a + b| - 1] == a + b';
      assert (a + b)[|a + b| - 1] == b[|b| - 1];
      SumBonusesAppend(cfg, a, b', names, text);
    }
  }

  /** A one-entry table gives exactly that entry's bonus. */
  lemma SumBonusesSingle(cfg: Config, entry: (string, seq<(string, real)>), names: seq<string>, text: string)
    ensures SumBonuses(cfg, [entry], names, text) == Bonus(cfg, entry, names, text)
  {
    assert [entry][..0] == [];
  }

  /**
   * Related terms match by plain substring containment:
   * "container" is found in a text that says "containers".
   */
  lemma SubstringMatch()
    ensures Contains("i use containers", "container")
  {
    assert OccursAt("container", "i use containers", 6) by {
      assert "i use containers"[6..15] == "container";
    }
  }

  /**
   * `_calculate_related_hashtag_score`: the loop over the table, skipping
   * main hashtags the post already carries.
   */
  method CalculateRelatedHashtagScore(cfg: Config, s: Status) returns (related: real)
    ensures related == RelatedBonus(cfg, s)
  {
    var table := cfg.relatedHashtags;
    if table == [] {
      return 0.0;
    }
    var allText := RelatedText(s);
    var names := TagNames(s);
    related := 0.0;
    var i := 0;
    while i < |table|
      invariant 0 <= i <= |table|
      invariant related == SumBonuses(cfg, table[..i], names, allText)
    {
      assert table[..i + 1][..i] == table[..i];
      var bonus := EntryBonus(cfg, table[i], names, allText);
      related := related + bonus;
      i := i + 1;
    }
    assert table[..i] == table;
  }

  /**
   * The inner loop of `_calculate_related_hashtag_score` for one main
   * hashtag: the terms in order, stopping at the first one found in the text
   * when the main hashtag's weight is positive.
   */
  method EntryBonus(cfg: Config, entry: (string, seq<(string, real)>), names: seq<string>, text: string)
    returns (bonus: real)
    ensures bonus == Bonus(cfg, entry, names, text)
  {
    var main := Lower(entry.0);
    if main in names {
      NoMatchNoBonus(cfg, entry, names, text);
      return 0.0;
    }
    var terms := entry.1;
    bonus := 0.0;
    var j := 0;
    while j < |terms|
      invariant 0 <= j <= |terms|
      invariant Weight(cfg, main) > 0.0 ==> forall k :: 0 <= k < j ==> !TermMatches(terms[k], text)
    {
      if Contains(text, Lower(terms[j].0)) {
        var base := Weight(cfg, main);
        if base > 0.0 {
          MatchBonus(cfg, entry, names, text, j);
          return base * terms[j].1;
        }
      }
      j := j + 1;
    }
    NoMatchNoBonus(cfg, entry, names, text);
  }

  /** The first term that matches, after none before it did, is the one `FirstMatch` picks. */
  lemma FirstMatchAt(terms: seq<(string, real)>, text: string, j: nat)
    requires j < |terms| && TermMatches(terms[j], text)
    requires forall k :: 0 <= k < j ==> !TermMatches(terms[k], text)
    ensures FirstMatch(terms, text) == Some(j)
  {
  }

  /** The bonus when the term at `j` is the first one found and the weight is positive. */
  lemma MatchBonus(cfg: Config, entry: (string, seq<(string, real)>), names: seq<string>, text: string, j: nat)
    requires Lower(entry.0) !in names && Weight(cfg, Lower(entry.0)) > 0.0
    requires j < |entry.1| && TermMatches(entry.1[j], text)
    requires forall k :: 0 <= k < j ==> !TermMatches(entry.1[k], text)
    ensures Bonus(cfg, entry, names, text) == Weight(cfg, Lower(entry.0)) * entry.1[j].1
  {
    FirstMatchAt(entry.1, text, j);
  }

  /**
   * No bonus when the post carries the main hashtag, when its weight is not
   * positive, or when no term is found.
   */
  lemma NoMatchNoBonus(cfg: Config, entry: (string, seq<(string, real)>), names: seq<string>, text: string)
    requires Lower(entry.0) in names
      || (Weight(cfg, Lower(entry.0)) > 0.0 ==> forall k :: 0 <= k < |entry.1| ==> !TermMatches(entry.1[k], text))
    ensures Bonus(cfg, entry, names, text) == 0.0
  {
  }

  /** `prefer_media if has_media else 0` */
  function MediaBonus(cfg: Config, s: Status): real {
    if HasMedia(s) then cfg.preferMedia else 0.0
  }

  /** The emoji penalty: each emoji beyond the threshold costs `spam_emoji_penalty`. */
  function EmojiPenalty(cfg: Config, text: string): real {
    ExcessPenalty(CountEmojis(text), cfg.spamEmojiThreshold, cfg.spamEmojiPenalty)
  }

  /** `(count - threshold) * penalty` when the count is over the threshold, else 0. */
  function ExcessPenalty(count: nat, threshold: int, penalty: real): real {
    if count > threshold then (count - threshold) as real * penalty else 0.0
  }

  /** The link penalty: `spam_link_penalty`, once, when the text holds a link. */
  function LinkPenalty(cfg: Config, text: string): real {
    if HasLinks(text) then cfg.spamLinkPenalty else 0.0
  }

  /** The three engagement terms: `log1p(reblogs) * 2 + log1p(favourites) + log1p(replies) * 1.5`. */
  function Engagement(log1p: Log1p, s: Status): real {
    log1p(s.reblogsCount) * 2.0 + log1p(s.favouritesCount) + log1p(s.repliesCount) * 1.5
  }

  /** The score of `score_status` without age decay. */
  function BaseScore(cfg: Config, log1p: Log1p, s: Status): real {
    var text := Content(s);
    TagScore(cfg, TagNames(s)) + RelatedBonus(cfg, s) + Engagement(log1p, s)
      + MediaBonus(cfg, s) - (EmojiPenalty(cfg, text) + LinkPenalty(cfg, text))
  }

  /** `score_status` with age decay switched off. */
  method ScoreStatus(cfg: Config, log1p: Log1p, s: Status) returns (score: real)
    ensures score == BaseScore(cfg, log1p, s)
  {
    var tagScore := TagScore(cfg, TagNames(s));
    var relatedScore := CalculateRelatedHashtagScore(cfg, s);
    tagScore := tagScore + relatedScore;
    var reblogs := log1p(s.reblogsCount) * 2.0;
    var favourites := log1p(s.favouritesCount);
    var replies := log1p(s.repliesCount) * 1.5;
    var mediaBonus := if HasMedia(s) then cfg.preferMedia else 0.0;
    var content := Content(s);
    var spamPenalty := 0.0;
    var emojiCount := CountEmojis(content);
    if emojiCount > cfg.spamEmojiThreshold {
      var excess := emojiCount - cfg.spamEmojiThreshold;
      spamPenalty := spamPenalty + excess as real * cfg.spamEmojiPenalty;
    }
    assert spamPenalty == EmojiPenalty(cfg, content);
    if HasLinks(content) {
      spamPenalty := spamPenalty + cfg.spamLinkPenalty;
    }
    assert spamPenalty == EmojiPenalty(cfg, content) + LinkPenalty(cfg, content);
    score := tagScore + reblogs + favourites + replies + mediaBonus - spamPenalty;
  }

  /** A media attachment adds exactly `prefer_media`; nothing else about the post changes the difference. */
  lemma MediaBonusDelta(cfg: Config, log1p: Log1p, s: Status, n: nat)
    requires s.mediaCount == 0 && n > 0
    ensures BaseScore(cfg, log1p, s.(mediaCount := n)) == BaseScore(cfg, log1p, s) + cfg.preferMedia
  {
    var t := s.(mediaCount := n);
    assert t.tags == s.tags && t.content == s.content;
  }

  /** Up to the threshold emojis cost nothing; each further emoji costs `spam_emoji_penalty` more. */
  lemma EmojiPenaltyStep(cfg: Config, text: string, e: char)
    requires IsEmoji(e)
    ensures CountEmojis(text) < cfg.spamEmojiThreshold ==> EmojiPenalty(cfg, text + [e]) == 0.0
    ensures CountEmojis(text) >= cfg.spamEmojiThreshold ==>
      EmojiPenalty(cfg, text + [e]) == EmojiPenalty(cfg, text) + cfg.spamEmojiPenalty
  {
    CountEmojisAppend(text, [e]);
    assert CountEmojis([e]) == 1;
    ExcessPenaltyStep(CountEmojis(text), cfg.spamEmojiThreshold, cfg.spamEmojiPenalty);
  }

  /** One more counted item adds one penalty once the threshold is reached, and nothing below it. */
  lemma ExcessPenaltyStep(n: nat, t: int, p: real)
    ensures n < t ==> ExcessPenalty(n + 1, t, p) == 0.0
    ensures n >= t ==> ExcessPenalty(n + 1, t, p) == ExcessPenalty(n, t, p) + p
  {
  }

  /** With increasing `log1p`, more reblogs, favourites or replies never lower the engagement term. */
  lemma EngagementMonotone(log1p: Log1p, s: Status, reblogs: nat, favourites: nat, replies: nat)
    requires forall a: nat, b: nat :: a <= b ==> log1p(a) <= log1p(b)
    requires reblogs >= s.reblogsCount && favourites >= s.favouritesCount && replies >= s.repliesCount
    ensures Engagement(log1p, s.(reblogsCount := reblogs, favouritesCount := favourites, repliesCount := replies))
      >= Engagement(log1p, s)
  {
    assert log1p(s.reblogsCount) <= log1p(reblogs);
    assert log1p(s.favouritesCount) <= log1p(favourites);
    assert log1p(s.repliesCount) <= log1p(replies);
  }
}
