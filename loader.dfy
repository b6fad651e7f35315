/**
 * The settings part of `Config.__init__` in hype/config.py, applied to the
 * document the YAML loader has already parsed. Where Python would raise, the
 * result is an error; the settings not listed in `Config` (log level, profile
 * fields, state path) are checked only as far as their conversion can raise.
 */
module ConfigLoader {
  import opened Wrappers
  import opened Text
  import opened PyValues
  import opened Settings

  /** `config["interval"] if config.get("interval") else self.interval` */
  function LoadInterval(doc: seq<(Value, Value)>, prior: Value): (v: Value)
    ensures Lookup(doc, VStr("interval")).None? ==> v == prior
    ensures Lookup(doc, VStr("interval")).Some? ==>
      v == if Truthy(Lookup(doc, VStr("interval")).value) then Lookup(doc, VStr("interval")).value else prior
  {
    match Lookup(doc, VStr("interval"))
    case Some(x) => if Truthy(x) then x else prior
    case None => prior
  }

  /** The `limit` of one subscription: `props["limit"]`, which must be a number `Instance` can compare. */
  function LimitOf(props: Value): (r: Result<int>)
    ensures r.Ok? ==> props.VMap? && Lookup(props.entries, VStr("limit")).Some?
  {
    match props
    case VMap(entries) =>
      (match Lookup(entries, VStr("limit"))
       case None => Err("KeyError: 'limit'")
       case Some(VInt(i)) => Ok(i)
       case Some(VBool(b)) => Ok(if b then 1 else 0)
       case Some(_) => Err("limit is not an integer")
      )
    case _ => Err("subscription settings must be a mapping")
  }

  /** `[Instance(name, props["limit"]) for name, props in items]` */
  function InstancesFrom(items: seq<(Value, Value)>): (r: Result<seq<Instance>>)
    ensures r.Ok? ==> |r.value| == |items|
    ensures r.Ok? ==> forall i :: 0 <= i < |items| ==>
      items[i].0 == VStr(r.value[i].name) && 1 <= r.value[i].limit <= MaxInstanceLimit
      && LimitOf(items[i].1).Ok? && r.value[i] == MakeInstance(r.value[i].name, LimitOf(items[i].1).value)
  {
    if items == [] then Ok([])
    else
      var earlier :- InstancesFrom(items[..|items| - 1]);
      var (key, props) := items[|items| - 1];
      if !key.VStr? then Err("instance name is not a string")
      else
        var limit :- LimitOf(props);
        Ok(earlier + [MakeInstance(key.s, limit)])
  }

  /** `subscribed_instances`: one `Instance` per entry of a non-empty mapping, otherwise none. */
  function LoadInstances(doc: seq<(Value, Value)>): (r: Result<seq<Instance>>)
    ensures r.Ok? ==> forall i :: 0 <= i < |r.value| ==> 1 <= r.value[i].limit <= MaxInstanceLimit
    ensures (Lookup(doc, VStr("subscribed_instances")).None? || !Truthy(Lookup(doc, VStr("subscribed_instances")).value))
      ==> r == Ok([])
  {
    match Lookup(doc, VStr("subscribed_instances"))
    case None => Ok([])
    case Some(v) =>
      if !Truthy(v) then Ok([])
      else if v.VMap? then InstancesFrom(v.entries)
      else Err("subscribed_instances has no attribute 'items'")
  }

  /** The parsed list `items` is exactly the strings `names`, in order. */
  predicate Spells(items: seq<Value>, names: seq<string>) {
    |items| == |names| && forall i :: 0 <= i < |items| ==> items[i] == VStr(names[i])
  }

  /** Each element must be a string to be a server name the filter can match. */
  function StringsOf(items: seq<Value>): (r: Result<seq<string>>)
    ensures r.Ok? <==> forall i :: 0 <= i < |items| ==> items[i].VStr?
    ensures r.Ok? ==> Spells(items, r.value)
  {
    if items == [] then Ok([])
    else
      var earlier :- StringsOf(items[..|items| - 1]);
      var last := items[|items| - 1];
      if last.VStr? then Ok(earlier + [last.s]) else Err("entry is not a string")
  }

  /** The keys of a mapping, in order. */
  function KeysOf(entries: seq<(Value, Value)>): (ks: seq<Value>)
    ensures |ks| == |entries| && forall i :: 0 <= i < |entries| ==> ks[i] == entries[i].0
  {
    if entries == [] then [] else KeysOf(entries[..|entries| - 1]) + [entries[|entries| - 1].0]
  }

  /** The one-character strings of a string, which is what iterating over a string yields. */
  function CharStrings(s: string): (r: seq<string>)
    ensures |r| == |s| && forall i :: 0 <= i < |s| ==> r[i] == [s[i]]
  {
    if s == [] then [] else CharStrings(s[..|s| - 1]) + [[s[|s| - 1]]]
  }

  /** `[name for name in config["filtered_instances"]]` when the value is truthy, otherwise `[]`. */
  function LoadFiltered(doc: seq<(Value, Value)>): (r: Result<seq<string>>)
    ensures (Lookup(doc, VStr("filtered_instances")).None? || !Truthy(Lookup(doc, VStr("filtered_instances")).value))
      ==> r == Ok([])
    ensures r.Ok? && Lookup(doc, VStr("filtered_instances")).Some? && Lookup(doc, VStr("filtered_instances")).value.VList?
      && Truthy(Lookup(doc, VStr("filtered_instances")).value)
      ==> Spells(Lookup(doc, VStr("filtered_instances")).value.items, r.value)
  {
    match Lookup(doc, VStr("filtered_instances"))
    case None => Ok([])
    case Some(v) =>
      if !Truthy(v) then Ok([])
      else match v
        case VList(items) => StringsOf(items)
        case VMap(entries) => StringsOf(KeysOf(entries))
        case VStr(s) => Ok(CharStrings(s))
        case _ => Err("filtered_instances is not iterable")
  }

  /** `int(config.get(key, prior))` */
  function LoadInt(doc: seq<(Value, Value)>, key: string, prior: int): (r: Result<int>)
    ensures Lookup(doc, VStr(key)).None? ==> r == Ok(prior)
    ensures Lookup(doc, VStr(key)).Some? ==> r == ToInt(Lookup(doc, VStr(key)).value)
  {
    ToInt(GetOr(doc, key, VInt(prior)))
  }

  /** `bool(config.get(key, prior))` */
  function LoadBool(doc: seq<(Value, Value)>, key: string, prior: bool): (b: bool)
    ensures Lookup(doc, VStr(key)).None? ==> b == prior
    ensures Lookup(doc, VStr(key)).Some? ==> b == Truthy(Lookup(doc, VStr(key)).value)
  {
    Truthy(GetOr(doc, key, VBool(prior)))
  }

  /**
   * `prefer_media`: a boolean becomes 1 or 0, anything else goes through
   * `float()`, and a value `float()` rejects leaves the prior setting.
   */
  function CoercePreferMedia(pm: Value, prior: real): (r: real)
    ensures pm == VBool(true) ==> r == 1.0
    ensures pm == VBool(false) ==> r == 0.0
    ensures pm.VInt? ==> r == pm.i as real
    ensures pm.VReal? ==> r == pm.r
    ensures pm.VNull? || pm.VList? || pm.VMap? ==> r == prior
    ensures pm.VStr? ==> r == ParseFloat(pm.s).GetOr(prior)
  {
    if pm.VBool? then (if pm.b then 1.0 else 0.0)
    else ToFloat(pm).GetOr(prior)
  }

  /** `config.get("languages_allowlist", prior) or []`, when the value is a list of language codes. */
  function LoadLanguages(doc: seq<(Value, Value)>, prior: seq<string>): (r: Result<seq<string>>)
    ensures Lookup(doc, VStr("languages_allowlist")).None? ==> r == Ok(prior)
    ensures Lookup(doc, VStr("languages_allowlist")).Some? && !Truthy(Lookup(doc, VStr("languages_allowlist")).value)
      ==> r == Ok([])
    ensures r.Ok? && Lookup(doc, VStr("languages_allowlist")).Some? && Truthy(Lookup(doc, VStr("languages_allowlist")).value)
      ==> (Lookup(doc, VStr("languages_allowlist")).value.VList?
        && Spells(Lookup(doc, VStr("languages_allowlist")).value.items, r.value))
  {
    match Lookup(doc, VStr("languages_allowlist"))
    case None => Ok(prior)
    case Some(v) =>
      if !Truthy(v) then Ok([])
      else if v.VList? then StringsOf(v.items)
      else Err("languages_allowlist is not a list")
  }

  /** `{k.lower(): int(v) for k, v in entries}`: a later key wins over an earlier one that lower-cases alike. */
  function ScoresFrom(entries: seq<(Value, Value)>): (r: Result<map<string, real>>)
    ensures r.Ok? ==> forall k :: k in r.value ==> IsLower(k)
    ensures r.Ok? <==> forall i :: 0 <= i < |entries| ==> entries[i].0.VStr? && ToInt(entries[i].1).Ok?
    ensures r.Ok? ==> forall i :: 0 <= i < |entries| ==> Lower(entries[i].0.s) in r.value
  {
    if entries == [] then Ok(map[])
    else
      var init := entries[..|entries| - 1];
      assert forall i :: 0 <= i < |init| ==> init[i] == entries[i];
      var earlier :- ScoresFrom(init);
      var (k, v) := entries[|entries| - 1];
      if !k.VStr? then Err("hashtag has no attribute 'lower'")
      else
        var n :- ToInt(v);
        LowerIsLower(k.s);
        var scores := earlier[Lower(k.s) := n as real];
        assert forall i :: 0 <= i < |init| ==> Lower(entries[i].0.s) in scores;
        Ok(scores)
  }

  /** Every weight is keyed by the lowered name of some entry: the comprehension adds no other key. */
  lemma {:induction false} ScoresFromKeys(entries: seq<(Value, Value)>)
    requires ScoresFrom(entries).Ok?
    ensures forall k :: k in ScoresFrom(entries).value ==> exists i :: 0 <= i < |entries| && Lower(entries[i].0.s) == k
  {
    if entries != [] {
      var init := entries[..|entries| - 1];
      var last := entries[|entries| - 1];
      assert ScoresFrom(init).Ok?;
      ScoresFromKeys(init);
      var r := ScoresFrom(entries).value;
      assert r == ScoresFrom(init).value[Lower(last.0.s) := ToInt(last.1).value as real];
      forall k | k in r ensures exists i :: 0 <= i < |entries| && Lower(entries[i].0.s) == k {
        if k == Lower(last.0.s) {
          assert Lower(entries[|entries| - 1].0.s) == k;
        } else {
          var i :| 0 <= i < |init| && Lower(init[i].0.s) == k;
          assert entries[i] == init[i];
        }
      }
    }
  }

  /**
   * The weight stored for a hashtag is `int()` of the last entry whose key
   * lower-cases to it: an entry that no later entry overrides keeps its value.
   */
  lemma {:induction false} ScoresFromLastWins(entries: seq<(Value, Value)>, i: nat)
    requires i < |entries| && ScoresFrom(entries).Ok?
    requires forall j :: i < j < |entries| ==> Lower(entries[j].0.s) != Lower(entries[i].0.s)
    ensures ScoresFrom(entries).value[Lower(entries[i].0.s)] == ToInt(entries[i].1).value as real
  {
    var init := entries[..|entries| - 1];
    if i < |entries| - 1 {
      assert ScoresFrom(init).Ok?;
      assert forall j :: i < j < |init| ==> init[j] == entries[j];
      ScoresFromLastWins(init, i);
      assert init[i] == entries[i];
    }
  }

  /** `hashtag_scores`: rebuilt from the document each time, or empty when it has none. */
  function LoadHashtagScores(doc: seq<(Value, Value)>): (r: Result<map<string, real>>)
    ensures (Lookup(doc, VStr("hashtag_scores")).None? || !Truthy(Lookup(doc, VStr("hashtag_scores")).value))
      ==> r == Ok(map[])
    ensures r.Ok? ==> forall k :: k in r.value ==> IsLower(k)
  {
    match Lookup(doc, VStr("hashtag_scores"))
    case None => Ok(map[])
    case Some(v) =>
      if !Truthy(v) then Ok(map[])
      else if v.VMap? then ScoresFrom(v.entries)
      else Err("hashtag_scores has no attribute 'items'")
  }

  /** `config["fields"].items()` is taken only when the value is truthy, and then it must be a mapping. */
  function CheckFields(doc: seq<(Value, Value)>): (r: Result<bool>)
    ensures r.Ok? <==> match Lookup(doc, VStr("fields")) case None => true case Some(v) => !Truthy(v) || v.VMap?
  {
    match Lookup(doc, VStr("fields"))
    case None => Ok(true)
    case Some(v) => if !Truthy(v) || v.VMap? then Ok(true) else Err("fields has no attribute 'items'")
  }

  /** Every setting `Config.__init__` reads from a non-empty settings mapping, in the order it reads them. */
  function LoadFrom(doc: seq<(Value, Value)>, prior: Config): Result<Config> {
    var _ :- CheckFields(doc);
    var instances :- LoadInstances(doc);
    var filtered :- LoadFiltered(doc);
    var daily :- LoadInt(doc, "daily_public_cap", prior.dailyPublicCap);
    var hourly :- LoadInt(doc, "per_hour_public_cap", prior.perHourPublicCap);
    var perRun :- LoadInt(doc, "max_boosts_per_run", prior.maxBoostsPerRun);
    var perAuthor :- LoadInt(doc, "max_boosts_per_author_per_day", prior.maxBoostsPerAuthorPerDay);
    var preferMedia := CoercePreferMedia(GetOr(doc, "prefer_media", VReal(prior.preferMedia)), prior.preferMedia);
    var minReblogs :- LoadInt(doc, "min_reblogs", prior.minReblogs);
    var minFavourites :- LoadInt(doc, "min_favourites", prior.minFavourites);
    var languages :- LoadLanguages(doc, prior.languagesAllowlist);
    var seenCache :- LoadInt(doc, "seen_cache_size", prior.seenCacheSize);
    var scores :- LoadHashtagScores(doc);
    Ok(prior.(
      interval := LoadInterval(doc, prior.interval),
      subscribedInstances := instances,
      filteredInstances := filtered,
      dailyPublicCap := daily,
      perHourPublicCap := hourly,
      maxBoostsPerRun := perRun,
      maxBoostsPerAuthorPerDay := perAuthor,
      authorDiversityEnforced := LoadBool(doc, "author_diversity_enforced", prior.authorDiversityEnforced),
      preferMedia := preferMedia,
      requireMedia := LoadBool(doc, "require_media", prior.requireMedia),
      skipSensitiveWithoutCw := LoadBool(doc, "skip_sensitive_without_cw", prior.skipSensitiveWithoutCw),
      minReblogs := minReblogs,
      minFavourites := minFavourites,
      languagesAllowlist := languages,
      seenCacheSize := seenCache,
      hashtagScores := scores))
  }

  /**
   * The settings file: an empty or null document changes nothing; anything
   * else must be a mapping.
   */
  function Load(doc: Value, prior: Config): (r: Result<Config>)
    ensures !Truthy(doc) ==> r == Ok(prior)
    ensures Truthy(doc) && !doc.VMap? ==> r.Err?
  {
    if !Truthy(doc) then Ok(prior)
    else if doc.VMap? then LoadFrom(doc.entries, prior)
    else Err("settings document has no attribute 'get'")
  }

  /**
   * What a successful load of a settings mapping holds, setting by setting:
   * each is the conversion of its own entry, and the settings hype/config.py
   * does not read keep their prior values.
   */
  lemma LoadFromFields(doc: seq<(Value, Value)>, prior: Config)
    requires LoadFrom(doc, prior).Ok?
    ensures var c := LoadFrom(doc, prior).value;
      && c.interval == LoadInterval(doc, prior.interval)
      && LoadInstances(doc).Ok? && c.subscribedInstances == LoadInstances(doc).value
      && LoadFiltered(doc).Ok? && c.filteredInstances == LoadFiltered(doc).value
      && LoadInt(doc, "daily_public_cap", prior.dailyPublicCap) == Ok(c.dailyPublicCap)
      && LoadInt(doc, "per_hour_public_cap", prior.perHourPublicCap) == Ok(c.perHourPublicCap)
      && LoadInt(doc, "max_boosts_per_run", prior.maxBoostsPerRun) == Ok(c.maxBoostsPerRun)
      && LoadInt(doc, "max_boosts_per_author_per_day", prior.maxBoostsPerAuthorPerDay) == Ok(c.maxBoostsPerAuthorPerDay)
      && c.authorDiversityEnforced == LoadBool(doc, "author_diversity_enforced", prior.authorDiversityEnforced)
      && c.requireMedia == LoadBool(doc, "require_media", prior.requireMedia)
      && c.skipSensitiveWithoutCw == LoadBool(doc, "skip_sensitive_without_cw", prior.skipSensitiveWithoutCw)
      && LoadInt(doc, "min_reblogs", prior.minReblogs) == Ok(c.minReblogs)
      && LoadInt(doc, "min_favourites", prior.minFavourites) == Ok(c.minFavourites)
      && c.preferMedia == CoercePreferMedia(GetOr(doc, "prefer_media", VReal(prior.preferMedia)), prior.preferMedia)
      && LoadLanguages(doc, prior.languagesAllowlist) == Ok(c.languagesAllowlist)
      && LoadInt(doc, "seen_cache_size", prior.seenCacheSize) == Ok(c.seenCacheSize)
      && LoadHashtagScores(doc) == Ok(c.hashtagScores)
      && c.hashtagDiversityEnforced == prior.hashtagDiversityEnforced
      && c.maxBoostsPerHashtagPerRun == prior.maxBoostsPerHashtagPerRun
      && c.minReplies == prior.minReplies
      && c.relatedHashtags == prior.relatedHashtags
      && c.spamEmojiThreshold == prior.spamEmojiThreshold
      && c.spamEmojiPenalty == prior.spamEmojiPenalty
      && c.spamLinkPenalty == prior.spamLinkPenalty
      && c.minScoreThreshold == prior.minScoreThreshold
      && c.federateMissingStatuses == prior.federateMissingStatuses
  {
    assert CheckFields(doc).Ok?;
    assert LoadInstances(doc).Ok?;
    assert LoadFiltered(doc).Ok?;
    assert LoadInt(doc, "daily_public_cap", prior.dailyPublicCap).Ok?;
    assert LoadInt(doc, "per_hour_public_cap", prior.perHourPublicCap).Ok?;
    assert LoadInt(doc, "max_boosts_per_run", prior.maxBoostsPerRun).Ok?;
    assert LoadInt(doc, "max_boosts_per_author_per_day", prior.maxBoostsPerAuthorPerDay).Ok?;
    assert LoadInt(doc, "min_reblogs", prior.minReblogs).Ok?;
    assert LoadInt(doc, "min_favourites", prior.minFavourites).Ok?;
    assert LoadLanguages(doc, prior.languagesAllowlist).Ok?;
    assert LoadInt(doc, "seen_cache_size", prior.seenCacheSize).Ok?;
    assert LoadHashtagScores(doc).Ok?;
  }

  /**
   * Whatever the document says, a loaded configuration only subscribes to
   * instances whose limit lies in 1..20, provided the prior one did.
   */
  lemma LoadedLimitsInRange(doc: Value, prior: Config)
    requires forall i :: 0 <= i < |prior.subscribedInstances| ==> 1 <= prior.subscribedInstances[i].limit <= MaxInstanceLimit
    requires Load(doc, prior).Ok?
    ensures forall i :: 0 <= i < |Load(doc, prior).value.subscribedInstances| ==>
      1 <= Load(doc, prior).value.subscribedInstances[i].limit <= MaxInstanceLimit
  {
    if Truthy(doc) {
      LoadFromFields(doc.entries, prior);
    }
  }

  /** A settings mapping without an `interval` keeps the prior interval (60 by default). */
  lemma LoadIntervalAbsent(doc: seq<(Value, Value)>, prior: Config)
    requires doc != [] && Load(VMap(doc), prior).Ok?
    requires Lookup(doc, VStr("interval")).None?
    ensures Load(VMap(doc), prior).value.interval == prior.interval
  {
    assert Load(VMap(doc), prior) == LoadFrom(doc, prior);
    LoadFromFields(doc, prior);
  }

  /** A null or empty `languages_allowlist` becomes the empty list, which allows every language. */
  lemma LoadLanguagesFalsy(doc: seq<(Value, Value)>, prior: Config)
    requires doc != [] && Load(VMap(doc), prior).Ok?
    requires Lookup(doc, VStr("languages_allowlist")).Some? && !Truthy(Lookup(doc, VStr("languages_allowlist")).value)
    ensures Load(VMap(doc), prior).value.languagesAllowlist == []
  {
    assert Load(VMap(doc), prior) == LoadFrom(doc, prior);
    LoadFromFields(doc, prior);
  }

  /** Every hashtag weight a load produces is keyed by a lower-case name. */
  lemma LoadedScoresLowerCase(doc: seq<(Value, Value)>, prior: Config)
    requires doc != [] && Load(VMap(doc), prior).Ok?
    ensures forall k :: k in Load(VMap(doc), prior).value.hashtagScores ==> IsLower(k)
  {
    assert Load(VMap(doc), prior) == LoadFrom(doc, prior);
    LoadFromFields(doc, prior);
  }

  /** The keys `Config.__init__` reads from a settings mapping. */
  const ReadKeys: set<string> := {"fields", "subscribed_instances", "filtered_instances", "daily_public_cap", "per_hour_public_cap", "max_boosts_per_run", "max_boosts_per_author_per_day", "prefer_media", "min_reblogs", "min_favourites", "languages_allowlist", "seen_cache_size", "hashtag_scores", "interval", "author_diversity_enforced", "require_media", "skip_sensitive_without_cw"}

  /** The mapping has no entry under any key the loader reads. */
  predicate NoReadKey(doc: seq<(Value, Value)>) {
    forall i :: 0 <= i < |doc| ==> !(doc[i].0.VStr? && doc[i].0.s in ReadKeys)
  }

  /**
   * A non-empty mapping with none of the keys the loader reads loads without
   * error: the instance lists and the hashtag weights become empty, and every
   * other setting keeps its prior value.
   */
  lemma LoadEmptyMapping(doc: seq<(Value, Value)>, prior: Config)
    requires doc != [] && NoReadKey(doc)
    ensures Load(VMap(doc), prior).Ok?
    ensures var c := Load(VMap(doc), prior).value;
      && c.subscribedInstances == [] && c.filteredInstances == [] && c.hashtagScores == map[]
      && c.interval == prior.interval && c.languagesAllowlist == prior.languagesAllowlist
      && c.dailyPublicCap == prior.dailyPublicCap && c.perHourPublicCap == prior.perHourPublicCap
      && c.maxBoostsPerRun == prior.maxBoostsPerRun && c.maxBoostsPerAuthorPerDay == prior.maxBoostsPerAuthorPerDay
      && c.seenCacheSize == prior.seenCacheSize && c.preferMedia == prior.preferMedia
  {
    assert Truthy(VMap(doc));
    assert Load(VMap(doc), prior) == LoadFrom(doc, prior);
    UnreadSettings(doc, prior);
    UnreadOk(doc, prior);
    LoadFromFields(doc, prior);
  }

  /** Such a mapping loads without error. */
  lemma UnreadOk(doc: seq<(Value, Value)>, prior: Config)
    requires NoReadKey(doc)
    ensures LoadFrom(doc, prior).Ok?
  {
    UnreadSettings(doc, prior);
  }

  /** Setting by setting, what such a mapping loads. */
  lemma UnreadSettings(doc: seq<(Value, Value)>, prior: Config)
    requires NoReadKey(doc)
    ensures && CheckFields(doc) == Ok(true)
      && LoadInstances(doc) == Ok([]) && LoadFiltered(doc) == Ok([]) && LoadHashtagScores(doc) == Ok(map[])
      && LoadInt(doc, "daily_public_cap", prior.dailyPublicCap) == Ok(prior.dailyPublicCap)
      && LoadInt(doc, "per_hour_public_cap", prior.perHourPublicCap) == Ok(prior.perHourPublicCap)
      && LoadInt(doc, "max_boosts_per_run", prior.maxBoostsPerRun) == Ok(prior.maxBoostsPerRun)
      && LoadInt(doc, "max_boosts_per_author_per_day", prior.maxBoostsPerAuthorPerDay) == Ok(prior.maxBoostsPerAuthorPerDay)
      && LoadInt(doc, "min_reblogs", prior.minReblogs) == Ok(prior.minReblogs)
      && LoadInt(doc, "min_favourites", prior.minFavourites) == Ok(prior.minFavourites)
      && LoadInt(doc, "seen_cache_size", prior.seenCacheSize) == Ok(prior.seenCacheSize)
      && LoadLanguages(doc, prior.languagesAllowlist) == Ok(prior.languagesAllowlist)
      && CoercePreferMedia(GetOr(doc, "prefer_media", VReal(prior.preferMedia)), prior.preferMedia) == prior.preferMedia
      && LoadInterval(doc, prior.interval) == prior.interval
      && LoadBool(doc, "author_diversity_enforced", prior.authorDiversityEnforced) == prior.authorDiversityEnforced
      && LoadBool(doc, "require_media", prior.requireMedia) == prior.requireMedia
      && LoadBool(doc, "skip_sensitive_without_cw", prior.skipSensitiveWithoutCw) == prior.skipSensitiveWithoutCw
  {
    UnreadAbsent(doc, "fields");
    UnreadAbsent(doc, "subscribed_instances");
    UnreadAbsent(doc, "filtered_instances");
    UnreadAbsent(doc, "daily_public_cap");
    UnreadAbsent(doc, "per_hour_public_cap");
    UnreadAbsent(doc, "max_boosts_per_run");
    UnreadAbsent(doc, "max_boosts_per_author_per_day");
    UnreadAbsent(doc, "prefer_media");
    UnreadAbsent(doc, "min_reblogs");
    UnreadAbsent(doc, "min_favourites");
    UnreadAbsent(doc, "languages_allowlist");
    UnreadAbsent(doc, "seen_cache_size");
    UnreadAbsent(doc, "hashtag_scores");
    UnreadAbsent(doc, "interval");
    UnreadAbsent(doc, "author_diversity_enforced");
    UnreadAbsent(doc, "require_media");
    UnreadAbsent(doc, "skip_sensitive_without_cw");
  }

  /** A key the loader reads is absent from such a mapping. */
  lemma UnreadAbsent(doc: seq<(Value, Value)>, key: string)
    requires NoReadKey(doc) && key in ReadKeys
    ensures Lookup(doc, VStr(key)) == None
  {
  }

}
