/**
 * The candidate list `boost` builds in hype/hype.py: one entry per trending
 * post of each subscribed instance, scored, then cut by the quality threshold.
 */
module Candidates {
  import opened Statuses
  import opened Settings
  import opened Scoring

  /** `{"instance": name, "status": s, "score": ...}` */
  datatype Entry = Entry(instance: string, status: Status, score: real)

  /** The trending posts an instance's API returns, in the order it returns them. */
  type Fetch = string -> seq<Status>

  /** Python's slice `s[:limit]`: a negative limit drops that many items from the end. */
  function PyTake<T>(s: seq<T>, limit: int): (r: seq<T>)
    ensures |r| <= |s| && r == s[..|r|]
    ensures limit >= 0 ==> |r| == if limit < |s| then limit else |s|
    ensures limit < 0 ==> |r| == if |s| + limit > 0 then |s| + limit else 0
  {
    if limit >= 0 then (if limit < |s| then s[..limit] else s)
    else if |s| + limit > 0 then s[..|s| + limit] else []
  }

  /** The scores of a list of entries, in order. */
  function Scores(entries: seq<Entry>): (r: seq<real>)
    ensures |r| == |entries| && forall i :: 0 <= i < |entries| ==> r[i] == entries[i].score
  {
    if entries == [] then [] else Scores(entries[..|entries| - 1]) + [entries[|entries| - 1].score]
  }

  /** The scored entries of one instance: `_fetch_trending_statuses`, then `score_status` on each. */
  function InstanceEntries(cfg: Config, log1p: Log1p, fetch: Fetch, inst: Instance): (r: seq<Entry>)
    ensures inst.limit >= 0 ==> |r| == if inst.limit < |fetch(inst.name)| then inst.limit else |fetch(inst.name)|
    ensures inst.limit < 0 ==> |r| == if |fetch(inst.name)| + inst.limit > 0 then |fetch(inst.name)| + inst.limit else 0
    ensures forall i :: 0 <= i < |r| ==>
      r[i] == Entry(inst.name, fetch(inst.name)[i], BaseScore(cfg, log1p, fetch(inst.name)[i]))
  {
    var statuses := PyTake(fetch(inst.name), inst.limit);
    seq(|statuses|, i requires 0 <= i < |statuses| => Entry(inst.name, statuses[i], BaseScore(cfg, log1p, statuses[i])))
  }

  /** The entries of every instance, instance by instance in configuration order. */
  function Collected(cfg: Config, log1p: Log1p, fetch: Fetch, insts: seq<Instance>): (r: seq<Entry>)
    ensures forall i :: 0 <= i < |r| ==> r[i].score == BaseScore(cfg, log1p, r[i].status)
  {
    if insts == [] then []
    else Collected(cfg, log1p, fetch, insts[..|insts| - 1]) + InstanceEntries(cfg, log1p, fetch, insts[|insts| - 1])
  }

  /** No instance contributes more than its limit, so a cycle sees at most 20 posts per instance. */
  lemma {:induction false} CollectedBound(cfg: Config, log1p: Log1p, fetch: Fetch, insts: seq<Instance>)
    requires forall i :: 0 <= i < |insts| ==> 1 <= insts[i].limit <= MaxInstanceLimit
    ensures |Collected(cfg, log1p, fetch, insts)| <= MaxInstanceLimit * |insts|
  {
    if insts != [] {
      CollectedBound(cfg, log1p, fetch, insts[..|insts| - 1]);
    }
  }

  /**
   * The loop of `boost` that fetches and scores: every instance in order,
   * every post it returned up to its limit.
   */
  method CollectCandidates(cfg: Config, log1p: Log1p, fetch: Fetch) returns (collected: seq<Entry>)
    ensures collected == Collected(cfg, log1p, fetch, cfg.subscribedInstances)
  {
    var insts := cfg.subscribedInstances;
    collected := [];
    var k := 0;
    while k < |insts|
      invariant 0 <= k <= |insts|
      invariant collected == Collected(cfg, log1p, fetch, insts[..k])
    {
      assert insts[..k + 1][..k] == insts[..k];
      assert Collected(cfg, log1p, fetch, insts[..k + 1])
        == Collected(cfg, log1p, fetch, insts[..k]) + InstanceEntries(cfg, log1p, fetch, insts[k]);
      var entries := ScoreInstance(cfg, log1p, fetch, insts[k]);
      collected := collected + entries;
      k := k + 1;
    }
    assert insts[..k] == insts;
  }

  /** The inner loop for one instance: `score_status` on each post taken from it. */
  method ScoreInstance(cfg: Config, log1p: Log1p, fetch: Fetch, inst: Instance) returns (entries: seq<Entry>)
    ensures entries == InstanceEntries(cfg, log1p, fetch, inst)
  {
    var statuses := PyTake(fetch(inst.name), inst.limit);
    ghost var all := InstanceEntries(cfg, log1p, fetch, inst);
    entries := [];
    var j := 0;
    while j < |statuses|
      invariant 0 <= j <= |statuses| == |all|
      invariant entries == all[..j]
    {
      var score := ScoreStatus(cfg, log1p, statuses[j]);
      assert all[..j + 1] == all[..j] + [Entry(inst.name, statuses[j], score)];
      entries := entries + [Entry(inst.name, statuses[j], score)];
      j := j + 1;
    }
    assert all[..j] == all;
  }

  /** The entries scoring at least `threshold`, in their original order. */
  function AtLeast(entries: seq<Entry>, threshold: real): (r: seq<Entry>)
    ensures |r| <= |entries|
    ensures forall i :: 0 <= i < |r| ==> r[i].score >= threshold
    ensures forall e :: e in entries && e.score >= threshold ==> e in r
    ensures forall e :: e in r ==> e in entries
  {
    if entries == [] then []
    else
      var rest := AtLeast(entries[..|entries| - 1], threshold);
      var last := entries[|entries| - 1];
      assert entries == entries[..|entries| - 1] + [last];
      if last.score >= threshold then rest + [last] else rest
  }

  /** A one-entry list keeps its entry exactly when it reaches the threshold. */
  lemma AtLeastSingle(e: Entry, threshold: real)
    ensures AtLeast([e], threshold) == if e.score >= threshold then [e] else []
  {
    assert [e][..0] == [];
  }

  /**
   * Filtering distributes over concatenation. With `AtLeastSingle` this pins
   * the result down entry by entry: the kept entries in their original order,
   * each as often as it occurs.
   */
  lemma {:induction false} AtLeastAppend(a: seq<Entry>, b: seq<Entry>, threshold: real)
    ensures AtLeast(a + b, threshold) == AtLeast(a, threshold) + AtLeast(b, threshold)
  {
    if b == [] {
      assert a + b == a;
    } else {
      var init := b[..|b| - 1];
      var last := b[|b| - 1];
      assert (a + b)[..|a + b| - 1] == a + init;
      assert (a + b)[|a + b| - 1] == last;
      AtLeastAppend(a, init, threshold);
      var x := AtLeast(a, threshold);
      var y := AtLeast(init, threshold);
      var tail := if last.score >= threshold then [last] else [];
      assert AtLeast(a + b, threshold) == (x + y) + tail;
      assert AtLeast(b, threshold) == y + tail;
      assert (x + y) + tail == x + (y + tail);
    }
  }

  /** The quality threshold: applied to raw scores, and only when it is positive. */
  function Qualified(cfg: Config, entries: seq<Entry>): (r: seq<Entry>)
    ensures cfg.minScoreThreshold <= 0.0 ==> r == entries
    ensures cfg.minScoreThreshold > 0.0 ==> r == AtLeast(entries, cfg.minScoreThreshold)
  {
    if cfg.minScoreThreshold > 0.0 then AtLeast(entries, cfg.minScoreThreshold) else entries
  }

  /** With a positive threshold, no entry below it survives, and none at all when none reaches it. */
  lemma QualifiedMeetsThreshold(cfg: Config, entries: seq<Entry>)
    requires cfg.minScoreThreshold > 0.0
    ensures forall e :: e in Qualified(cfg, entries) ==> e.score >= cfg.minScoreThreshold
    ensures (forall i :: 0 <= i < |entries| ==> entries[i].score < cfg.minScoreThreshold)
      ==> Qualified(cfg, entries) == []
  {
    var r := Qualified(cfg, entries);
    if r != [] {
      assert r[0] in entries;
    }
  }
}
