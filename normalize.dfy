/**
 * `_normalize_scores` of hype/hype.py: min-max scaling of the candidates'
 * scores onto 0..100, rewritten in place.
 */
module Normalize {
  import opened Candidates

  /** `min(scores)` */
  function MinOf(s: seq<real>): (m: real)
    requires s != []
    ensures forall i :: 0 <= i < |s| ==> m <= s[i]
    ensures exists i :: 0 <= i < |s| && m == s[i]
  {
    if |s| == 1 then s[0]
    else
      var rest := MinOf(s[..|s| - 1]);
      if s[|s| - 1] < rest then s[|s| - 1] else rest
  }

  /** `max(scores)` */
  function MaxOf(s: seq<real>): (m: real)
    requires s != []
    ensures forall i :: 0 <= i < |s| ==> s[i] <= m
    ensures exists i :: 0 <= i < |s| && m == s[i]
  {
    if |s| == 1 then s[0]
    else
      var rest := MaxOf(s[..|s| - 1]);
      if s[|s| - 1] > rest then s[|s| - 1] else rest
  }

  /** One score rescaled: `(x - lo) / (hi - lo) * 100`. */
  function Rescale(x: real, lo: real, hi: real): real
    requires lo < hi
  {
    (x - lo) / (hi - lo) * 100.0
  }

  /**
   * The scores `_normalize_scores` leaves behind: nothing for no entries,
   * 100 everywhere when all scores are equal, otherwise each one rescaled.
   */
  function Normalized(s: seq<real>): (r: seq<real>)
    ensures |r| == |s|
  {
    if s == [] then []
    else
      var lo := MinOf(s);
      var hi := MaxOf(s);
      if hi == lo then seq(|s|, i => 100.0)
      else seq(|s|, i requires 0 <= i < |s| => Rescale(s[i], lo, hi))
  }

  /** One position of the normalized scores. */
  lemma NormalizedAt(s: seq<real>, i: nat)
    requires i < |s|
    ensures Normalized(s)[i] == if MinOf(s) == MaxOf(s) then 100.0 else Rescale(s[i], MinOf(s), MaxOf(s))
  {
  }

  /** Rescaling keeps order in both directions and maps the ends of the range to 0 and 100. */
  lemma RescaleFacts(x: real, y: real, lo: real, hi: real)
    requires lo < hi
    ensures x <= y <==> Rescale(x, lo, hi) <= Rescale(y, lo, hi)
    ensures Rescale(lo, lo, hi) == 0.0 && Rescale(hi, lo, hi) == 100.0
    ensures lo <= x <= hi ==> 0.0 <= Rescale(x, lo, hi) <= 100.0
  {
    RescaleMonotone(x, y, lo, hi);
    RescaleMonotone(lo, x, lo, hi);
    RescaleMonotone(x, hi, lo, hi);
    RescaleEnds(lo, hi);
  }

  /** Rescaling keeps the order of two scores, in both directions. */
  lemma RescaleMonotone(x: real, y: real, lo: real, hi: real)
    requires lo < hi
    ensures x <= y <==> Rescale(x, lo, hi) <= Rescale(y, lo, hi)
  {
    var d := hi - lo;
    var k := 100.0 / d;
    ScaleByQuotient(x - lo, d);
    ScaleByQuotient(y - lo, d);
    ScaleKeepsOrder(x - lo, y - lo, k);
  }

  /** The ends of the range go to 0 and 100. */
  lemma RescaleEnds(lo: real, hi: real)
    requires lo < hi
    ensures Rescale(lo, lo, hi) == 0.0 && Rescale(hi, lo, hi) == 100.0
  {
    var d := hi - lo;
    assert d / d == 1.0;
  }

  /** `a / d * 100 == a * (100 / d)` */
  lemma ScaleByQuotient(a: real, d: real)
    requires d > 0.0
    ensures a / d * 100.0 == a * (100.0 / d)
  {
  }

  /** Multiplying by a positive factor keeps order in both directions. */
  lemma ScaleKeepsOrder(a: real, b: real, k: real)
    requires k > 0.0
    ensures a <= b <==> a * k <= b * k
  {
    if a <= b {
      assert (b - a) * k >= 0.0;
    } else {
      assert (a - b) * k > 0.0;
    }
  }

  /** Every normalized score lies in 0..100. */
  lemma NormalizedInRange(s: seq<real>)
    ensures forall i :: 0 <= i < |s| ==> 0.0 <= Normalized(s)[i] <= 100.0
  {
    if s != [] && MinOf(s) != MaxOf(s) {
      forall i | 0 <= i < |s| ensures 0.0 <= Normalized(s)[i] <= 100.0 {
        RescaleFacts(s[i], s[i], MinOf(s), MaxOf(s));
      }
    }
  }

  /** When all scores are equal, every one becomes 100. */
  lemma NormalizedAllEqual(s: seq<real>)
    requires forall i, j :: 0 <= i < |s| && 0 <= j < |s| ==> s[i] == s[j]
    ensures forall i :: 0 <= i < |s| ==> Normalized(s)[i] == 100.0
  {
    if s != [] {
      var lo := MinOf(s);
      var hi := MaxOf(s);
      var a :| 0 <= a < |s| && lo == s[a];
      var b :| 0 <= b < |s| && hi == s[b];
      assert lo == hi;
    }
  }

  /** Otherwise the lowest score becomes 0 and the highest 100. */
  lemma NormalizedEnds(s: seq<real>, i: nat, j: nat)
    requires i < |s| && j < |s| && s[i] != s[j]
    ensures Normalized(s)[i] == 0.0 <==> s[i] == MinOf(s)
    ensures Normalized(s)[i] == 100.0 <==> s[i] == MaxOf(s)
  {
    var lo := MinOf(s);
    var hi := MaxOf(s);
    assert lo < hi;
    RescaleFacts(s[i], lo, lo, hi);
    RescaleFacts(lo, s[i], lo, hi);
    RescaleFacts(s[i], hi, lo, hi);
    RescaleFacts(hi, s[i], lo, hi);
  }

  /** Normalization keeps the order of any two scores, in both directions. */
  lemma NormalizedKeepsOrder(s: seq<real>, i: nat, j: nat)
    requires i < |s| && j < |s|
    ensures s[i] <= s[j] <==> Normalized(s)[i] <= Normalized(s)[j]
  {
    var lo := MinOf(s);
    var hi := MaxOf(s);
    if lo == hi {
      assert s[i] == lo && s[j] == lo;
    } else {
      RescaleFacts(s[i], s[j], lo, hi);
    }
  }

  /**
   * `_normalize_scores(entries)`: rewrites each entry's score in place and
   * leaves its instance and status alone.
   */
  method NormalizeScores(entries: array<Entry>)
    modifies entries
    ensures Scores(entries[..]) == Normalized(Scores(old(entries[..])))
    ensures forall i :: 0 <= i < entries.Length ==>
      entries[i].instance == old(entries[i].instance) && entries[i].status == old(entries[i].status)
  {
    if entries.Length == 0 {
      return;
    }
    ghost var original := entries[..];
    var scores := Scores(entries[..]);
    var lo := MinOf(scores);
    var hi := MaxOf(scores);
    ghost var target := Normalized(scores);
    assert lo <= scores[0] <= hi;
    forall k | 0 <= k < |scores|
      ensures target[k] == if hi == lo then 100.0 else Rescale(original[k].score, lo, hi)
    {
      NormalizedAt(scores, k);
    }
    RescaleEach(entries, lo, hi, target);
    ScoresReplaced(original, entries[..], target);
  }

  /** The loop of `_normalize_scores`: 100 for every entry when `lo == hi`, otherwise each score rescaled. */
  method RescaleEach(entries: array<Entry>, lo: real, hi: real, ghost target: seq<real>)
    requires lo <= hi && |target| == entries.Length
    requires forall k :: 0 <= k < entries.Length ==>
      target[k] == if hi == lo then 100.0 else Rescale(entries[k].score, lo, hi)
    modifies entries
    ensures forall k :: 0 <= k < entries.Length ==> entries[k] == old(entries[k]).(score := target[k])
  {
    var i := 0;
    while i < entries.Length
      invariant 0 <= i <= entries.Length
      invariant forall k :: 0 <= k < i ==> entries[k] == old(entries[k]).(score := target[k])
      invariant forall k :: i <= k < entries.Length ==> entries[k] == old(entries[k])
    {
      var score: real;
      if hi == lo {
        score := 100.0;
      } else {
        score := Rescale(entries[i].score, lo, hi);
      }
      entries[i] := entries[i].(score := score);
      i := i + 1;
    }
  }

  /** Entries that took their scores from `target` have exactly those scores. */
  lemma ScoresReplaced(original: seq<Entry>, final: seq<Entry>, target: seq<real>)
    requires |final| == |original| == |target|
    requires forall k :: 0 <= k < |final| ==> final[k] == original[k].(score := target[k])
    ensures Scores(final) == target
    ensures forall k :: 0 <= k < |final| ==> final[k].instance == original[k].instance && final[k].status == original[k].status
  {
    assert forall k :: 0 <= k < |final| ==> Scores(final)[k] == target[k];
  }
}
