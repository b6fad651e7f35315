/**
 * The ranking step of `boost` in hype/hype.py: `collected.sort(key=lambda e:
 * (e["score"], created_at), reverse=True)`. Python's sort is stable, also
 * with `reverse=True`, so candidates with equal keys keep their order.
 */
module Ranking {
  import opened Statuses
  import opened Candidates

  /** `a` sorts strictly before `b`: a higher score, or the same score and a later creation time. */
  predicate Above(a: Entry, b: Entry) {
    a.score > b.score || (a.score == b.score && CreatedAt(a.status) > CreatedAt(b.status))
  }

  /** Equal sort keys. */
  predicate SameKey(a: Entry, b: Entry) {
    a.score == b.score && CreatedAt(a.status) == CreatedAt(b.status)
  }

  /** No candidate has a strictly greater key than one placed before it. */
  predicate Descending(s: seq<Entry>) {
    forall i, j :: 0 <= i < j < |s| ==> !Above(s[j], s[i])
  }

  /** Places `x` in front of the first element whose key is not greater than its own. */
  function Insert(x: Entry, t: seq<Entry>): (r: seq<Entry>)
    ensures multiset(r) == multiset(t) + multiset{x}
    ensures |r| == |t| + 1
    ensures forall k :: 0 <= k < |r| ==> r[k] == x || r[k] in t
  {
    if t == [] || !Above(t[0], x) then [x] + t
    else
      assert t == [t[0]] + t[1..];
      [t[0]] + Insert(x, t[1..])
  }

  /** The ranked candidate list: a stable insertion sort on the key, descending. */
  function Rank(s: seq<Entry>): (r: seq<Entry>)
    ensures multiset(r) == multiset(s)
    ensures |r| == |s|
  {
    if s == [] then []
    else
      assert s == [s[0]] + s[1..];
      Insert(s[0], Rank(s[1..]))
  }

  /** Inserting into a descending list keeps it descending. */
  lemma {:induction false} InsertDescending(x: Entry, t: seq<Entry>)
    requires Descending(t)
    ensures Descending(Insert(x, t))
  {
    if t != [] && Above(t[0], x) {
      var rest := Insert(x, t[1..]);
      InsertDescending(x, t[1..]);
      assert forall k :: 0 <= k < |rest| ==> !Above(rest[k], t[0]);
      assert Insert(x, t) == [t[0]] + rest;
    }
  }

  /** The ranked list is in descending key order. */
  lemma {:induction false} RankDescending(s: seq<Entry>)
    ensures Descending(Rank(s))
  {
    if s != [] {
      RankDescending(s[1..]);
      InsertDescending(s[0], Rank(s[1..]));
    }
  }

  /** The candidates whose key equals `e`'s, in order. */
  function WithKeyOf(s: seq<Entry>, e: Entry): seq<Entry> {
    if s == [] then []
    else (if SameKey(s[0], e) then [s[0]] else []) + WithKeyOf(s[1..], e)
  }

  /** Insertion puts `x` ahead of every element sharing its key. */
  lemma {:induction false} InsertStable(x: Entry, t: seq<Entry>, e: Entry)
    ensures WithKeyOf(Insert(x, t), e) == (if SameKey(x, e) then [x] else []) + WithKeyOf(t, e)
  {
    if t == [] || !Above(t[0], x) {
      assert ([x] + t)[1..] == t;
    } else {
      InsertStable(x, t[1..], e);
      assert ([t[0]] + Insert(x, t[1..]))[1..] == Insert(x, t[1..]);
      if SameKey(x, e) {
        assert !SameKey(t[0], e);
      }
    }
  }

  /** Ranking is stable: candidates with equal keys keep their relative order. */
  lemma {:induction false} RankStable(s: seq<Entry>, e: Entry)
    ensures WithKeyOf(Rank(s), e) == WithKeyOf(s, e)
  {
    if s != [] {
      RankStable(s[1..], e);
      InsertStable(s[0], Rank(s[1..]), e);
    }
  }

  /** On equal scores the newer post ranks first. */
  lemma TieNewerFirst(s: seq<Entry>, i: nat, j: nat)
    requires i < j < |Rank(s)|
    requires Rank(s)[i].score == Rank(s)[j].score
    ensures CreatedAt(Rank(s)[i].status) >= CreatedAt(Rank(s)[j].status)
  {
    RankDescending(s);
  }

  /** The first ranked candidate has the highest score of all. */
  lemma RankFirstIsBest(s: seq<Entry>)
    requires s != []
    ensures forall k :: 0 <= k < |s| ==> s[k].score <= Rank(s)[0].score
  {
    var r := Rank(s);
    RankDescending(s);
    forall k | 0 <= k < |s| ensures s[k].score <= r[0].score {
      assert s[k] in multiset(r);
      var m :| 0 <= m < |r| && r[m] == s[k];
      if m > 0 {
        assert !Above(r[m], r[0]);
      }
    }
  }
}
