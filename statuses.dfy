/**
 * A post ("status") as the bot reads it from the Mastodon API, with the
 * defaults hype/hype.py applies when a key is missing.
 */
module Statuses {
  import opened Wrappers
  import opened Text

  /**
   * The keys of a status dictionary the bot reads. `None` stands for a key
   * that is missing or null; each accessor below applies the source's default.
   * Tag names are kept in API order; a tag without a name reads as "".
   * Timestamps are seconds since the epoch.
   */
  datatype Status = Status(
    id: Option<string>,
    url: Option<string>,
    uri: Option<string>,
    acct: Option<string>,
    reblogged: bool,
    tags: seq<string>,
    mediaCount: nat,
    sensitive: bool,
    spoilerText: Option<string>,
    language: Option<string>,
    reblogsCount: nat,
    favouritesCount: nat,
    repliesCount: nat,
    content: Option<string>,
    createdAt: Option<int>)

  /** Python truthiness of an optional string: present and non-empty. */
  predicate Truthy(v: Option<string>) {
    v.Some? && v.value != ""
  }

  /** `a or b` followed by a truthiness test: the first non-empty one, if any. */
  function FirstTruthy(a: Option<string>, b: Option<string>): (r: Option<string>)
    ensures r.Some? <==> Truthy(a) || Truthy(b)
    ensures r.Some? ==> r.value != "" && (r == a || r == b)
    ensures Truthy(a) ==> r == a
  {
    if Truthy(a) then a else if Truthy(b) then b else None
  }

  /** `status.get("id", "unknown")` */
  function Sid(s: Status): string {
    s.id.GetOr("unknown")
  }

  /** `status.get("url") or status.get("uri")`, kept only when non-empty. */
  function TrackedUrl(s: Status): Option<string> {
    FirstTruthy(s.url, s.uri)
  }

  /** `status.get("account", {}).get("acct", "unknown")` */
  function Author(s: Status): string {
    s.acct.GetOr("unknown")
  }

  /** `status.get("account", {}).get("acct", "")` */
  function Acct(s: Status): string {
    s.acct.GetOr("")
  }

  /** `bool(status.get("media_attachments"))` */
  predicate HasMedia(s: Status) {
    s.mediaCount > 0
  }

  /** `status.get("content", "") or ""` */
  function Content(s: Status): string {
    s.content.GetOr("")
  }

  /** The lower-cased tag names, in order. */
  function TagNames(s: Status): (names: seq<string>)
    ensures |names| == |s.tags|
    ensures forall i :: 0 <= i < |names| ==> names[i] == Lower(s.tags[i])
  {
    LowerAll(s.tags)
  }

  function LowerAll(words: seq<string>): (r: seq<string>)
    ensures |r| == |words|
    ensures forall i :: 0 <= i < |r| ==> r[i] == Lower(words[i])
  {
    if words == [] then [] else [Lower(words[0])] + LowerAll(words[1..])
  }

  /** `_created_at`, with timestamps already parsed: a missing one is the epoch. */
  function CreatedAt(s: Status): int {
    s.createdAt.GetOr(0)
  }
}
