/**
 * `_attempt_reblog_with_federation_fallback` of hype/hype.py as a decision
 * over the outcomes of the API calls it makes: reblog directly, and on a 404
 * (when federation is enabled) resolve the post by search and reblog the
 * copy that search returns.
 */
module Federation {
  import opened Wrappers
  import opened Statuses
  import opened Settings

  /** How a `status_reblog` call ended. */
  datatype ReblogOutcome = Reblogged | NotFound | ApiError | OtherError

  /** How `search_v2(uri, resolve=True)` ended: the first status it found, none, or an exception. */
  datatype SearchOutcome = Found(status: Status) | NoStatuses | SearchApiError | SearchOtherError

  /**
   * The outcomes the calls for one candidate would have: the direct reblog,
   * the search, and the reblog of the federated copy. A call that is never
   * made has its outcome ignored.
   */
  datatype Attempt = Attempt(direct: ReblogOutcome, search: SearchOutcome, retry: ReblogOutcome)

  /** Why the attempt ended as it did, as the log lines of the source name it. */
  datatype Reason =
    | MissingUri
    | DirectReblog
    | NotFederated
    | ResolveEmpty
    | ResolveFailed
    | ReblogAfterResolve
    | RetryFailed
    | ReblogFailed

  /** `status.get("uri") or status.get("url")`, kept only when non-empty. */
  function Uri(s: Status): Option<string> {
    FirstTruthy(s.uri, s.url)
  }

  /**
   * The decision: whether the boost happened, the status to remember for it
   * (the trending one, or the federated copy), and the reason.
   */
  function ReblogWithFallback(cfg: Config, s: Status, at: Attempt): (r: (bool, Option<Status>, Reason))
    ensures r.0 <==> r.1.Some?
    ensures r.0 <==> r.2 == DirectReblog || r.2 == ReblogAfterResolve
  {
    if Uri(s).None? then (false, None, MissingUri)
    else match at.direct
      case Reblogged => (true, Some(s), DirectReblog)
      case NotFound =>
        if !cfg.federateMissingStatuses then (false, None, NotFederated)
        else (match at.search
          case NoStatuses => (false, None, ResolveEmpty)
          case SearchApiError => (false, None, ResolveFailed)
          case SearchOtherError => (false, None, ResolveFailed)
          case Found(f) =>
            if at.retry == Reblogged then (true, Some(f), ReblogAfterResolve)
            else if at.retry == OtherError then (false, None, ResolveFailed)
            else (false, None, RetryFailed))
      case ApiError => (false, None, ReblogFailed)
      case OtherError => (false, None, ReblogFailed)
  }

  /**
   * A boost happens exactly when the post has a URI and either the direct
   * reblog succeeds, or it answers 404, federation is on, the search finds
   * the post and the second reblog succeeds.
   */
  lemma ReblogSucceedsIff(cfg: Config, s: Status, at: Attempt)
    ensures ReblogWithFallback(cfg, s, at).0 <==>
      (Truthy(s.uri) || Truthy(s.url)) &&
      (at.direct == Reblogged
       || (at.direct == NotFound && cfg.federateMissingStatuses && at.search.Found? && at.retry == Reblogged))
  {
  }

  /** The status remembered is the trending one after a direct reblog and the search's copy after federation. */
  lemma TrackedStatus(cfg: Config, s: Status, at: Attempt)
    ensures ReblogWithFallback(cfg, s, at).2 == DirectReblog ==> ReblogWithFallback(cfg, s, at).1 == Some(s)
    ensures ReblogWithFallback(cfg, s, at).2 == ReblogAfterResolve ==>
      at.search.Found? && ReblogWithFallback(cfg, s, at).1 == Some(at.search.status)
  {
  }

  /** With federation disabled, only a direct reblog can succeed, and a 404 ends the attempt. */
  lemma NoFederationNoSearch(cfg: Config, s: Status, at: Attempt)
    requires !cfg.federateMissingStatuses
    ensures ReblogWithFallback(cfg, s, at).0 ==> ReblogWithFallback(cfg, s, at).2 == DirectReblog
    ensures Uri(s).Some? && at.direct == NotFound ==> ReblogWithFallback(cfg, s, at).2 == NotFederated
  {
  }
}
