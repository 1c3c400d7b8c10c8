/**
 * The client's response interceptor: a request rejected with 403 that has not
 * been retried and is not itself the refresh call marks itself retried, calls
 * `/auth/refresh` once, and on success replays itself once.
 *
 * The server is an oracle: `replies` lists the statuses it will answer to the
 * next requests, in order (`None` is a request that got no response at all).
 */
module RetryInterceptor {
  import opened Wrappers
  import opened JsString

  const REFRESH_URL: string := "/auth/refresh"

  /** How a call settles. Axios resolves a 2xx response and rejects anything else. */
  datatype Outcome = Resolved(status: int) | Rejected(error: Option<int>)

  predicate IsSuccess(status: int) {
    200 <= status < 300
  }

  /** How one call settled and the URLs it sent, in order. */
  datatype Run = Run(outcome: Outcome, sent: seq<string>)

  /** The server's answer to the next request; `None` once the oracle has nothing more to say. */
  function NextReply(replies: seq<Option<int>>): Option<int> {
    if replies == [] then None else replies[0]
  }

  /** The oracle after `n` more requests. */
  function Drop(replies: seq<Option<int>>, n: nat): seq<Option<int>> {
    if n <= |replies| then replies[n..] else []
  }

  lemma DropDrop(replies: seq<Option<int>>, a: nat, b: nat)
    ensures Drop(Drop(replies, a), b) == Drop(replies, a + b)
  {
  }

  /** The interceptor's condition for refreshing. */
  predicate Retriable(status: Option<int>, retried: bool, url: string) {
    status == Some(403) && !retried && !Includes(url, REFRESH_URL)
  }

  /** Calls that can still trigger a refresh rank above those that cannot. */
  function Rank(url: string, retried: bool): nat {
    if retried || Includes(url, REFRESH_URL) then 0 else 1
  }

  /** `api(config)` for a request to `url` whose `_retry` flag is `retried`: send, then intercept a rejection. */
  function Attempt(url: string, retried: bool, replies: seq<Option<int>>): Run
    decreases Rank(url, retried), 1
  {
    var status := NextReply(replies);
    if status.Some? && IsSuccess(status.value) then Run(Resolved(status.value), [url])
    else
      var rest := Intercept(url, retried, status, Drop(replies, 1));
      Run(rest.outcome, [url] + rest.sent)
  }

  /**
   * The rejection handler for a request to `url` that failed with `status`:
   * what it sends afterwards and how the original call then settles.
   */
  function Intercept(url: string, retried: bool, status: Option<int>, replies: seq<Option<int>>): Run
    decreases Rank(url, retried), 0
  {
    if Retriable(status, retried, url) then
      IncludesSelf(REFRESH_URL);
      var refresh := Attempt(REFRESH_URL, false, replies);
      if refresh.outcome.Rejected? then refresh
      else
        var replay := Attempt(url, true, Drop(replies, |refresh.sent|));
        Run(replay.outcome, refresh.sent + replay.sent)
    else Run(Rejected(status), [])
  }

  /** A request's config object; the interceptor sets `_retry` on it in place. */
  class RequestConfig {
    const url: string
    var retry: bool

    constructor (url: string)
      ensures this.url == url && !retry
    {
      this.url := url;
      retry := false;
    }
  }

  class ApiClient {
    /** What the server will answer next. */
    var replies: seq<Option<int>>
    /** The URLs of all requests sent so far. */
    var sent: seq<string>

    constructor (replies: seq<Option<int>>)
      ensures this.replies == replies && sent == []
    {
      this.replies := replies;
      sent := [];
    }

    /** Sends one request and takes the server's answer. */
    method Transmit(url: string) returns (status: Option<int>)
      modifies this
      ensures status == NextReply(old(replies))
      ensures replies == Drop(old(replies), 1) && sent == old(sent) + [url]
    {
      status := NextReply(replies);
      replies := Drop(replies, 1);
      sent := sent + [url];
    }

    /** `api(req)`: sends the request; a rejection goes through the interceptor. */
    method Request(req: RequestConfig) returns (o: Outcome)
      modifies this, req
      decreases Rank(req.url, req.retry), 1
      ensures var run := Attempt(req.url, old(req.retry), old(replies));
              && o == run.outcome
              && sent == old(sent) + run.sent
              && replies == Drop(old(replies), |run.sent|)
      ensures req.retry == (old(req.retry) || Retriable(NextReply(old(replies)), false, req.url))
    {
      var status := Transmit(req.url);
      if status.Some? && IsSuccess(status.value) {
        return Resolved(status.value);
      }
      o := OnRejected(req, status);
      DropDrop(old(replies), 1, |Intercept(req.url, old(req.retry), status, Drop(old(replies), 1)).sent|);
    }

    /** The interceptor's error handler for `req`, rejected with `status`. */
    method OnRejected(req: RequestConfig, status: Option<int>) returns (o: Outcome)
      modifies this, req
      decreases Rank(req.url, req.retry), 0
      ensures var run := Intercept(req.url, old(req.retry), status, old(replies));
              && o == run.outcome
              && sent == old(sent) + run.sent
              && replies == Drop(old(replies), |run.sent|)
      ensures req.retry == (old(req.retry) || Retriable(status, false, req.url))
    {
      if status == Some(403) && !req.retry && !Includes(req.url, REFRESH_URL) {
        req.retry := true;
        IncludesSelf(REFRESH_URL);
        var refreshReq := new RequestConfig(REFRESH_URL);
        var refreshed := Request(refreshReq);
        if refreshed.Rejected? {
          return refreshed;
        }
        ghost var afterRefresh := replies;
        o := Request(req);
        ghost var refreshRun := Attempt(REFRESH_URL, false, old(replies));
        DropDrop(old(replies), |refreshRun.sent|, |Attempt(req.url, true, afterRefresh).sent|);
      } else {
        o := Rejected(status);
      }
    }
  }

  /** Only a 403 can start a refresh: any other answer settles the call as it is, after one request. */
  lemma OnlyForbiddenRefreshes(url: string, retried: bool, replies: seq<Option<int>>)
    requires NextReply(replies) != Some(403)
    ensures var status := NextReply(replies);
            Attempt(url, retried, replies)
              == Run(if status.Some? && IsSuccess(status.value) then Resolved(status.value) else Rejected(status), [url])
  {
  }

  /** A request already marked retried, or to the refresh URL, is sent once and never refreshed. */
  lemma NoSecondRound(url: string, retried: bool, replies: seq<Option<int>>)
    requires retried || Includes(url, REFRESH_URL)
    ensures Attempt(url, retried, replies).sent == [url]
  {
  }

  /** One call sends at most: the request, one refresh, one replay. */
  lemma AtMostOneRefreshOneReplay(url: string, replies: seq<Option<int>>)
    ensures var sent := Attempt(url, false, replies).sent;
            sent == [url] || sent == [url, REFRESH_URL] || sent == [url, REFRESH_URL, url]
  {
    IncludesSelf(REFRESH_URL);
    NoSecondRound(REFRESH_URL, false, Drop(replies, 1));
    NoSecondRound(url, true, Drop(replies, 2));
  }

  /** When the refresh call fails, the call settles with the refresh call's error and the request is not replayed. */
  lemma RefreshFailureSurfaces(url: string, replies: seq<Option<int>>)
    requires Retriable(NextReply(replies), false, url)
    requires var r := NextReply(Drop(replies, 1)); !(r.Some? && IsSuccess(r.value))
    ensures Attempt(url, false, replies) == Run(Rejected(NextReply(Drop(replies, 1))), [url, REFRESH_URL])
  {
    IncludesSelf(REFRESH_URL);
    var rest := Drop(replies, 1);
    var refresh := Attempt(REFRESH_URL, false, rest);
    assert !Retriable(NextReply(rest), false, REFRESH_URL);
    assert refresh == Run(Rejected(NextReply(rest)), [REFRESH_URL]);
    assert Intercept(url, false, NextReply(replies), rest) == refresh;
  }

  /**
   * When the refresh call succeeds, the request is replayed once and the call
   * settles exactly as the replay does; a failing replay is not retried.
   */
  lemma RefreshSuccessReplays(url: string, replies: seq<Option<int>>)
    requires Retriable(NextReply(replies), false, url)
    requires var r := NextReply(Drop(replies, 1)); r.Some? && IsSuccess(r.value)
    ensures var third := NextReply(Drop(replies, 2));
            Attempt(url, false, replies)
              == Run(if third.Some? && IsSuccess(third.value) then Resolved(third.value) else Rejected(third),
                     [url, REFRESH_URL, url])
  {
    IncludesSelf(REFRESH_URL);
    var rest := Drop(replies, 1);
    var refresh := Attempt(REFRESH_URL, false, rest);
    assert refresh == Run(Resolved(NextReply(rest).value), [REFRESH_URL]);
    DropDrop(replies, 1, 1);
    var replay := Attempt(url, true, Drop(rest, 1));
    var third := NextReply(Drop(replies, 2));
    assert !Retriable(third, true, url);
    assert Intercept(url, true, third, Drop(Drop(rest, 1), 1)) == Run(Rejected(third), []);
    assert [url] + [] == [url];
    assert replay == Run(if third.Some? && IsSuccess(third.value) then Resolved(third.value) else Rejected(third), [url]);
    assert Intercept(url, false, NextReply(replies), rest) == Run(replay.outcome, [REFRESH_URL, url]);
  }
}
