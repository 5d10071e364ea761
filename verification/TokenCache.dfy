/** ClientCredentialsProvider: an OAuth token cached until shortly before it expires. Every call
    holds the mutex from start to end, so a history of calls is a sequence. */
module TokenCache {
  import opened Wrappers
  import opened Backoff

  const EXPIRY_MARGIN := 60 * SECOND

  /** What the token endpoint answers. `Failed` also stands for every error before the request. */
  datatype Response = Failed | Issued(accessToken: string, expiresIn: int)
  {
    predicate Usable() { Issued? && accessToken != "" && expiresIn > 0 }
  }

  datatype Cache = Cache(cached: string, expiresAt: int)

  const EMPTY := Cache("", 0)

  /** A call: the clock when it looks at the cache, the answer if it asks for a token, and the clock
      when that answer is in. */
  datatype Call =
    | Token(now: int, response: Response, done: int)
    | Refresh(response: Response, done: int)

  /** `time.Duration(expiresIn) * time.Second` */
  function Lifetime(expiresIn: int): int { Wrap(expiresIn * SECOND) }

  /** The margin by which a token is dropped early. */
  function Margin(lifetime: int): int {
    if Truncate(lifetime, 10) < EXPIRY_MARGIN then Truncate(lifetime, 10) else EXPIRY_MARGIN
  }

  /** How long a token issued for `expiresIn` seconds is served. */
  function Served(expiresIn: int): int { Lifetime(expiresIn) - Margin(Lifetime(expiresIn)) }

  predicate Hit(c: Cache, call: Call) { call.Token? && c.cached != "" && call.now < c.expiresAt }

  function Do(c: Cache, call: Call): Cache {
    if Hit(c, call) || !call.response.Usable() then c
    else Cache(call.response.accessToken, call.done + Served(call.response.expiresIn))
  }

  /** What the call returns: a token, or an error. */
  function Answer(c: Cache, call: Call): Option<string> {
    if Hit(c, call) then Some(c.cached)
    else if call.response.Usable() then Some(call.response.accessToken)
    else None
  }

  function After(calls: seq<Call>): Cache {
    if calls == [] then EMPTY else Do(After(calls[..|calls| - 1]), calls[|calls| - 1])
  }

  /** Call number `i` fetches a token successfully. */
  predicate Fetches(calls: seq<Call>, i: nat)
    requires i < |calls|
  {
    !Hit(After(calls[..i]), calls[i]) && calls[i].response.Usable()
  }

  /** The last call that fetched a token. */
  function LastFetch(calls: seq<Call>): (k: Option<nat>)
    ensures k.Some? ==> k.value < |calls|
  {
    if calls == [] then None
    else if Fetches(calls, |calls| - 1) then Some(|calls| - 1)
    else LastFetch(calls[..|calls| - 1])
  }

  /** The call that fetched the token which call `i` returns. */
  function SourceOf(calls: seq<Call>, i: nat): Option<nat>
    requires i < |calls|
  {
    if Hit(After(calls[..i]), calls[i]) then LastFetch(calls[..i])
    else if calls[i].response.Usable() then Some(i)
    else None
  }

  /** The cache holds what the last successful fetch put there; failed fetches leave it alone. */
  lemma {:induction false} CacheIsLastFetch(calls: seq<Call>)
    ensures match LastFetch(calls)
            case None => After(calls) == EMPTY
            case Some(k) =>
              && Fetches(calls, k)
              && After(calls) ==
                   Cache(calls[k].response.accessToken, calls[k].done + Served(calls[k].response.expiresIn))
  {
    if calls != [] {
      var front := calls[..|calls| - 1];
      CacheIsLastFetch(front);
      if LastFetch(front).Some? {
        assert front[..LastFetch(front).value] == calls[..LastFetch(front).value];
      }
    }
  }

  /** A token is returned by exactly the calls that have a source, it is the token that the source
      fetched, and a call that is served from the cache comes before the source's token is dropped. */
  lemma TokensComeFromTheirSource(calls: seq<Call>, i: nat)
    requires i < |calls|
    ensures Answer(After(calls[..i]), calls[i]).Some? <==> SourceOf(calls, i).Some?
    ensures SourceOf(calls, i).Some? ==>
              var k := SourceOf(calls, i).value;
              && k <= i && Fetches(calls, k)
              && Answer(After(calls[..i]), calls[i]) == Some(calls[k].response.accessToken)
              && (k < i ==> calls[i].Token? && calls[i].now < calls[k].done + Served(calls[k].response.expiresIn))
  {
    CacheIsLastFetch(calls[..i]);
    if Hit(After(calls[..i]), calls[i]) {
      var k := LastFetch(calls[..i]).value;
      assert calls[..i][..k] == calls[..k];
    }
  }

  /** A call that the cache does not serve returns a token exactly when one was issued for it, with a
      positive lifetime: an empty token, or one without a lifetime, is neither returned nor cached. */
  lemma IssuedTokensAreUsedIff(calls: seq<Call>, i: nat)
    requires i < |calls| && (SourceOf(calls, i) == Some(i) || SourceOf(calls, i).None?)
    ensures var r := calls[i].response;
            && (SourceOf(calls, i) == Some(i) <==> r.Issued? && r.accessToken != "" && r.expiresIn >= 1)
            && (SourceOf(calls, i) == Some(i) ==>
                  && Answer(After(calls[..i]), calls[i]) == Some(r.accessToken)
                  && After(calls[..i + 1]).cached == r.accessToken)
            && (SourceOf(calls, i).None? ==>
                  Answer(After(calls[..i]), calls[i]) == None && After(calls[..i + 1]) == After(calls[..i]))
  {
    assert calls[..i + 1][..i] == calls[..i];
    CacheIsLastFetch(calls[..i]);
  }

  /** The cache is used while it can be: a Token call returns the token of the last fetch, whatever the
      server would answer, exactly when its serving time is not over. Refresh never does. */
  lemma CacheIsUsedIff(calls: seq<Call>, i: nat)
    requires i < |calls| && LastFetch(calls[..i]).Some?
    ensures var k := LastFetch(calls[..i]).value;
            calls[k].response.Issued? &&
            (SourceOf(calls, i) == Some(k) <==>
              calls[i].Token? && calls[i].now < calls[k].done + Served(calls[k].response.expiresIn))
  {
    CacheIsLastFetch(calls[..i]);
    var k := LastFetch(calls[..i]).value;
    assert calls[..i][k] == calls[k] && calls[..i][..k] == calls[..k];
  }

  /** Within the range of a duration a token is served for its lifetime less a minute, or less a
      tenth of it if that is shorter: always strictly before it expires. */
  lemma ServedBeforeExpiry(expiresIn: int)
    requires 0 < expiresIn && expiresIn * SECOND <= MAX_INT64
    ensures Served(expiresIn) == expiresIn * SECOND - Min(60 * SECOND, expiresIn * SECOND / 10)
    ensures 0 < Served(expiresIn) < expiresIn * SECOND
  {
  }

  /** The lifetime is what the server said exactly when it fits a duration. Beyond that it is off by a
      multiple of 2^64 nanoseconds: always too short for what the server said, but possibly positive. */
  lemma LifetimeFitsIff(expiresIn: int)
    ensures Lifetime(expiresIn) == expiresIn * SECOND <==> -MAX_INT64 - 1 <= expiresIn * SECOND <= MAX_INT64
    ensures expiresIn * SECOND > MAX_INT64 ==> Lifetime(expiresIn) <= expiresIn * SECOND - TWO_64
    ensures (expiresIn * SECOND - Lifetime(expiresIn)) % TWO_64 == 0
  {
    var ns := expiresIn * SECOND;
    var low := (ns + MAX_INT64 + 1) % TWO_64;
    assert ns - Lifetime(expiresIn) == (ns + MAX_INT64 + 1) - low;
    assert ns - Lifetime(expiresIn) == (ns + MAX_INT64 + 1) / TWO_64 * TWO_64;
  }

  /** A token is over at once, so that every call fetches again, exactly when its lifetime wraps to
      nothing or below: 10^10 seconds do, 2 * 10^10 seconds do not. */
  lemma OverAtOnceIff(expiresIn: int)
    ensures Served(expiresIn) <= 0 <==> Lifetime(expiresIn) <= 0
    ensures Served(10_000_000_000) < 0 < Served(20_000_000_000)
    ensures Served(3600) == 3_540_000_000_000 && Served(300) == 270_000_000_000
  {
  }

  /** Two successive fetches of which the second is made by Token, not by Refresh, lie at least the
      serving time of the first token apart. */
  lemma FetchesAreSpaced(calls: seq<Call>, k: nat, m: nat)
    requires m < |calls| && Fetches(calls, m) && calls[m].Token? && calls[m].now <= calls[m].done
    requires LastFetch(calls[..m]) == Some(k)
    ensures Fetches(calls, k)
    ensures calls[m].done - calls[k].done >= Served(calls[k].response.expiresIn)
  {
    CacheIsLastFetch(calls[..m]);
    assert calls[..m][k] == calls[k] && calls[..m][..k] == calls[..k];
  }

  lemma {:induction false} LastFetchIsLast(calls: seq<Call>, i: nat)
    requires i < |calls| && Fetches(calls, i)
    ensures LastFetch(calls).Some? && i <= LastFetch(calls).value
  {
    if i < |calls| - 1 {
      assert calls[..|calls| - 1][..i] == calls[..i];
      LastFetchIsLast(calls[..|calls| - 1], i);
    }
  }

  /** After a successful Refresh every token that any call returns comes from that Refresh or from a
      later fetch: the token sent after a 401 is never older than the refresh it asked for. */
  lemma TokensAfterRefreshAreFresh(calls: seq<Call>, i: nat, j: nat)
    requires i < j < |calls| && calls[i].Refresh? && calls[i].response.Usable()
    requires Answer(After(calls[..j]), calls[j]).Some?
    ensures SourceOf(calls, j).Some? && i <= SourceOf(calls, j).value
  {
    assert calls[..j][..i] == calls[..i];
    LastFetchIsLast(calls[..j], i);
    TokensComeFromTheirSource(calls, j);
  }

  class ClientCredentialsProvider {
    var cached: string
    var expiresAt: int
    ghost var calls: seq<Call>

    ghost predicate Valid()
      reads this
    {
      Cache(cached, expiresAt) == After(calls)
    }

    constructor ()
      ensures Valid() && calls == []
    {
      cached, expiresAt := "", 0;
      calls := [];
    }

    /** The request for a token. Nothing changes unless it succeeds. */
    method Fetch(response: Response, done: int) returns (token: Option<string>)
      modifies this`cached, this`expiresAt
      ensures token == if response.Usable() then Some(response.accessToken) else None
      ensures token.None? ==> cached == old(cached) && expiresAt == old(expiresAt)
      ensures token.Some? ==> cached == token.value && expiresAt == done + Served(response.expiresIn)
    {
      if response.Failed? || response.accessToken == "" || response.expiresIn <= 0 {
        return None;
      }
      cached := response.accessToken;
      var lifetime := Wrap(response.expiresIn * SECOND);
      var margin := EXPIRY_MARGIN;
      var tenth := Truncate(lifetime, 10);
      if tenth < margin {
        margin := tenth;
      }
      expiresAt := done + (lifetime - margin);
      return Some(cached);
    }

    /** A cached token, or a new one when there is none or it has expired. */
    method Token(now: int, response: Response, done: int) returns (token: Option<string>)
      requires Valid()
      modifies this
      ensures Valid() && calls == old(calls) + [Call.Token(now, response, done)]
      ensures token == Answer(After(old(calls)), Call.Token(now, response, done))
    {
      assert (calls + [Call.Token(now, response, done)])[..|calls|] == calls;
      calls := calls + [Call.Token(now, response, done)];
      if cached != "" && now < expiresAt {
        return Some(cached);
      }
      token := Fetch(response, done);
    }

    /** A new token, even when the cached one is still good. */
    method Refresh(response: Response, done: int) returns (token: Option<string>)
      requires Valid()
      modifies this
      ensures Valid() && calls == old(calls) + [Call.Refresh(response, done)]
      ensures token == Answer(After(old(calls)), Call.Refresh(response, done))
    {
      assert (calls + [Call.Refresh(response, done)])[..|calls|] == calls;
      calls := calls + [Call.Refresh(response, done)];
      token := Fetch(response, done);
    }
  }
}
