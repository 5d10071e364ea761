/** What paces and authorises the round trips of `do`: the rate limiter, which is asked once per call,
    and the token provider, which is asked before every trip. */
module RequestPacing {
  import opened Wrappers
  import opened Division
  import opened Backoff
  import opened ReplayGate
  import opened Executor
  import TokenBucket
  import TokenCache

  // ----- the limiter: once per call, not once per round trip -----

  /** A call that the limiter has let through, and what surrounds its turns. */
  datatype Call = Call(query: string, turns: seq<Turn>)

  function CallTrips(p: Policy, c: Call): nat
    requires 1 <= p.maxAttempts < |c.turns|
  {
    Trips(Loop(p, Retryable(c.query) && p.maxAttempts > 1, c.turns, 1, false).acts)
  }

  function TotalTrips(p: Policy, calls: seq<Call>): nat
    requires 1 <= p.maxAttempts && forall c :: c in calls ==> p.maxAttempts < |c.turns|
  {
    if calls == [] then 0 else CallTrips(p, calls[0]) + TotalTrips(p, calls[1..])
  }

  lemma {:induction false} TripsPerCall(p: Policy, calls: seq<Call>)
    requires 1 <= p.maxAttempts && forall c :: c in calls ==> p.maxAttempts < |c.turns|
    ensures TotalTrips(p, calls) <= |calls| * (p.maxAttempts + 1)
  {
    if calls != [] {
      DoIsBounded(p, calls[0].query, calls[0].turns);
      TripsPerCall(p, calls[1..]);
      assert (|calls| - 1) * (p.maxAttempts + 1) + (p.maxAttempts + 1) == |calls| * (p.maxAttempts + 1);
    }
  }

  /** The calls that a token bucket lets through between two of its polls, one for each grant, make at
      most MaxAttempts + 1 times as many requests as the bucket grants in that window. */
  lemma PacedTrips(p: Policy, rpm: int, b: TokenBucket.Bucket, polls: seq<int>, i: nat, j: nat, calls: seq<Call>)
    requires 1 <= rpm <= TokenBucket.MINUTE && TokenBucket.Fits(TokenBucket.PerMinute(rpm), b)
    requires i <= j < |polls| && TokenBucket.Granted(TokenBucket.PerMinute(rpm), b, polls, i)
    requires |calls| == TokenBucket.GrantsIn(TokenBucket.PerMinute(rpm), b, polls, i, j + 1)
    requires 1 <= p.maxAttempts && forall c :: c in calls ==> p.maxAttempts < |c.turns|
    ensures var l := TokenBucket.PerMinute(rpm);
            var span := TokenBucket.TimeAt(l, b, polls, j) - TokenBucket.TimeAt(l, b, polls, i);
            TotalTrips(p, calls) <= (rpm + span / l.perToken) * (p.maxAttempts + 1)
  {
    var l := TokenBucket.PerMinute(rpm);
    var span := TokenBucket.TimeAt(l, b, polls, j) - TokenBucket.TimeAt(l, b, polls, i);
    TokenBucket.WindowBound(rpm, b, polls, i, j);
    TripsPerCall(p, calls);
    MulIsMonotone(|calls|, rpm + span / l.perToken, p.maxAttempts + 1);
  }

  /** The limiter's own promise is one wait per request. It is kept, whatever happens, exactly for calls
      that are never retried; a retryable one makes MaxAttempts requests on one wait. */
  lemma OneWaitPerRequestIff(p: Policy, query: string)
    requires 1 <= p.maxAttempts
    ensures (forall turns: seq<Turn> | p.maxAttempts < |turns| :: CallTrips(p, Call(query, turns)) <= 1) <==>
              !Retryable(query) || p.maxAttempts == 1
  {
    if Retryable(query) && p.maxAttempts > 1 {
      var turns := seq(p.maxAttempts + 1, _ => Turn("", false, NoResponse, false, None, None));
      FailedTripsAreRepeated(p, turns, 1);
      assert CallTrips(p, Call(query, turns)) == p.maxAttempts;
    } else {
      forall turns: seq<Turn> | p.maxAttempts < |turns| ensures CallTrips(p, Call(query, turns)) <= 1 {
        DoIsBounded(p, query, turns);
        TurnsAreBounded(p, false, turns, 1, false);
        TripsFollowTurns(p, false, turns, 1, false);
      }
    }
  }

  // ----- the token of each round trip -----

  /** Each trip carries the token of its own turn. */
  lemma {:induction false} TokensAreSent(p: Policy, canRetry: bool, turns: seq<Turn>, n: nat, refreshed: bool, i: nat)
    requires 1 <= n <= p.maxAttempts + (if refreshed then 1 else 0) && p.maxAttempts < |turns|
    requires i < |Loop(p, canRetry, turns, n, refreshed).acts|
    ensures var acts := Loop(p, canRetry, turns, n, refreshed).acts;
            && n + i / 2 <= |turns|
            && (acts[i].Tripped? ==> acts[i] == Trip(turns[n - 1 + i / 2]) && !turns[n - 1 + i / 2].tokenFails)
    decreases |turns| - n
  {
    var v := Judge(p, canRetry, turns[n - 1], n, refreshed);
    if v.Again? && i >= 2 {
      TokensAreSent(p, canRetry, turns, n + 1, v.refreshed, i - 2);
    }
  }

  /** The turns got their tokens from a provider with this history of calls, which may hold the calls of
      others too: turn `i` made call number `at[i]`. */
  ghost predicate Provided(turns: seq<Turn>, calls: seq<TokenCache.Call>, at: seq<nat>) {
    && |at| == |turns|
    && forall i :: 0 <= i < |turns| ==>
         && at[i] < |calls| && calls[at[i]].Token?
         && TokenCache.Answer(TokenCache.After(calls[..at[i]]), calls[at[i]]) ==
              if turns[i].tokenFails then None else Some(turns[i].token)
  }

  /** The trip that follows a refresh carries a token that was fetched by that refresh or later: never
      the one that was turned down with the 401. `r` is the provider's call of Refresh, made before the
      next turn asked for its token. */
  lemma TokenAfterRefreshIsFresh(p: Policy, canRetry: bool, turns: seq<Turn>, calls: seq<TokenCache.Call>,
                                 at: seq<nat>, i: nat, r: nat)
    requires 1 <= p.maxAttempts < |turns| && Provided(turns, calls, at)
    requires var acts := Loop(p, canRetry, turns, 1, false).acts; i + 1 < |acts| && acts[i].Refreshed?
    requires i / 2 + 1 < |turns| && r < at[i / 2 + 1] && calls[r].Refresh? && calls[r].response.Usable()
    ensures var acts := Loop(p, canRetry, turns, 1, false).acts;
            var source := TokenCache.SourceOf(calls, at[i / 2 + 1]);
            && acts[i + 1].Tripped? && source.Some? && r <= source.value <= at[i / 2 + 1]
            && calls[source.value].response.Issued?
            && acts[i + 1].token == calls[source.value].response.accessToken
  {
    var k := i / 2 + 1;
    RetriesAreJustified(p, canRetry, turns, 1, false, i);
    RetriesAreJustified(p, canRetry, turns, 1, false, i + 1);
    TokensAreSent(p, canRetry, turns, 1, false, i + 1);
    TokenCache.TokensComeFromTheirSource(calls, at[k]);
    TokenCache.TokensAfterRefreshAreFresh(calls, r, at[k]);
  }
}
