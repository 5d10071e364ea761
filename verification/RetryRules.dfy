/** The retry rules of `do`, said in full and without a look at the loop: what each reply asks for, and
    that every trip of every course is followed by it. */
module RetryRules {
  import opened Wrappers
  import opened Backoff
  import opened Executor

  // ----- what follows a trip -----

  /** The reply asks for a new token: the first 401 of a replayable call. */
  predicate RefreshDue(r: Reply, canRetry: bool, refreshed: bool) {
    r.Response? && !r.broken && r.status == 401 && canRetry && !refreshed
  }

  /** The reply asks for another attempt: a failed trip of a call that is not cancelled, or a response with
      a listed status or the words "temporarily blocked", as long as there is budget. */
  predicate SleepDue(p: Policy, r: Reply, canRetry: bool, refreshed: bool, cancelled: bool, n: nat) {
    && canRetry && n < p.maxAttempts
    && if r.NoResponse? || r.broken then !cancelled
       else && !(200 <= r.status < 300) && !RefreshDue(r, canRetry, refreshed)
            && (r.status in p.retryableStatuses || r.blocked)
  }

  /** The exit that belongs to a reply that asks for neither. */
  function FinalExit(r: Reply, cancelled: bool): Exit {
    if r.NoResponse? || r.broken then (if cancelled then Cancelled else TransportFailed(r))
    else if 200 <= r.status < 300 then Answered(r)
    else HttpFailed(r)
  }

  /** What follows pause number `i` of a course, in turn `m`: the error that ends the course, or the
      next turn. */
  ghost predicate PauseLeadsOn(c: Course, turns: seq<Turn>, i: nat, m: nat, error: Option<Error>, failed: Error -> Exit)
    requires 1 <= m
  {
    match error
    case Some(e) => i == |c.acts| - 1 && c.turn == m && c.exit == failed(e)
    case None => c.turn > m && m < |turns| && (i + 1 < |c.acts| <==> !turns[m].tokenFails)
  }

  /** The complete rule for trip number `i` of a course, made in turn `m`. */
  ghost predicate RuledBy(p: Policy, canRetry: bool, turns: seq<Turn>, c: Course, i: nat, m: nat, refreshed: bool)
    requires 1 <= m <= |turns| && i < |c.acts| && c.acts[i].Tripped?
  {
    var r, t := c.acts[i].reply, turns[m - 1];
    && c.acts[i] == Tripped(t.token, t.reply) && !t.tokenFails
    && if RefreshDue(r, canRetry, refreshed) then
         && i + 1 < |c.acts| && c.acts[i + 1] == Refreshed
         && PauseLeadsOn(c, turns, i + 1, m, t.refreshError, e => RefreshFailed(e))
       else if SleepDue(p, r, canRetry, refreshed, t.cancelled, m) then
         && i + 1 < |c.acts| && c.acts[i + 1] == Slept(m, if r.NoResponse? || r.broken then 0 else r.hint)
         && PauseLeadsOn(c, turns, i + 1, m, t.sleepError, e => SleepFailed(e))
       else i == |c.acts| - 1 && c.turn == m && c.exit == FinalExit(r, t.cancelled)
  }

  lemma FirstTripIsRuled(p: Policy, canRetry: bool, turns: seq<Turn>, n: nat, refreshed: bool)
    requires 1 <= n <= p.maxAttempts + (if refreshed then 1 else 0) && p.maxAttempts < |turns|
    ensures var c := Loop(p, canRetry, turns, n, refreshed);
            if c.acts == [] then turns[n - 1].tokenFails && c == Course([], TokenFailed, n)
            else c.acts[0].Tripped? && RuledBy(p, canRetry, turns, c, 0, n, refreshed)
  {
    var v := Judge(p, canRetry, turns[n - 1], n, refreshed);
    if v.Again? {
      var rest := Loop(p, canRetry, turns, n + 1, v.refreshed);
      TurnsAreBounded(p, canRetry, turns, n + 1, v.refreshed);
      StartsUnlessTokenFails(p, canRetry, turns, n + 1, v.refreshed);
    }
  }

  lemma StartsUnlessTokenFails(p: Policy, canRetry: bool, turns: seq<Turn>, n: nat, refreshed: bool)
    requires 1 <= n <= p.maxAttempts + (if refreshed then 1 else 0) && p.maxAttempts < |turns|
    ensures Loop(p, canRetry, turns, n, refreshed).acts == [] <==> turns[n - 1].tokenFails
  {
  }

  /** The rule of a later trip does not depend on what comes before. */
  lemma RulesShift(p: Policy, canRetry: bool, turns: seq<Turn>, c: Course, now: seq<Act>, rest: Course, i: nat, m: nat,
                   refreshed: bool, refreshed': bool)
    requires |now| == 2 && c == Course(now + rest.acts, rest.exit, rest.turn) && 2 <= i < |c.acts|
    requires 1 <= m <= |turns| && c.acts[i].Tripped? && refreshed' == (refreshed || Refreshed in now)
    requires RuledBy(p, canRetry, turns, rest, i - 2, m, refreshed' || Refreshed in rest.acts[..i - 2])
    ensures RuledBy(p, canRetry, turns, c, i, m, refreshed || Refreshed in c.acts[..i])
  {
    assert c.acts[..i] == now + rest.acts[..i - 2];
  }

  /** Every trip of every course is followed by exactly what its reply asks for, in both directions: a
      refresh, a sleep with the right attempt and hint, or the end with the right exit; and a pause by
      the next turn unless it failed. */
  lemma {:induction false} TripsFollowTheRules(p: Policy, canRetry: bool, turns: seq<Turn>, n: nat, refreshed: bool,
                                               i: nat)
    requires 1 <= n <= p.maxAttempts + (if refreshed then 1 else 0) && p.maxAttempts < |turns|
    requires i < |Loop(p, canRetry, turns, n, refreshed).acts|
    requires Loop(p, canRetry, turns, n, refreshed).acts[i].Tripped?
    ensures var c := Loop(p, canRetry, turns, n, refreshed);
            && n + i / 2 <= |turns|
            && RuledBy(p, canRetry, turns, c, i, n + i / 2, refreshed || Refreshed in c.acts[..i])
    decreases |turns| - n
  {
    var c, v := Loop(p, canRetry, turns, n, refreshed), Judge(p, canRetry, turns[n - 1], n, refreshed);
    FirstTripIsRuled(p, canRetry, turns, n, refreshed);
    if i > 0 {
      var rest := Loop(p, canRetry, turns, n + 1, v.refreshed);
      RetriesAreJustified(p, canRetry, turns, n, refreshed, i);
      TripsFollowTheRules(p, canRetry, turns, n + 1, v.refreshed, i - 2);
      RulesShift(p, canRetry, turns, c, [Trip(turns[n - 1]), v.pause], rest, i, n + i / 2, refreshed, v.refreshed);
    } else {
      assert c.acts[..0] == [];
    }
  }
}
