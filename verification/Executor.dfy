/** Executor.do: the retry loop around one GraphQL request, with its one-shot token refresh, the
    receipts of every response it saw, and its many ways out. */
module Executor {
  import opened Wrappers
  import opened Backoff
  import opened BodyEvidence
  import opened ReplayGate
  import OperationSelection

  datatype Kind =
    | KindTransport
    | KindAuthentication
    | KindAuthorization
    | KindPlanEntitlement
    | KindRateLimited
    | KindServer
    | KindConfig

  /** The receipt of one HTTP response: its status, the bytes that were captured, and how the read went. */
  datatype Receipt = Receipt(status: int, raw: seq<Byte>, evidence: Evidence)

  /** What `roundTrip` returns. `parses` and `blocked` are what the JSON decoder and the search for
      "temporarily blocked" say of the captured bytes; `hint` is the parsed Retry-After header. */
  datatype Reply =
    | NoResponse
    | Response(status: int, hint: int, raw: seq<Byte>, evidence: Evidence, broken: bool, parses: bool, blocked: bool)

  predicate TripFailed(r: Reply) { r.NoResponse? || r.broken }

  /** How the HTTP client and the body of its response behave: no response at all, or a response whose
      body gives its chunks to any sequence of buffers. */
  datatype Exchange =
    | Unsent
    | Exchange(
        status: int,
        hint: int,
        chunks: seq<Chunk>,
        rooms: Buffers,
        closeFails: bool,
        parses: bool,
        blocked: bool)

  const RESPONSE_LIMIT := 0x400_0000

  /** What `roundTrip` makes of an exchange. */
  function ReplyTo(x: Exchange): Reply {
    match x
    case Unsent => NoResponse
    case Exchange(status, hint, chunks, rooms, closeFails, parses, blocked) =>
      var (raw, e) := Capture(chunks, RESPONSE_LIMIT, rooms);
      var evidence := if closeFails then e.(closeError := true, complete := false) else e;
      Response(status, hint, raw, evidence, !e.readComplete || closeFails, parses, blocked)
  }

  /** The captured bytes and the evidence are true of the body: Complete exactly when it was read to its
      end and closed without an error, and then every byte of it is there. */
  ghost predicate TrueOf(raw: seq<Byte>, e: Evidence, x: Exchange) {
    && x.Exchange?
    && Tells(e, RESPONSE_LIMIT, raw, Stream(x.chunks), Fate(x.chunks))
    && e.closeError == x.closeFails
    && (e.complete <==> e.readComplete && !e.closeError)
    && (e.complete ==> raw == Stream(x.chunks) && Fate(x.chunks) == Eof)
  }

  /** Whatever the body does and however it is cut into chunks: the reply tells the truth about it, and
      `roundTrip` reports an error exactly when the evidence is not complete. */
  lemma ReplyIsTrue(x: Exchange)
    ensures x.Unsent? <==> ReplyTo(x).NoResponse?
    ensures x.Exchange? ==>
              var r := ReplyTo(x);
              && r.status == x.status && r.hint == x.hint && r.parses == x.parses && r.blocked == x.blocked
              && TrueOf(r.raw, r.evidence, x) && (r.broken <==> !r.evidence.complete)
  {
    if x.Exchange? {
      CaptureIsTrue(x.chunks, RESPONSE_LIMIT, x.rooms);
    }
  }

  const BEARER := "Bearer "

  /** A response is complete exactly when its body ends and closes without an error, and has no more than
      64 MiB; then all of it is captured. */
  lemma CompleteIff(x: Exchange)
    requires x.Exchange?
    ensures ReplyTo(x).evidence.complete <==> Fate(x.chunks) == Eof && !x.closeFails && |Stream(x.chunks)| <= 67_108_864
  {
    ReplyIsTrue(x);
    EvidenceIsDetermined(ReplyTo(x).evidence, RESPONSE_LIMIT, ReplyTo(x).raw, Stream(x.chunks), Fate(x.chunks));
  }

  /** Sends the request once, with the token that it is given, and captures the body of the response
      with its evidence. */
  method RoundTrip(x: Exchange, token: string) returns (r: Reply, authorization: string)
    ensures r == ReplyTo(x) && authorization == "Bearer " + token
    ensures r.Response? ==> TrueOf(r.raw, r.evidence, x) && (r.broken <==> !r.evidence.complete)
  {
    ReplyIsTrue(x);
    authorization := BEARER + token;
    match x
    case Unsent =>
      r := NoResponse;
    case Exchange(status, hint, chunks, rooms, closeFails, parses, blocked) =>
      var body := new Body(chunks);
      var raw, evidence, fault := ReadLimitedEvidence(body, RESPONSE_LIMIT, rooms);
      if closeFails {
        evidence := evidence.(closeError := true);
        evidence := evidence.(complete := false);
      }
      r := Response(status, hint, raw, evidence, fault != NoFault || closeFails, parses, blocked);
  }

  // ----- errors -----

  /** The typed error of the SDK. Its receipts are added to it in place. */
  class ApiError {
    const kind: Kind
    const status: int
    const temporary: bool
    var receipts: seq<Receipt>

    constructor (kind: Kind, status: int, temporary: bool, receipts: seq<Receipt>)
      ensures this.kind == kind && this.status == status && this.temporary == temporary && this.receipts == receipts
    {
      this.kind, this.status, this.temporary, this.receipts := kind, status, temporary, receipts;
    }
  }

  /** An error in whose chain errors.As finds no ApiError, or the first one that it finds. */
  datatype Error = Plain | Typed(api: ApiError)

  /** The receipts that a caller finds on an error. */
  function ReceiptsOf(e: Error): seq<Receipt>
    reads if e.Typed? then {e.api} else {}
  {
    if e.Typed? then e.api.receipts else []
  }

  /** Adds the receipts to the error itself when it is typed, and wraps it otherwise. */
  method WithReceipts(e: Error, receipts: seq<Receipt>) returns (out: Error)
    modifies if e.Typed? then {e.api} else {}
    ensures ReceiptsOf(out) == old(ReceiptsOf(e)) + receipts
    ensures e.Typed? || receipts == [] ==> out == e
    ensures e.Plain? && receipts != [] ==> out.Typed? && fresh(out.api) && Made(out, KindTransport, 0, false)
  {
    if receipts == [] {
      return e;
    }
    if e.Typed? {
      e.api.receipts := e.api.receipts + receipts;
      return e;
    }
    var api := new ApiError(KindTransport, 0, false, receipts);
    return Typed(api);
  }

  /** A typed error that the provider keeps and returns again gathers the receipts of one request
      after another: what a caller finds on it is then not this request's receipts alone. */
  method SharedErrorsGather(kept: ApiError, first: seq<Receipt>, second: seq<Receipt>) returns (found: seq<Receipt>)
    modifies kept
    ensures found == old(kept.receipts) + first + second
    ensures found == second <==> old(kept.receipts) == [] && first == []
  {
    var _ := WithReceipts(Typed(kept), first);
    var e := WithReceipts(Typed(kept), second);
    found := ReceiptsOf(e);
    assert found == second ==> |old(kept.receipts)| + |first| == 0;
  }

  /** classifyHTTPError: the kind of the error, and whether it is marked temporary. */
  function Classify(status: int, blocked: bool): (Kind, bool) {
    if status == 401 then (KindAuthentication, false)
    else if status == 403 then (KindAuthorization, false)
    else if status == 402 then (KindPlanEntitlement, false)
    else if status == 429 || blocked then (KindRateLimited, true)
    else if status >= 500 then (KindServer, status == 500 || status == 502 || status == 503 || status == 504)
    else (KindTransport, false)
  }

  /** oauthHTTPError: the same for the token endpoint. */
  function ClassifyOAuth(status: int): (Kind, bool) {
    var kind :=
      if status == 401 || status == 403 then KindAuthentication
      else if status == 429 then KindRateLimited
      else if status == 402 then KindPlanEntitlement
      else KindTransport;
    (kind, status == 429 || status >= 500)
  }

  /** When an HTTP error gets which kind, and when it is marked temporary. */
  lemma ClassifyIff(status: int, blocked: bool)
    ensures var (kind, temporary) := Classify(status, blocked);
            && (kind == KindAuthentication <==> status == 401)
            && (kind == KindAuthorization <==> status == 403)
            && (kind == KindPlanEntitlement <==> status == 402)
            && (kind == KindRateLimited <==> status !in {401, 402, 403} && (status == 429 || blocked))
            && (kind == KindServer <==> status >= 500 && !blocked)
            && (kind == KindTransport <==> status < 500 && status !in {401, 402, 403, 429} && !blocked)
            && (temporary <==> status !in {401, 402, 403} && (blocked || status in {429, 500, 502, 503, 504}))
  {
  }

  /** The same for the token endpoint. */
  lemma ClassifyOAuthIff(status: int)
    ensures var (kind, temporary) := ClassifyOAuth(status);
            && (kind == KindAuthentication <==> status in {401, 403})
            && (kind == KindPlanEntitlement <==> status == 402)
            && (kind == KindRateLimited <==> status == 429)
            && (kind == KindTransport <==> status !in {401, 402, 403, 429})
            && (temporary <==> status == 429 || status >= 500)
  {
  }

  // ----- the loop as a function -----

  /** What surrounds one turn of the loop. */
  datatype Turn = Turn(
    token: string,
    tokenFails: bool,
    reply: Reply,
    cancelled: bool,
    sleepError: Option<Error>,
    refreshError: Option<Error>)

  datatype Act =
    | Tripped(token: string, reply: Reply)
    | Slept(attempt: nat, hint: int)
    | Refreshed

  datatype Exit =
    | TokenFailed
    | Cancelled
    | TransportFailed(reply: Reply)
    | Answered(reply: Reply)
    | HttpFailed(reply: Reply)
    | SleepFailed(error: Error)
    | RefreshFailed(error: Error)

  /** What the loop does, how it ends, and in which turn. */
  datatype Course = Course(acts: seq<Act>, exit: Exit, turn: nat)

  predicate Success(status: int) { 200 <= status < 300 }

  /** A response that the policy allows to retry. */
  predicate Transient(p: Policy, r: Reply)
    requires r.Response?
  {
    r.status in p.retryableStatuses || r.blocked
  }

  /** What one turn comes to: the loop ends, or goes on after a sleep or a refresh. */
  datatype Verdict = Stop(acts: seq<Act>, exit: Exit) | Again(pause: Act, refreshed: bool)

  /** The round trip of a turn, with its token. */
  function Trip(t: Turn): Act {
    Tripped(t.token, t.reply)
  }

  /** Turn number `n`. */
  function Judge(p: Policy, canRetry: bool, t: Turn, n: nat, refreshed: bool): Verdict {
    var trip := [Trip(t)];
    if t.tokenFails then Stop([], TokenFailed)
    else if TripFailed(t.reply) then
      if t.cancelled then Stop(trip, Cancelled)
      else if canRetry && n < p.maxAttempts then AfterSleep(trip, Slept(n, 0), t.sleepError, refreshed)
      else Stop(trip, TransportFailed(t.reply))
    else if Success(t.reply.status) then Stop(trip, Answered(t.reply))
    else if t.reply.status == 401 && canRetry && !refreshed then
      match t.refreshError
      case Some(e) => Stop(trip + [Refreshed], RefreshFailed(e))
      case None => Again(Refreshed, true)
    else if canRetry && Transient(p, t.reply) && n < p.maxAttempts then
      AfterSleep(trip, Slept(n, t.reply.hint), t.sleepError, refreshed)
    else Stop(trip, HttpFailed(t.reply))
  }

  function AfterSleep(trip: seq<Act>, sleep: Act, error: Option<Error>, refreshed: bool): Verdict {
    match error
    case Some(e) => Stop(trip + [sleep], SleepFailed(e))
    case None => Again(sleep, refreshed)
  }

  /** Turn number `n` and everything after it. */
  function Loop(p: Policy, canRetry: bool, turns: seq<Turn>, n: nat, refreshed: bool): Course
    requires 1 <= n <= p.maxAttempts + (if refreshed then 1 else 0) && p.maxAttempts < |turns|
    decreases |turns| - n
  {
    match Judge(p, canRetry, turns[n - 1], n, refreshed)
    case Stop(acts, exit) => Course(acts, exit, n)
    case Again(pause, refreshed') =>
      var rest := Loop(p, canRetry, turns, n + 1, refreshed');
      Course([Trip(turns[n - 1]), pause] + rest.acts, rest.exit, rest.turn)
  }

  /** One receipt for a response with a status, none without. */
  function ReceiptOf(r: Reply): seq<Receipt> {
    if r.Response? && r.status != 0 then [Receipt(r.status, r.raw, r.evidence)] else []
  }

  /** The receipts of the responses seen, one each, in order. */
  function Observed(acts: seq<Act>): seq<Receipt> {
    if acts == [] then []
    else (if acts[0].Tripped? then ReceiptOf(acts[0].reply) else []) + Observed(acts[1..])
  }

  /** The Authorization headers of the round trips, in order. */
  function Headers(acts: seq<Act>): seq<string> {
    if acts == [] then []
    else (if acts[0].Tripped? then [BEARER + acts[0].token] else []) + Headers(acts[1..])
  }

  function Trips(acts: seq<Act>): nat {
    if acts == [] then 0 else (if acts[0].Tripped? then 1 else 0) + Trips(acts[1..])
  }

  function Sleeps(acts: seq<Act>): nat {
    if acts == [] then 0 else (if acts[0].Slept? then 1 else 0) + Sleeps(acts[1..])
  }

  function Refreshes(acts: seq<Act>): nat {
    if acts == [] then 0 else (if acts[0].Refreshed? then 1 else 0) + Refreshes(acts[1..])
  }

  lemma {:induction false} CountsAppend(a: seq<Act>, b: seq<Act>)
    ensures Observed(a + b) == Observed(a) + Observed(b)
    ensures Trips(a + b) == Trips(a) + Trips(b)
    ensures Sleeps(a + b) == Sleeps(a) + Sleeps(b)
    ensures Refreshes(a + b) == Refreshes(a) + Refreshes(b)
  {
    if a == [] {
      assert a + b == b;
    } else {
      assert (a + b)[1..] == a[1..] + b;
      CountsAppend(a[1..], b);
    }
  }

  lemma {:induction false} HeadersAppend(a: seq<Act>, b: seq<Act>)
    ensures Headers(a + b) == Headers(a) + Headers(b)
  {
    if a == [] {
      assert a + b == b;
    } else {
      assert (a + b)[1..] == a[1..] + b;
      HeadersAppend(a[1..], b);
    }
  }

  // ----- bounds -----

  /** How many turns are left at most, this one included. */
  function TurnsLeft(p: Policy, n: nat, refreshed: bool): int {
    if n > p.maxAttempts then 1 else p.maxAttempts - n + 1 + if refreshed then 0 else 1
  }

  lemma PairCounts(trip: Act, pause: Act)
    requires trip.Tripped? && !pause.Tripped?
    ensures Trips([trip]) == Trips([trip] + [pause]) == Trips([trip, pause]) == 1
    ensures Sleeps([trip]) == 0 && Sleeps([trip] + [pause]) == Sleeps([trip, pause]) == (if pause.Slept? then 1 else 0)
    ensures Refreshes([trip]) == 0
    ensures Refreshes([trip] + [pause]) == Refreshes([trip, pause]) == (if pause.Refreshed? then 1 else 0)
  {
    assert [trip, pause] == [trip] + [pause] && [trip, pause][1..] == [pause];
    assert [trip][1..] == [] && [pause][1..] == [];
  }

  lemma {:induction false} TurnsAreBounded(p: Policy, canRetry: bool, turns: seq<Turn>, n: nat, refreshed: bool)
    requires 1 <= n <= p.maxAttempts + (if refreshed then 1 else 0) && p.maxAttempts < |turns|
    ensures var c := Loop(p, canRetry, turns, n, refreshed);
            n <= c.turn < n + TurnsLeft(p, n, refreshed) && (!canRetry ==> c.turn == n)
    decreases |turns| - n
  {
    var verdict := Judge(p, canRetry, turns[n - 1], n, refreshed);
    if verdict.Again? {
      TurnsAreBounded(p, canRetry, turns, n + 1, verdict.refreshed);
    }
  }

  /** The acts of one turn. */
  function TurnActs(v: Verdict, t: Turn): seq<Act> {
    if v.Stop? then v.acts else [Trip(t), v.pause]
  }

  /** One turn makes one trip and then at most one pause; it refreshes only once, and sleeps only
      before the last attempt. */
  lemma TurnCounts(p: Policy, canRetry: bool, t: Turn, n: nat, refreshed: bool)
    ensures var v := Judge(p, canRetry, t, n, refreshed);
            var acts := TurnActs(v, t);
            && Trips(acts) == (if v.Stop? && v.exit.TokenFailed? then 0 else 1)
            && Sleeps(acts) + Refreshes(acts) ==
                 (if v.Again? || v.exit.SleepFailed? || v.exit.RefreshFailed? then 1 else 0)
            && Refreshes(acts) <= (if refreshed || !canRetry then 0 else 1)
            && Sleeps(acts) <= (if n < p.maxAttempts && canRetry then 1 else 0)
            && (v.Again? ==> v.refreshed == (refreshed || Refreshes(acts) == 1))
  {
    var acts := TurnActs(Judge(p, canRetry, t, n, refreshed), t);
    PairCounts(Trip(t), if |acts| == 2 then acts[1] else Refreshed);
  }

  lemma {:induction false} PausesAreBounded(p: Policy, canRetry: bool, turns: seq<Turn>, n: nat, refreshed: bool)
    requires 1 <= n <= p.maxAttempts + (if refreshed then 1 else 0) && p.maxAttempts < |turns|
    ensures var c := Loop(p, canRetry, turns, n, refreshed);
            && Refreshes(c.acts) <= (if refreshed || !canRetry then 0 else 1)
            && Sleeps(c.acts) <= (if n < p.maxAttempts && canRetry then p.maxAttempts - n else 0)
    decreases |turns| - n
  {
    var v := Judge(p, canRetry, turns[n - 1], n, refreshed);
    TurnCounts(p, canRetry, turns[n - 1], n, refreshed);
    if v.Again? {
      PausesAreBounded(p, canRetry, turns, n + 1, v.refreshed);
      CountsAppend(TurnActs(v, turns[n - 1]), Loop(p, canRetry, turns, n + 1, v.refreshed).acts);
    }
  }

  /** One turn of a course makes one trip, and one pause unless the course ends with the trip. */
  ghost predicate TripsAndPauses(c: Course, n: nat) {
    && Trips(c.acts) == c.turn - n + (if c.exit.TokenFailed? then 0 else 1)
    && Sleeps(c.acts) + Refreshes(c.acts) ==
         c.turn - n + (if c.exit.SleepFailed? || c.exit.RefreshFailed? then 1 else 0)
  }

  lemma CountsGoOn(c: Course, now: seq<Act>, rest: Course, n: nat)
    requires TripsAndPauses(rest, n + 1) && c == Course(now + rest.acts, rest.exit, rest.turn)
    requires Trips(now) == 1 && Sleeps(now) + Refreshes(now) == 1
    ensures TripsAndPauses(c, n)
  {
    CountsAppend(now, rest.acts);
  }

  lemma {:induction false} TripsFollowTurns(p: Policy, canRetry: bool, turns: seq<Turn>, n: nat, refreshed: bool)
    requires 1 <= n <= p.maxAttempts + (if refreshed then 1 else 0) && p.maxAttempts < |turns|
    ensures TripsAndPauses(Loop(p, canRetry, turns, n, refreshed), n)
    decreases |turns| - n
  {
    var c, v := Loop(p, canRetry, turns, n, refreshed), Judge(p, canRetry, turns[n - 1], n, refreshed);
    TurnCounts(p, canRetry, turns[n - 1], n, refreshed);
    if v.Again? {
      TripsFollowTurns(p, canRetry, turns, n + 1, v.refreshed);
      CountsGoOn(c, TurnActs(v, turns[n - 1]), Loop(p, canRetry, turns, n + 1, v.refreshed), n);
    }
  }

  /** Whatever the server, the network, the provider and the sleeps do: `do` makes at most
      MaxAttempts + 1 round trips, at most one refresh and at most MaxAttempts - 1 sleeps, with one
      sleep or refresh between any two trips; and a document that is not a retryable read goes out
      at most once, without refresh or sleep. */
  lemma DoIsBounded(p: Policy, query: string, turns: seq<Turn>)
    requires 1 <= p.maxAttempts < |turns|
    ensures var c := Loop(p, Retryable(query) && p.maxAttempts > 1, turns, 1, false);
            && Trips(c.acts) <= p.maxAttempts + 1
            && Refreshes(c.acts) <= 1
            && Sleeps(c.acts) <= p.maxAttempts - 1
            && Trips(c.acts) <= 1 + Sleeps(c.acts) + Refreshes(c.acts)
            && (!Retryable(query) ==> Trips(c.acts) <= 1 && Sleeps(c.acts) == 0 && Refreshes(c.acts) == 0)
  {
    var canRetry := Retryable(query) && p.maxAttempts > 1;
    TurnsAreBounded(p, canRetry, turns, 1, false);
    PausesAreBounded(p, canRetry, turns, 1, false);
    TripsFollowTurns(p, canRetry, turns, 1, false);
  }

  /** A document whose first token opens no query, and whose leading comments are clean, is sent at
      most once. */
  lemma OnlyReadsAreReplayed(p: Policy, query: string, turns: seq<Turn>)
    requires 1 <= p.maxAttempts < |turns|
    requires LeadIsClean(TrimLeft(query, Trimmed)) && !StartsQuery(query)
    ensures Trips(Loop(p, Retryable(query) && p.maxAttempts > 1, turns, 1, false).acts) <= 1
  {
    CleanDocumentsAreSafe(query);
    DoIsBounded(p, query, turns);
  }

  // ----- what is retried, and what is surfaced -----

  /** A round trip that the loop may follow with a sleep. */
  predicate Retried(p: Policy, r: Reply) {
    TripFailed(r) || (!Success(r.status) && Transient(p, r))
  }

  /** The pause, if any, that follows a trip is the one that its reply calls for. */
  ghost predicate Justified(p: Policy, acts: seq<Act>, i: nat, attempt: nat)
    requires i < |acts|
  {
    && (acts[i].Tripped? <==> i % 2 == 0)
    && (acts[i].Slept? ==> acts[i - 1].Tripped? && Retried(p, acts[i - 1].reply) && acts[i].attempt == attempt)
    && (acts[i].Refreshed? ==>
          acts[i - 1].Tripped? && !TripFailed(acts[i - 1].reply) && acts[i - 1].reply.status == 401)
  }

  lemma TurnIsJustified(p: Policy, canRetry: bool, t: Turn, n: nat, refreshed: bool, i: nat)
    requires i < |TurnActs(Judge(p, canRetry, t, n, refreshed), t)|
    ensures i < 2 && Justified(p, TurnActs(Judge(p, canRetry, t, n, refreshed), t), i, n)
  {
  }

  /** Every sleep follows a failed trip or a transient response, and asks the backoff for the number of
      trips made so far; a refresh follows a 401; an answer, or any other response, ends the loop. */
  lemma {:induction false} RetriesAreJustified(p: Policy, canRetry: bool, turns: seq<Turn>, n: nat, refreshed: bool,
                                               i: nat)
    requires 1 <= n <= p.maxAttempts + (if refreshed then 1 else 0) && p.maxAttempts < |turns|
    requires i < |Loop(p, canRetry, turns, n, refreshed).acts|
    ensures Justified(p, Loop(p, canRetry, turns, n, refreshed).acts, i, n + i / 2)
    decreases |turns| - n
  {
    var v := Judge(p, canRetry, turns[n - 1], n, refreshed);
    var now := TurnActs(v, turns[n - 1]);
    if i < |now| {
      TurnIsJustified(p, canRetry, turns[n - 1], n, refreshed, i);
    } else {
      RetriesAreJustified(p, canRetry, turns, n + 1, v.refreshed, i - 2);
    }
  }

  /** The reply that the loop surfaces as an error, if it does. */
  function Surfaced(x: Exit): Option<Reply> {
    match x
    case TransportFailed(r) => Some(r)
    case HttpFailed(r) => Some(r)
    case _ => None
  }

  /** IsRetryable: the mark on the first typed error in the chain. */
  predicate IsRetryable(e: Error) { e.Typed? && e.api.temporary }

  /** Whether the error that the loop returns on this exit is marked temporary. */
  predicate Temporary(x: Exit) {
    match x
    case TransportFailed(_) => true
    case HttpFailed(Response(status, _, _, _, _, _, blocked)) => Classify(status, blocked).1
    case SleepFailed(e) => IsRetryable(e)
    case RefreshFailed(e) => IsRetryable(e)
    case _ => false
  }

  lemma {:induction false} SurfacedHasNoBudget(p: Policy, canRetry: bool, turns: seq<Turn>, n: nat, refreshed: bool)
    requires 1 <= n <= p.maxAttempts + (if refreshed then 1 else 0) && p.maxAttempts < |turns|
    ensures var c := Loop(p, canRetry, turns, n, refreshed);
            && (Surfaced(c.exit).Some? && canRetry && c.turn < p.maxAttempts ==>
                  !TripFailed(Surfaced(c.exit).value) && !Transient(p, Surfaced(c.exit).value))
            && (c.exit.TransportFailed? ==> TripFailed(c.exit.reply))
            && (c.exit.HttpFailed? ==> c.exit.reply.Response? && !Success(c.exit.reply.status))
            && (c.exit.Answered? ==> c.exit.reply.Response? && !c.exit.reply.broken && Success(c.exit.reply.status))
    decreases |turns| - n
  {
    var verdict := Judge(p, canRetry, turns[n - 1], n, refreshed);
    if verdict.Again? {
      SurfacedHasNoBudget(p, canRetry, turns, n + 1, verdict.refreshed);
    }
  }

  /** The last turn of a course that ends with an error of the sleep or of the refresh: that error is
      what the sleep, or the refresh, of that very turn returned, and its reply called for it. */
  lemma {:induction false} PassedOnFromTurn(p: Policy, canRetry: bool, turns: seq<Turn>, n: nat, refreshed: bool)
    requires 1 <= n <= p.maxAttempts + (if refreshed then 1 else 0) && p.maxAttempts < |turns|
    ensures var c := Loop(p, canRetry, turns, n, refreshed);
            && n <= c.turn <= |turns|
            && (c.exit.SleepFailed? ==>
                  Retried(p, turns[c.turn - 1].reply) && turns[c.turn - 1].sleepError == Some(c.exit.error))
            && (c.exit.RefreshFailed? ==>
                  && !TripFailed(turns[c.turn - 1].reply) && turns[c.turn - 1].reply.status == 401
                  && turns[c.turn - 1].refreshError == Some(c.exit.error))
    decreases |turns| - n
  {
    var v := Judge(p, canRetry, turns[n - 1], n, refreshed);
    if v.Again? {
      PassedOnFromTurn(p, canRetry, turns, n + 1, v.refreshed);
    }
  }

  /** The sleep of this turn fails with a temporary error. */
  predicate SleepsTemporarily(t: Turn) { t.sleepError.Some? && IsRetryable(t.sleepError.value) }

  /** The refresh of this turn does, after a 401. */
  predicate RefreshesTemporarily(t: Turn) {
    !TripFailed(t.reply) && t.reply.status == 401 && t.refreshError.Some? && IsRetryable(t.refreshError.value)
  }

  /** With the default statuses, a replayable document and budget left, the error that is returned is
      marked temporary exactly when the last turn slept or refreshed, and the sleep or the refresh of
      that turn returned a temporary error. What the server of the request itself answers is never
      surfaced as temporary then. */
  lemma TemporaryWithBudgetIff(p: Policy, query: string, turns: seq<Turn>)
    requires 1 < p.maxAttempts < |turns| && p.retryableStatuses == DEFAULT_POLICY.retryableStatuses && Retryable(query)
    ensures var c := Loop(p, true, turns, 1, false);
            && 1 <= c.turn <= |turns|
            && (c.turn < p.maxAttempts ==>
                  (Temporary(c.exit) <==>
                     || (c.exit.SleepFailed? && SleepsTemporarily(turns[c.turn - 1]))
                     || (c.exit.RefreshFailed? && RefreshesTemporarily(turns[c.turn - 1]))))
  {
    PassedOnFromTurn(p, true, turns, 1, false);
    SurfacedHasNoBudget(p, true, turns, 1, false);
    DefaultStatuses();
  }

  /** No error of the sleep or the refresh is marked temporary. */
  ghost predicate OthersAreFinal(turns: seq<Turn>) {
    forall i :: 0 <= i < |turns| ==>
      && (turns[i].sleepError.Some? ==> !IsRetryable(turns[i].sleepError.value))
      && (turns[i].refreshError.Some? ==> !IsRetryable(turns[i].refreshError.value))
  }

  /** So retrying and classifying agree as long as the sleep and the provider bring in no error that
      is itself temporary: a temporary error is returned only when the document may not be replayed,
      or the policy allows one attempt, or the attempts are used up. */
  lemma TemporaryErrorsExhaustTheBudget(p: Policy, query: string, turns: seq<Turn>)
    requires 1 <= p.maxAttempts < |turns| && p.retryableStatuses == DEFAULT_POLICY.retryableStatuses
    requires OthersAreFinal(turns)
    ensures var c := Loop(p, Retryable(query) && p.maxAttempts > 1, turns, 1, false);
            Temporary(c.exit) ==> !Retryable(query) || p.maxAttempts <= 1 || c.turn >= p.maxAttempts
  {
    if Retryable(query) && p.maxAttempts > 1 {
      TemporaryWithBudgetIff(p, query, turns);
      PassedOnFromTurn(p, true, turns, 1, false);
    }
  }

  lemma DefaultStatuses()
    ensures forall s :: s in DEFAULT_POLICY.retryableStatuses <==>
              s == 429 || s == 500 || s == 502 || s == 503 || s == 504
  {
    var all := DEFAULT_POLICY.retryableStatuses;
    assert all[0] == 429 && all[1] == 500 && all[2] == 502 && all[3] == 503 && all[4] == 504;
  }

  /** What may be retried is what is marked temporary once it is surfaced, with the default statuses,
      except exactly for 401, 402 and 403 with a body that says "temporarily blocked": they are retried
      while there is budget, and then surfaced as final. */
  lemma RetriedIsTemporaryIff(p: Policy, r: Reply)
    requires p.retryableStatuses == DEFAULT_POLICY.retryableStatuses && r.Response? && !Success(r.status)
    ensures (Transient(p, r) <==> Temporary(HttpFailed(r))) <==> !(r.blocked && r.status in {401, 402, 403})
  {
    DefaultStatuses();
  }

  /** A response that the loop neither takes for an answer nor refreshes the token for, and whose status
      the policy does not list. */
  predicate Unlisted(p: Policy, r: Reply, refreshed: bool) {
    !TripFailed(r) && !Success(r.status) && r.status !in p.retryableStatuses && (r.status == 401 ==> refreshed)
  }

  /** Such a response ends the loop at once exactly when its body does not say "temporarily blocked",
      or there is no budget anyway: for every trip of every course. */
  lemma {:induction false} UnlistedIsFinalIff(p: Policy, canRetry: bool, turns: seq<Turn>, n: nat, refreshed: bool,
                                              i: nat)
    requires 1 <= n <= p.maxAttempts + (if refreshed then 1 else 0) && p.maxAttempts < |turns|
    requires var acts := Loop(p, canRetry, turns, n, refreshed).acts;
             i < |acts| && acts[i].Tripped? && Unlisted(p, acts[i].reply, refreshed || Refreshed in acts[..i])
    ensures var c := Loop(p, canRetry, turns, n, refreshed);
            (i == |c.acts| - 1 && c.exit == HttpFailed(c.acts[i].reply)) <==>
              (!c.acts[i].reply.blocked || !canRetry || n + i / 2 >= p.maxAttempts)
    decreases |turns| - n
  {
    var v := Judge(p, canRetry, turns[n - 1], n, refreshed);
    if v.Again? {
      var acts := Loop(p, canRetry, turns, n, refreshed).acts;
      var rest := Loop(p, canRetry, turns, n + 1, v.refreshed).acts;
      assert acts == [Trip(turns[n - 1]), v.pause] + rest;
      if i >= 2 {
        assert acts[..i] == [Trip(turns[n - 1]), v.pause] + rest[..i - 2];
        UnlistedIsFinalIff(p, canRetry, turns, n + 1, v.refreshed, i - 2);
      }
    }
  }

  /** One bullet of the documentation calls 400, 401 after a refresh, 402, 403 and 404 never retried,
      and another the "temporarily blocked" response retried at any status. This is where the first
      one holds: for every such response of every run with the default statuses. */
  lemma NeverRetriedIff(p: Policy, canRetry: bool, turns: seq<Turn>, i: nat)
    requires 1 <= p.maxAttempts < |turns| && p.retryableStatuses == DEFAULT_POLICY.retryableStatuses
    requires var acts := Loop(p, canRetry, turns, 1, false).acts;
             && i < |acts| && acts[i].Tripped? && !TripFailed(acts[i].reply)
             && (acts[i].reply.status in {400, 402, 403, 404} ||
                  (acts[i].reply.status == 401 && Refreshed in acts[..i]))
    ensures var c := Loop(p, canRetry, turns, 1, false);
            (i == |c.acts| - 1 && c.exit == HttpFailed(c.acts[i].reply)) <==>
              (!c.acts[i].reply.blocked || !canRetry || 1 + i / 2 >= p.maxAttempts)
  {
    DefaultStatuses();
    UnlistedIsFinalIff(p, canRetry, turns, 1, false, i);
  }

  /** A response that the first bullet calls never retried and that is: a 400, 402, 403 or 404 that says
      "temporarily blocked" is followed by a sleep and a second trip. */
  lemma BlockedResponseIsRetried(turns: seq<Turn>)
    requires DEFAULT_POLICY.maxAttempts < |turns| && !turns[0].tokenFails && !turns[1].tokenFails
    requires var r := turns[0].reply; !TripFailed(r) && r.status in {400, 402, 403, 404} && r.blocked
    requires turns[0].sleepError.None? && !TripFailed(turns[1].reply) && Success(turns[1].reply.status)
    ensures Loop(DEFAULT_POLICY, true, turns, 1, false) ==
              Course([Trip(turns[0]), Slept(1, turns[0].reply.hint), Trip(turns[1])], Answered(turns[1].reply), 2)
  {
    var c := Loop(DEFAULT_POLICY, true, turns, 2, false);
    assert c == Course([Trip(turns[1])], Answered(turns[1].reply), 2);
    assert [Trip(turns[0]), Slept(1, turns[0].reply.hint)] + c.acts ==
           [Trip(turns[0]), Slept(1, turns[0].reply.hint), Trip(turns[1])];
  }

  // ----- what is sent again -----

  /** The trip of this turn fails, and nothing else does. */
  predicate Fails(t: Turn) { !t.tokenFails && TripFailed(t.reply) && !t.cancelled && t.sleepError.None? }

  /** Failed trips are repeated up to the budget. */
  lemma {:induction false} FailedTripsAreRepeated(p: Policy, turns: seq<Turn>, n: nat)
    requires 1 <= n <= p.maxAttempts < |turns|
    requires forall i :: n - 1 <= i < p.maxAttempts ==> Fails(turns[i])
    ensures Trips(Loop(p, true, turns, n, false).acts) == p.maxAttempts - n + 1
    decreases p.maxAttempts - n
  {
    var v := Judge(p, true, turns[n - 1], n, false);
    TurnCounts(p, true, turns[n - 1], n, false);
    if n < p.maxAttempts {
      FailedTripsAreRepeated(p, turns, n + 1);
      CountsAppend(TurnActs(v, turns[n - 1]), Loop(p, true, turns, n + 1, false).acts);
    }
  }

  /** Hidden in a leading comment, or second in its document, a mutation is sent MaxAttempts times while
      the connection fails. */
  lemma MutationsAreSentAgain(p: Policy, hidden: string, first: string, second: string, turns: seq<Turn>)
    requires 1 < p.maxAttempts < |turns|
    requires hidden != [] && '\n' !in hidden && StartsWithName(hidden, "mutation")
    requires OperationSelection.IsName(first) && OperationSelection.IsName(second) && first != second
    requires forall i :: 0 <= i < p.maxAttempts ==> Fails(turns[i])
    ensures var doc := "#\r" + hidden + "\n{q}";
            && SkipIgnored(doc) == hidden + "\n{q}"
            && Trips(Loop(p, Retryable(doc) && p.maxAttempts > 1, turns, 1, false).acts) == p.maxAttempts
    ensures var doc := OperationSelection.TwoOperations(first, second);
            && OperationSelection.Selected(doc, second) ==
                 Some(OperationSelection.Operation(OperationSelection.Mutation, Some(second)))
            && Trips(Loop(p, Retryable(doc) && p.maxAttempts > 1, turns, 1, false).acts) == p.maxAttempts
  {
    assert hidden[0] == "mutation"[0];
    HiddenTextPasses(hidden);
    OperationSelection.SecondOperationIsMutation(first, second);
    FailedTripsAreRepeated(p, turns, 1);
  }

  /** What `do` sends more than once is a query, whatever the rest of the document holds, if its leading
      comments are clean and the request names no operation or the first one. */
  lemma ResentRequestIsQuery(p: Policy, query: string, operationName: string, turns: seq<Turn>)
    requires 1 <= p.maxAttempts < |turns|
    requires Trips(Loop(p, Retryable(query) && p.maxAttempts > 1, turns, 1, false).acts) > 1
    requires LeadIsClean(TrimLeft(query, Trimmed)) && OperationSelection.Selected(query, operationName).Some?
    requires var ops := OperationSelection.Operations(OperationSelection.Tokens(query));
             operationName == "" || (ops != [] && ops[0].name == Some(operationName))
    ensures OperationSelection.Selected(query, operationName).value.kind == OperationSelection.Query
  {
    DoIsBounded(p, query, turns);
    OperationSelection.ReplayedRequestIsQuery(query, operationName);
  }

  // ----- the bodies behind the receipts -----

  /** What surrounds one turn of the loop, down to the body of the response. */
  datatype Round = Round(
    token: string,
    tokenFails: bool,
    exchange: Exchange,
    cancelled: bool,
    sleepError: Option<Error>,
    refreshError: Option<Error>,
    draw: Option<int -> int>)

  function TurnOf(r: Round): Turn {
    Turn(r.token, r.tokenFails, ReplyTo(r.exchange), r.cancelled, r.sleepError, r.refreshError)
  }

  function TurnsOf(rounds: seq<Round>): (turns: seq<Turn>)
    ensures |turns| == |rounds| && forall i :: 0 <= i < |rounds| ==> turns[i] == TurnOf(rounds[i])
  {
    seq(|rounds|, i requires 0 <= i < |rounds| => TurnOf(rounds[i]))
  }

  /** The receipts of the turns from `i` up to `k`, one for each response with a status, in order: its
      status, the bytes captured and the evidence of the read. */
  function Seen(turns: seq<Turn>, i: nat, k: nat): seq<Receipt>
    requires i <= k <= |turns|
    decreases k - i
  {
    if i == k then []
    else
      (match turns[i].reply
       case NoResponse => []
       case Response(status, _, raw, evidence, _, _, _) =>
         if status == 0 then [] else [Receipt(status, raw, evidence)]) + Seen(turns, i + 1, k)
  }

  /** How many turns of a course made a trip. */
  function TripTurns(c: Course): int { if c.exit.TokenFailed? then c.turn - 1 else c.turn }

  /** What a course leaves behind is what its first turn does, and then what the rest of it does. */
  lemma LoopUnfolds(p: Policy, canRetry: bool, turns: seq<Turn>, n: nat, refreshed: bool)
    requires 1 <= n <= p.maxAttempts + (if refreshed then 1 else 0) && p.maxAttempts < |turns|
    ensures var c, v := Loop(p, canRetry, turns, n, refreshed), Judge(p, canRetry, turns[n - 1], n, refreshed);
            var now := TurnActs(v, turns[n - 1]);
            && Observed(now) == (if turns[n - 1].tokenFails then [] else ReceiptOf(turns[n - 1].reply))
            && if v.Stop? then c == Course(now, v.exit, n) && (v.exit.TokenFailed? <==> turns[n - 1].tokenFails)
               else var rest := Loop(p, canRetry, turns, n + 1, v.refreshed);
                    && c == Course(now + rest.acts, rest.exit, rest.turn)
                    && Observed(c.acts) == Observed(now) + Observed(rest.acts)
                    && !turns[n - 1].tokenFails
  {
    var v := Judge(p, canRetry, turns[n - 1], n, refreshed);
    TurnObserves(p, canRetry, turns[n - 1], n, refreshed);
    if v.Again? {
      CountsAppend(TurnActs(v, turns[n - 1]), Loop(p, canRetry, turns, n + 1, v.refreshed).acts);
    }
  }

  /** The receipts of a course from turn `n` on are those of its turns. */
  ghost predicate SeenFrom(turns: seq<Turn>, n: nat, c: Course) {
    1 <= n <= TripTurns(c) + 1 <= |turns| + 1 && Observed(c.acts) == Seen(turns, n - 1, TripTurns(c))
  }

  lemma SeenGoOn(turns: seq<Turn>, n: nat, c: Course, rest: Course)
    requires 1 <= n <= |turns| && SeenFrom(turns, n + 1, rest) && c.exit == rest.exit && c.turn == rest.turn
    requires Observed(c.acts) == ReceiptOf(turns[n - 1].reply) + Observed(rest.acts)
    ensures SeenFrom(turns, n, c)
  {
  }

  lemma SeenOnce(turns: seq<Turn>, n: nat, c: Course)
    requires 1 <= n <= |turns| && c.turn == n && (c.exit.TokenFailed? <==> turns[n - 1].tokenFails)
    requires Observed(c.acts) == if turns[n - 1].tokenFails then [] else ReceiptOf(turns[n - 1].reply)
    ensures SeenFrom(turns, n, c)
  {
    if !turns[n - 1].tokenFails {
      assert Seen(turns, n - 1, n) == ReceiptOf(turns[n - 1].reply) + Seen(turns, n, n);
    }
  }

  lemma OneMoreSeen(p: Policy, canRetry: bool, turns: seq<Turn>, n: nat, refreshed: bool)
    requires 1 <= n <= p.maxAttempts + (if refreshed then 1 else 0) && p.maxAttempts < |turns|
    requires var v := Judge(p, canRetry, turns[n - 1], n, refreshed);
             v.Again? && SeenFrom(turns, n + 1, Loop(p, canRetry, turns, n + 1, v.refreshed))
    ensures SeenFrom(turns, n, Loop(p, canRetry, turns, n, refreshed))
  {
    var v := Judge(p, canRetry, turns[n - 1], n, refreshed);
    LoopUnfolds(p, canRetry, turns, n, refreshed);
    SeenGoOn(turns, n, Loop(p, canRetry, turns, n, refreshed), Loop(p, canRetry, turns, n + 1, v.refreshed));
  }

  lemma LastSeen(p: Policy, canRetry: bool, turns: seq<Turn>, n: nat, refreshed: bool)
    requires 1 <= n <= p.maxAttempts + (if refreshed then 1 else 0) && p.maxAttempts < |turns|
    requires Judge(p, canRetry, turns[n - 1], n, refreshed).Stop?
    ensures SeenFrom(turns, n, Loop(p, canRetry, turns, n, refreshed))
  {
    LoopUnfolds(p, canRetry, turns, n, refreshed);
    SeenOnce(turns, n, Loop(p, canRetry, turns, n, refreshed));
  }

  /** The receipts that the loop observes are those of its turns: one for each response, in order. */
  lemma {:induction false} ObservedAreTheTurns(p: Policy, canRetry: bool, turns: seq<Turn>, n: nat, refreshed: bool)
    requires 1 <= n <= p.maxAttempts + (if refreshed then 1 else 0) && p.maxAttempts < |turns|
    ensures SeenFrom(turns, n, Loop(p, canRetry, turns, n, refreshed))
    decreases |turns| - n
  {
    var v := Judge(p, canRetry, turns[n - 1], n, refreshed);
    if v.Again? {
      ObservedAreTheTurns(p, canRetry, turns, n + 1, v.refreshed);
      OneMoreSeen(p, canRetry, turns, n, refreshed);
    } else {
      LastSeen(p, canRetry, turns, n, refreshed);
    }
  }

  /** The receipt speaks of this exchange, and tells the truth about its body. */
  ghost predicate IsReceiptOf(r: Receipt, x: Exchange) {
    TrueOf(r.raw, r.evidence, x) && r.status == x.status
  }

  lemma ReceiptIsTrue(x: Exchange, r: Receipt)
    requires r in ReceiptOf(ReplyTo(x))
    ensures IsReceiptOf(r, x)
  {
    ReplyIsTrue(x);
  }

  lemma {:induction false} SeenAreTheTurns(turns: seq<Turn>, i: nat, k: nat, r: Receipt) returns (j: nat)
    requires i <= k <= |turns| && r in Seen(turns, i, k)
    ensures i <= j < k && r in ReceiptOf(turns[j].reply)
    decreases k - i
  {
    if r in ReceiptOf(turns[i].reply) {
      j := i;
    } else {
      j := SeenAreTheTurns(turns, i + 1, k, r);
    }
  }

  /** Every receipt of some rounds is true of the body that one of them read. */
  lemma SeenAreTrue(rounds: seq<Round>, k: nat)
    requires k <= |rounds|
    ensures forall r :: r in Seen(TurnsOf(rounds), 0, k) ==>
              exists i :: 0 <= i < k && IsReceiptOf(r, rounds[i].exchange)
  {
    forall r | r in Seen(TurnsOf(rounds), 0, k) ensures exists i :: 0 <= i < k && IsReceiptOf(r, rounds[i].exchange) {
      var i := SeenAreTheTurns(TurnsOf(rounds), 0, k, r);
      ReceiptIsTrue(rounds[i].exchange, r);
    }
  }

  /** An answer is the reply of the last turn: complete, and a success. */
  lemma {:induction false} AnswerIsTheLast(p: Policy, canRetry: bool, turns: seq<Turn>, n: nat, refreshed: bool)
    requires 1 <= n <= p.maxAttempts + (if refreshed then 1 else 0) && p.maxAttempts < |turns|
    ensures var c := Loop(p, canRetry, turns, n, refreshed);
            c.exit.Answered? ==>
              && 1 <= c.turn <= |turns| && c.exit.reply == turns[c.turn - 1].reply
              && c.exit.reply.Response? && !c.exit.reply.broken && Success(c.exit.reply.status)
    decreases |turns| - n
  {
    var v := Judge(p, canRetry, turns[n - 1], n, refreshed);
    if v.Again? {
      AnswerIsTheLast(p, canRetry, turns, n + 1, v.refreshed);
    }
  }

  /** So an answer is the whole body of its response, for every chunking, and every receipt is true of
      the body that it is a receipt of. */
  ghost predicate Evident(c: Course, rounds: seq<Round>) {
    && 0 <= TripTurns(c) <= |rounds|
    && Observed(c.acts) == Seen(TurnsOf(rounds), 0, TripTurns(c))
    && (forall r :: r in Observed(c.acts) ==> exists i :: 0 <= i < TripTurns(c) && IsReceiptOf(r, rounds[i].exchange))
    && (c.exit.Answered? ==>
          && 1 <= c.turn <= |rounds| && c.exit.reply.Response?
          && var x := rounds[c.turn - 1].exchange;
             && x.Exchange? && Success(x.status)
             && c.exit.reply.raw == Stream(x.chunks) && Fate(x.chunks) == Eof && !x.closeFails)
  }

  lemma CourseIsEvident(p: Policy, canRetry: bool, rounds: seq<Round>)
    requires 1 <= p.maxAttempts < |rounds|
    ensures Evident(Loop(p, canRetry, TurnsOf(rounds), 1, false), rounds)
  {
    var turns := TurnsOf(rounds);
    var c := Loop(p, canRetry, turns, 1, false);
    ObservedAreTheTurns(p, canRetry, turns, 1, false);
    SeenAreTrue(rounds, TripTurns(c));
    AnswerIsTheLast(p, canRetry, turns, 1, false);
    if c.exit.Answered? {
      ReplyIsTrue(rounds[c.turn - 1].exchange);
    }
  }

  // ----- do -----

  /** What `do` returns besides an error. */
  datatype Result = Result(status: int, raw: seq<Byte>, receipts: seq<Receipt>)

  /** The typed errors that a turn may bring in from the sleep and the provider. */
  ghost function ErrorsOf(t: Turn): set<ApiError> {
    (if t.sleepError.Some? && t.sleepError.value.Typed? then {t.sleepError.value.api} else {}) +
    (if t.refreshError.Some? && t.refreshError.value.Typed? then {t.refreshError.value.api} else {})
  }

  /** Every typed error that the turns may bring in is one of `foreign`. */
  ghost predicate Within(turns: seq<Turn>, foreign: set<ApiError>) {
    forall i :: 0 <= i < |turns| ==> ErrorsOf(turns[i]) <= foreign
  }

  /** The error that the loop passes on rather than makes. */
  function PassedOn(x: Exit): Error {
    match x
    case SleepFailed(e) => e
    case RefreshFailed(e) => e
    case _ => Plain
  }

  /** The receipts that the error it passes on had already. */
  ghost function Prior(x: Exit): seq<Receipt>
    reads if PassedOn(x).Typed? then {PassedOn(x).api} else {}
  {
    ReceiptsOf(PassedOn(x))
  }

  /** A typed error of its own, with its kind, its status and its temporary mark. */
  predicate Made(e: Error, kind: Kind, status: int, temporary: bool) {
    e.Typed? && e.api.kind == kind && e.api.status == status && e.api.temporary == temporary
  }

  /** The error that goes with an exit, but for its receipts. */
  predicate Explains(e: Error, x: Exit) {
    match x
    case TokenFailed => Made(e, KindAuthentication, 0, false)
    case TransportFailed(NoResponse) => Made(e, KindTransport, 0, true)
    case TransportFailed(Response(status, _, _, _, _, _, _)) => Made(e, KindTransport, status, true)
    case HttpFailed(Response(status, _, _, _, _, _, blocked)) =>
      Made(e, Classify(status, blocked).0, status, Classify(status, blocked).1)
    case SleepFailed(Typed(api)) => e == Typed(api)
    case RefreshFailed(Typed(api)) => e == Typed(api)
    case _ => e.Typed? ==> Made(e, KindTransport, 0, false)
  }

  /** The outcome of a loop that ends with `x` and has observed `observed`. */
  ghost predicate Reports(x: Exit, prior: seq<Receipt>, observed: seq<Receipt>, result: Option<Result>,
                          err: Option<Error>)
    reads match err case Some(Typed(api)) => {api} case _ => {}
  {
    match x
    case Answered(Response(status, _, raw, evidence, _, parses, _)) =>
      Success(status) && evidence.complete && result == Some(Result(status, raw, observed))
      && if parses then err.None? else err.Some? && Made(err.value, KindTransport, status, false)
    case Answered(NoResponse) => false
    case _ =>
      result.None? && err.Some? && Explains(err.value, x) && ReceiptsOf(err.value) == prior + observed
  }

  /** How the receipts of a turn add up. */
  lemma TurnObserves(p: Policy, canRetry: bool, t: Turn, n: nat, refreshed: bool)
    ensures Observed(TurnActs(Judge(p, canRetry, t, n, refreshed), t)) ==
              if t.tokenFails then [] else ReceiptOf(t.reply)
    ensures Headers(TurnActs(Judge(p, canRetry, t, n, refreshed), t)) ==
              if t.tokenFails then [] else [BEARER + t.token]
  {
    var acts := TurnActs(Judge(p, canRetry, t, n, refreshed), t);
    if !t.tokenFails {
      assert acts[0] == Trip(t) && 1 <= |acts| <= 2;
      if |acts| == 2 {
        assert !acts[1].Tripped? && acts[1..] == [acts[1]] && [acts[1]][1..] == [];
        assert Observed([acts[1]]) == [] && Headers([acts[1]]) == [];
      } else {
        assert acts[1..] == [];
      }
    }
  }

  /** An error that is passed on came with the turns. */
  lemma PassedOnIsForeign(p: Policy, canRetry: bool, turns: seq<Turn>, foreign: set<ApiError>)
    requires Within(turns, foreign)
    requires 1 <= p.maxAttempts < |turns|
    ensures var x := Loop(p, canRetry, turns, 1, false).exit;
            PassedOn(x).Typed? ==> PassedOn(x).api in foreign
  {
    var c := Loop(p, canRetry, turns, 1, false);
    PassedOnFromTurn(p, canRetry, turns, 1, false);
    if PassedOn(c.exit).Typed? {
      assert PassedOn(c.exit).api in ErrorsOf(turns[c.turn - 1]);
    }
  }

  /** Asks the policy for the delay and sleeps before the next turn, or gives up with the sleep's error. */
  method Sleep(p: PolicyOf, attempt: nat, hint: int, draw: Option<int -> int>, error: Option<Error>,
               receipts: seq<Receipt>)
    returns (again: bool, err: Option<Error>, ghost nap: seq<int>)
    modifies if error.Some? && error.value.Typed? then {error.value.api} else {}
    ensures again <==> error.None?
    ensures again ==> err.None?
    ensures !again ==> err.Some? && ReceiptsOf(err.value) == old(ReceiptsOf(error.value)) + receipts
                       && (error.value.Typed? ==> err.value == error.value)
                       && (error.value.Plain? && err.value.Typed? ==> Made(err.value, KindTransport, 0, false))
    ensures nap == [DelayOf(p, attempt, hint, draw)]
  {
    var delay := Delay(p, attempt, hint, draw);
    nap := [delay];
    if error.Some? {
      var e := WithReceipts(error.value, receipts);
      return false, Some(e), nap;
    }
    return true, None, nap;
  }

  /** The delay that the acts of one turn ask for. */
  function NapOf(p: PolicyOf, acts: seq<Act>, draw: Option<int -> int>): seq<int> {
    if |acts| == 2 && acts[1].Slept? then [DelayOf(p, acts[1].attempt, acts[1].hint, draw)] else []
  }

  /** The delays that a course asks for, in order: the backoff of each sleep, with the jitter of its turn. */
  function Naps(p: PolicyOf, acts: seq<Act>, rounds: seq<Round>): seq<int> {
    if acts == [] then []
    else (if acts[0].Slept? then [DelayOf(p, acts[0].attempt, acts[0].hint, DrawOf(rounds, acts[0].attempt))] else []) +
         Naps(p, acts[1..], rounds)
  }

  function DrawOf(rounds: seq<Round>, attempt: nat): Option<int -> int> {
    if 1 <= attempt <= |rounds| then rounds[attempt - 1].draw else None
  }

  lemma {:induction false} NapsAppend(p: PolicyOf, a: seq<Act>, b: seq<Act>, rounds: seq<Round>)
    ensures Naps(p, a + b, rounds) == Naps(p, a, rounds) + Naps(p, b, rounds)
  {
    if a == [] {
      assert a + b == b;
    } else {
      assert (a + b)[1..] == a[1..] + b;
      NapsAppend(p, a[1..], b, rounds);
    }
  }

  lemma TurnShape(p: Policy, canRetry: bool, t: Turn, n: nat, refreshed: bool)
    ensures var acts := TurnActs(Judge(p, canRetry, t, n, refreshed), t);
            && |acts| <= 2 && (acts != [] ==> acts[0].Tripped?)
            && (|acts| == 2 && acts[1].Slept? ==> acts[1].attempt == n)
  {
  }

  lemma TurnNaps(p: PolicyOf, canRetry: bool, rounds: seq<Round>, n: nat, refreshed: bool)
    requires 1 <= n <= |rounds|
    ensures var t := TurnsOf(rounds)[n - 1];
            var acts := TurnActs(Judge(p, canRetry, t, n, refreshed), t);
            Naps(p, acts, rounds) == NapOf(p, acts, rounds[n - 1].draw)
  {
    var t := TurnsOf(rounds)[n - 1];
    TurnShape(p, canRetry, t, n, refreshed);
    NapsOfPair(p, TurnActs(Judge(p, canRetry, t, n, refreshed), t), rounds);
  }

  lemma NapsOfPair(p: PolicyOf, acts: seq<Act>, rounds: seq<Round>)
    requires |acts| <= 2 && (acts != [] ==> acts[0].Tripped?)
    ensures Naps(p, acts, rounds) ==
              if |acts| == 2 && acts[1].Slept? then NapOf(p, acts, DrawOf(rounds, acts[1].attempt)) else []
  {
    if |acts| == 2 {
      assert acts[1..] == [acts[1]] && [acts[1]][1..] == [];
      assert Naps(p, acts[1..], rounds) ==
             NapOf(p, acts, if acts[1].Slept? then DrawOf(rounds, acts[1].attempt) else None);
    } else if |acts| == 1 {
      assert acts[1..] == [];
    }
  }

  /** After a trip that failed: gives up, or sleeps. */
  method SettleFailure(p: PolicyOf, canRetry: bool, t: Turn, draw: Option<int -> int>, attempt: nat, retried401: bool,
                       receipts: seq<Receipt>)
    returns (again: bool, err: Option<Error>, ghost nap: seq<int>)
    requires !t.tokenFails && TripFailed(t.reply)
    modifies ErrorsOf(t)
    ensures var v := Judge(p, canRetry, t, attempt, retried401);
            && (again <==> v.Again?) && nap == NapOf(p, TurnActs(v, t), draw)
            && (v.Again? ==> v.refreshed == retried401 && unchanged(ErrorsOf(t)))
            && (v.Stop? ==> Reports(v.exit, old(Prior(v.exit)), receipts, None, err))
  {
    nap := [];
    if t.cancelled {
      var e := WithReceipts(Plain, receipts);
      return false, Some(e), nap;
    }
    if canRetry && attempt < p.maxAttempts {
      again, err, nap := Sleep(p, attempt, 0, draw, t.sleepError, receipts);
      return;
    }
    var api := new ApiError(KindTransport, if t.reply.Response? then t.reply.status else 0, true, receipts);
    return false, Some(Typed(api)), nap;
  }

  /** After a response that is no success: refreshes the token, sleeps, or surfaces the error. */
  method SettleStatus(p: PolicyOf, canRetry: bool, t: Turn, draw: Option<int -> int>, attempt: nat, retried401: bool,
                      receipts: seq<Receipt>)
    returns (again: bool, retried401': bool, err: Option<Error>, ghost nap: seq<int>)
    requires !t.tokenFails && !TripFailed(t.reply) && !Success(t.reply.status)
    modifies ErrorsOf(t)
    ensures var v := Judge(p, canRetry, t, attempt, retried401);
            && (again <==> v.Again?) && nap == NapOf(p, TurnActs(v, t), draw)
            && (v.Again? ==> v.refreshed == retried401' && unchanged(ErrorsOf(t)))
            && (v.Stop? ==> Reports(v.exit, old(Prior(v.exit)), receipts, None, err))
  {
    again, retried401', err, nap := false, retried401, None, [];
    var r := t.reply;
    if r.status == 401 && canRetry && !retried401 {
      retried401' := true;
      if t.refreshError.Some? {
        var e := WithReceipts(t.refreshError.value, receipts);
        err := Some(e);
        return;
      }
      again := true;
      return;
    }
    var retryable := RetryableStatus(p, r.status);
    if canRetry && (retryable || r.blocked) && attempt < p.maxAttempts {
      again, err, nap := Sleep(p, attempt, r.hint, draw, t.sleepError, receipts);
      return;
    }
    var (kind, temporary) := Classify(r.status, r.blocked);
    var api := new ApiError(kind, r.status, temporary, receipts);
    err := Some(Typed(api));
  }

  /** What one turn of the loop of `do` makes of the reply: it goes on, or returns. */
  method Settle(p: PolicyOf, canRetry: bool, t: Turn, draw: Option<int -> int>, attempt: nat, retried401: bool,
                before: seq<Receipt>)
    returns (again: bool, retried401': bool, receipts: seq<Receipt>, result: Option<Result>, err: Option<Error>,
             ghost nap: seq<int>)
    requires !t.tokenFails && (t.reply.Response? ==> (t.reply.broken <==> !t.reply.evidence.complete))
    modifies ErrorsOf(t)
    ensures var v := Judge(p, canRetry, t, attempt, retried401);
            && (again <==> v.Again?)
            && receipts == before + Observed(TurnActs(v, t)) && nap == NapOf(p, TurnActs(v, t), draw)
            && (v.Again? ==> retried401' == v.refreshed && unchanged(ErrorsOf(t)))
            && (v.Stop? ==> Reports(v.exit, old(Prior(v.exit)), receipts, result, err))
  {
    again, retried401', receipts, result, err, nap := false, retried401, before, None, None, [];
    TurnObserves(p, canRetry, t, attempt, retried401);
    var r := t.reply;
    if r.Response? && r.status != 0 {
      receipts := receipts + [Receipt(r.status, r.raw, r.evidence)];
    }
    if TripFailed(r) {
      again, err, nap := SettleFailure(p, canRetry, t, draw, attempt, retried401, receipts);
    } else if Success(r.status) {
      result := Some(Result(r.status, r.raw, receipts));
      if !r.parses {
        var api := new ApiError(KindTransport, r.status, false, []);
        err := Some(Typed(api));
      }
    } else {
      again, retried401', err, nap := SettleStatus(p, canRetry, t, draw, attempt, retried401, receipts);
    }
  }

  /** One turn of the loop of `do`: asks for the token, makes the trip with it, and settles it. `sent`
      is the Authorization header of the trip, if there was one. */
  method TakeTurn(p: PolicyOf, canRetry: bool, round: Round, attempt: nat, retried401: bool, before: seq<Receipt>)
    returns (again: bool, retried401': bool, receipts: seq<Receipt>, result: Option<Result>, err: Option<Error>,
             ghost sent: seq<string>, ghost nap: seq<int>)
    modifies ErrorsOf(TurnOf(round))
    ensures var t := TurnOf(round);
            var v := Judge(p, canRetry, t, attempt, retried401);
            && (again <==> v.Again?)
            && receipts == before + Observed(TurnActs(v, t)) && sent == Headers(TurnActs(v, t))
            && nap == NapOf(p, TurnActs(v, t), round.draw)
            && (v.Again? ==> retried401' == v.refreshed && unchanged(ErrorsOf(t)))
            && (v.Stop? ==> Reports(v.exit, old(Prior(v.exit)), receipts, result, err))
  {
    TurnObserves(p, canRetry, TurnOf(round), attempt, retried401);
    sent, nap := [], [];
    if round.tokenFails {
      var api := new ApiError(KindAuthentication, 0, false, before);
      return false, retried401, before, None, Some(Typed(api)), sent, nap;
    }
    var r, authorization := RoundTrip(round.exchange, round.token);
    sent := [authorization];
    var t := Turn(round.token, false, r, round.cancelled, round.sleepError, round.refreshError);
    assert t == TurnOf(round);
    ReplyIsTrue(round.exchange);
    again, retried401', receipts, result, err, nap := Settle(p, canRetry, t, round.draw, attempt, retried401, before);
  }

  /** `acts` are what the loop has done before turn `n`. */
  ghost predicate OnCourse(p: PolicyOf, canRetry: bool, turns: seq<Turn>, n: nat, refreshed: bool, course: Course,
                           acts: seq<Act>) {
    && 1 <= n <= p.maxAttempts + (if refreshed then 1 else 0) && p.maxAttempts < |turns|
    && var rest := Loop(p, canRetry, turns, n, refreshed);
       course == Course(acts + rest.acts, rest.exit, rest.turn)
  }

  lemma CourseGoesOn(p: PolicyOf, canRetry: bool, turns: seq<Turn>, n: nat, refreshed: bool, course: Course,
                     acts: seq<Act>)
    requires OnCourse(p, canRetry, turns, n, refreshed, course, acts)
    ensures var v := Judge(p, canRetry, turns[n - 1], n, refreshed);
            var now := TurnActs(v, turns[n - 1]);
            && Observed(acts + now) == Observed(acts) + Observed(now)
            && Headers(acts + now) == Headers(acts) + Headers(now)
            && if v.Again? then OnCourse(p, canRetry, turns, n + 1, v.refreshed, course, acts + now)
               else course == Course(acts + now, v.exit, n)
  {
    var v := Judge(p, canRetry, turns[n - 1], n, refreshed);
    var now := TurnActs(v, turns[n - 1]);
    CountsAppend(acts, now);
    HeadersAppend(acts, now);
    if v.Again? {
      var rest := Loop(p, canRetry, turns, n + 1, v.refreshed);
      assert acts + (now + rest.acts) == acts + now + rest.acts;
    }
  }

  /** Turn number `attempt`, on the course of the loop. */
  method NextTurn(p: PolicyOf, canRetry: bool, rounds: seq<Round>, attempt: nat, retried401: bool, before: seq<Receipt>,
                  ghost foreign: set<ApiError>, ghost course: Course, ghost done: seq<Act>)
    returns (again: bool, retried401': bool, receipts: seq<Receipt>, result: Option<Result>, err: Option<Error>,
             ghost acts: seq<Act>, ghost sent: seq<string>, ghost nap: seq<int>)
    requires OnCourse(p, canRetry, TurnsOf(rounds), attempt, retried401, course, done) && before == Observed(done)
    requires Within(TurnsOf(rounds), foreign)
    modifies foreign
    ensures again ==>
              && unchanged(foreign) && receipts == Observed(acts)
              && OnCourse(p, canRetry, TurnsOf(rounds), attempt + 1, retried401', course, acts)
    ensures !again ==> Reports(course.exit, old(Prior(course.exit)), Observed(course.acts), result, err)
    ensures !again ==> acts == course.acts
    ensures Headers(acts) == Headers(done) + sent && Naps(p, acts, rounds) == Naps(p, done, rounds) + nap
  {
    ghost var t := TurnsOf(rounds)[attempt - 1];
    CourseGoesOn(p, canRetry, TurnsOf(rounds), attempt, retried401, course, done);
    acts := done + TurnActs(Judge(p, canRetry, t, attempt, retried401), t);
    assert ErrorsOf(t) <= foreign;
    NapsAppend(p, done, TurnActs(Judge(p, canRetry, t, attempt, retried401), t), rounds);
    TurnNaps(p, canRetry, rounds, attempt, retried401);
    again, retried401', receipts, result, err, sent, nap :=
        TakeTurn(p, canRetry, rounds[attempt - 1], attempt, retried401, before);
  }

  /** The loop of `do`. */
  method Attempts(p: PolicyOf, canRetry: bool, rounds: seq<Round>, ghost foreign: set<ApiError>)
    returns (result: Option<Result>, err: Option<Error>, ghost course: Course, ghost sent: seq<string>,
             ghost naps: seq<int>)
    requires Within(TurnsOf(rounds), foreign)
    requires 1 <= p.maxAttempts < |rounds|
    modifies foreign
    ensures course == Loop(p, canRetry, TurnsOf(rounds), 1, false)
    ensures Reports(course.exit, old(Prior(course.exit)), Observed(course.acts), result, err)
    ensures sent == Headers(course.acts) && naps == Naps(p, course.acts, rounds)
  {
    course, sent, naps := Loop(p, canRetry, TurnsOf(rounds), 1, false), [], [];
    PassedOnIsForeign(p, canRetry, TurnsOf(rounds), foreign);
    var attempt, retried401, receipts := 0, false, [];
    ghost var acts: seq<Act> := [];
    while true
      invariant unchanged(foreign) && receipts == Observed(acts)
      invariant sent == Headers(acts) && naps == Naps(p, acts, rounds)
      invariant OnCourse(p, canRetry, TurnsOf(rounds), attempt + 1, retried401, course, acts)
      decreases p.maxAttempts + 2 - attempt
    {
      attempt := attempt + 1;
      var again;
      ghost var header, nap;
      again, retried401, receipts, result, err, acts, header, nap :=
          NextTurn(p, canRetry, rounds, attempt, retried401, receipts, foreign, course, acts);
      sent, naps := sent + header, naps + nap;
      if !again {
        return;
      }
    }
  }

  /** Runs one GraphQL request. On every exit of the loop the receipts of the outcome are exactly the
      observed responses, one each, in order, after those that a passed-on error had already: they
      are conserved exactly when it had none. A result is returned only for a 2xx status whose body
      was read and closed completely. `sent` are the Authorization headers of the trips: each trip
      goes out with the token that the provider gave for it. `naps` are the delays slept: each is the
      backoff for the number of trips made so far, or the server's hint. */
  method Do(p: PolicyOf, query: string, endpointOk: bool, limiterOk: bool, rounds: seq<Round>,
            ghost foreign: set<ApiError>)
    returns (result: Option<Result>, err: Option<Error>, ghost course: Option<Course>, ghost sent: seq<string>,
             ghost naps: seq<int>)
    requires Within(TurnsOf(rounds), foreign)
    requires 1 <= p.maxAttempts < |rounds|
    modifies foreign
    ensures course.None? <==> TrimSpace(query) == [] || !endpointOk || !limiterOk
    ensures course.None? ==> result.None? && err.Some? && err.value.Typed? && err.value.api.receipts == []
    ensures course.None? ==>
              Made(err.value, if TrimSpace(query) == [] || !endpointOk then KindConfig else KindTransport, 0, false)
    ensures course.Some? ==> course.value == Loop(p, Retryable(query) && p.maxAttempts > 1, TurnsOf(rounds), 1, false)
    ensures course.Some? ==>
              Reports(course.value.exit, old(Prior(course.value.exit)), Observed(course.value.acts), result, err)
    ensures err.Some? ==> (IsRetryable(err.value) <==> course.Some? && Temporary(course.value.exit))
    ensures course.Some? && course.value.exit.TransportFailed? ==> err.Some? && IsRetryable(err.value)
    ensures course.Some? && course.value.exit.TokenFailed? ==>
              err.Some? && Made(err.value, KindAuthentication, 0, false)
    ensures course.Some? ==> Evident(course.value, rounds)
    ensures sent == if course.Some? then Headers(course.value.acts) else []
    ensures naps == if course.Some? then Naps(p, course.value.acts, rounds) else []
  {
    if TrimSpace(query) == [] || !endpointOk {
      var api := new ApiError(KindConfig, 0, false, []);
      return None, Some(Typed(api)), None, [], [];
    }
    if !limiterOk {
      var api := new ApiError(KindTransport, 0, false, []);
      return None, Some(Typed(api)), None, [], [];
    }
    var canRetry := IsRetryableRead(query);
    canRetry := canRetry && p.maxAttempts > 1;
    PassedOnIsForeign(p, canRetry, TurnsOf(rounds), foreign);
    ghost var c;
    result, err, c, sent, naps := Attempts(p, canRetry, rounds, foreign);
    course := Some(c);
    CourseIsEvident(p, canRetry, rounds);
  }

  /** The failing input of the promise that no transient failure is surfaced while budget remains. A 401
      on the first attempt asks for a refresh; the token endpoint is out, or rate limited; and its
      temporary error is returned with three attempts left. */
  method OutageOfRefreshIsSurfaced(query: string, status: int)
    returns (err: Option<Error>, ghost course: Option<Course>)
    requires Retryable(query) && TrimSpace(query) != [] && (status == 429 || status >= 500)
    ensures err.Some? && IsRetryable(err.value) && err.value.api.status == status
    ensures course.Some? && course.value.exit.RefreshFailed? && course.value.turn == 1 < DEFAULT_POLICY.maxAttempts
  {
    var (kind, temporary) := ClassifyOAuth(status);
    var outage := new ApiError(kind, status, temporary, []);
    var unauthorized := Exchange(401, 0, [], _ => 0, false, true, false);
    var round := Round("stale", false, unauthorized, false, None, Some(Typed(outage)), None);
    ReplyIsTrue(unauthorized);
    EvidenceIsDetermined(ReplyTo(unauthorized).evidence, RESPONSE_LIMIT, ReplyTo(unauthorized).raw, [], Eof);
    var rounds := [round, round, round, round, round];
    var result;
    ghost var sent, naps;
    result, err, course, sent, naps := Do(DEFAULT_POLICY, query, true, true, rounds, {outage});
  }
}
