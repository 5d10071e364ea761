/** The reconnect budget over whole runs: how many dials can go by without an acknowledgement,
    and hence how many dials a run can make at all. */
module ReconnectBudget {
  import opened Wrappers
  import opened SubscriptionTypes
  import opened SubscriptionWorker
  import opened Handshake
  import Backoff

  /** How an act changes the number of dials since the last acknowledgement. */
  function Tally(a: Act, unacked: nat): nat {
    if a.Dialed? then unacked + 1
    else if a.Handled? && a.frame.kind == Ack then 0
    else unacked
  }

  /** The dials since the last acknowledgement. */
  ghost function Unacknowledged(log: seq<Act>): nat {
    if log == [] then 0 else Tally(Last(log), Unacknowledged(Front(log)))
  }

  ghost function Dials(log: seq<Act>): nat {
    if log == [] then 0 else Dials(Front(log)) + if Last(log).Dialed? then 1 else 0
  }

  /** The connections on which an acknowledgement was handled. */
  ghost function Acked(log: seq<Act>): nat {
    if log == [] then 0
    else
      var a := Last(log);
      Acked(Front(log)) + if a.Handled? && IsAck(a, a.epoch) && AcksIn(Front(log), a.epoch) == 0 then 1 else 0
  }

  /** The worker holds a connection. */
  predicate Connected(pc: Pc) {
    Starting(pc) || Serving(pc) || pc.AddingGap? || pc.Returned?
  }

  /** Whether `serve` reports, or is about to report, an acknowledged connection. */
  ghost predicate ReportsAck(w: Control) {
    match w.pc
    case Returned(_, acked, _) => acked == w.acked
    case Judging(_, acked, _) => acked == w.acked
    case AddingGap(_, GiveUp(acked, _)) => acked == w.acked
    case _ => true
  }

  predicate Exhausted(x: StreamError) { x.DialExhausted? || x.ReconnectExhausted? }

  /** `attempts` against the dials since the last acknowledgement, at every place of the worker. */
  ghost predicate Budget(cfg: Config, w: Control, unacked: nat) {
    && w.attempts <= cfg.maxReconnects
    && unacked <= cfg.maxReconnects + 1
    && (w.pc.Top? || w.pc.Dialing? || w.pc.Sleeping? ==> unacked == w.attempts)
    && (w.pc.DialFailed? ==> unacked == w.attempts + 1)
    && (Connected(w.pc) || w.pc.Judging? ==> unacked == if w.acked then 0 else w.attempts + 1)
    && (w.pc.Failing? && Exhausted(w.pc.failure) ==> unacked == cfg.maxReconnects + 1)
  }

  /** The backoff asked for, and the count that an exhausted budget reports. */
  ghost predicate Spent(cfg: Config, w: Control, unacked: nat) {
    && (w.pc.Sleeping? ==> w.pc.attempt == if w.attempts == 0 then 1 else w.attempts)
    && (w.error.Some? ==> w.pc.Exiting? || Done(w.pc))
    && (w.error.Some? && Exhausted(w.error.value) ==> unacked == cfg.maxReconnects + 1)
  }

  lemma ReportStep(cfg: Config, s: State, a: Act)
    requires Enabled(cfg, s, a) && ReportsAck(s.w) && Shaped(s.w.pc) && Earned(s.w)
    ensures ReportsAck(Move(cfg, s, a))
  {
  }

  lemma CheckKeepsBudget(cfg: Config, s: State, a: Act, unacked: nat)
    requires Enabled(cfg, s, a) && a.Checked? && ReportsAck(s.w) && Budget(cfg, s.w, unacked)
    ensures Budget(cfg, Move(cfg, s, a), unacked)
  {
  }

  lemma OthersKeepBudget(cfg: Config, s: State, a: Act, unacked: nat)
    requires Enabled(cfg, s, a) && !a.Checked? && ReportsAck(s.w) && Shaped(s.w.pc) && Budget(cfg, s.w, unacked)
    ensures Budget(cfg, Move(cfg, s, a), Tally(a, unacked))
  {
  }

  lemma BudgetStep(cfg: Config, s: State, a: Act, unacked: nat)
    requires Enabled(cfg, s, a) && ReportsAck(s.w) && Shaped(s.w.pc) && Budget(cfg, s.w, unacked)
    ensures Budget(cfg, Move(cfg, s, a), Tally(a, unacked))
  {
    if a.Checked? {
      CheckKeepsBudget(cfg, s, a, unacked);
    } else {
      OthersKeepBudget(cfg, s, a, unacked);
    }
  }

  lemma SpentStep(cfg: Config, s: State, a: Act, unacked: nat)
    requires Enabled(cfg, s, a) && Budget(cfg, s.w, unacked) && Spent(cfg, s.w, unacked)
    ensures Spent(cfg, Move(cfg, s, a), Tally(a, unacked))
  {
  }

  lemma {:induction false} BudgetHolds(cfg: Config, log: seq<Act>, s: State)
    requires Run(cfg, log, s)
    ensures ReportsAck(s.w) && Budget(cfg, s.w, Unacknowledged(log)) && Spent(cfg, s.w, Unacknowledged(log))
  {
    if log != [] {
      var p := Before(cfg, log);
      BudgetHolds(cfg, Front(log), p);
      ProtocolHolds(cfg, Front(log), p, 1);
      ReportStep(cfg, p, Last(log));
      BudgetStep(cfg, p, Last(log), Unacknowledged(Front(log)));
      SpentStep(cfg, p, Last(log), Unacknowledged(Front(log)));
    }
  }

  /** At the head of the loop `attempts` is the number of dials since the last acknowledgement;
      it never exceeds the configured maximum, and no more than maximum + 1 dials in a row go
      without an acknowledgement. The backoff is asked for attempts in 1..max(1, maximum). */
  lemma AttemptsCountUnacknowledgedDials(cfg: Config, log: seq<Act>, s: State)
    requires Run(cfg, log, s)
    ensures 0 <= s.w.attempts <= cfg.maxReconnects
    ensures s.w.pc.Top? ==> s.w.attempts == Unacknowledged(log)
    ensures Unacknowledged(log) <= cfg.maxReconnects + 1
    ensures s.w.pc.Sleeping? ==>
              1 <= s.w.pc.attempt && s.w.pc.attempt <= if cfg.maxReconnects < 1 then 1 else cfg.maxReconnects
  {
    BudgetHolds(cfg, log, s);
  }

  /** A run with A acknowledged connections makes at most (A + 1) * (maximum + 1) dials, so the
      worker dials for ever only if the server acknowledges for ever. */
  lemma {:induction false} DialsAreBounded(cfg: Config, log: seq<Act>, s: State)
    requires Run(cfg, log, s)
    ensures Dials(log) <= Acked(log) * (cfg.maxReconnects + 1) + Unacknowledged(log)
    ensures Dials(log) <= (Acked(log) + 1) * (cfg.maxReconnects + 1)
  {
    BudgetHolds(cfg, log, s);
    if log != [] {
      var p := Before(cfg, log);
      var a := Last(log);
      DialsAreBounded(cfg, Front(log), p);
      BudgetHolds(cfg, Front(log), p);
      if a.Handled? && a.frame.kind == Ack {
        NotServing(cfg, Front(log), p);
        ProtocolHolds(cfg, Front(log), p, a.epoch);
      }
    }
  }

  /** Under the default retry policy and up to 31 reconnects, every pause of every run is the promised
      one, before jitter: the backoff never runs into the overflow of its shift. */
  lemma ReconnectsPauseAsPromised(cfg: Config, log: seq<Act>, s: State, i: nat)
    requires Run(cfg, log, s) && i < |log| && log[i].Slept? && cfg.maxReconnects <= 31
    ensures 1 <= log[i].attempt <= 31
    ensures Backoff.DelayOf(Backoff.DEFAULT_POLICY, log[i].attempt, 0, None) ==
              Backoff.Promised(Backoff.DEFAULT_POLICY, log[i].attempt)
  {
    PrefixIsRun(cfg, log, i + 1);
    assert Front(log[..i + 1]) == log[..i] && Last(log[..i + 1]) == log[i];
    AttemptsCountUnacknowledgedDials(cfg, log[..i], Before(cfg, log[..i + 1]));
    Backoff.DefaultPolicyHorizon(log[i].attempt);
  }
}
