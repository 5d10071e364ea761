/** How the worker ends: what Err reports, and what becomes of the connections. */
module TerminalOutcome {
  import opened Wrappers
  import opened SubscriptionTypes
  import opened SubscriptionWorker
  import opened QueueLedger
  import opened Handshake
  import opened ReconnectBudget

  /** The worker finds the context cancelled. */
  predicate FindsCancelled(a: Act) { a == Checked(true) }

  predicate SleepFails(a: Act) { a.Slept? && !a.ok }

  predicate AcceptsComplete(a: Act) { AcceptedBy(a) != [] && IsComplete(AcceptedBy(a)[0]) }

  /** The worker is past its last decision. */
  predicate WindingUp(pc: Pc) { pc.Exiting? || Done(pc) }

  /** `serve` has reported a complete stream. */
  predicate ReportsComplete(pc: Pc) {
    (pc.Returned? || pc.Judging?) && pc.finished
  }

  /** The three reasons to stop without an error, against the error and the place of the worker. */
  ghost predicate Ended(w: Control, completed: bool, cancelSeen: bool, sleepFailed: bool) {
    && (w.error.Some? ==> WindingUp(w.pc) && !completed && !cancelSeen && !sleepFailed)
    && (WindingUp(w.pc) && w.error.None? ==> completed || cancelSeen || sleepFailed)
    && (!WindingUp(w.pc) ==> !cancelSeen && !sleepFailed && (completed <==> ReportsComplete(w.pc)))
    && (ReportsComplete(w.pc) ==> w.pc.acked && w.pc.error.NoError?)
  }

  lemma EndedStep(cfg: Config, s: State, a: Act, completed: bool, cancelSeen: bool, sleepFailed: bool)
    requires Enabled(cfg, s, a) && Ended(s.w, completed, cancelSeen, sleepFailed)
    ensures Ended(Move(cfg, s, a),
                  completed || AcceptsComplete(a), cancelSeen || FindsCancelled(a), sleepFailed || SleepFails(a))
  {
  }

  lemma {:induction false} EndedHolds(cfg: Config, log: seq<Act>, s: State)
    requires Run(cfg, log, s)
    ensures Ended(s.w, Ever(log, AcceptsComplete), Ever(log, FindsCancelled), Ever(log, SleepFails))
  {
    if log != [] {
      var p := Before(cfg, log);
      var front := Front(log);
      EndedHolds(cfg, front, p);
      EndedStep(cfg, p, Last(log), Ever(front, AcceptsComplete), Ever(front, FindsCancelled), Ever(front, SleepFails));
    }
  }

  // ----- the cause of a fatal error -----

  /** The act that makes `serve` fail with `reason` and `receipts`. */
  predicate Causes(a: Act, reason: FatalReason, receipts: seq<Receipt>) {
    match reason
    case DuplicateAck => a.Handled? && a.frame.kind == Ack && receipts == []
    case ServerError => a.Handled? && a.frame.kind == Failure && receipts == []
    case CompleteBeforeAck => a.Handled? && a.frame.kind == Complete && receipts == []
    case DataBeforeAck => a.Handled? && a.frame.kind == Data && receipts == []
    case QueueOverflow => a.Offered? && !a.ok && receipts == [a.event.receipt]
    case ReceiptOverflow => a.Admitted? && a.how.Rejected? && receipts == [a.receipt]
    case ObserverFailed => a.Observed? && !a.ok && receipts == [a.receipt]
  }

  /** The fatal error that the worker carries, if any. */
  function Carried(w: Control): ServeError {
    match w.pc
    case AddingGap(_, GiveUp(_, error)) => error
    case Returned(_, _, error) => error
    case Judging(_, _, error) => error
    case Failing(Terminal(reason, receipts)) => Fatal(reason, receipts)
    case _ =>
      match w.error
      case Some(Terminal(reason, receipts)) => Fatal(reason, receipts)
      case _ => NoError
  }

  ghost predicate Caused(error: ServeError, log: seq<Act>) {
    error.Fatal? ==> exists i :: 0 <= i < |log| && Causes(log[i], error.reason, error.receipts)
  }

  lemma CauseStep(cfg: Config, s: State, a: Act)
    requires Enabled(cfg, s, a) && Shaped(s.w.pc)
    requires s.w.error.Some? ==> WindingUp(s.w.pc)
    ensures var error := Carried(Move(cfg, s, a));
            error.Fatal? ==> error == Carried(s.w) || Causes(a, error.reason, error.receipts)
  {
  }

  lemma {:induction false} FatalErrorsAreCaused(cfg: Config, log: seq<Act>, s: State)
    requires Run(cfg, log, s)
    ensures Caused(Carried(s.w), log)
  {
    if log != [] {
      var p := Before(cfg, log);
      var front := Front(log);
      FatalErrorsAreCaused(cfg, front, p);
      ProtocolHolds(cfg, front, p, 1);
      EndedHolds(cfg, front, p);
      CauseStep(cfg, p, Last(log));
      var error := Carried(s.w);
      if error.Fatal? && !Causes(Last(log), error.reason, error.receipts) {
        var i :| 0 <= i < |front| && Causes(front[i], error.reason, error.receipts);
        assert log[i] == front[i];
      }
    }
  }

  /** Err of a finished worker. It is nil exactly when a complete event was accepted, or the worker
      found its context cancelled, or a sleep failed. Otherwise it is a fatal error, with its cause in the log,
      or it reports exactly maximum + 1 dials in a row without an acknowledgement. */
  lemma ErrTellsHowTheWorkerEnded(cfg: Config, log: seq<Act>, s: State)
    requires Run(cfg, log, s) && Done(s.w.pc)
    ensures s.w.error.None? <==>
              Ever(log, AcceptsComplete) || Ever(log, FindsCancelled) || Ever(log, SleepFails)
    ensures s.w.error.Some? && Exhausted(s.w.error.value) ==> Unacknowledged(log) == cfg.maxReconnects + 1
    ensures s.w.error.Some? && !Exhausted(s.w.error.value) ==>
              Caused(Fatal(s.w.error.value.reason, s.w.error.value.receipts), log)
  {
    EndedHolds(cfg, log, s);
    BudgetHolds(cfg, log, s);
    FatalErrorsAreCaused(cfg, log, s);
  }

  // ----- the last dial -----

  /** How the last dial went. */
  ghost function LastDial(log: seq<Act>): Option<bool> {
    if log == [] then None else if Last(log).Dialed? then Some(Last(log).ok) else LastDial(Front(log))
  }

  /** The dial that the worker's place, or its error, speaks of. */
  ghost predicate Dialled(w: Control, last: Option<bool>) {
    && (w.pc.DialFailed? ==> last == Some(false))
    && (Connected(w.pc) || w.pc.Judging? ==> last == Some(true))
    && (w.pc.Failing? ==> last == Some(!w.pc.failure.DialExhausted?))
    && (w.error.Some? ==> WindingUp(w.pc) && last == Some(!w.error.value.DialExhausted?))
  }

  lemma DialledStep(cfg: Config, s: State, a: Act, last: Option<bool>)
    requires Enabled(cfg, s, a) && Shaped(s.w.pc) && Dialled(s.w, last)
    ensures Dialled(Move(cfg, s, a), if a.Dialed? then Some(a.ok) else last)
  {
  }

  /** Err says which kind of failure came last: a dial that failed, or a connection that was lost
      before it was acknowledged or that failed for good. */
  lemma {:induction false} ErrTellsTheLastDial(cfg: Config, log: seq<Act>, s: State)
    requires Run(cfg, log, s)
    ensures Dialled(s.w, LastDial(log))
    ensures s.w.error.Some? ==> (LastDial(log) == Some(false) <==> s.w.error == Some(DialExhausted))
  {
    if log != [] {
      var p := Before(cfg, log);
      ErrTellsTheLastDial(cfg, Front(log), p);
      ProtocolHolds(cfg, Front(log), p, 1);
      DialledStep(cfg, p, Last(log), LastDial(Front(log)));
    }
  }

  // ----- connections -----

  function OpenedBy(a: Act): seq<()> { if a.Dialed? && a.ok then [()] else [] }

  function ClosedBy(a: Act): seq<nat> {
    match a
    case ConnClosed(e) => [e]
    case _ => []
  }

  /** 1, 2, ..., n. */
  function UpTo(n: nat): seq<nat> {
    if n == 0 then [] else UpTo(n - 1) + [n]
  }

  /** The worker holds a connection exactly while it is between a successful dial and the close. */
  ghost predicate Holding(w: Control) {
    w.connection == if Connected(w.pc) then Some(w.epoch) else None
  }

  lemma HoldingStep(cfg: Config, s: State, a: Act)
    requires Enabled(cfg, s, a) && Shaped(s.w.pc) && Holding(s.w)
    ensures Holding(Move(cfg, s, a))
  {
  }

  /** What was opened and closed, against the connection that is held. */
  ghost predicate Matched(w: Control, dialled: nat, closed: seq<nat>) {
    && w.epoch == dialled
    && (w.connection.None? ==> closed == UpTo(w.epoch))
    && (w.connection.Some? ==> w.epoch > 0 && w.connection == Some(w.epoch) && closed == UpTo(w.epoch - 1))
  }

  lemma MatchedStep(cfg: Config, s: State, a: Act, dialled: nat, closed: seq<nat>)
    requires Enabled(cfg, s, a) && Holding(s.w) && Matched(s.w, dialled, closed)
    ensures Matched(Move(cfg, s, a), dialled + |OpenedBy(a)|, closed + ClosedBy(a))
  {
  }

  lemma {:induction false} HoldingHolds(cfg: Config, log: seq<Act>, s: State)
    requires Run(cfg, log, s)
    ensures Holding(s.w)
  {
    if log != [] {
      var p := Before(cfg, log);
      HoldingHolds(cfg, Front(log), p);
      ProtocolHolds(cfg, Front(log), p, 1);
      HoldingStep(cfg, p, Last(log));
    }
  }

  lemma {:induction false} MatchedHolds(cfg: Config, log: seq<Act>, s: State)
    requires Run(cfg, log, s)
    ensures Matched(s.w, |Collect(log, OpenedBy)|, Collect(log, ClosedBy))
  {
    if log != [] {
      var p := Before(cfg, log);
      MatchedHolds(cfg, Front(log), p);
      HoldingHolds(cfg, Front(log), p);
      MatchedStep(cfg, p, Last(log), |Collect(Front(log), OpenedBy)|, Collect(Front(log), ClosedBy));
    }
  }

  /** Every dialled connection is closed by the worker exactly once, in the order of the dials, and
      before the next dial or the end of the worker: at most one is ever open. */
  lemma ConnectionsAreClosed(cfg: Config, log: seq<Act>, s: State)
    requires Run(cfg, log, s)
    ensures Holding(s.w) && Matched(s.w, |Collect(log, OpenedBy)|, Collect(log, ClosedBy))
    ensures s.w.pc.Dialing? || Done(s.w.pc) ==> Collect(log, ClosedBy) == UpTo(|Collect(log, OpenedBy)|)
  {
    HoldingHolds(cfg, log, s);
    MatchedHolds(cfg, log, s);
  }

  // ----- the end -----

  /** Acts that the worker does not take part in. */
  predicate Outside(a: Act) { a.Received? || a.Drained? || a.Cancelled? }

  /** The deferred calls of the worker. */
  predicate Ending(a: Act) { a.Finished? || a.EventsClosed? }

  lemma WindingUpStep(cfg: Config, s: State, a: Act)
    requires Enabled(cfg, s, a) && WindingUp(s.w.pc)
    ensures WindingUp(Move(cfg, s, a).pc) && (Outside(a) || Ending(a))
  {
  }

  lemma {:induction false} WindingUpIsForGood(cfg: Config, log: seq<Act>, s: State, i: nat)
    requires Run(cfg, log, s) && i <= |log|
    requires Replay(cfg, log[..i]).Some? && WindingUp(Replay(cfg, log[..i]).value.w.pc)
    ensures WindingUp(s.w.pc)
    ensures forall j :: i <= j < |log| ==> Outside(log[j]) || Ending(log[j])
  {
    if i == |log| {
      assert log[..i] == log;
    } else {
      assert Front(log)[..i] == log[..i];
      WindingUpIsForGood(cfg, Front(log), Before(cfg, log), i);
      WindingUpStep(cfg, Before(cfg, log), Last(log));
      assert forall j :: i <= j < |log| - 1 ==> log[j] == Front(log)[j];
    }
  }

  /** Once the error is set there is no further dial, write, read, event, receipt or gap: the
      consumer may act, and the worker finishes. */
  lemma NothingFollowsTheError(cfg: Config, log: seq<Act>, s: State, i: nat, j: nat)
    requires Run(cfg, log, s) && i < j < |log| && log[i].ErrorSet?
    ensures Outside(log[j]) || Ending(log[j])
  {
    PrefixIsRun(cfg, log, i + 1);
    assert Front(log[..i + 1]) == log[..i] && Last(log[..i + 1]) == log[i];
    var p := Before(cfg, log[..i + 1]);
    WindingUpIsForGood(cfg, log, s, i + 1);
  }

  /** The worker is never stuck: as long as it has not stopped, some act of its own is enabled. */
  lemma WorkerIsNeverStuck(cfg: Config, log: seq<Act>, s: State) returns (a: Act)
    requires Run(cfg, log, s) && !s.w.pc.Stopped?
    ensures Enabled(cfg, s, a) && !Outside(a)
  {
    RoomHolds(cfg, log, s);
    ConnectionsAreClosed(cfg, log, s);
    match s.w.pc {
      case Top => a := Checked(s.cancelled);
      case Dialing => a := Dialed(true);
      case DialFailed => a := Checked(s.cancelled);
      case AddingGap(g, _) => a := GapAdded(g);
      case Writing(m) => a := Wrote(s.w.epoch, m, true);
      case Reading => a := ReadFailed;
      case Observing(r, _, _) => a := Observed(r, true);
      case Admitting(r, _, _) => a := Admitted(r, Admit(cfg, s.evidence.receipts));
      case Handling(f, _) => a := Handled(s.w.epoch, f);
      case Offering(ev) => a := Offered(ev, |s.queue.buffer| < cfg.QueueLimit());
      case Evicting(_) => a := Evicted(Oldest(s.queue.buffer));
      case Counting(_) => a := DropCounted;
      case Resending(ev) => a := Resent(ev);
      case Returned(_, _, _) => a := ConnClosed(s.w.epoch);
      case Judging(_, _, _) => a := Checked(s.cancelled);
      case Sleeping(n) => a := Slept(n, true);
      case Failing(x) => a := ErrorSet(x);
      case Exiting => a := Finished;
      case Closing => a := EventsClosed;
    }
  }
}
