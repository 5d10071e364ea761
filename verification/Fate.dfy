/** What ends a connection, and what ends the stream: the causes are read off the log alone, without a
    look at what the worker does about them. */
module Fate {
  import opened Wrappers
  import opened SubscriptionTypes
  import opened SubscriptionWorker
  import opened QueueLedger
  import opened Handshake
  import opened ReconnectBudget
  import opened TerminalOutcome

  // ----- fatal acts -----

  /** The fatal error that an act calls for, given the acknowledgements handled on its connection before. */
  function Doom(cfg: Config, a: Act, acks: nat): Option<ServeError> {
    match a
    case Handled(_, f) =>
      (match f.kind
       case Failure => Some(Fatal(ServerError, []))
       case Ack => if acks > 0 then Some(Fatal(DuplicateAck, [])) else None
       case Complete => if acks == 0 then Some(Fatal(CompleteBeforeAck, [])) else None
       case Data => if acks == 0 then Some(Fatal(DataBeforeAck, [])) else None
       case _ => None)
    case Offered(ev, ok) => if !ok && cfg.overflow == Fail then Some(Fatal(QueueOverflow, [ev.receipt])) else None
    case Admitted(r, how) => if how.Rejected? then Some(Fatal(ReceiptOverflow, [r])) else None
    case Observed(r, ok) => if ok then None else Some(Fatal(ObserverFailed, [r]))
    case _ => None
  }

  /** The acknowledgements handled on the connection of a handled frame before it. */
  ghost function AcksBefore(log: seq<Act>, a: Act): nat {
    if a.Handled? then AcksIn(log, a.epoch) else 0
  }

  /** The fatal errors called for so far. */
  ghost function Dooms(cfg: Config, log: seq<Act>): seq<ServeError> {
    if log == [] then []
    else Dooms(cfg, Front(log)) + DoomBy(cfg, Last(log), AcksBefore(Front(log), Last(log)))
  }

  function DoomBy(cfg: Config, a: Act, acks: nat): seq<ServeError> {
    var d := Doom(cfg, a, acks);
    if d.Some? then [d.value] else []
  }

  /** The places where a fatal error is on its way to Err. */
  predicate Condemned(pc: Pc) {
    match pc
    case AddingGap(_, GiveUp(_, error)) => error.Fatal?
    case Returned(finished, _, error) => !finished && error.Fatal?
    case Judging(finished, _, error) => !finished && error.Fatal?
    case Failing(_) => true
    case _ => WindingUp(pc)
  }

  /** The fatal error called for, if any, is the one that the worker carries, until it finds itself cancelled. */
  ghost predicate Fated(w: Control, dooms: seq<ServeError>, cancelSeen: bool) {
    && |dooms| <= 1
    && (dooms == [] ==> !Carried(w).Fatal?)
    && (dooms != [] ==>
          && dooms[0].Fatal? && Condemned(w.pc)
          && (Carried(w) == dooms[0] || (cancelSeen && WindingUp(w.pc))))
    && (w.pc.AddingGap? && w.pc.next.GiveUp? ==> dooms != [])
  }

  lemma CondemnedStep(cfg: Config, s: State, a: Act)
    requires Enabled(cfg, s, a) && Condemned(s.w.pc)
    ensures Condemned(Move(cfg, s, a).pc)
    ensures Outside(a) || Ending(a) || a.GapAdded? || a.ConnClosed? || a.Checked? || a.ErrorSet?
  {
  }

  lemma FateStays(cfg: Config, s: State, a: Act, dooms: seq<ServeError>, acks: nat, cancelSeen: bool)
    requires Enabled(cfg, s, a) && Fated(s.w, dooms, cancelSeen) && dooms != []
    requires s.w.error.Some? ==> WindingUp(s.w.pc)
    ensures Doom(cfg, a, acks).None?
    ensures Fated(Move(cfg, s, a), dooms, cancelSeen || FindsCancelled(a))
  {
    if a.Handled? || a.Offered? || a.Admitted? || a.Observed? {
    } else if a.Checked? {
    }
  }

  lemma CauseMakesFate(cfg: Config, s: State, a: Act, acks: nat, cancelSeen: bool)
    requires Enabled(cfg, s, a) && (a.Handled? || a.Offered? || a.Admitted? || a.Observed?)
    requires Shaped(s.w.pc) && Fated(s.w, [], cancelSeen) && s.w.error.None?
    requires a.Handled? ==> (acks > 0 <==> s.w.acked)
    ensures Fated(Move(cfg, s, a), DoomBy(cfg, a, acks), cancelSeen)
  {
  }

  lemma NoCauseNoFate(cfg: Config, s: State, a: Act, cancelSeen: bool)
    requires Enabled(cfg, s, a) && !a.Handled? && !a.Offered? && !a.Admitted? && !a.Observed?
    requires Shaped(s.w.pc) && Fated(s.w, [], cancelSeen)
    requires s.w.error.Some? ==> WindingUp(s.w.pc)
    ensures Fated(Move(cfg, s, a), [], cancelSeen || FindsCancelled(a))
  {
  }

  lemma FateComes(cfg: Config, s: State, a: Act, acks: nat, cancelSeen: bool)
    requires Enabled(cfg, s, a) && Shaped(s.w.pc) && Fated(s.w, [], cancelSeen)
    requires s.w.error.Some? ==> WindingUp(s.w.pc)
    requires a.Handled? ==> (acks > 0 <==> s.w.acked)
    ensures Fated(Move(cfg, s, a), DoomBy(cfg, a, acks), cancelSeen || FindsCancelled(a))
  {
    if a.Handled? || a.Offered? || a.Admitted? || a.Observed? {
      CauseMakesFate(cfg, s, a, acks, cancelSeen);
    } else {
      NoCauseNoFate(cfg, s, a, cancelSeen);
    }
  }

  /** `acknowledged` counts the acknowledgements of the connection, where a frame is handled. */
  lemma AckedMeansAcks(cfg: Config, log: seq<Act>, s: State, a: Act)
    requires Run(cfg, log, s) && Enabled(cfg, s, a) && a.Handled?
    ensures a.epoch > 0 && (AcksIn(log, a.epoch) > 0 <==> s.w.acked)
  {
    NotServing(cfg, log, s);
    ProtocolHolds(cfg, log, s, a.epoch);
  }

  lemma {:induction false} FateHolds(cfg: Config, log: seq<Act>, s: State)
    requires Run(cfg, log, s)
    ensures Fated(s.w, Dooms(cfg, log), Ever(log, FindsCancelled))
  {
    if log != [] {
      var p := Before(cfg, log);
      var front, a := Front(log), Last(log);
      FateHolds(cfg, front, p);
      EndedHolds(cfg, front, p);
      ProtocolHolds(cfg, front, p, 1);
      if a.Handled? {
        AckedMeansAcks(cfg, front, p, a);
      }
      if Dooms(cfg, front) != [] {
        FateStays(cfg, p, a, Dooms(cfg, front), AcksBefore(front, a), Ever(front, FindsCancelled));
        assert Dooms(cfg, front) + [] == Dooms(cfg, front);
      } else {
        FateComes(cfg, p, a, AcksBefore(front, a), Ever(front, FindsCancelled));
        assert [] + DoomBy(cfg, a, AcksBefore(front, a)) == DoomBy(cfg, a, AcksBefore(front, a));
      }
    }
  }

  lemma FatedEnd(w: Control, dooms: seq<ServeError>, reason: FatalReason, receipts: seq<Receipt>)
    requires Done(w.pc) && Fated(w, dooms, false)
    ensures w.error == Some(Terminal(reason, receipts)) <==> dooms == [Fatal(reason, receipts)]
    ensures |dooms| <= 1
  {
  }

  /** A worker that has ended without finding itself cancelled reports a fatal error exactly when an act
      of its run called for that very error, and then it was the only one. */
  lemma FatalIffDoomed(cfg: Config, log: seq<Act>, s: State, reason: FatalReason, receipts: seq<Receipt>)
    requires Run(cfg, log, s) && Done(s.w.pc) && !Ever(log, FindsCancelled)
    ensures s.w.error == Some(Terminal(reason, receipts)) <==> Dooms(cfg, log) == [Fatal(reason, receipts)]
    ensures |Dooms(cfg, log)| <= 1
  {
    FateHolds(cfg, log, s);
    EndedHolds(cfg, log, s);
    FatedEnd(s.w, Dooms(cfg, log), reason, receipts);
  }

  lemma {:induction false} DoomIsRecorded(cfg: Config, log: seq<Act>, i: nat)
    requires i < |log| && Doom(cfg, log[i], AcksBefore(log[..i], log[i])).Some?
    ensures Doom(cfg, log[i], AcksBefore(log[..i], log[i])).value in Dooms(cfg, log)
  {
    if i == |log| - 1 {
      assert Front(log) == log[..i];
    } else {
      assert Front(log)[..i] == log[..i];
      DoomIsRecorded(cfg, Front(log), i);
    }
  }

  lemma {:induction false} CondemnedIsForGood(cfg: Config, log: seq<Act>, s: State, i: nat)
    requires Run(cfg, log, s) && i <= |log|
    requires Replay(cfg, log[..i]).Some? && Condemned(Replay(cfg, log[..i]).value.w.pc)
    ensures Condemned(s.w.pc)
    ensures forall j :: i <= j < |log| ==>
              !log[j].Dialed? && !log[j].Wrote? && !log[j].Read? && AcceptedBy(log[j]) == []
  {
    if i == |log| {
      assert log[..i] == log;
    } else {
      assert Front(log)[..i] == log[..i];
      CondemnedIsForGood(cfg, Front(log), Before(cfg, log), i);
      CondemnedStep(cfg, Before(cfg, log), Last(log));
      assert forall j :: i <= j < |log| - 1 ==> log[j] == Front(log)[j];
    }
  }

  lemma DoomCondemns(cfg: Config, log: seq<Act>, i: nat)
    requires Replay(cfg, log).Some? && i < |log| && Doom(cfg, log[i], AcksBefore(log[..i], log[i])).Some?
    ensures Replay(cfg, log[..i + 1]).Some? && Condemned(Replay(cfg, log[..i + 1]).value.w.pc)
  {
    PrefixIsRun(cfg, log, i + 1);
    assert log[..i + 1][..i] == log[..i];
    DoomIsRecorded(cfg, log[..i + 1], i);
    FateHolds(cfg, log[..i + 1], Replay(cfg, log[..i + 1]).value);
  }

  lemma OnlyDoom(dooms: seq<ServeError>, d: ServeError)
    requires d in dooms
    ensures |dooms| <= 1 ==> dooms == [d]
  {
  }

  lemma DoomIsTheError(cfg: Config, log: seq<Act>, s: State, i: nat)
    requires Run(cfg, log, s) && i < |log| && Doom(cfg, log[i], AcksBefore(log[..i], log[i])).Some?
    requires Done(s.w.pc) && !Ever(log, FindsCancelled)
    ensures var d := Doom(cfg, log[i], AcksBefore(log[..i], log[i])).value;
            d.Fatal? && s.w.error == Some(Terminal(d.reason, d.receipts))
  {
    var d := Doom(cfg, log[i], AcksBefore(log[..i], log[i])).value;
    DoomIsRecorded(cfg, log, i);
    OnlyDoom(Dooms(cfg, log), d);
    FatalIffDoomed(cfg, log, s, d.reason, d.receipts);
  }

  /** Whatever calls for a fatal error ends the stream: a server error frame, a second acknowledgement,
      data or complete before the first, a full queue or receipt buffer under `fail`, a failed observer.
      Nothing is dialled, written, read or accepted any more, and unless the worker finds itself
      cancelled first, Err reports that error. */
  lemma DoomEndsTheStream(cfg: Config, log: seq<Act>, s: State, i: nat)
    requires Run(cfg, log, s) && i < |log| && Doom(cfg, log[i], AcksBefore(log[..i], log[i])).Some?
    ensures forall j :: i < j < |log| ==> !log[j].Dialed? && !log[j].Wrote? && !log[j].Read? && AcceptedBy(log[j]) == []
    ensures Done(s.w.pc) && !Ever(log, FindsCancelled) ==>
              var d := Doom(cfg, log[i], AcksBefore(log[..i], log[i])).value;
              d.Fatal? && s.w.error == Some(Terminal(d.reason, d.receipts))
  {
    DoomCondemns(cfg, log, i);
    CondemnedIsForGood(cfg, log, s, i + 1);
    if Done(s.w.pc) && !Ever(log, FindsCancelled) {
      DoomIsTheError(cfg, log, s, i);
    }
  }

  // ----- the end of a connection -----

  /** The act makes `serve` return: a failed read or write, a send given up, an accepted complete event,
      or a fatal error called for. */
  predicate EndsServe(cfg: Config, a: Act, acks: nat) {
    a.ReadFailed? || (a.Wrote? && !a.ok) || a.SendAborted? || AcceptsComplete(a) || Doom(cfg, a, acks).Some?
  }

  /** The current connection has seen such an act. */
  ghost predicate Over(cfg: Config, log: seq<Act>) {
    log != [] && !Last(log).Dialed?
    && (Over(cfg, Front(log)) || EndsServe(cfg, Last(log), AcksBefore(Front(log), Last(log))))
  }

  predicate Leaving(pc: Pc) { pc.Returned? || (pc.AddingGap? && pc.next.GiveUp?) }

  lemma FrameEndsServe(cfg: Config, s: State, a: Act, acks: nat, over: bool)
    requires Enabled(cfg, s, a) && (a.Handled? || a.Offered? || a.Resent?)
    requires Shaped(s.w.pc) && (over <==> Leaving(s.w.pc)) && (a.Handled? ==> (acks > 0 <==> s.w.acked))
    ensures over || EndsServe(cfg, a, acks) <==> Leaving(Move(cfg, s, a).pc)
  {
    if a.Handled? {
    }
  }

  lemma ReceiptEndsServe(cfg: Config, s: State, a: Act, acks: nat, over: bool)
    requires Enabled(cfg, s, a) && (a.Admitted? || a.Observed?)
    requires Shaped(s.w.pc) && (over <==> Leaving(s.w.pc))
    ensures over || EndsServe(cfg, a, acks) <==> Leaving(Move(cfg, s, a).pc)
  {
  }

  lemma OverStep(cfg: Config, s: State, a: Act, acks: nat, over: bool)
    requires Enabled(cfg, s, a) && Shaped(s.w.pc) && (Connected(s.w.pc) ==> (over <==> Leaving(s.w.pc)))
    requires a.Handled? ==> (acks > 0 <==> s.w.acked)
    ensures var pc := Move(cfg, s, a).pc;
            Connected(pc) ==> (!a.Dialed? && (over || EndsServe(cfg, a, acks)) <==> Leaving(pc))
  {
    if a.Handled? || a.Offered? || a.Resent? {
      FrameEndsServe(cfg, s, a, acks, over);
    } else if a.Admitted? || a.Observed? {
      ReceiptEndsServe(cfg, s, a, acks, over);
    } else if a.GapAdded? || a.Wrote? {
    }
  }

  lemma {:induction false} OverHolds(cfg: Config, log: seq<Act>, s: State)
    requires Run(cfg, log, s)
    ensures Connected(s.w.pc) ==> (Over(cfg, log) <==> Leaving(s.w.pc))
  {
    if log != [] {
      var p := Before(cfg, log);
      var front, a := Front(log), Last(log);
      OverHolds(cfg, front, p);
      ProtocolHolds(cfg, front, p, 1);
      if a.Handled? {
        AckedMeansAcks(cfg, front, p, a);
      }
      OverStep(cfg, p, a, AcksBefore(front, a), Over(cfg, front));
    }
  }

  /** A connection is given up for a reason, and for no other: it is closed only after a failed read or
      write, an aborted send, an accepted complete event or a fatal error, and after one of these nothing
      is read, written or handled on it. Every other frame, and every other step, leaves it open. */
  lemma ConnectionEndsForAReason(cfg: Config, log: seq<Act>, s: State, i: nat)
    requires Run(cfg, log, s) && i < |log|
    ensures log[i].ConnClosed? ==> Over(cfg, log[..i])
    ensures log[i].Read? || log[i].Wrote? || log[i].Handled? || log[i].Offered? ==> !Over(cfg, log[..i])
  {
    PrefixIsRun(cfg, log, i + 1);
    assert Front(log[..i + 1]) == log[..i] && Last(log[..i + 1]) == log[i];
    var p := Before(cfg, log[..i + 1]);
    OverHolds(cfg, log[..i], p);
  }

  // ----- cancellation -----

  predicate CancelsContext(a: Act) { a.Cancelled? || a.Finished? }

  lemma CancelStep(cfg: Config, s: State, a: Act)
    requires Enabled(cfg, s, a) && (Done(s.w.pc) ==> s.cancelled)
    ensures Step(cfg, s, a).cancelled == (s.cancelled || CancelsContext(a))
    ensures Done(Move(cfg, s, a).pc) ==> s.cancelled || CancelsContext(a)
  {
  }

  /** The context is cancelled exactly when someone has cancelled it, or the worker has ended. */
  lemma {:induction false} CancelledIff(cfg: Config, log: seq<Act>, s: State)
    requires Run(cfg, log, s)
    ensures s.cancelled <==> Ever(log, CancelsContext)
    ensures Done(s.w.pc) ==> s.cancelled
  {
    if log != [] {
      var p := Before(cfg, log);
      CancelledIff(cfg, Front(log), p);
      CancelStep(cfg, p, Last(log));
    }
  }

  /** The worker finds itself cancelled, or gives up a send, only if it has been cancelled. */
  lemma CancelIsFoundIff(cfg: Config, log: seq<Act>, s: State, i: nat)
    requires Run(cfg, log, s) && i < |log|
    ensures log[i].Checked? ==> (log[i].cancelled <==> Ever(log[..i], CancelsContext))
    ensures log[i].SendAborted? ==> Ever(log[..i], CancelsContext)
  {
    PrefixIsRun(cfg, log, i + 1);
    assert Front(log[..i + 1]) == log[..i] && Last(log[..i + 1]) == log[i];
    CancelledIff(cfg, log[..i], Before(cfg, log[..i + 1]));
  }

  // ----- the environment -----

  /** Nothing is assumed of the dialer, the socket, the observer, the sleep or the consumer: wherever
      the worker waits for one of them, every answer is possible. */
  lemma EveryAnswerIsPossible(cfg: Config, s: State, f: Frame, ok: bool)
    ensures s.w.pc.Dialing? ==> Enabled(cfg, s, Dialed(ok))
    ensures s.w.pc.Writing? ==> Enabled(cfg, s, Wrote(s.w.epoch, s.w.pc.message, ok))
    ensures s.w.pc.Reading? ==> Enabled(cfg, s, Read(s.w.epoch, s.w.sequence + 1, f)) && Enabled(cfg, s, ReadFailed)
    ensures s.w.pc.Observing? && cfg.hasObserver ==> Enabled(cfg, s, Act.Observed(s.w.pc.receipt, ok))
    ensures s.w.pc.Sleeping? ==> Enabled(cfg, s, Slept(s.w.pc.attempt, ok))
    ensures s.queue.buffer != [] ==> Enabled(cfg, s, Received(s.queue.buffer[0]))
    ensures Enabled(cfg, s, Drained(s.evidence.receipts)) && Enabled(cfg, s, Act.Cancelled)
  {
  }
}
