/** What a run owes: the writes, the gap records and the events that its acts call for, against those
    that it made. The three histories agree exactly and in order, up to one that is still pending. */
module Obligations {
  import opened Wrappers
  import opened SubscriptionTypes
  import opened SubscriptionWorker
  import opened QueueLedger
  import opened Handshake
  import opened TerminalOutcome
  import opened ReceiptLedger
  import opened GapLedger

  /** What the acts of a run call for, each in the state in which it is taken. */
  ghost function Owed<T>(cfg: Config, log: seq<Act>, calls: (Config, State, Act) -> seq<T>): seq<T>
    requires Replay(cfg, log).Some?
  {
    if log == [] then [] else Owed(cfg, Front(log), calls) + calls(cfg, Before(cfg, log), Last(log))
  }

  // ----- writes -----

  /** A connection calls for the init message, its first acknowledgement for the subscription, and
      every ping for a pong. */
  function WriteOwed(cfg: Config, s: State, a: Act): seq<Outbound> {
    match a
    case Dialed(ok) => if ok then [Init] else []
    case Handled(_, f) => if f.kind == Ping then [Pong] else if f.kind == Ack && !s.w.acked then [Subscribe] else []
    case _ => []
  }

  /** The messages that the worker tried to write, on all connections. */
  function TriedBy(a: Act): seq<Outbound> {
    match a
    case Wrote(_, m, _) => [m]
    case _ => []
  }

  function ToWrite(pc: Pc): seq<Outbound> {
    if Starting(pc) then [Init] else if pc.Writing? then [pc.message] else []
  }

  lemma WriteStep(cfg: Config, s: State, a: Act)
    requires Enabled(cfg, s, a) && Shaped(s.w.pc) && GapFits(s.w)
    ensures ToWrite(s.w.pc) + WriteOwed(cfg, s, a) == TriedBy(a) + ToWrite(Move(cfg, s, a).pc)
  {
  }

  /** Every connection is begun with init, every first acknowledgement is answered with the
      subscription and every ping with one pong: in order, before anything else is written, and
      nothing is written that was not called for. */
  lemma {:induction false} WritesAreOwed(cfg: Config, log: seq<Act>, s: State)
    requires Run(cfg, log, s)
    ensures Collect(log, TriedBy) + ToWrite(s.w.pc) == Owed(cfg, log, WriteOwed)
  {
    if log != [] {
      var p := Before(cfg, log);
      var front, a := Front(log), Last(log);
      WritesAreOwed(cfg, front, p);
      FitHolds(cfg, front, p);
      WriteStep(cfg, p, a);
      Forward(Collect(front, TriedBy), ToWrite(p.w.pc), Owed(cfg, front, WriteOwed), WriteOwed(cfg, p, a),
          TriedBy(a), ToWrite(s.w.pc));
    }
  }

  // ----- gaps -----

  /** The receive sequence that goes with a receipt: that of the last frame read, or 0 for a write. */
  function Stamp(w: Control, r: Receipt): nat {
    if r.Outgoing? then 0 else w.sequence
  }

  /** Every connection after the first, every receipt that is refused or displaces another one, and
      every event refused by a full queue calls for a gap with the epoch and the sequence of the moment. */
  function GapOwed(cfg: Config, s: State, a: Act): seq<Gap> {
    match a
    case Dialed(ok) => if ok && s.w.epoch > 0 then [Gap(GapReconnect, s.w.epoch + 1, 0)] else []
    case Observed(r, ok) => if ok then [] else [Gap(GapReceiptObserver, s.w.epoch, Stamp(s.w, r))]
    case Admitted(r, how) =>
      if how.Displaced? || how.Rejected? then [Gap(GapReceiptOverflow, s.w.epoch, Stamp(s.w, r))] else []
    case Offered(_, ok) => if !ok && cfg.overflow == Fail then [Gap(GapOverflowFail, s.w.epoch, s.w.sequence)] else []
    case _ => []
  }

  function ToRecord(pc: Pc): seq<Gap> {
    if pc.AddingGap? then [pc.gap] else []
  }

  /** A receipt on its way to the buffer carries its own number. */
  ghost predicate Numbered(w: Control) {
    w.pc.Observing? || w.pc.Admitting? ==> w.pc.sequence == Stamp(w, w.pc.receipt)
  }

  lemma NumberStep(cfg: Config, s: State, a: Act)
    requires Enabled(cfg, s, a) && Numbered(s.w)
    ensures Numbered(Move(cfg, s, a))
  {
  }

  lemma GapStep(cfg: Config, s: State, a: Act)
    requires Enabled(cfg, s, a) && Numbered(s.w) && Stamped(s.w, [])
    ensures ToRecord(s.w.pc) + GapOwed(cfg, s, a) == GapBy(a) + ToRecord(Move(cfg, s, a).pc)
  {
  }

  /** The history of gaps is exactly what was called for: no loss goes unrecorded, nothing is recorded
      twice or without a loss, and every record names the connection and the frame it belongs to. */
  lemma {:induction false} GapsAreOwed(cfg: Config, log: seq<Act>, s: State)
    requires Run(cfg, log, s)
    ensures Numbered(s.w)
    ensures Gaps(log) + ToRecord(s.w.pc) == Owed(cfg, log, GapOwed)
  {
    if log != [] {
      var p := Before(cfg, log);
      var front, a := Front(log), Last(log);
      GapsAreOwed(cfg, front, p);
      StampsHold(cfg, front, p);
      NumberStep(cfg, p, a);
      GapStep(cfg, p, a);
      Forward(Gaps(front), ToRecord(p.w.pc), Owed(cfg, front, GapOwed), GapOwed(cfg, p, a), GapBy(a), ToRecord(s.w.pc));
    }
  }

  // ----- frames -----

  function ReadBy(a: Act): seq<Frame> {
    match a
    case Read(_, _, f) => [f]
    case _ => []
  }

  function HandledBy(a: Act): seq<Frame> {
    match a
    case Handled(_, f) => [f]
    case _ => []
  }

  /** The frame of a refused receipt, if it was not for a write. */
  function RefusedFrame(refused: seq<Receipt>): seq<Frame> {
    if refused != [] && refused[0].Incoming? then [refused[0].frame] else []
  }

  function ToHandle(pc: Pc): seq<Frame> {
    match pc
    case AddingGap(_, Dispatch(f, _)) => [f]
    case Observing(_, _, Dispatch(f, _)) => [f]
    case Admitting(_, _, Dispatch(f, _)) => [f]
    case Handling(f, _) => [f]
    case _ => []
  }

  lemma ReceiptMovesFrame(cfg: Config, s: State, a: Act)
    requires Enabled(cfg, s, a) && Shaped(s.w.pc) && (a.Observed? || a.Admitted?)
    ensures ToHandle(s.w.pc) == RefusedFrame(RefusedBy(a)) + ToHandle(Move(cfg, s, a).pc)
  {
  }

  lemma OthersMoveFrame(cfg: Config, s: State, a: Act)
    requires Enabled(cfg, s, a) && !a.Observed? && !a.Admitted?
    ensures ToHandle(s.w.pc) + ReadBy(a) == HandledBy(a) + ToHandle(Move(cfg, s, a).pc)
  {
  }

  lemma FrameMoves(cfg: Config, s: State, a: Act)
    requires Enabled(cfg, s, a) && Shaped(s.w.pc)
    ensures ToHandle(s.w.pc) + ReadBy(a) == HandledBy(a) + RefusedFrame(RefusedBy(a)) + ToHandle(Move(cfg, s, a).pc)
  {
    if a.Observed? || a.Admitted? {
      ReceiptMovesFrame(cfg, s, a);
    } else {
      OthersMoveFrame(cfg, s, a);
    }
  }

  lemma RefusedEndsHandling(cfg: Config, s: State, a: Act, refused: seq<Receipt>, cancelSeen: bool)
    requires Enabled(cfg, s, a) && Refusing(s.w, refused, cancelSeen) && refused != []
    ensures ToHandle(s.w.pc) == ReadBy(a) == HandledBy(a) == ToHandle(Move(cfg, s, a).pc) == [] && RefusedBy(a) == []
  {
  }

  /** Moving elements from a flight to two destinations keeps the whole. */
  lemma Settle<T>(done: seq<T>, flight: seq<T>, wire: seq<T>, arrived: seq<T>, landed: seq<T>, lost: seq<T>,
                  flight': seq<T>)
    requires done + [] + flight == wire && flight + arrived == landed + lost + flight'
    ensures done + landed + lost + flight' == wire + arrived
  {
    assert done + flight == wire;
    Forward(done, flight, wire, arrived, landed + lost, flight');
    assert done + landed + lost == done + (landed + lost);
  }

  lemma FramesAdd(cfg: Config, s: State, a: Act, handled: seq<Frame>, refused: seq<Receipt>, cancelSeen: bool,
                  read: seq<Frame>)
    requires Enabled(cfg, s, a) && Shaped(s.w.pc) && Refusing(s.w, refused, cancelSeen)
    requires handled + RefusedFrame(refused) + ToHandle(s.w.pc) == read
    ensures handled + HandledBy(a) + RefusedFrame(refused + RefusedBy(a)) + ToHandle(Move(cfg, s, a).pc) ==
              read + ReadBy(a)
  {
    if refused != [] {
      RefusedEndsHandling(cfg, s, a, refused, cancelSeen);
      assert refused + RefusedBy(a) == refused;
    } else {
      FrameMoves(cfg, s, a);
      assert refused + RefusedBy(a) == RefusedBy(a);
      Settle(handled, ToHandle(s.w.pc), read, ReadBy(a), HandledBy(a), RefusedFrame(RefusedBy(a)),
          ToHandle(Move(cfg, s, a).pc));
    }
  }

  /** Every frame that is read reaches the switch of `serve`, in order and across all connections,
      except possibly the last: its receipt may have been refused, or it is still on its way. */
  lemma {:induction false} FramesAreHandled(cfg: Config, log: seq<Act>, s: State)
    requires Run(cfg, log, s)
    ensures Collect(log, HandledBy) + RefusedFrame(Collect(log, RefusedBy)) + ToHandle(s.w.pc) == Collect(log, ReadBy)
  {
    if log != [] {
      var p := Before(cfg, log);
      var front, a := Front(log), Last(log);
      FramesAreHandled(cfg, front, p);
      WireIsSettled(cfg, front, p);
      ProtocolHolds(cfg, front, p, 1);
      FramesAdd(cfg, p, a, Collect(front, HandledBy), Collect(front, RefusedBy), Ever(front, FindsCancelled),
          Collect(front, ReadBy));
    }
  }

  lemma SequenceStep(cfg: Config, s: State, a: Act)
    requires Enabled(cfg, s, a)
    ensures Move(cfg, s, a).sequence == s.w.sequence + |ReadBy(a)|
  {
  }

  /** The receive sequence counts the frames, across all connections: frame number n gets sequence n. */
  lemma {:induction false} SequenceCountsFrames(cfg: Config, log: seq<Act>, s: State)
    requires Run(cfg, log, s)
    ensures s.w.sequence == |Collect(log, ReadBy)|
    ensures log != [] && Last(log).Read? ==> Last(log).sequence == |Collect(Front(log), ReadBy)| + 1
  {
    if log != [] {
      var p := Before(cfg, log);
      SequenceCountsFrames(cfg, Front(log), p);
      SequenceStep(cfg, p, Last(log));
    }
  }

  // ----- events -----

  /** A keepalive calls for an event; so do data and complete, on an acknowledged connection. */
  function EventOwed(cfg: Config, s: State, a: Act): seq<Event> {
    match a
    case Handled(e, f) =>
      (match f.kind
       case Keepalive => [Event(EventKeepalive, f, Delivery(e, s.w.sequence, false), Incoming(f))]
       case Data =>
         if s.w.acked then [Event(EventData, f, Delivery(e, s.w.sequence, s.w.firstData), Incoming(f))] else []
       case Complete =>
         if s.w.acked then [Event(EventComplete, f, Delivery(e, s.w.sequence, false), Incoming(f))] else []
       case _ => [])
    case _ => []
  }

  /** The event that `enqueue` gives up: on a full queue under `fail`, or on its last select once the
      context is done. */
  function EventLost(cfg: Config, s: State, a: Act): seq<Event> {
    match a
    case Offered(ev, ok) => if !ok && cfg.overflow == Fail then [ev] else []
    case SendAborted => if s.w.pc.Resending? then [s.w.pc.event] else []
    case _ => []
  }

  function ToEnqueue(pc: Pc): seq<Event> {
    if InHand(pc).Some? then [InHand(pc).value] else []
  }

  /** After a loss the worker can only wind up: it carries the overflow in a fatal error, or the
      context is cancelled and the worker is bound to find it so. */
  ghost predicate Losing(s: State, lost: seq<Event>, cancelSeen: bool) {
    lost != [] ==>
      && |lost| == 1
      && InHand(s.w.pc).None?
      && ((if WindingUp(s.w.pc) then cancelSeen else s.cancelled && !s.w.pc.Failing?) ||
           Carried(s.w) == Fatal(QueueOverflow, [lost[0].receipt]))
      && (s.w.pc.AddingGap? || s.w.pc.Returned? || s.w.pc.Judging? || s.w.pc.Failing? || WindingUp(s.w.pc))
      && (s.w.pc.AddingGap? ==> s.w.pc.next.GiveUp?)
      && (s.w.pc.Returned? || s.w.pc.Judging? ==> !s.w.pc.finished)
  }

  lemma EventStep(cfg: Config, s: State, a: Act)
    requires Enabled(cfg, s, a) && Stamped(s.w, []) && Unflagged(s.w.pc)
    ensures ToEnqueue(s.w.pc) + EventOwed(cfg, s, a) ==
              AcceptedBy(a) + EventLost(cfg, s, a) + ToEnqueue(Move(cfg, s, a).pc)
  {
    if a.Handled? {
    } else if a.Offered? || a.Resent? {
    } else if a.Evicted? || a.SendAborted? {
    }
  }

  lemma LossStays(cfg: Config, s: State, a: Act, lost: seq<Event>, cancelSeen: bool)
    requires Enabled(cfg, s, a) && Losing(s, lost, cancelSeen)
    requires s.w.error.Some? ==> WindingUp(s.w.pc)
    ensures Losing(Step(cfg, s, a), lost, cancelSeen || FindsCancelled(a))
  {
  }

  lemma LossBegins(cfg: Config, s: State, a: Act)
    requires Enabled(cfg, s, a) && EventLost(cfg, s, a) != []
    ensures InHand(s.w.pc).Some? && Losing(Step(cfg, s, a), EventLost(cfg, s, a), false)
    ensures !WindingUp(Move(cfg, s, a).pc)
  {
  }

  lemma LosingStep(cfg: Config, s: State, a: Act, lost: seq<Event>, cancelSeen: bool)
    requires Enabled(cfg, s, a) && Losing(s, lost, cancelSeen)
    requires s.w.error.Some? ==> WindingUp(s.w.pc)
    requires InHand(s.w.pc).Some? ==> lost == []
    ensures Losing(Step(cfg, s, a), lost + EventLost(cfg, s, a), cancelSeen || FindsCancelled(a))
  {
    if EventLost(cfg, s, a) == [] {
      LossStays(cfg, s, a, lost, cancelSeen);
      assert lost + [] == lost;
    } else {
      LossBegins(cfg, s, a);
      assert lost + EventLost(cfg, s, a) == EventLost(cfg, s, a);
    }
  }

  lemma LossEndsEvents(cfg: Config, s: State, a: Act, lost: seq<Event>, cancelSeen: bool)
    requires Enabled(cfg, s, a) && Losing(s, lost, cancelSeen) && lost != []
    ensures AcceptedBy(a) == [] && EventOwed(cfg, s, a) == []
  {
  }

  lemma EventsAdd(cfg: Config, s: State, a: Act, accepted: seq<Event>, lost: seq<Event>, owed: seq<Event>)
    requires Enabled(cfg, s, a) && Stamped(s.w, []) && Unflagged(s.w.pc)
    requires accepted + lost + ToEnqueue(s.w.pc) == owed
    requires lost != [] ==> ToEnqueue(s.w.pc) == [] && AcceptedBy(a) == [] && EventOwed(cfg, s, a) == []
    ensures accepted + AcceptedBy(a) + (lost + EventLost(cfg, s, a)) + ToEnqueue(Move(cfg, s, a).pc) ==
              owed + EventOwed(cfg, s, a)
  {
    EventStep(cfg, s, a);
    var next := ToEnqueue(Move(cfg, s, a).pc);
    if lost == [] {
      assert lost + EventLost(cfg, s, a) == EventLost(cfg, s, a);
      Settle(accepted, ToEnqueue(s.w.pc), owed, EventOwed(cfg, s, a), AcceptedBy(a), EventLost(cfg, s, a), next);
    } else {
      assert EventLost(cfg, s, a) + next == [];
    }
  }

  /** The queue loses nothing on its way in: over all connections, the accepted events are exactly
      those that the frames call for, in order and with their exact deliveries, except possibly the
      last. That one was refused by a full queue under `fail`, which Err then reports with its
      receipt, or given up when the context was cancelled. */
  lemma {:induction false} EventsAreOwed(cfg: Config, log: seq<Act>, s: State)
    requires Run(cfg, log, s)
    ensures Accepted(log) + Owed(cfg, log, EventLost) + ToEnqueue(s.w.pc) == Owed(cfg, log, EventOwed)
    ensures Losing(s, Owed(cfg, log, EventLost), Ever(log, FindsCancelled))
  {
    if log != [] {
      var p := Before(cfg, log);
      var front, a := Front(log), Last(log);
      EventsAreOwed(cfg, front, p);
      StampsHold(cfg, front, p);
      MarksHold(cfg, front, p, 1);
      EndedHolds(cfg, front, p);
      LosingStep(cfg, p, a, Owed(cfg, front, EventLost), Ever(front, FindsCancelled));
      if Owed(cfg, front, EventLost) != [] {
        LossEndsEvents(cfg, p, a, Owed(cfg, front, EventLost), Ever(front, FindsCancelled));
      }
      EventsAdd(cfg, p, a, Accepted(front), Owed(cfg, front, EventLost), Owed(cfg, front, EventOwed));
    }
  }

  lemma AllButTheLast(s: State, accepted: seq<Event>, lost: seq<Event>, owed: seq<Event>)
    requires Done(s.w.pc) && Losing(s, lost, false) && accepted + lost + ToEnqueue(s.w.pc) == owed
    ensures lost == [] ==> accepted == owed
    ensures lost != [] ==>
              && owed != [] && accepted == owed[..|owed| - 1]
              && s.w.error == Some(Terminal(QueueOverflow, [owed[|owed| - 1].receipt]))
  {
  }

  /** The same for a worker that has stopped and was not cancelled: what the frames called for was
      all accepted, or the last of it is in Err. */
  lemma StoppedStreamIsComplete(cfg: Config, log: seq<Act>, s: State)
    requires Run(cfg, log, s) && Done(s.w.pc) && !Ever(log, FindsCancelled)
    ensures var owed := Owed(cfg, log, EventOwed);
            || Accepted(log) == owed
            || (owed != [] && Accepted(log) == owed[..|owed| - 1]
                && s.w.error == Some(Terminal(QueueOverflow, [owed[|owed| - 1].receipt])))
  {
    EventsAreOwed(cfg, log, s);
    AllButTheLast(s, Accepted(log), Owed(cfg, log, EventLost), Owed(cfg, log, EventOwed));
  }
}
