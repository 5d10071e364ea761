/** The bounded event queue, over whole runs: `enqueue` never blocks, and every event that it
    accepts is delivered, still buffered, or evicted and counted. */
module QueueLedger {
  import opened Wrappers
  import opened SubscriptionTypes
  import opened SubscriptionWorker

  /** The events that entered the channel. */
  function AcceptedBy(a: Act): seq<Event> {
    match a
    case Offered(ev, ok) => if ok then [ev] else []
    case Resent(ev) => [ev]
    case _ => []
  }

  function DeliveredBy(a: Act): seq<Event> {
    match a
    case Received(ev) => [ev]
    case _ => []
  }

  function EvictedBy(a: Act): seq<Event> {
    match a
    case Evicted(out) => if out.Some? then [out.value] else []
    case _ => []
  }

  /** An event that left the channel, and whether the worker evicted it. */
  datatype Departure = Departure(event: Event, evicted: bool)

  function DepartedBy(a: Act): seq<Departure> {
    match a
    case Received(ev) => [Departure(ev, false)]
    case Evicted(out) => if out.Some? then [Departure(out.value, true)] else []
    case _ => []
  }

  ghost function Accepted(log: seq<Act>): seq<Event> { Collect(log, AcceptedBy) }

  ghost function Delivered(log: seq<Act>): seq<Event> { Collect(log, DeliveredBy) }

  ghost function EvictedEvents(log: seq<Act>): seq<Event> { Collect(log, EvictedBy) }

  ghost function Departed(log: seq<Act>): seq<Departure> { Collect(log, DepartedBy) }

  function Events(ds: seq<Departure>): seq<Event> {
    if ds == [] then [] else Events(ds[..|ds| - 1]) + [ds[|ds| - 1].event]
  }

  /** `enqueue` is on its last select only with a free slot in the channel, and only under drop_oldest. */
  ghost predicate Room(cfg: Config, s: State) {
    && |s.queue.buffer| <= cfg.QueueLimit()
    && (s.w.pc.Counting? || s.w.pc.Resending? ==> |s.queue.buffer| < cfg.QueueLimit())
    && (s.w.pc.Evicting? || s.w.pc.Counting? || s.w.pc.Resending? ==> cfg.overflow == DropOldest)
  }

  lemma RoomStep(cfg: Config, s: State, a: Act)
    requires Room(cfg, s) && Enabled(cfg, s, a)
    ensures Room(cfg, Step(cfg, s, a))
  {
  }

  lemma {:induction false} RoomHolds(cfg: Config, log: seq<Act>, s: State)
    requires Run(cfg, log, s)
    ensures Room(cfg, s)
  {
    if log != [] {
      var p := Before(cfg, log);
      RoomHolds(cfg, Front(log), p);
      RoomStep(cfg, p, Last(log));
    }
  }

  /** Whatever the consumer does meanwhile, the worker's send on its last select can proceed at
      once: it never waits for a receive, and never for the cancellation of the context. */
  lemma EnqueueNeverBlocks(cfg: Config, log: seq<Act>, s: State)
    requires Run(cfg, log, s)
    ensures |s.queue.buffer| <= if cfg.queueCapacity < 1 then 1 else cfg.queueCapacity
    ensures s.w.pc.Resending? ==> Enabled(cfg, s, Resent(s.w.pc.event))
    ensures cfg.overflow == Fail ==> EvictedEvents(log) == []
  {
    RoomHolds(cfg, log, s);
    if cfg.overflow == Fail {
      NothingEvicted(cfg, log, s);
    }
  }

  lemma {:induction false} NothingEvicted(cfg: Config, log: seq<Act>, s: State)
    requires Run(cfg, log, s) && cfg.overflow == Fail
    ensures EvictedEvents(log) == []
  {
    if log != [] {
      var p := Before(cfg, log);
      NothingEvicted(cfg, Front(log), p);
      RoomHolds(cfg, Front(log), p);
    }
  }

  /** Events leave the channel in the order in which they entered it, and nothing else leaves it. */
  lemma {:induction false} FirstInFirstOut(cfg: Config, log: seq<Act>, s: State)
    requires Run(cfg, log, s)
    ensures Events(Departed(log)) + s.queue.buffer == Accepted(log)
  {
    if log != [] {
      var p := Before(cfg, log);
      FirstInFirstOut(cfg, Front(log), p);
      EventsAppend(Departed(Front(log)), DepartedBy(Last(log)));
      QueueMoves(cfg, p, Last(log), Events(Departed(Front(log))));
    }
  }

  lemma QueueMoves(cfg: Config, s: State, a: Act, gone: seq<Event>)
    requires Enabled(cfg, s, a)
    ensures gone + Events(DepartedBy(a)) + MoveQueue(s.queue, a).buffer == gone + s.queue.buffer + AcceptedBy(a)
  {
  }

  lemma EventsAppend(ds: seq<Departure>, more: seq<Departure>)
    requires |more| <= 1
    ensures Events(ds + more) == Events(ds) + Events(more)
  {
    if more == [] {
      assert ds + more == ds;
    } else {
      assert (ds + more)[..|ds|] == ds;
    }
  }

  /** What the queue holds and counts, against what was accepted, delivered and evicted. */
  ghost predicate Balanced(s: State, accepted: nat, delivered: nat, evicted: nat) {
    && accepted == delivered + evicted + |s.queue.buffer|
    && evicted == s.queue.dropped + if s.w.pc.Counting? then 1 else 0
  }

  lemma BalanceStep(cfg: Config, s: State, a: Act, accepted: nat, delivered: nat, evicted: nat)
    requires Enabled(cfg, s, a) && Balanced(s, accepted, delivered, evicted)
    ensures Balanced(Step(cfg, s, a),
                     accepted + |AcceptedBy(a)|, delivered + |DeliveredBy(a)|, evicted + |EvictedBy(a)|)
  {
  }

  /** After every call of `enqueue`: accepted = delivered + buffered + Dropped(). */
  lemma {:induction false} AcceptedAreAccountedFor(cfg: Config, log: seq<Act>, s: State)
    requires Run(cfg, log, s)
    ensures Balanced(s, |Accepted(log)|, |Delivered(log)|, |EvictedEvents(log)|)
    ensures !s.w.pc.Counting? ==> |Accepted(log)| == |Delivered(log)| + |s.queue.buffer| + s.queue.dropped
  {
    if log != [] {
      var p := Before(cfg, log);
      var front := Front(log);
      AcceptedAreAccountedFor(cfg, front, p);
      BalanceStep(cfg, p, Last(log), |Accepted(front)|, |Delivered(front)|, |EvictedEvents(front)|);
    }
  }

  /** The events that have been accepted and neither delivered nor evicted. */
  ghost function Waiting(log: seq<Act>): int {
    |Accepted(log)| - |Delivered(log)| - |EvictedEvents(log)|
  }

  /** The channel holds max(1, capacity) events, no more and no fewer: an event that is offered is taken
      exactly when fewer than that many wait for the consumer, and is refused only when that many do. */
  lemma OfferIsTakenIff(cfg: Config, log: seq<Act>, s: State, i: nat)
    requires Run(cfg, log, s) && i < |log| && log[i].Offered?
    ensures log[i].ok <==> Waiting(log[..i]) < if cfg.queueCapacity < 1 then 1 else cfg.queueCapacity
    ensures !log[i].ok ==> Waiting(log[..i]) == if cfg.queueCapacity < 1 then 1 else cfg.queueCapacity
  {
    PrefixIsRun(cfg, log, i + 1);
    assert Front(log[..i + 1]) == log[..i] && Last(log[..i + 1]) == log[i];
    var p := Before(cfg, log[..i + 1]);
    AcceptedAreAccountedFor(cfg, log[..i], p);
    RoomHolds(cfg, log[..i], p);
  }

  /** The offers refused under drop_oldest, and the tries to evict. */
  function RefusedOffer(cfg: Config, a: Act): nat {
    if a.Offered? && !a.ok && cfg.overflow == DropOldest then 1 else 0
  }

  ghost function Refusals(cfg: Config, log: seq<Act>): nat {
    if log == [] then 0 else Refusals(cfg, Front(log)) + RefusedOffer(cfg, Last(log))
  }

  ghost function EvictionTries(log: seq<Act>): nat {
    if log == [] then 0 else EvictionTries(Front(log)) + if Last(log).Evicted? then 1 else 0
  }

  lemma TryStep(cfg: Config, s: State, a: Act)
    requires Enabled(cfg, s, a)
    ensures (if a.Evicted? then 1 else 0) + (if Move(cfg, s, a).pc.Evicting? then 1 else 0) ==
              RefusedOffer(cfg, a) + (if s.w.pc.Evicting? then 1 else 0)
  {
  }

  /** The worker tries to evict once for each offer that a full channel has refused, and never else. */
  lemma {:induction false} EvictionsFollowRefusals(cfg: Config, log: seq<Act>, s: State)
    requires Run(cfg, log, s)
    ensures EvictionTries(log) + (if s.w.pc.Evicting? then 1 else 0) == Refusals(cfg, log)
  {
    if log != [] {
      var p := Before(cfg, log);
      EvictionsFollowRefusals(cfg, Front(log), p);
      TryStep(cfg, p, Last(log));
    }
  }

  // ----- order across reconnects -----

  /** The delivery of the frame that the worker is dealing with, before its event, if any, is accepted. */
  function Pending(pc: Pc): Option<Delivery> {
    match pc
    case AddingGap(_, Dispatch(_, d)) => Some(d)
    case Observing(_, _, Dispatch(_, d)) => Some(d)
    case Admitting(_, _, Dispatch(_, d)) => Some(d)
    case Handling(_, d) => Some(d)
    case Offering(ev) => Some(ev.delivery)
    case Evicting(ev) => Some(ev.delivery)
    case Counting(ev) => Some(ev.delivery)
    case Resending(ev) => Some(ev.delivery)
    case _ => None
  }

  /** Strictly increasing receive sequence, non-decreasing connection epoch. */
  ghost predicate InOrder(evs: seq<Event>) {
    forall i, j :: 0 <= i < j < |evs| ==>
      evs[i].delivery.sequence < evs[j].delivery.sequence && evs[i].delivery.epoch <= evs[j].delivery.epoch
  }

  /** The last accepted event belongs to a frame received before the one being dealt with. */
  ghost predicate Stamped(w: Control, accepted: seq<Event>) {
    && (Pending(w.pc).Some? ==>
          Pending(w.pc).value.sequence == w.sequence && Pending(w.pc).value.epoch == w.epoch)
    && (accepted != [] ==>
          var d := accepted[|accepted| - 1].delivery;
          d.epoch <= w.epoch && if Pending(w.pc).Some? then d.sequence < w.sequence else d.sequence <= w.sequence)
  }

  /** How the pending delivery moves on. */
  lemma PendingStep(cfg: Config, s: State, a: Act)
    requires Enabled(cfg, s, a) && Stamped(s.w, [])
    ensures var w := Move(cfg, s, a);
            && Stamped(w, []) && s.w.epoch <= w.epoch && s.w.sequence <= w.sequence
            && (Pending(s.w.pc).None? && Pending(w.pc).Some? ==> s.w.sequence < w.sequence)
            && (AcceptedBy(a) != [] ==> Pending(s.w.pc) == Some(AcceptedBy(a)[0].delivery) && Pending(w.pc).None?)
  {
    if a.Handled? {
    } else if a.Observed? || a.Admitted? || a.GapAdded? {
    }
  }

  lemma StampStep(cfg: Config, s: State, a: Act, accepted: seq<Event>)
    requires Enabled(cfg, s, a) && Stamped(s.w, accepted)
    ensures Stamped(Move(cfg, s, a), accepted + AcceptedBy(a))
    ensures AcceptedBy(a) != [] ==> Pending(s.w.pc) == Some(AcceptedBy(a)[0].delivery)
  {
    PendingStep(cfg, s, a);
    StampsGrow(s.w, Move(cfg, s, a), accepted, AcceptedBy(a));
  }

  lemma StampsGrow(w: Control, w': Control, accepted: seq<Event>, more: seq<Event>)
    requires Stamped(w, accepted) && Stamped(w', []) && w.epoch <= w'.epoch && w.sequence <= w'.sequence && |more| <= 1
    requires Pending(w.pc).None? && Pending(w'.pc).Some? ==> w.sequence < w'.sequence
    requires more != [] ==> Pending(w.pc) == Some(more[0].delivery) && Pending(w'.pc).None?
    ensures Stamped(w', accepted + more)
  {
  }

  lemma {:induction false} StampsHold(cfg: Config, log: seq<Act>, s: State)
    requires Run(cfg, log, s)
    ensures Stamped(s.w, Accepted(log)) && InOrder(Accepted(log))
  {
    if log != [] {
      var p := Before(cfg, log);
      StampsHold(cfg, Front(log), p);
      StampStep(cfg, p, Last(log), Accepted(Front(log)));
    }
  }

  // ----- delivered and buffered events are the accepted ones without the evicted ones -----

  function Labelled(ds: seq<Departure>, evicted: bool): seq<Event> {
    if ds == [] then []
    else Labelled(ds[..|ds| - 1], evicted) +
         (if ds[|ds| - 1].evicted == evicted then [ds[|ds| - 1].event] else [])
  }

  /** `evs` without the events of `lost`. */
  function Without(evs: seq<Event>, lost: seq<Event>): seq<Event> {
    if evs == [] then []
    else Without(evs[..|evs| - 1], lost) + (if evs[|evs| - 1] in lost then [] else [evs[|evs| - 1]])
  }

  lemma LabelledAppend(ds: seq<Departure>, more: seq<Departure>, evicted: bool)
    requires |more| <= 1
    ensures Labelled(ds + more, evicted) == Labelled(ds, evicted) + Labelled(more, evicted)
  {
    if more == [] {
      assert ds + more == ds;
    } else {
      assert (ds + more)[..|ds|] == ds;
    }
  }

  lemma ActIsLabelled(a: Act)
    ensures DeliveredBy(a) == Labelled(DepartedBy(a), false)
    ensures EvictedBy(a) == Labelled(DepartedBy(a), true)
  {
  }

  lemma {:induction false} DeparturesAreLabelled(log: seq<Act>)
    ensures Delivered(log) == Labelled(Departed(log), false)
    ensures EvictedEvents(log) == Labelled(Departed(log), true)
  {
    if log != [] {
      DeparturesAreLabelled(Front(log));
      ActIsLabelled(Last(log));
      LabelledAppend(Departed(Front(log)), DepartedBy(Last(log)), false);
      LabelledAppend(Departed(Front(log)), DepartedBy(Last(log)), true);
    }
  }

  lemma {:induction false} LostAreEvents(ds: seq<Departure>, x: Event)
    requires x in Labelled(ds, true)
    ensures x in Events(ds)
  {
    if ds != [] && x in Labelled(ds[..|ds| - 1], true) {
      LostAreEvents(ds[..|ds| - 1], x);
    }
  }

  /** Removing events that do not occur removes nothing. */
  lemma {:induction false} WithoutOthers(evs: seq<Event>, lost: seq<Event>, more: seq<Event>)
    requires forall x :: x in more ==> x !in evs
    ensures Without(evs, lost + more) == Without(evs, lost)
  {
    if evs != [] {
      WithoutOthers(evs[..|evs| - 1], lost, more);
    }
  }

  lemma {:induction false} WithoutNone(evs: seq<Event>, lost: seq<Event>)
    requires forall x :: x in evs ==> x !in lost
    ensures Without(evs, lost) == evs
  {
    if evs != [] {
      WithoutNone(evs[..|evs| - 1], lost);
    }
  }

  lemma {:induction false} WithoutConcat(a: seq<Event>, b: seq<Event>, lost: seq<Event>)
    ensures Without(a + b, lost) == Without(a, lost) + Without(b, lost)
  {
    if b == [] {
      assert a + b == a;
    } else {
      assert (a + b)[..|a + b| - 1] == a + b[..|b| - 1];
      WithoutConcat(a, b[..|b| - 1], lost);
    }
  }

  lemma LastIsNew(evs: seq<Event>, last: Event)
    requires InOrder(evs + [last])
    ensures InOrder(evs) && last !in evs
  {
    var all := evs + [last];
    assert all[|evs|] == last;
    assert forall i :: 0 <= i < |evs| ==> all[i] == evs[i];
  }

  lemma {:induction false} KeptSurvive(ds: seq<Departure>)
    requires InOrder(Events(ds))
    ensures Labelled(ds, false) == Without(Events(ds), Labelled(ds, true))
  {
    if ds != [] {
      var front, last := ds[..|ds| - 1], ds[|ds| - 1];
      var evs := Events(front);
      LastIsNew(evs, last.event);
      KeptSurvive(front);
      assert Events(ds)[..|evs|] == evs;
      var lost := Labelled(front, true);
      if last.evicted {
        assert Labelled(ds, true) == lost + [last.event];
        WithoutOthers(evs, lost, [last.event]);
      } else {
        assert Labelled(ds, true) == lost;
        if last.event in lost {
          LostAreEvents(front, last.event);
        }
      }
    }
  }

  lemma SurvivorsOf(ds: seq<Departure>, buffer: seq<Event>)
    requires InOrder(Events(ds) + buffer)
    ensures Labelled(ds, false) + buffer == Without(Events(ds) + buffer, Labelled(ds, true))
  {
    var gone, all, lost := Events(ds), Events(ds) + buffer, Labelled(ds, true);
    assert forall i :: 0 <= i < |gone| ==> all[i] == gone[i];
    assert forall i :: 0 <= i < |buffer| ==> all[|gone| + i] == buffer[i];
    KeptSurvive(ds);
    forall x | x in buffer ensures x !in lost {
      if x in lost {
        LostAreEvents(ds, x);
      }
    }
    WithoutNone(buffer, lost);
    WithoutConcat(gone, buffer, lost);
  }

  /** What the consumer has received, followed by what it can still receive, is exactly the
      accepted sequence without the evicted events: in order, with strictly increasing receive
      sequence and non-decreasing connection epoch, across all reconnects. */
  lemma ConsumerSeesSurvivors(cfg: Config, log: seq<Act>, s: State)
    requires Run(cfg, log, s)
    ensures Delivered(log) + s.queue.buffer == Without(Accepted(log), EvictedEvents(log))
    ensures InOrder(Accepted(log))
  {
    FirstInFirstOut(cfg, log, s);
    StampsHold(cfg, log, s);
    DeparturesAreLabelled(log);
    SurvivorsOf(Departed(log), s.queue.buffer);
  }

  // ----- events are the frames that were read -----

  /** The frame that goes with the pending delivery. */
  function PendingFrame(pc: Pc): Option<Frame> {
    match pc
    case AddingGap(_, Dispatch(f, _)) => Some(f)
    case Observing(_, _, Dispatch(f, _)) => Some(f)
    case Admitting(_, _, Dispatch(f, _)) => Some(f)
    case Handling(f, _) => Some(f)
    case Offering(ev) => Some(ev.raw)
    case Evicting(ev) => Some(ev.raw)
    case Counting(ev) => Some(ev.raw)
    case Resending(ev) => Some(ev.raw)
    case _ => None
  }

  /** The event exposes its own frame, under the kind that goes with it. */
  predicate Exposes(ev: Event) {
    && ev.receipt == Incoming(ev.raw)
    && (ev.kind == EventData <==> ev.raw.kind == Data)
    && (ev.kind == EventComplete <==> ev.raw.kind == Complete)
    && (ev.kind == EventKeepalive <==> ev.raw.kind == Keepalive)
  }

  ghost predicate WasRead(log: seq<Act>, d: Delivery, f: Frame) {
    Read(d.epoch, d.sequence, f) in log
  }

  lemma FrameStep(cfg: Config, s: State, a: Act)
    requires Enabled(cfg, s, a)
    ensures var pc := Move(cfg, s, a).pc;
            Pending(pc).Some? ==>
              && PendingFrame(pc).Some?
              && (a == Read(Pending(pc).value.epoch, Pending(pc).value.sequence, PendingFrame(pc).value)
                  || (Pending(s.w.pc).Some? && PendingFrame(s.w.pc) == PendingFrame(pc)
                      && Pending(s.w.pc).value.(reconnectGap := true) == Pending(pc).value.(reconnectGap := true)))
  {
  }

  lemma ExposeStep(cfg: Config, s: State, a: Act)
    requires Enabled(cfg, s, a)
    requires (s.w.pc.Offering? || s.w.pc.Evicting? || s.w.pc.Counting? || s.w.pc.Resending? ==> Exposes(s.w.pc.event))
    ensures var pc := Move(cfg, s, a).pc;
            pc.Offering? || pc.Evicting? || pc.Counting? || pc.Resending? ==> Exposes(pc.event)
    ensures forall ev :: ev in AcceptedBy(a) ==>
              Exposes(ev) && Pending(s.w.pc) == Some(ev.delivery) && PendingFrame(s.w.pc) == Some(ev.raw)
  {
    if a.Handled? || a.Offered? {
    } else if a.Admitted? || a.Observed? || a.GapAdded? {
    }
  }

  /** Every accepted event is a frame that was read, with the connection epoch and the receive
      sequence of that read, the exact frame and its receipt. */
  lemma {:induction false} AcceptedWereRead(cfg: Config, log: seq<Act>, s: State)
    requires Run(cfg, log, s)
    ensures forall ev :: ev in Accepted(log) ==> WasRead(log, ev.delivery, ev.raw) && Exposes(ev)
    ensures Pending(s.w.pc).Some? ==>
              PendingFrame(s.w.pc).Some? && WasRead(log, Pending(s.w.pc).value, PendingFrame(s.w.pc).value)
    ensures s.w.pc.Offering? || s.w.pc.Evicting? || s.w.pc.Counting? || s.w.pc.Resending? ==> Exposes(s.w.pc.event)
  {
    if log != [] {
      var p := Before(cfg, log);
      var front := Front(log);
      AcceptedWereRead(cfg, front, p);
      FrameStep(cfg, p, Last(log));
      ExposeStep(cfg, p, Last(log));
      assert log == front + [Last(log)];
    }
  }
}
