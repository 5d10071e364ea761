/** The gap records over whole runs: the bounded buffer keeps the newest ones and counts the rest,
    and the full history names every reconnect and every lost receipt. */
module GapLedger {
  import opened SubscriptionTypes
  import opened SubscriptionWorker
  import opened QueueLedger
  import opened Handshake

  function GapBy(a: Act): seq<Gap> {
    match a
    case GapAdded(g) => [g]
    case _ => []
  }

  ghost function Gaps(log: seq<Act>): seq<Gap> { Collect(log, GapBy) }

  /** The last `n` elements, or all of them. */
  function Newest<T>(xs: seq<T>, n: nat): seq<T> {
    if |xs| <= n then xs else xs[|xs| - n..]
  }

  /** After any number of gaps, the buffer that addGap shifts in place holds exactly the newest
      ones, and together with DroppedGaps() it accounts for all of them. */
  lemma {:induction false} GapBufferIsSlidingWindow(cfg: Config, log: seq<Act>, s: State)
    requires Run(cfg, log, s)
    ensures s.evidence.gaps == Newest(Gaps(log), if cfg.receiptCapacity < 1 then 1 else cfg.receiptCapacity)
    ensures |s.evidence.gaps| + s.evidence.gapDropped == |Gaps(log)|
  {
    if log != [] {
      var p := Before(cfg, log);
      GapBufferIsSlidingWindow(cfg, Front(log), p);
      WindowStep(cfg, p.evidence, Last(log), Gaps(Front(log)));
    }
  }

  lemma WindowStep(cfg: Config, ev: Evidence, a: Act, gaps: seq<Gap>)
    requires ev.gaps == Newest(gaps, cfg.GapLimit()) && |ev.gaps| + ev.gapDropped == |gaps|
    ensures MoveEvidence(cfg, ev, a).gaps == Newest(gaps + GapBy(a), cfg.GapLimit())
    ensures |MoveEvidence(cfg, ev, a).gaps| + MoveEvidence(cfg, ev, a).gapDropped == |gaps + GapBy(a)|
  {
    if a.GapAdded? {
    } else {
      assert gaps + GapBy(a) == gaps;
    }
  }

  // ----- completeness of the history -----

  function Reconnects(a: Act): seq<nat> {
    match a
    case GapAdded(g) => if g.reason.GapReconnect? then [g.epoch] else []
    case _ => []
  }

  function ReceiptLosses(a: Act): seq<Gap> {
    match a
    case GapAdded(g) => if g.reason.GapReceiptOverflow? then [g] else []
    case _ => []
  }

  /** A gap that ends the stream. */
  predicate EndsStream(g: Gap) { g.reason == GapOverflowFail || g.reason == GapReceiptObserver }

  predicate AddsFinalGap(a: Act) { a.GapAdded? && EndsStream(a.gap) }

  /** The receipts that did not stay in the buffer because it was full. */
  function LostBy(a: Act): seq<Receipt> {
    match a
    case Admitted(_, Displaced(oldest)) => [oldest]
    case Admitted(r, Rejected) => [r]
    case _ => []
  }

  /** 2, 3, ..., n. */
  function FromTwo(n: int): seq<nat> {
    if n < 2 then [] else FromTwo(n - 1) + [n]
  }

  predicate Announcing(pc: Pc, reason: GapReason) { pc.AddingGap? && pc.gap.reason == reason }

  /** The worker goes on to the only place that fits the gap that it is adding. */
  ghost predicate GapFits(w: Control) {
    w.pc.AddingGap? ==>
      && (w.pc.gap.reason.GapReconnect? <==> w.pc.next.BeginServe?)
      && (w.pc.gap.reason.GapReconnect? ==> w.pc.gap.epoch == w.epoch && w.epoch > 1)
      && (EndsStream(w.pc.gap) ==> w.pc.next.GiveUp?)
      && (w.pc.next.GiveUp? ==> w.pc.next.error.Fatal?)
  }

  /** `serve` is about to fail for good, or the worker is past that. */
  predicate Dooming(pc: Pc) {
    match pc
    case Returned(finished, _, error) => !finished && error.Fatal?
    case Judging(finished, _, error) => !finished && error.Fatal?
    case Failing(_) => true
    case Exiting => true
    case Closing => true
    case Stopped => true
    case _ => false
  }

  lemma FitStep(cfg: Config, s: State, a: Act)
    requires Enabled(cfg, s, a) && Shaped(s.w.pc) && GapFits(s.w)
    ensures GapFits(Move(cfg, s, a))
  {
  }

  lemma DoomStep(cfg: Config, s: State, a: Act, doomed: bool)
    requires Enabled(cfg, s, a) && GapFits(s.w) && (doomed ==> Dooming(s.w.pc))
    ensures doomed || AddsFinalGap(a) ==> Dooming(Move(cfg, s, a).pc)
    ensures doomed ==> GapBy(a) == []
  {
  }

  /** How far the reconnect gaps have got: one for every epoch from 2 on, the last possibly pending. */
  ghost predicate Announced(w: Control, epochs: seq<nat>) {
    if Announcing(w.pc, GapReconnect) then epochs == FromTwo(w.epoch - 1) else epochs == FromTwo(w.epoch)
  }

  lemma AnnounceStep(cfg: Config, s: State, a: Act, epochs: seq<nat>)
    requires Enabled(cfg, s, a) && GapFits(s.w) && Announced(s.w, epochs) && Shaped(s.w.pc)
    ensures Announced(Move(cfg, s, a), epochs + Reconnects(a))
  {
  }

  lemma LossStep(cfg: Config, s: State, a: Act)
    requires Enabled(cfg, s, a) && Shaped(s.w.pc)
    ensures |ReceiptLosses(a)| + (if Announcing(Move(cfg, s, a).pc, GapReceiptOverflow) then 1 else 0)
         == |LostBy(a)| + (if Announcing(s.w.pc, GapReceiptOverflow) then 1 else 0)
  {
  }

  lemma {:induction false} FitHolds(cfg: Config, log: seq<Act>, s: State)
    requires Run(cfg, log, s)
    ensures Shaped(s.w.pc) && GapFits(s.w)
  {
    ProtocolHolds(cfg, log, s, 1);
    if log != [] {
      var p := Before(cfg, log);
      FitHolds(cfg, Front(log), p);
      FitStep(cfg, p, Last(log));
    }
  }

  lemma {:induction false} ReconnectsAreAnnounced(cfg: Config, log: seq<Act>, s: State)
    requires Run(cfg, log, s)
    ensures Announced(s.w, Collect(log, Reconnects))
  {
    if log != [] {
      var p := Before(cfg, log);
      ReconnectsAreAnnounced(cfg, Front(log), p);
      FitHolds(cfg, Front(log), p);
      AnnounceStep(cfg, p, Last(log), Collect(Front(log), Reconnects));
    }
  }

  lemma {:induction false} LossesAreAnnounced(cfg: Config, log: seq<Act>, s: State)
    requires Run(cfg, log, s)
    ensures |Collect(log, ReceiptLosses)| + (if Announcing(s.w.pc, GapReceiptOverflow) then 1 else 0) ==
              |Collect(log, LostBy)|
  {
    if log != [] {
      var p := Before(cfg, log);
      LossesAreAnnounced(cfg, Front(log), p);
      FitHolds(cfg, Front(log), p);
      LossStep(cfg, p, Last(log));
    }
  }

  lemma FinalStep(gaps: seq<Gap>, a: Act, doomed: bool)
    requires forall i :: 0 <= i < |gaps| - 1 ==> !EndsStream(gaps[i])
    requires doomed <==> gaps != [] && EndsStream(gaps[|gaps| - 1])
    requires doomed ==> GapBy(a) == []
    ensures var now := gaps + GapBy(a);
            && (forall i :: 0 <= i < |now| - 1 ==> !EndsStream(now[i]))
            && (doomed || AddsFinalGap(a) <==> now != [] && EndsStream(now[|now| - 1]))
  {
  }

  lemma {:induction false} FinalGapIsLast(cfg: Config, log: seq<Act>, s: State)
    requires Run(cfg, log, s)
    ensures Ever(log, AddsFinalGap) ==> Dooming(s.w.pc)
    ensures forall i :: 0 <= i < |Gaps(log)| - 1 ==> !EndsStream(Gaps(log)[i])
    ensures Ever(log, AddsFinalGap) <==> Gaps(log) != [] && EndsStream(Gaps(log)[|Gaps(log)| - 1])
  {
    if log != [] {
      var p := Before(cfg, log);
      FinalGapIsLast(cfg, Front(log), p);
      FitHolds(cfg, Front(log), p);
      DoomStep(cfg, p, Last(log), Ever(Front(log), AddsFinalGap));
      FinalStep(Gaps(Front(log)), Last(log), Ever(Front(log), AddsFinalGap));
    }
  }

  /** The history of gaps, as it stands at any moment: one GapReconnect for each epoch from 2 on, in
      order; one GapReceiptOverflow for each receipt displaced or rejected; and at most one gap that
      ends the stream, which is then the last gap of all. */
  lemma GapHistoryIsComplete(cfg: Config, log: seq<Act>, s: State)
    requires Run(cfg, log, s)
    ensures GapFits(s.w) && Announced(s.w, Collect(log, Reconnects))
    ensures |Collect(log, ReceiptLosses)| + (if Announcing(s.w.pc, GapReceiptOverflow) then 1 else 0) ==
              |Collect(log, LostBy)|
    ensures Ever(log, AddsFinalGap) ==> Dooming(s.w.pc)
    ensures forall i :: 0 <= i < |Gaps(log)| - 1 ==> !EndsStream(Gaps(log)[i])
    ensures Ever(log, AddsFinalGap) <==> Gaps(log) != [] && EndsStream(Gaps(log)[|Gaps(log)| - 1])
  {
    FitHolds(cfg, log, s);
    ReconnectsAreAnnounced(cfg, log, s);
    LossesAreAnnounced(cfg, log, s);
    FinalGapIsLast(cfg, log, s);
  }

  /** The same for a worker that has stopped. */
  lemma StoppedGapHistory(cfg: Config, log: seq<Act>, s: State)
    requires Run(cfg, log, s) && Done(s.w.pc)
    ensures Collect(log, Reconnects) == FromTwo(s.w.epoch)
    ensures |Collect(log, ReceiptLosses)| == |Collect(log, LostBy)|
  {
    GapHistoryIsComplete(cfg, log, s);
  }

  // ----- ReconnectGap -----

  predicate OffersData(a: Act, e: nat) {
    a.Offered? && a.event.kind == EventData && a.event.delivery.epoch == e
  }

  /** How many data events were built on connection `e`. */
  ghost function DataIn(log: seq<Act>, e: nat): nat {
    if log == [] then 0 else DataIn(Front(log), e) + if OffersData(Last(log), e) then 1 else 0
  }

  /** The flag of a delivery that is still on its way to the switch of `serve`. */
  function Unflagged(pc: Pc): bool {
    match pc
    case AddingGap(_, Dispatch(_, d)) => !d.reconnectGap
    case Observing(_, _, Dispatch(_, d)) => !d.reconnectGap
    case Admitting(_, _, Dispatch(_, d)) => !d.reconnectGap
    case Handling(_, d) => !d.reconnectGap
    case Offering(ev) => ev.kind == EventData || !ev.delivery.reconnectGap
    case _ => true
  }

  /** `firstDataAfterReconnect`, and the flag of the event in hand, against the data events so far. */
  ghost predicate Marked(w: Control, e: nat, built: nat) {
    && (e > w.epoch ==> built == 0)
    && (e == w.epoch && (Starting(w.pc) || Serving(w.pc)) ==>
          if w.pc.Offering? && w.pc.event.kind == EventData
          then !w.firstData && (w.pc.event.delivery.reconnectGap <==> e > 1 && built == 0)
          else (w.firstData <==> e > 1 && built == 0))
    && (e == w.epoch && Starting(w.pc) ==> built == 0)
  }

  lemma FlagStep(cfg: Config, s: State, a: Act)
    requires Enabled(cfg, s, a) && Unflagged(s.w.pc)
    ensures Unflagged(Move(cfg, s, a).pc)
  {
  }

  lemma EventKeepsMark(cfg: Config, s: State, a: Act, e: nat, built: nat)
    requires Enabled(cfg, s, a) && (a.Handled? || a.Offered?) && Marked(s.w, e, built)
    requires Pending(s.w.pc).Some? ==> Pending(s.w.pc).value.epoch == s.w.epoch
    ensures Marked(Move(cfg, s, a), e, built + if OffersData(a, e) then 1 else 0)
  {
  }

  lemma OthersKeepMark(cfg: Config, s: State, a: Act, e: nat, built: nat)
    requires Enabled(cfg, s, a) && !a.Handled? && !a.Offered? && Shaped(s.w.pc) && Marked(s.w, e, built)
    ensures Marked(Move(cfg, s, a), e, built)
  {
  }

  lemma MarkStep(cfg: Config, s: State, a: Act, e: nat, built: nat)
    requires Enabled(cfg, s, a) && Shaped(s.w.pc) && Marked(s.w, e, built)
    requires Pending(s.w.pc).Some? ==> Pending(s.w.pc).value.epoch == s.w.epoch
    ensures Marked(Move(cfg, s, a), e, built + if OffersData(a, e) then 1 else 0)
  {
    if a.Handled? || a.Offered? {
      EventKeepsMark(cfg, s, a, e, built);
    } else {
      OthersKeepMark(cfg, s, a, e, built);
    }
  }

  lemma {:induction false} MarksHold(cfg: Config, log: seq<Act>, s: State, e: nat)
    requires Run(cfg, log, s) && 0 < e
    ensures Unflagged(s.w.pc) && Marked(s.w, e, DataIn(log, e))
  {
    if log != [] {
      var p := Before(cfg, log);
      MarksHold(cfg, Front(log), p, e);
      ProtocolHolds(cfg, Front(log), p, e);
      StampsHold(cfg, Front(log), p);
      FlagStep(cfg, p, Last(log));
      MarkStep(cfg, p, Last(log), e, DataIn(Front(log), e));
    }
  }

  /** ReconnectGap is set on exactly the first data event built on each connection after the first,
      and on no other event. */
  lemma ReconnectGapMarksFirstData(cfg: Config, log: seq<Act>, s: State, i: nat)
    requires Run(cfg, log, s) && i < |log| && log[i].Offered?
    ensures var d := log[i].event.delivery;
            d.reconnectGap <==> log[i].event.kind == EventData && d.epoch > 1 && DataIn(log[..i], d.epoch) == 0
  {
    PrefixIsRun(cfg, log, i + 1);
    assert Front(log[..i + 1]) == log[..i] && Last(log[..i + 1]) == log[i];
    var p := Before(cfg, log[..i + 1]);
    var e := log[i].event.delivery.epoch;
    StampsHold(cfg, log[..i], p);
    NotServing(cfg, log[..i], p);
    MarksHold(cfg, log[..i], p, e);
  }
}
