/** The receipt transcript over whole runs: which frames become receipts, which receipts are
    retained, drained or displaced, and which one can be lost. */
module ReceiptLedger {
  import opened Wrappers
  import opened SubscriptionTypes
  import opened SubscriptionWorker
  import opened TerminalOutcome

  /** The frames that went over the wire: written successfully, or read. */
  function WireBy(a: Act): seq<Receipt> {
    match a
    case Wrote(_, m, ok) => if ok then [Outgoing(m)] else []
    case Read(_, _, f) => [Incoming(f)]
    case _ => []
  }

  /** The receipts that `observeReceipt` was called with. */
  function ObservedBy(a: Act): seq<Receipt> {
    match a
    case Observed(r, _) => [r]
    case _ => []
  }

  /** The receipts that passed the observer and the locked part of `observeReceipt`. */
  function SettledBy(a: Act): seq<Receipt> {
    match a
    case Admitted(r, how) => if how.Rejected? then [] else [r]
    case _ => []
  }

  /** The receipts refused by the observer or by the full buffer. */
  function RefusedBy(a: Act): seq<Receipt> {
    match a
    case Admitted(r, how) => if how.Rejected? then [r] else []
    case Observed(r, ok) => if ok then [] else [r]
    case _ => []
  }

  /** The receipts that left the buffer: handed to the consumer by DrainReceipts, or displaced. */
  function LeftBy(a: Act): seq<Receipt> {
    match a
    case Drained(rs) => rs
    case Admitted(_, Displaced(oldest)) => [oldest]
    case _ => []
  }

  function DrainedBy(a: Act): seq<Receipt> {
    match a
    case Drained(rs) => rs
    case _ => []
  }

  function DisplacedBy(a: Act): seq<Receipt> {
    match a
    case Admitted(_, Displaced(oldest)) => [oldest]
    case _ => []
  }

  /** The receipt that the worker is about to show to the observer. */
  function Unobserved(pc: Pc): seq<Receipt> {
    match pc
    case Observing(r, _, _) => [r]
    case _ => []
  }

  /** The receipt that is between the wire and the buffer. */
  function InFlight(pc: Pc): seq<Receipt> {
    match pc
    case Observing(r, _, _) => [r]
    case Admitting(r, _, _) => [r]
    case _ => []
  }

  /** After a refusal the worker carries the refused receipt in a fatal error, until it either sets
      that error or finds the context cancelled. */
  ghost predicate Refusing(w: Control, refused: seq<Receipt>, cancelSeen: bool) {
    refused != [] ==>
      && |refused| == 1
      && InFlight(w.pc) == []
      && (cancelSeen || (Carried(w).Fatal? && Carried(w).receipts == refused
                         && (Carried(w).reason == ReceiptOverflow || Carried(w).reason == ObserverFailed)))
      && (w.pc.AddingGap? || w.pc.Returned? || w.pc.Judging? || w.pc.Failing? || WindingUp(w.pc))
      && (w.pc.AddingGap? ==> w.pc.next.GiveUp?)
      && ((w.pc.Returned? || w.pc.Judging?) ==> !w.pc.finished)
  }

  lemma TranscriptStep(cfg: Config, s: State, a: Act)
    requires Enabled(cfg, s, a)
    ensures Unobserved(s.w.pc) + WireBy(a) == ObservedBy(a) + Unobserved(Move(cfg, s, a).pc)
    ensures InFlight(s.w.pc) + WireBy(a) == SettledBy(a) + RefusedBy(a) + InFlight(Move(cfg, s, a).pc)
  {
  }

  lemma RefusalStep(cfg: Config, s: State, a: Act, refused: seq<Receipt>, cancelSeen: bool)
    requires Enabled(cfg, s, a) && Refusing(s.w, refused, cancelSeen)
    requires s.w.error.Some? ==> WindingUp(s.w.pc)
    requires cancelSeen ==> WindingUp(s.w.pc)
    ensures Refusing(Move(cfg, s, a), refused + RefusedBy(a), cancelSeen || FindsCancelled(a))
    ensures refused != [] ==> SettledBy(a) == [] && WireBy(a) == []
  {
  }

  /** Moving elements from a flight to its destination keeps the whole. */
  lemma Forward<T>(done: seq<T>, flight: seq<T>, wire: seq<T>, arrived: seq<T>, landed: seq<T>, flight': seq<T>)
    requires done + flight == wire && flight + arrived == landed + flight'
    ensures done + landed + flight' == wire + arrived
  {
    calc {
      done + landed + flight';
      done + (landed + flight');
      done + (flight + arrived);
      done + flight + arrived;
    }
  }

  /** `observeReceipt` is called for exactly the frames that were written or read successfully, in
      the order of the worker and across all connections; at most the newest one is yet to come. */
  lemma {:induction false} ObservedIsTheWire(cfg: Config, log: seq<Act>, s: State)
    requires Run(cfg, log, s)
    ensures Collect(log, ObservedBy) + Unobserved(s.w.pc) == Collect(log, WireBy)
  {
    if log != [] {
      var p := Before(cfg, log);
      var front, a := Front(log), Last(log);
      ObservedIsTheWire(cfg, front, p);
      TranscriptStep(cfg, p, a);
      Forward(Collect(front, ObservedBy), Unobserved(p.w.pc), Collect(front, WireBy), WireBy(a), ObservedBy(a),
          Unobserved(s.w.pc));
    }
  }

  /** Every frame on the wire is settled, except possibly the last one: it may be refused, or in flight. */
  lemma {:induction false} WireIsSettled(cfg: Config, log: seq<Act>, s: State)
    requires Run(cfg, log, s)
    ensures Collect(log, SettledBy) + Collect(log, RefusedBy) + InFlight(s.w.pc) == Collect(log, WireBy)
    ensures Refusing(s.w, Collect(log, RefusedBy), Ever(log, FindsCancelled))
  {
    if log != [] {
      var p := Before(cfg, log);
      var front, a := Front(log), Last(log);
      WireIsSettled(cfg, front, p);
      EndedHolds(cfg, front, p);
      RefusalStep(cfg, p, a, Collect(front, RefusedBy), Ever(front, FindsCancelled));
      WireStep(cfg, p, a, Collect(front, SettledBy), Collect(front, RefusedBy), Collect(front, WireBy));
    }
  }

  lemma WireStep(cfg: Config, s: State, a: Act, settled: seq<Receipt>, refused: seq<Receipt>, wire: seq<Receipt>)
    requires Enabled(cfg, s, a) && settled + refused + InFlight(s.w.pc) == wire
    requires refused != [] ==> InFlight(s.w.pc) == [] && SettledBy(a) == [] && WireBy(a) == []
    ensures settled + SettledBy(a) + (refused + RefusedBy(a)) + InFlight(Move(cfg, s, a).pc) == wire + WireBy(a)
  {
    TranscriptStep(cfg, s, a);
    var flight' := InFlight(Move(cfg, s, a).pc);
    if refused == [] {
      assert settled + InFlight(s.w.pc) == wire;
      Forward(settled, InFlight(s.w.pc), wire, WireBy(a), SettledBy(a) + RefusedBy(a), flight');
      assert refused + RefusedBy(a) == RefusedBy(a);
      assert settled + SettledBy(a) + RefusedBy(a) == settled + (SettledBy(a) + RefusedBy(a));
    } else {
      assert RefusedBy(a) + flight' == [];
    }
  }

  // ----- the retained buffer -----

  /** The receipt buffer against what was settled, drained and displaced. */
  ghost predicate Stored(cfg: Config, ev: Evidence, displaced: nat) {
    && |ev.receipts| <= cfg.receiptCapacity
    && ev.receiptDropped == displaced
    && (cfg.receiptOverflow == Fail ==> displaced == 0)
  }

  lemma StoreStep(cfg: Config, s: State, a: Act, displaced: nat)
    requires Enabled(cfg, s, a) && Stored(cfg, s.evidence, displaced)
    ensures Stored(cfg, MoveEvidence(cfg, s.evidence, a), displaced + |DisplacedBy(a)|)
    ensures cfg.receiptCapacity > 0 ==>
              s.evidence.receipts + SettledBy(a) == LeftBy(a) + MoveEvidence(cfg, s.evidence, a).receipts
    ensures cfg.receiptCapacity == 0 ==> LeftBy(a) == []
  {
  }

  /** Under either policy, and whenever the consumer drains: the receipts that left the buffer,
      drained or displaced, followed by those in it, are the settled ones in order. With capacity
      zero nothing is ever retained, drained or displaced. */
  lemma {:induction false} SettledAreAccountedFor(cfg: Config, log: seq<Act>, s: State)
    requires Run(cfg, log, s)
    ensures Stored(cfg, s.evidence, |Collect(log, DisplacedBy)|)
    ensures cfg.receiptCapacity > 0 ==> Collect(log, LeftBy) + s.evidence.receipts == Collect(log, SettledBy)
    ensures cfg.receiptCapacity == 0 ==> Collect(log, LeftBy) == [] && s.evidence.receipts == []
    ensures |Collect(log, LeftBy)| == |Collect(log, DrainedBy)| + |Collect(log, DisplacedBy)|
    ensures cfg.receiptOverflow == Fail ==> Collect(log, LeftBy) == Collect(log, DrainedBy)
  {
    if log != [] {
      var p := Before(cfg, log);
      var front, a := Front(log), Last(log);
      SettledAreAccountedFor(cfg, front, p);
      StoreStep(cfg, p, a, |Collect(front, DisplacedBy)|);
      assert |LeftBy(a)| == |DrainedBy(a)| + |DisplacedBy(a)|;
      assert DisplacedBy(a) == [] ==> LeftBy(a) == DrainedBy(a);
      if cfg.receiptCapacity > 0 {
        Forward(Collect(front, LeftBy), p.evidence.receipts, Collect(front, SettledBy), SettledBy(a), LeftBy(a),
            s.evidence.receipts);
      }
    }
  }

  /** The receipts that have settled and not left. */
  ghost function Held(log: seq<Act>): int {
    |Collect(log, SettledBy)| - |Collect(log, LeftBy)|
  }

  /** What the buffer does with a receipt, by the capacity, the policy and what it holds: nothing is
      retained with capacity zero; below the capacity every receipt is kept; at the capacity the oldest
      one is displaced under drop_oldest, and the new one rejected under fail. */
  lemma AdmissionIff(cfg: Config, log: seq<Act>, s: State, i: nat)
    requires Run(cfg, log, s) && i < |log| && log[i].Admitted?
    ensures log[i].how.Unretained? <==> cfg.receiptCapacity == 0
    ensures log[i].how.Kept? <==> cfg.receiptCapacity > 0 && Held(log[..i]) < cfg.receiptCapacity
    ensures log[i].how.Displaced? <==>
              cfg.receiptCapacity > 0 && Held(log[..i]) == cfg.receiptCapacity && cfg.receiptOverflow == DropOldest
    ensures log[i].how.Rejected? <==>
              cfg.receiptCapacity > 0 && Held(log[..i]) == cfg.receiptCapacity && cfg.receiptOverflow == Fail
  {
    PrefixIsRun(cfg, log, i + 1);
    assert Front(log[..i + 1]) == log[..i] && Last(log[..i + 1]) == log[i];
    var p := Before(cfg, log[..i + 1]);
    SettledAreAccountedFor(cfg, log[..i], p);
  }

  /** The receipts that the observer refused. */
  function RefusedByObserver(a: Act): seq<Receipt> {
    match a
    case Observed(r, ok) => if ok then [] else [r]
    case _ => []
  }

  /** Under drop_oldest a full buffer never ends the stream: every refusal is the observer's. */
  lemma {:induction false} DropOldestNeverRefuses(cfg: Config, log: seq<Act>, s: State)
    requires Run(cfg, log, s) && cfg.receiptOverflow == DropOldest
    ensures Collect(log, RefusedBy) == Collect(log, RefusedByObserver)
    ensures s.w.error.Some? && s.w.error.value.Terminal? ==> s.w.error.value.reason != ReceiptOverflow
  {
    if log != [] {
      DropOldestNeverRefuses(cfg, Front(log), Before(cfg, log));
      assert Front(log) == log[..|log| - 1] && Last(log) == log[|log| - 1];
      if Last(log).Admitted? {
        AdmissionIff(cfg, log, s, |log| - 1);
      }
      NoReceiptOverflow(cfg, log, s);
    }
  }

  lemma NoReceiptOverflow(cfg: Config, log: seq<Act>, s: State)
    requires Run(cfg, log, s) && cfg.receiptOverflow == DropOldest
    ensures s.w.error.Some? && s.w.error.value.Terminal? ==> s.w.error.value.reason != ReceiptOverflow
  {
    FatalErrorsAreCaused(cfg, log, s);
    EndedHolds(cfg, log, s);
    if s.w.error.Some? && s.w.error.value.Terminal? && s.w.error.value.reason == ReceiptOverflow {
      var i :| 0 <= i < |log| && Causes(log[i], ReceiptOverflow, s.w.error.value.receipts);
      AdmissionIff(cfg, log, s, i);
    }
  }

  lemma LastIsInErr(s: State, refused: seq<Receipt>, cancelSeen: bool)
    requires Done(s.w.pc) && Refusing(s.w, refused, cancelSeen)
    ensures InFlight(s.w.pc) == [] && |refused| <= 1
    ensures refused != [] && !cancelSeen ==>
              s.w.error == Some(Terminal(ReceiptOverflow, refused)) ||
                  s.w.error == Some(Terminal(ObserverFailed, refused))
  {
  }

  /** Fail-closed retention loses nothing silently. With a positive capacity and `fail`, the
      concatenated drains followed by the retained receipts are the complete wire transcript, except
      possibly for its last frame. When the worker has stopped, that frame was refused by the full
      buffer or by the observer, and Err carries it unless the context was found cancelled. */
  lemma FailClosedTranscriptIsComplete(cfg: Config, log: seq<Act>, s: State)
    requires Run(cfg, log, s) && cfg.receiptCapacity > 0 && cfg.receiptOverflow == Fail && Done(s.w.pc)
    ensures var refused := Collect(log, RefusedBy);
            && Collect(log, DrainedBy) + s.evidence.receipts + refused == Collect(log, WireBy)
            && |refused| <= 1
            && (refused != [] && !Ever(log, FindsCancelled) ==>
                  s.w.error == Some(Terminal(ReceiptOverflow, refused)) ||
                      s.w.error == Some(Terminal(ObserverFailed, refused)))
  {
    WireIsSettled(cfg, log, s);
    SettledAreAccountedFor(cfg, log, s);
    LastIsInErr(s, Collect(log, RefusedBy), Ever(log, FindsCancelled));
  }
}
