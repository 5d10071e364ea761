/** The order of the frames that the worker writes and of the events that it accepts, within
    each connection and over the whole run. */
module Handshake {
  import opened Wrappers
  import opened SubscriptionTypes
  import opened SubscriptionWorker
  import opened QueueLedger

  /** The messages written successfully on connection `e`. */
  ghost function WritesIn(log: seq<Act>, e: nat): seq<Outbound> {
    if log == [] then [] else WritesIn(Front(log), e) + WriteOf(Last(log), e)
  }

  function WriteOf(a: Act, e: nat): seq<Outbound> {
    if a.Wrote? && a.ok && a.epoch == e then [a.message] else []
  }

  /** How many acknowledgements the switch of `serve` has seen on connection `e`. */
  ghost function AcksIn(log: seq<Act>, e: nat): nat {
    if log == [] then 0 else AcksIn(Front(log), e) + if IsAck(Last(log), e) then 1 else 0
  }

  predicate IsAck(a: Act, e: nat) {
    a.Handled? && a.epoch == e && a.frame.kind == Ack
  }

  /** `init pong* [subscribe pong*]`, or nothing at all. */
  ghost predicate Handshaken(ws: seq<Outbound>) {
    && (ws != [] ==> ws[0] == Init)
    && (forall i :: 0 < i < |ws| ==> ws[i] != Init)
    && (forall i, j :: 0 <= i < j < |ws| ==> !(ws[i] == Subscribe && ws[j] == Subscribe))
  }

  /** The worker is inside `serve`, past the first write. */
  predicate Serving(pc: Pc) {
    match pc
    case AddingGap(_, next) => next.ReadOn? || next.Dispatch?
    case Writing(m) => m != Init
    case Reading => true
    case Observing(_, _, _) => true
    case Admitting(_, _, _) => true
    case Handling(_, _) => true
    case Offering(_) => true
    case Evicting(_) => true
    case Counting(_) => true
    case Resending(_) => true
    case _ => false
  }

  /** The event that `enqueue` is working on. */
  function InHand(pc: Pc): Option<Event> {
    match pc
    case Offering(ev) => Some(ev)
    case Evicting(ev) => Some(ev)
    case Counting(ev) => Some(ev)
    case Resending(ev) => Some(ev)
    case _ => None
  }

  predicate Starting(pc: Pc) {
    pc == Writing(Init) || (pc.AddingGap? && pc.next.BeginServe?)
  }

  /** Where the worker may be, given whether anything was written on connection `e`. */
  ghost predicate Begun(w: Control, e: nat, begun: bool) {
    && (e > w.epoch ==> !begun)
    && (e == w.epoch ==> (Starting(w.pc) ==> !begun) && (Serving(w.pc) ==> begun))
  }

  /** The same, given how many acknowledgements were handled there. */
  ghost predicate Acknowledged(w: Control, e: nat, acks: nat) {
    && (e > w.epoch ==> acks == 0)
    && (e == w.epoch ==>
          && (Starting(w.pc) ==> !w.acked && acks == 0)
          && (Serving(w.pc) ==> acks == if w.acked then 1 else 0))
  }

  /** The same, given whether the subscription was written there. */
  ghost predicate Subscribed(w: Control, e: nat, subscribed: bool) {
    && (e > w.epoch ==> !subscribed)
    && (e == w.epoch ==>
          && (Starting(w.pc) ==> !subscribed && !w.acked)
          && (Serving(w.pc) ==> (subscribed <==> (w.acked && w.pc != Writing(Subscribe))))
          && (w.pc == Writing(Subscribe) ==> w.acked))
  }

  /** A data or complete event is built on acknowledged connections only. */
  ghost predicate Earned(w: Control) {
    InHand(w.pc).Some? && InHand(w.pc).value.kind != EventKeepalive ==> w.acked
  }

  /** The receipts and gaps of a step through `serve` belong to the right continuation. */
  ghost predicate Shaped(pc: Pc) {
    && (pc.Observing? || pc.Admitting? ==>
          match pc.next
          case ReadOn => pc.receipt.Outgoing?
          case Dispatch(f, d) => pc.receipt == Incoming(f) && pc.sequence == d.sequence
          case _ => false)
  }

  lemma ShapeStep(cfg: Config, s: State, a: Act)
    requires Enabled(cfg, s, a) && Shaped(s.w.pc) && Earned(s.w)
    ensures Shaped(Move(cfg, s, a).pc) && Earned(Move(cfg, s, a))
  {
  }

  lemma BegunStep(cfg: Config, s: State, a: Act, e: nat, begun: bool)
    requires Enabled(cfg, s, a) && Shaped(s.w.pc) && Begun(s.w, e, begun)
    ensures Begun(Move(cfg, s, a), e, begun || WriteOf(a, e) != [])
  {
  }

  lemma AcknowledgedStep(cfg: Config, s: State, a: Act, e: nat, acks: nat)
    requires Enabled(cfg, s, a) && Shaped(s.w.pc) && Acknowledged(s.w, e, acks)
    ensures Acknowledged(Move(cfg, s, a), e, acks + if IsAck(a, e) then 1 else 0)
  {
  }

  lemma SubscribedStep(cfg: Config, s: State, a: Act, e: nat, subscribed: bool)
    requires Enabled(cfg, s, a) && Shaped(s.w.pc) && Subscribed(s.w, e, subscribed)
    ensures Subscribed(Move(cfg, s, a), e, subscribed || WriteOf(a, e) == [Subscribe])
  {
  }

  /** What the worker writes on connection `e` is what the handshake calls for. */
  lemma NextWrite(cfg: Config, s: State, a: Act, e: nat, begun: bool, acks: nat, subscribed: bool)
    requires Enabled(cfg, s, a) && Begun(s.w, e, begun) && Acknowledged(s.w, e, acks) && Subscribed(s.w, e, subscribed)
    ensures WriteOf(a, e) != [] ==> (WriteOf(a, e) == [Init] <==> !begun)
    ensures WriteOf(a, e) == [Subscribe] ==> acks == 1 && !subscribed
  {
  }

  lemma {:induction false} ProtocolHolds(cfg: Config, log: seq<Act>, s: State, e: nat)
    requires Run(cfg, log, s) && 0 < e
    ensures Shaped(s.w.pc) && Earned(s.w)
    ensures Begun(s.w, e, WritesIn(log, e) != []) && Acknowledged(s.w, e, AcksIn(log, e))
    ensures Subscribed(s.w, e, Subscribe in WritesIn(log, e))
  {
    if log != [] {
      var p := Before(cfg, log);
      var ws := WritesIn(Front(log), e);
      ProtocolHolds(cfg, Front(log), p, e);
      ShapeStep(cfg, p, Last(log));
      BegunStep(cfg, p, Last(log), e, ws != []);
      AcknowledgedStep(cfg, p, Last(log), e, AcksIn(Front(log), e));
      SubscribedStep(cfg, p, Last(log), e, Subscribe in ws);
    }
  }

  lemma HandshakeGoesOn(ws: seq<Outbound>, m: Outbound)
    requires Handshaken(ws) && (m == Init <==> ws == []) && (m == Subscribe ==> Subscribe !in ws)
    ensures Handshaken(ws + [m])
  {
  }

  /** On every connection, at every moment: the writes follow `init pong* [subscribe pong*]`, and
      the subscription is written only once exactly one acknowledgement has been handled. */
  lemma {:induction false} WritesFollowHandshake(cfg: Config, log: seq<Act>, s: State, e: nat)
    requires Run(cfg, log, s) && 0 < e
    ensures Handshaken(WritesIn(log, e))
    ensures Subscribe in WritesIn(log, e) ==> AcksIn(log, e) > 0
    ensures log != [] && WriteOf(Last(log), e) == [Subscribe] ==>
              AcksIn(Front(log), e) == 1 && Subscribe !in WritesIn(Front(log), e)
  {
    if log != [] {
      var p := Before(cfg, log);
      var ws := WritesIn(Front(log), e);
      WritesFollowHandshake(cfg, Front(log), p, e);
      ProtocolHolds(cfg, Front(log), p, e);
      NextWrite(cfg, p, Last(log), e, ws != [], AcksIn(Front(log), e), Subscribe in ws);
      if WriteOf(Last(log), e) != [] {
        HandshakeGoesOn(ws, Last(log).message);
      }
    }
  }

  /** Every accepted event other than a keepalive came after the subscription had been written
      successfully on the connection that the event belongs to. */
  lemma EventsFollowSubscription(cfg: Config, log: seq<Act>, s: State, i: nat, ev: Event)
    requires Run(cfg, log, s) && i < |log| && AcceptedBy(log[i]) == [ev] && ev.kind != EventKeepalive
    ensures 0 < ev.delivery.epoch && Subscribe in WritesIn(log[..i], ev.delivery.epoch)
  {
    PrefixIsRun(cfg, log, i);
    PrefixIsRun(cfg, log, i + 1);
    assert Front(log[..i + 1]) == log[..i];
    var p := Before(cfg, log[..i + 1]);
    var e := ev.delivery.epoch;
    StampsHold(cfg, log[..i], p);
    StampStep(cfg, p, log[i], Accepted(log[..i]));
    if e == 0 {
      NotServing(cfg, log[..i], p);
    } else {
      ProtocolHolds(cfg, log[..i], p, e);
    }
  }

  /** Before the first successful dial the worker is outside `serve`. */
  ghost predicate Idle(w: Control) {
    w.epoch == 0 ==> !Serving(w.pc) && !Starting(w.pc) && !w.pc.AddingGap? && w.connection.None?
  }

  lemma IdleStep(cfg: Config, s: State, a: Act)
    requires Enabled(cfg, s, a) && Idle(s.w)
    ensures Idle(Move(cfg, s, a))
  {
  }

  lemma {:induction false} NotServing(cfg: Config, log: seq<Act>, s: State)
    requires Run(cfg, log, s)
    ensures Idle(s.w)
  {
    if log != [] {
      var p := Before(cfg, log);
      NotServing(cfg, Front(log), p);
      IdleStep(cfg, p, Last(log));
    }
  }

  // ----- completion -----

  predicate IsComplete(ev: Event) { ev.kind == EventComplete }

  /** Once a complete event is in, it is the last one, and the worker can only wind up. */
  ghost predicate Closing(w: Control, accepted: seq<Event>, evicted: seq<Event>) {
    && (forall i :: 0 <= i < |accepted| - 1 ==> !IsComplete(accepted[i]))
    && (forall i :: 0 <= i < |evicted| ==> !IsComplete(evicted[i]))
    && (accepted != [] && IsComplete(accepted[|accepted| - 1]) ==>
          match w.pc
          case Returned(finished, _, _) => finished
          case Judging(finished, _, _) => finished
          case Exiting => true
          case Closing => true
          case Stopped => true
          case _ => false)
  }

  lemma ClosingStep(cfg: Config, s: State, a: Act, accepted: seq<Event>, evicted: seq<Event>)
    requires Enabled(cfg, s, a) && Closing(s.w, accepted, evicted)
    requires forall i :: 0 <= i < |s.queue.buffer| ==> s.queue.buffer[i] in accepted
    ensures Closing(Move(cfg, s, a), accepted + AcceptedBy(a), evicted + EvictedBy(a))
  {
  }

  /** An accepted complete event is the last event accepted in the whole run, and never evicted. */
  lemma {:induction false} CompleteIsLast(cfg: Config, log: seq<Act>, s: State)
    requires Run(cfg, log, s)
    ensures Closing(s.w, Accepted(log), EvictedEvents(log))
  {
    if log != [] {
      var p := Before(cfg, log);
      var front := Front(log);
      CompleteIsLast(cfg, front, p);
      FirstInFirstOut(cfg, front, p);
      ClosingStep(cfg, p, Last(log), Accepted(front), EvictedEvents(front));
    }
  }
}
