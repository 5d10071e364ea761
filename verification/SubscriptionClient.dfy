/** The worker itself: `run`, `serve`, `enqueue` and `writeJSON`, over a Stream whose log shows that
    whatever they do is a run of the transition system. */
module SubscriptionClient {
  import opened Wrappers
  import opened SubscriptionTypes
  import opened SubscriptionWorker
  import opened QueueLedger
  import opened TerminalOutcome
  import opened GapLedger
  import opened SubscriptionStream
  import Backoff

  /** Nothing that `run` itself keeps has changed. */
  ghost predicate SameLoop(w: Control, w': Control) {
    w'.attempts == w.attempts && w'.epoch == w.epoch && w'.connection == w.connection && w'.error == w.error
  }

  /** Nor have the local variables of `serve`. */
  ghost predicate SameServe(w: Control, w': Control) {
    SameLoop(w, w') && w'.acked == w.acked && w'.firstData == w.firstData
  }

  class Client {
    const cfg: Config
    const policy: Backoff.PolicyOf

    constructor (cfg: Config, policy: Backoff.PolicyOf)
      ensures this.cfg == cfg && this.policy == policy
    {
      this.cfg, this.policy := cfg, policy;
    }

    /** The first select of `enqueue`: a send that does not wait. */
    method TrySend(s: Stream, ev: Event) returns (ok: bool)
      requires s.Valid() && s.cfg == cfg && s.Now().w.pc == Offering(ev)
      modifies s, s.receipts, s.receipts.data
      ensures s.Valid() && s.receipts.data == old(s.receipts.data) && s.gaps.data == old(s.gaps.data)
      ensures old(s.log) <= s.log && old(s.handed) <= s.handed && |s.script| <= |old(s.script)|
      ensures s.Now().w == AfterOffer(cfg, old(s.Now()).w, ev, ok)
    {
      var _ := s.Pause();
      ok := s.OfferEvent(ev);
    }

    /** The second select: evicts the oldest buffered event, if the consumer has left one. */
    method TryDrop(s: Stream, ev: Event) returns (out: Option<Event>)
      requires s.Valid() && s.cfg == cfg && s.Now().w.pc == Evicting(ev)
      modifies s, s.receipts, s.receipts.data
      ensures s.Valid() && s.receipts.data == old(s.receipts.data) && s.gaps.data == old(s.gaps.data)
      ensures old(s.log) <= s.log && old(s.handed) <= s.handed && |s.script| <= |old(s.script)|
      ensures s.Now().w == old(s.Now()).w.(pc := if out.None? then Resending(ev) else Counting(ev))
    {
      var _ := s.Pause();
      out := s.EvictEvent(ev);
    }

    method CountDrop(s: Stream, ev: Event)
      requires s.Valid() && s.cfg == cfg && s.Now().w.pc == Counting(ev)
      modifies s, s.receipts, s.receipts.data
      ensures s.Valid() && s.receipts.data == old(s.receipts.data) && s.gaps.data == old(s.gaps.data)
      ensures old(s.log) <= s.log && old(s.handed) <= s.handed && |s.script| <= |old(s.script)|
      ensures s.Now().w == old(s.Now()).w.(pc := Resending(ev))
    {
      var _ := s.Pause();
      s.CountEviction(ev);
    }

    /** The third select: sends, or gives up if the context is done. There is always room. */
    method SendOrDone(s: Stream, ev: Event) returns (e: ServeError)
      requires s.Valid() && s.cfg == cfg && s.Now().w.pc == Resending(ev)
      modifies s, s.receipts, s.receipts.data
      ensures s.Valid() && s.receipts.data == old(s.receipts.data) && s.gaps.data == old(s.gaps.data)
      ensures old(s.log) <= s.log && old(s.handed) <= s.handed && |s.script| <= |old(s.script)|
      ensures e == if s.cancelled && NextTurn(old(s.script)).preferDone then Broken else NoError
      ensures s.Now().w == old(s.Now()).w.(pc :=
                if e.NoError? then AfterEnqueue(ev) else Returned(false, old(s.Now()).w.acked, e))
    {
      var t := s.Pause();
      if s.cancelled && t.preferDone {
        s.Record(SendAborted);
        return Broken;
      }
      s.SendEvent(ev);
      return NoError;
    }

    /** Writes to the bounded event channel, applying the overflow policy. */
    method Enqueue(s: Stream, ev: Event) returns (e: ServeError)
      requires s.Valid() && s.cfg == cfg && s.Now().w.pc == Offering(ev)
      modifies s.Repr()
      ensures s.Valid() && fresh(s.Repr() - old(s.Repr())) && old(s.log) <= s.log && old(s.handed) <= s.handed
      ensures |s.script| <= |old(s.script)|
      ensures s.Now().w == old(s.Now()).w.(pc :=
                if e.NoError? then AfterEnqueue(ev) else Returned(false, old(s.Now()).w.acked, e))
    {
      var ok := TrySend(s, ev);
      if ok {
        return NoError;
      }
      match cfg.overflow
      case Fail =>
        s.AddGapNext(Gap(GapOverflowFail, ev.delivery.epoch, ev.delivery.sequence));
        return Fatal(QueueOverflow, [ev.receipt]);
      case DropOldest =>
        var out := TryDrop(s, ev);
        if out.Some? {
          CountDrop(s, ev);
        }
        e := SendOrDone(s, ev);
    }

    /** Writes one frame, and observes its receipt. */
    method WriteJSON(s: Stream, m: Outbound, epoch: nat) returns (e: ServeError)
      requires s.Valid() && s.cfg == cfg && s.Now().w.pc == Writing(m) && s.Now().w.epoch == epoch
      modifies s.Repr()
      ensures s.Valid() && fresh(s.Repr() - old(s.Repr())) && old(s.log) <= s.log && old(s.handed) <= s.handed
      ensures |s.script| <= |old(s.script)|
      ensures s.Now().w == old(s.Now()).w.(pc :=
                if e.NoError? then Reading else Returned(false, old(s.Now()).w.acked, e))
      ensures e == Broken <==> !NextTurn(old(s.script)).writeOk
    {
      var t := s.Pause();
      s.TryWrite(m, epoch, t.writeOk);
      if !t.writeOk {
        return Broken;
      }
      e := s.ObserveReceipt(Outgoing(m), epoch, 0);
    }

    // ----- serve -----

    /** `conn.Read`, and the delivery of a frame that arrives. */
    method ReadFrame(s: Stream, epoch: nat) returns (f: Option<Frame>, d: Delivery)
      requires s.Valid() && s.cfg == cfg && s.Now().w.pc.Reading? && s.Now().w.epoch == epoch
      modifies s, s.receipts, s.receipts.data
      ensures s.Valid() && s.receipts.data == old(s.receipts.data) && s.gaps.data == old(s.gaps.data)
      ensures old(s.log) <= s.log && old(s.handed) <= s.handed
      ensures if f.Some? then |s.script| < |old(s.script)| else |s.script| <= |old(s.script)|
      ensures SameServe(old(s.Now()).w, s.Now().w) && f == NextTurn(old(s.script)).frame
      ensures if f.None? then s.Now().w.pc == Returned(false, old(s.Now()).w.acked, Broken)
              else d == Delivery(epoch, old(s.Now()).w.sequence + 1, false) && s.Now().w.sequence == d.sequence
                   && s.Now().w.pc == Observing(Incoming(f.value), d.sequence, Dispatch(f.value, d))
    {
      var t := s.Pause();
      f := t.frame;
      match f
      case None =>
        s.LoseRead();
        d := Delivery(0, 0, false);
      case Some(frame) =>
        d := s.NextDelivery(epoch, frame);
    }

    /** `conn.Read`, the delivery, and the receipt of the frame that arrived. */
    method NextFrame(s: Stream, epoch: nat) returns (f: Option<Frame>, d: Delivery, e: ServeError)
      requires s.Valid() && s.cfg == cfg && s.Now().w.pc.Reading? && s.Now().w.epoch == epoch
      modifies s.Repr()
      ensures s.Valid() && fresh(s.Repr() - old(s.Repr())) && old(s.log) <= s.log && old(s.handed) <= s.handed
      ensures if f.Some? then |s.script| < |old(s.script)| else |s.script| <= |old(s.script)|
      ensures SameServe(old(s.Now()).w, s.Now().w)
      ensures s.Now().w.pc == if f.Some? then Handling(f.value, d) else Returned(false, old(s.Now()).w.acked, e)
    {
      f, d := ReadFrame(s, epoch);
      if f.None? {
        return None, d, Broken;
      }
      ghost var w := s.Now().w;
      assert Resume(w.pc.next) == Handling(f.value, d) && SameServe(old(s.Now()).w, w);
      e := s.ObserveReceipt(Incoming(f.value), epoch, d.sequence);
      assert s.Now().w == w.(pc := if e.NoError? then Handling(f.value, d) else Returned(false, w.acked, e));
      if e != NoError {
        return None, d, e;
      }
    }

    /** Reaches the switch on the type of a received frame. */
    method Classify(s: Stream, f: Frame, d: Delivery, epoch: nat)
      requires s.Valid() && s.cfg == cfg && s.Now().w.pc == Handling(f, d) && s.Now().w.epoch == epoch
      modifies s, s.receipts, s.receipts.data
      ensures s.Valid() && s.receipts.data == old(s.receipts.data) && s.gaps.data == old(s.gaps.data)
      ensures old(s.log) <= s.log && old(s.handed) <= s.handed && |s.script| <= |old(s.script)|
      ensures s.Now().w == AfterHandle(old(s.Now()).w, f, d)
    {
      var _ := s.Pause();
      s.Switch(f, d, epoch);
    }

    /** A complete frame. */
    method HandleComplete(s: Stream, f: Frame, d: Delivery, epoch: nat, acknowledged: bool, firstData: bool)
      returns (done: bool, finished: bool, acked: bool, e: ServeError, acknowledged': bool, firstData': bool)
      requires s.Valid() && s.cfg == cfg && s.Now().w.pc == Handling(f, d) && f.kind.Complete?
      requires s.Now().w.epoch == epoch && s.Now().w.acked == acknowledged && s.Now().w.firstData == firstData
      modifies s.Repr()
      ensures s.Valid() && fresh(s.Repr() - old(s.Repr()))
      ensures old(s.log) <= s.log && old(s.handed) <= s.handed && |s.script| <= |old(s.script)|
      ensures SameLoop(old(s.Now()).w, s.Now().w)
      ensures done ==> s.Now().w.pc == Returned(finished, acked, e)
      ensures !done ==> s.Now().w.pc.Reading? && s.Now().w.acked == acknowledged' && s.Now().w.firstData == firstData'
    {
      Classify(s, f, d, epoch);
      done, finished, acked := true, false, acknowledged;
      acknowledged', firstData' := acknowledged, firstData;
      if !acknowledged {
        e := Fatal(CompleteBeforeAck, []);
        return;
      }
      e := Enqueue(s, Event(EventComplete, f, d, Incoming(f)));
      if e == NoError {
        finished, acked := true, true;
      }
    }

    /** A data frame. */
    method HandleData(s: Stream, f: Frame, d: Delivery, epoch: nat, acknowledged: bool, firstData: bool)
      returns (done: bool, finished: bool, acked: bool, e: ServeError, acknowledged': bool, firstData': bool)
      requires s.Valid() && s.cfg == cfg && s.Now().w.pc == Handling(f, d) && f.kind.Data?
      requires s.Now().w.epoch == epoch && s.Now().w.acked == acknowledged && s.Now().w.firstData == firstData
      modifies s.Repr()
      ensures s.Valid() && fresh(s.Repr() - old(s.Repr()))
      ensures old(s.log) <= s.log && old(s.handed) <= s.handed && |s.script| <= |old(s.script)|
      ensures SameLoop(old(s.Now()).w, s.Now().w)
      ensures done ==> s.Now().w.pc == Returned(finished, acked, e)
      ensures !done ==> s.Now().w.pc.Reading? && s.Now().w.acked == acknowledged' && s.Now().w.firstData == firstData'
    {
      Classify(s, f, d, epoch);
      done, finished, acked := true, false, acknowledged;
      acknowledged', firstData' := acknowledged, firstData;
      if !acknowledged {
        e := Fatal(DataBeforeAck, []);
        return;
      }
      firstData' := false;
      e := Enqueue(s, Event(EventData, f, d.(reconnectGap := firstData), Incoming(f)));
      done := e != NoError;
    }

    /** An acknowledgement. */
    method HandleAck(s: Stream, f: Frame, d: Delivery, epoch: nat, acknowledged: bool, firstData: bool)
      returns (done: bool, finished: bool, acked: bool, e: ServeError, acknowledged': bool, firstData': bool)
      requires s.Valid() && s.cfg == cfg && s.Now().w.pc == Handling(f, d) && f.kind.Ack?
      requires s.Now().w.epoch == epoch && s.Now().w.acked == acknowledged && s.Now().w.firstData == firstData
      modifies s.Repr()
      ensures s.Valid() && fresh(s.Repr() - old(s.Repr()))
      ensures old(s.log) <= s.log && old(s.handed) <= s.handed && |s.script| <= |old(s.script)|
      ensures SameLoop(old(s.Now()).w, s.Now().w)
      ensures done ==> s.Now().w.pc == Returned(finished, acked, e)
      ensures !done ==> s.Now().w.pc.Reading? && s.Now().w.acked == acknowledged' && s.Now().w.firstData == firstData'
    {
      Classify(s, f, d, epoch);
      done, finished, acked := true, false, true;
      acknowledged', firstData' := acknowledged, firstData;
      if acknowledged {
        e := Fatal(DuplicateAck, []);
        return;
      }
      acknowledged' := true;
      e := WriteJSON(s, Subscribe, epoch);
      done := e != NoError;
    }

    /** The other cases. */
    method HandleControl(s: Stream, f: Frame, d: Delivery, epoch: nat, acknowledged: bool, firstData: bool)
      returns (done: bool, finished: bool, acked: bool, e: ServeError, acknowledged': bool, firstData': bool)
      requires s.Valid() && s.cfg == cfg && s.Now().w.pc == Handling(f, d) && !f.kind.Ack? && !f.kind.Complete?
      requires !f.kind.Data?
      requires s.Now().w.epoch == epoch && s.Now().w.acked == acknowledged && s.Now().w.firstData == firstData
      modifies s.Repr()
      ensures s.Valid() && fresh(s.Repr() - old(s.Repr()))
      ensures old(s.log) <= s.log && old(s.handed) <= s.handed && |s.script| <= |old(s.script)|
      ensures SameLoop(old(s.Now()).w, s.Now().w)
      ensures done ==> s.Now().w.pc == Returned(finished, acked, e)
      ensures !done ==> s.Now().w.pc.Reading? && s.Now().w.acked == acknowledged' && s.Now().w.firstData == firstData'
    {
      Classify(s, f, d, epoch);
      done, finished, acked, e := true, false, acknowledged, NoError;
      acknowledged', firstData' := acknowledged, firstData;
      match f.kind
      case Ping =>
        e := WriteJSON(s, Pong, epoch);
        done := e != NoError;
      case Keepalive =>
        e := Enqueue(s, Event(EventKeepalive, f, d, Incoming(f)));
        done := e != NoError;
      case Failure =>
        e := Fatal(ServerError, []);
      case Other =>
        done := false;
      case Unparseable =>
        done := false;
    }

    /** The switch on the type of a received frame. `done` says that `serve` returns with the first
        three results; otherwise the last two are its updated local variables. */
    method Handle(s: Stream, f: Frame, d: Delivery, epoch: nat, acknowledged: bool, firstData: bool)
      returns (done: bool, finished: bool, acked: bool, e: ServeError, acknowledged': bool, firstData': bool)
      requires s.Valid() && s.cfg == cfg && s.Now().w.pc == Handling(f, d)
      requires s.Now().w.epoch == epoch && s.Now().w.acked == acknowledged && s.Now().w.firstData == firstData
      modifies s.Repr()
      ensures s.Valid() && fresh(s.Repr() - old(s.Repr()))
      ensures old(s.log) <= s.log && old(s.handed) <= s.handed && |s.script| <= |old(s.script)|
      ensures SameLoop(old(s.Now()).w, s.Now().w)
      ensures done ==> s.Now().w.pc == Returned(finished, acked, e)
      ensures !done ==> s.Now().w.pc.Reading? && s.Now().w.acked == acknowledged' && s.Now().w.firstData == firstData'
    {
      match f.kind
      case Ack =>
        done, finished, acked, e, acknowledged', firstData' := HandleAck(s, f, d, epoch, acknowledged, firstData);
      case Complete =>
        done, finished, acked, e, acknowledged', firstData' := HandleComplete(s, f, d, epoch, acknowledged, firstData);
      case Data =>
        done, finished, acked, e, acknowledged', firstData' := HandleData(s, f, d, epoch, acknowledged, firstData);
      case _ =>
        done, finished, acked, e, acknowledged', firstData' := HandleControl(s, f, d, epoch, acknowledged, firstData);
    }

    /** One turn of the frame loop. */
    method OneFrame(s: Stream, epoch: nat, acknowledged: bool, firstData: bool)
      returns (done: bool, finished: bool, acked: bool, e: ServeError, acknowledged': bool, firstData': bool)
      requires s.Valid() && s.cfg == cfg && s.Now().w.pc.Reading?
      requires s.Now().w.epoch == epoch && s.Now().w.acked == acknowledged && s.Now().w.firstData == firstData
      modifies s.Repr()
      ensures s.Valid() && fresh(s.Repr() - old(s.Repr())) && old(s.log) <= s.log && old(s.handed) <= s.handed
      ensures if done then |s.script| <= |old(s.script)| else |s.script| < |old(s.script)|
      ensures SameLoop(old(s.Now()).w, s.Now().w)
      ensures done ==> s.Now().w.pc == Returned(finished, acked, e)
      ensures !done ==> s.Now().w.pc.Reading? && s.Now().w.acked == acknowledged' && s.Now().w.firstData == firstData'
    {
      var f, d;
      f, d, e := NextFrame(s, epoch);
      if f.None? {
        return true, false, acknowledged, e, acknowledged, firstData;
      }
      done, finished, acked, e, acknowledged', firstData' := Handle(s, f.value, d, epoch, acknowledged, firstData);
    }

    /** Runs one connection: the first write of the handshake, then the frame loop. */
    method Serve(s: Stream, epoch: nat) returns (finished: bool, acked: bool, e: ServeError)
      requires s.Valid() && s.cfg == cfg && s.Now().w.pc == Writing(Init)
      requires s.Now().w.epoch == epoch && !s.Now().w.acked && (s.Now().w.firstData <==> epoch > 1)
      modifies s.Repr()
      ensures s.Valid() && fresh(s.Repr() - old(s.Repr())) && old(s.log) <= s.log && old(s.handed) <= s.handed
      ensures |s.script| <= |old(s.script)|
      ensures SameLoop(old(s.Now()).w, s.Now().w)
      ensures s.Now().w.pc == Returned(finished, acked, e)
    {
      e := WriteJSON(s, Init, epoch);
      if e != NoError {
        return false, false, e;
      }
      var acknowledged, firstData := false, epoch > 1;
      while true
        invariant s.Valid() && fresh(s.Repr() - old(s.Repr())) && old(s.log) <= s.log
        invariant old(s.handed) <= s.handed && |s.script| <= |old(s.script)|
        invariant SameLoop(old(s.Now()).w, s.Now().w)
        invariant s.Now().w.pc.Reading? && s.Now().w.acked == acknowledged && s.Now().w.firstData == firstData
        decreases |s.script|
      {
        var done;
        done, finished, acked, e, acknowledged, firstData := OneFrame(s, epoch, acknowledged, firstData);
        if done {
          return;
        }
      }
    }

    // ----- run -----

    /** `ctx.Err() != nil`, and whatever happens just before it is read. */
    method Check(s: Stream) returns (done: bool)
      requires s.Valid() && s.cfg == cfg && (s.Now().w.pc.Top? || s.Now().w.pc.DialFailed? || s.Now().w.pc.Judging?)
      modifies s, s.receipts, s.receipts.data
      ensures s.Valid() && s.receipts.data == old(s.receipts.data) && s.gaps.data == old(s.gaps.data)
      ensures old(s.log) <= s.log && old(s.handed) <= s.handed
      ensures |s.script| <= |old(s.script)| && (!done ==> |s.script| < |old(s.script)|)
      ensures s.Now().w == AfterCheck(cfg, old(s.Now()).w, done)
    {
      var _ := s.Pause();
      done := s.Check();
    }

    /** `sleep(ctx, policy.Delay(n, 0))` */
    method Sleep(s: Stream, n: nat) returns (ok: bool, pause: int)
      requires s.Valid() && s.cfg == cfg && s.Now().w.pc == Sleeping(n)
      modifies s, s.receipts, s.receipts.data
      ensures s.Valid() && s.receipts.data == old(s.receipts.data) && s.gaps.data == old(s.gaps.data)
      ensures old(s.log) <= s.log && old(s.handed) <= s.handed && |s.script| <= |old(s.script)|
      ensures s.Now().w == old(s.Now()).w.(pc := if ok then Top else Exiting)
      ensures ok == NextTurn(old(s.script)).sleepOk
      ensures pause == Backoff.DelayOf(policy, n, 0, NextTurn(old(s.script)).draw)
    {
      var t := s.Pause();
      pause := Backoff.Delay(policy, n, 0, t.draw);
      ok := t.sleepOk;
      s.Wake(n, ok);
    }

    method Fail(s: Stream, x: StreamError)
      requires s.Valid() && s.cfg == cfg && s.Now().w.pc == Failing(x)
      modifies s, s.receipts, s.receipts.data
      ensures s.Valid() && s.receipts.data == old(s.receipts.data) && s.gaps.data == old(s.gaps.data)
      ensures old(s.log) <= s.log && old(s.handed) <= s.handed && |s.script| <= |old(s.script)|
      ensures s.Now().w == old(s.Now()).w.(error := Some(x), pc := Exiting)
    {
      var _ := s.Pause();
      s.SetErr(x);
    }

    /** Calls the dialer, and installs the connection that it returns. */
    method Connect(s: Stream, epoch: nat) returns (ok: bool)
      requires s.Valid() && s.cfg == cfg && s.Now().w.pc.Dialing? && s.Now().w.epoch == epoch
      modifies s, s.receipts, s.receipts.data
      ensures s.Valid() && s.receipts.data == old(s.receipts.data) && s.gaps.data == old(s.gaps.data)
      ensures old(s.log) <= s.log && old(s.handed) <= s.handed && |s.script| <= |old(s.script)|
      ensures s.Now().w == AfterDial(old(s.Now()).w, ok) && ok == NextTurn(old(s.script)).dialOk
    {
      var t := s.Pause();
      ok := t.dialOk;
      if ok {
        s.SetConn(Some(epoch + 1), Dialed(true));
      } else {
        s.LoseDial();
      }
    }

    /** Dials, and on success records the reconnect. */
    method Dial(s: Stream, epoch: nat) returns (ok: bool, epoch': nat)
      requires s.Valid() && s.cfg == cfg && s.Now().w.pc.Dialing? && s.Now().w.epoch == epoch
      modifies s.Repr()
      ensures s.Valid() && fresh(s.Repr() - old(s.Repr())) && old(s.log) <= s.log && old(s.handed) <= s.handed
      ensures |s.script| <= |old(s.script)|
      ensures ok == NextTurn(old(s.script)).dialOk
      ensures s.Now().w.attempts == old(s.Now()).w.attempts && s.Now().w.epoch == epoch'
      ensures if ok then epoch' == epoch + 1 && s.Now().w.pc == Writing(Init) && s.Now().w.connection == Some(epoch')
                         && !s.Now().w.acked && (s.Now().w.firstData <==> epoch' > 1)
              else epoch' == epoch && s.Now().w.pc == DialFailed
    {
      ok := Connect(s, epoch);
      epoch' := epoch;
      if ok {
        epoch' := epoch + 1;
        if epoch' > 1 {
          s.AddGapNext(Gap(GapReconnect, epoch', 0));
        }
      }
    }

    /** One more failure in a row: gives up with `x` or sleeps. */
    method Retry(s: Stream, attempts: nat, x: StreamError) returns (again: bool, attempts': nat)
      requires s.Valid() && s.cfg == cfg
      requires if attempts >= cfg.maxReconnects then s.Now().w.pc == Failing(x)
               else s.Now().w.pc == Sleeping(attempts + 1) && s.Now().w.attempts == attempts + 1
      modifies s, s.receipts, s.receipts.data
      ensures s.Valid() && s.receipts.data == old(s.receipts.data) && s.gaps.data == old(s.gaps.data)
      ensures old(s.log) <= s.log && old(s.handed) <= s.handed && |s.script| <= |old(s.script)|
      ensures s.Now().w.epoch == old(s.Now()).w.epoch
      ensures if again then s.Now().w.pc.Top? && s.Now().w.attempts == attempts' else s.Now().w.pc.Exiting?
    {
      if attempts >= cfg.maxReconnects {
        Fail(s, x);
        return false, attempts;
      }
      attempts' := attempts + 1;
      var pause;
      again, pause := Sleep(s, attempts');
    }

    /** After a dial that failed. */
    method Redial(s: Stream, attempts: nat) returns (again: bool, attempts': nat)
      requires s.Valid() && s.cfg == cfg && s.Now().w.pc.DialFailed? && s.Now().w.attempts == attempts
      modifies s, s.receipts, s.receipts.data
      ensures s.Valid() && s.receipts.data == old(s.receipts.data) && s.gaps.data == old(s.gaps.data)
      ensures old(s.log) <= s.log && old(s.handed) <= s.handed && |s.script| <= |old(s.script)|
      ensures s.Now().w.epoch == old(s.Now()).w.epoch
      ensures if again then s.Now().w.pc.Top? && s.Now().w.attempts == attempts' else s.Now().w.pc.Exiting?
    {
      var done := Check(s);
      if done {
        return false, attempts;
      }
      again, attempts' := Retry(s, attempts, DialExhausted);
    }

    /** `stream.setConn(nil)` and `conn.Close` */
    method CloseConn(s: Stream, epoch: nat, ghost finished: bool, ghost acked: bool, ghost e: ServeError)
      requires s.Valid() && s.cfg == cfg && s.Now().w.pc == Returned(finished, acked, e)
      requires s.Now().w.connection == Some(epoch)
      modifies s, s.receipts, s.receipts.data
      ensures s.Valid() && s.receipts.data == old(s.receipts.data) && s.gaps.data == old(s.gaps.data)
      ensures old(s.log) <= s.log && old(s.handed) <= s.handed && |s.script| <= |old(s.script)|
      ensures s.Now().w == old(s.Now()).w.(connection := None, pc := Judging(finished, acked, e))
    {
      var _ := s.Pause();
      s.SetConn(None, ConnClosed(epoch));
    }

    /** After `serve` has returned and the connection is closed: decides what comes next. */
    method Judge(s: Stream, attempts: nat, finished: bool, acked: bool, e: ServeError)
      returns (again: bool, attempts': nat)
      requires s.Valid() && s.cfg == cfg && s.Now().w.pc == Judging(finished, acked, e)
      requires s.Now().w.attempts == attempts
      modifies s, s.receipts, s.receipts.data
      ensures s.Valid() && s.receipts.data == old(s.receipts.data) && s.gaps.data == old(s.gaps.data)
      ensures old(s.log) <= s.log && old(s.handed) <= s.handed && |s.script| <= |old(s.script)|
      ensures s.Now().w.epoch == old(s.Now()).w.epoch
      ensures if again then s.Now().w.pc.Top? && s.Now().w.attempts == attempts' else s.Now().w.pc.Exiting?
    {
      attempts' := attempts;
      var done := Check(s);
      if done || finished {
        return false, attempts;
      }
      if e.Fatal? {
        Fail(s, Terminal(e.reason, e.receipts));
        again := false;
      } else if acked {
        attempts' := 0;
        var pause;
        again, pause := Sleep(s, 1);
      } else {
        again, attempts' := Retry(s, attempts, ReconnectExhausted);
      }
    }

    /** The head of the reconnect loop. */
    method Begin(s: Stream) returns (done: bool)
      requires s.Valid() && s.cfg == cfg && s.Now().w.pc.Top?
      modifies s, s.receipts, s.receipts.data
      ensures s.Valid() && s.receipts.data == old(s.receipts.data) && s.gaps.data == old(s.gaps.data)
      ensures old(s.log) <= s.log && old(s.handed) <= s.handed
      ensures |s.script| <= |old(s.script)| && (!done ==> |s.script| < |old(s.script)|)
      ensures s.Now().w == old(s.Now()).w.(pc := if done then Exiting else Dialing)
    {
      done := Check(s);
    }

    /** Serves a new connection to its end. */
    method Session(s: Stream, attempts: nat, epoch: nat) returns (again: bool, attempts': nat)
      requires s.Valid() && s.cfg == cfg && s.Now().w.pc == Writing(Init) && s.Now().w.attempts == attempts
      requires s.Now().w.epoch == epoch && s.Now().w.connection == Some(epoch)
      requires !s.Now().w.acked && (s.Now().w.firstData <==> epoch > 1)
      modifies s.Repr()
      ensures s.Valid() && fresh(s.Repr() - old(s.Repr())) && old(s.log) <= s.log && old(s.handed) <= s.handed
      ensures |s.script| <= |old(s.script)|
      ensures s.Now().w.epoch == epoch
      ensures if again then s.Now().w.pc.Top? && s.Now().w.attempts == attempts' else s.Now().w.pc.Exiting?
    {
      var finished, acked, e := Serve(s, epoch);
      CloseConn(s, epoch, finished, acked, e);
      again, attempts' := Judge(s, attempts, finished, acked, e);
    }

    /** One dial, and what follows from it. */
    method Attempt(s: Stream, attempts: nat, epoch: nat) returns (again: bool, attempts': nat, epoch': nat)
      requires s.Valid() && s.cfg == cfg && s.Now().w.pc.Dialing? && s.Now().w.attempts == attempts
      requires s.Now().w.epoch == epoch
      modifies s.Repr()
      ensures s.Valid() && fresh(s.Repr() - old(s.Repr()))
      ensures old(s.log) <= s.log && old(s.handed) <= s.handed && |s.script| <= |old(s.script)|
      ensures if again then s.Now().w.pc.Top? && s.Now().w.attempts == attempts' && s.Now().w.epoch == epoch'
                else s.Now().w.pc.Exiting?
    {
      var ok;
      ok, epoch' := Dial(s, epoch);
      if ok {
        again, attempts' := Session(s, attempts, epoch');
      } else {
        again, attempts' := Redial(s, attempts);
      }
    }

    /** One turn of the reconnect loop. */
    method Turn(s: Stream, attempts: nat, epoch: nat) returns (again: bool, attempts': nat, epoch': nat)
      requires s.Valid() && s.cfg == cfg && s.Now().w.pc.Top? && s.Now().w.attempts == attempts
      requires s.Now().w.epoch == epoch
      modifies s.Repr()
      ensures s.Valid() && fresh(s.Repr() - old(s.Repr())) && old(s.log) <= s.log && old(s.handed) <= s.handed
      ensures again ==> |s.script| < |old(s.script)|
      ensures if again then s.Now().w.pc.Top? && s.Now().w.attempts == attempts' && s.Now().w.epoch == epoch'
                else s.Now().w.pc.Exiting?
    {
      var done := Begin(s);
      if done {
        return false, attempts, epoch;
      }
      again, attempts', epoch' := Attempt(s, attempts, epoch);
    }

    /** The first two deferred calls of `run`: Wait may return from now on, Events is still open. */
    method ReleaseWaiters(s: Stream)
      requires s.Valid() && s.cfg == cfg && s.Now().w.pc.Exiting?
      modifies s, s.receipts, s.receipts.data
      ensures s.Valid() && s.receipts.data == old(s.receipts.data) && s.gaps.data == old(s.gaps.data)
      ensures old(s.log) <= s.log && old(s.handed) <= s.handed
      ensures s.Now().w.pc.Closing? && s.cancelled && s.done && !s.closed
    {
      var _ := s.Pause();
      s.cancelled := true;
      s.done := true;
      s.Record(Finished);
    }

    /** The deferred calls of `run`, in reverse order: `done` is closed before Events is. */
    method Finish(s: Stream)
      requires s.Valid() && s.cfg == cfg && s.Now().w.pc.Exiting?
      modifies s, s.receipts, s.receipts.data
      ensures s.Valid() && s.receipts.data == old(s.receipts.data) && s.gaps.data == old(s.gaps.data)
      ensures old(s.log) <= s.log && old(s.handed) <= s.handed
      ensures s.Now().w.pc.Stopped? && s.cancelled
    {
      ReleaseWaiters(s);
      var _ := s.Pause();
      s.closed := true;
      s.Record(EventsClosed);
    }

    /** The reconnect loop from its head to the end of the worker. */
    method RunOn(s: Stream, attempts: nat, epoch: nat)
      requires s.Valid() && s.cfg == cfg && s.Now().w.pc.Top? && s.Now().w.attempts == attempts
      requires s.Now().w.epoch == epoch
      modifies s.Repr()
      ensures s.Valid() && fresh(s.Repr() - old(s.Repr())) && s.Now().w.pc.Stopped? && s.cancelled
      ensures old(s.log) <= s.log && old(s.handed) <= s.handed
    {
      var attempts', epoch', again := attempts, epoch, true;
      while again
        invariant s.Valid() && fresh(s.Repr() - old(s.Repr()))
        invariant old(s.log) <= s.log && old(s.handed) <= s.handed
        invariant if again then s.Now().w.pc.Top? && s.Now().w.attempts == attempts' && s.Now().w.epoch == epoch'
                  else s.Now().w.pc.Exiting?
        decreases if again then |s.script| + 1 else 0
      {
        again, attempts', epoch' := Turn(s, attempts', epoch');
      }
      Finish(s);
    }

    /** The worker goroutine, from start to end, in any environment. The consumer has received the
        accepted events without the evicted ones, in order, up to those still buffered; Dropped()
        counts the evicted ones; Err is nil exactly when the stream was completed, or the context
        found cancelled, or a sleep failed; and every slice that the consumer was given, whenever
        that was, still holds what it held. */
    method Run(s: Stream)
      requires s.Valid() && s.cfg == cfg && s.log == []
      modifies s.Repr()
      ensures s.Valid() && fresh(s.Repr() - old(s.Repr())) && s.Now().w.pc.Stopped? && s.cancelled
      ensures SubscriptionWorker.Run(cfg, s.log, s.Now())
      ensures Delivered(s.log) + s.events == Without(Accepted(s.log), EvictedEvents(s.log))
      ensures s.dropped == |EvictedEvents(s.log)|
      ensures s.err == None <==> Ever(s.log, AcceptsComplete) || Ever(s.log, FindsCancelled) || Ever(s.log, SleepFails)
      ensures s.conn == None
      ensures s.gaps.Contents() == Newest(Gaps(s.log), if cfg.receiptCapacity < 1 then 1 else cfg.receiptCapacity)
      ensures old(s.handed) <= s.handed && forall h :: h in s.handed ==> h.Stays()
    {
      RunOn(s, 0, 0);
      ConsumerSeesSurvivors(cfg, s.log, s.Now());
      AcceptedAreAccountedFor(cfg, s.log, s.Now());
      ErrTellsHowTheWorkerEnded(cfg, s.log, s.Now());
      ConnectionsAreClosed(cfg, s.log, s.Now());
      GapBufferIsSlidingWindow(cfg, s.log, s.Now());
    }

    /** A copy of each buffer, and a drain. */
    method HandOut(s: Stream) returns (drained: array<Receipt>, copied: array<Receipt>, listed: array<Gap>)
      requires s.Valid() && s.cfg == cfg
      modifies s, s.receipts, s.receipts.data
      ensures s.Valid() && s.Now().w == old(s.Now()).w && old(s.log) <= s.log
      ensures s.receipts.data == old(s.receipts.data) && s.gaps.data == old(s.gaps.data)
      ensures old(s.handed) <= s.handed && fresh(drained) && fresh(copied) && fresh(listed)
      ensures drained !in s.Repr() && copied !in s.Repr() && listed !in s.Repr()
      ensures drained[..] == copied[..] == old(s.receipts.Contents()) && listed[..] == old(s.gaps.Contents())
    {
      copied := s.Receipts();
      listed := s.Gaps();
      drained := s.DrainReceipts();
    }

    /** What DrainReceipts, Receipts and Gaps hand out belongs to the consumer. Between any two
        connections, take a copy of each buffer and a drain, and let the worker go on to its end in any
        environment, through any number of appends, shifts and clears in place: the slices still hold
        what they held, and so does every slice that is handed out on the way. */
    method SlicesStay(s: Stream, attempts: nat, epoch: nat)
      returns (drained: array<Receipt>, copied: array<Receipt>, listed: array<Gap>)
      requires s.Valid() && s.cfg == cfg && s.Now().w.pc.Top? && s.Now().w.attempts == attempts
      requires s.Now().w.epoch == epoch
      modifies s.Repr()
      ensures drained[..] == copied[..] == old(s.receipts.Contents()) && listed[..] == old(s.gaps.Contents())
      ensures s.Valid() && s.Now().w.pc.Stopped? && old(s.log) <= s.log && old(s.handed) <= s.handed
      ensures forall h :: h in s.handed ==> h.Stays()
    {
      drained, copied, listed := HandOut(s);
      RunOn(s, attempts, epoch);
    }
  }
}
