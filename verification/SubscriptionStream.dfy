/** The Stream object: the state that the worker shares with its consumer. The ghost `log` records
    the acts of both; `Valid` says that it is a run of the transition system and that the fields
    hold what that run leads to. */
module SubscriptionStream {
  import opened Wrappers
  import opened SubscriptionTypes
  import opened SubscriptionWorker
  import opened QueueLedger
  import opened TerminalOutcome
  import opened GoSlice

  /** What the code around the worker may do between two of its steps. */
  datatype ConsumerAct = Receive | DrainAll | CopyReceipts | CopyGaps | CancelContext

  /** The environment at one atomic step of the worker: what the consumer does just before it, and
      how the dialer, the socket, the observer, the sleep or the select would answer. */
  datatype Turn = Turn(
    consumer: seq<ConsumerAct>,
    dialOk: bool,
    frame: Option<Frame>,
    writeOk: bool,
    observerOk: bool,
    sleepOk: bool,
    draw: Option<int -> int>,
    preferDone: bool)

  /** The environment once its script is over: the context is cancelled and nothing succeeds. */
  const SILENCE := Turn([CancelContext], false, None, false, true, false, None, true)

  /** What surrounds the worker's next atomic step. */
  function NextTurn(script: seq<Turn>): Turn {
    if script == [] then SILENCE else script[0]
  }

  /** Only acts of the consumer lie between the two states. */
  ghost predicate Interfered(s: State, s': State) {
    && s'.w == s.w
    && (s.cancelled ==> s'.cancelled)
    && s'.queue.dropped == s.queue.dropped
    && s'.evidence.gaps == s.evidence.gaps
  }

  /** A slice that the consumer was given, and what it held then. */
  datatype Handout =
    | ReceiptSlice(receipts: array<Receipt>, was: seq<Receipt>)
    | GapSlice(gaps: array<Gap>, held: seq<Gap>)
  {
    function Array(): object { if ReceiptSlice? then receipts else gaps }

    /** It still holds that. */
    ghost predicate Stays()
      reads Array()
    {
      match this
      case ReceiptSlice(a, was) => a[..] == was
      case GapSlice(a, held) => a[..] == held
    }
  }

  class Stream {
    const cfg: Config
    var script: seq<Turn>

    var events: seq<Event>
    var cancelled: bool
    var conn: Option<nat>
    var err: Option<StreamError>
    var dropped: nat
    var receiptDropped: nat
    var gapDropped: nat
    const receipts: Slice<Receipt>
    const gaps: Slice<Gap>
    var receiveSequence: nat
    var done: bool
    var closed: bool

    ghost var log: seq<Act>
    ghost var handed: seq<Handout>

    ghost function Repr(): set<object>
      reads this, receipts, gaps
    {
      {this, receipts, receipts.data, gaps, gaps.data}
    }

    ghost predicate Separate()
      reads this, receipts, gaps
    {
      && receipts.Valid() && gaps.Valid()
      && receipts as object != gaps as object && receipts.data as object != gaps.data as object
    }

    /** The arrays of the slices that the consumer was given. */
    ghost function HandedArrays(): set<object>
      reads this`handed
    {
      set h | h in handed :: h.Array()
    }

    /** Every slice that was handed out still holds what it held, and shares no array with the buffers. */
    ghost predicate Untouched()
      reads this`handed, receipts, gaps, HandedArrays()
    {
      forall h :: h in handed ==> h.Array() != receipts.data && h.Array() != gaps.data && h.Stays()
    }

    ghost predicate Valid()
      reads this, receipts, receipts.data, gaps, gaps.data, HandedArrays()
    {
      && Separate()
      && Untouched()
      && Replay(cfg, log).Some?
      && Shows(Replay(cfg, log).value)
    }

    /** The retained receipts and gaps, and their counters. */
    ghost function Ledger(): Evidence
      reads this, receipts, receipts.data, gaps, gaps.data
      requires Separate()
    {
      Evidence(receipts.Contents(), receiptDropped, gaps.Contents(), gapDropped)
    }

    /** The fields hold what the transition system says they hold in `s`. */
    ghost predicate Shows(s: State)
      reads this, receipts, receipts.data, gaps, gaps.data
      requires Separate()
    {
      && s.cancelled == cancelled
      && s.queue == Queue(events, dropped)
      && s.evidence == Ledger()
      && s.w.sequence == receiveSequence
      && s.w.connection == conn
      && s.w.error == err
      && done == Done(s.w.pc)
      && closed == s.w.pc.Stopped?
    }

    /** The state that the log leads to. */
    ghost function Now(): State
      reads this, receipts, receipts.data, gaps, gaps.data, HandedArrays()
      requires Valid()
    {
      Replay(cfg, log).value
    }

    constructor (cfg: Config, script: seq<Turn>)
      ensures Valid() && fresh(Repr()) && log == [] && handed == [] && this.cfg == cfg && this.script == script
    {
      this.cfg := cfg;
      this.script := script;
      events, cancelled, conn, err := [], false, None, None;
      dropped, receiptDropped, gapDropped, receiveSequence := 0, 0, 0, 0;
      done, closed := false, false;
      receipts := new Slice<Receipt>();
      gaps := new Slice<Gap>();
      log, handed := [], [];
    }

    /** Appends an enabled act whose effect the fields already show. */
    ghost method Record(a: Act)
      requires Separate() && Untouched() && Replay(cfg, log).Some? && Enabled(cfg, Replay(cfg, log).value, a)
      requires Shows(Step(cfg, Replay(cfg, log).value, a))
      modifies this`log
      ensures Valid() && log == old(log) + [a]
      ensures Now() == Step(cfg, old(Replay(cfg, log).value), a)
    {
      assert Front(log + [a]) == log && Last(log + [a]) == a;
      log := log + [a];
    }

    // ----- the consumer -----

    /** A receive from Events that does not wait. */
    method Receive() returns (ev: Option<Event>)
      requires Valid()
      modifies this
      ensures Valid() && script == old(script) && handed == old(handed)
      ensures ev.None? <==> old(events) == []
      ensures ev.None? ==> events == [] && log == old(log)
      ensures ev.Some? ==> [ev.value] + events == old(events) && log == old(log) + [Received(ev.value)]
      ensures Interfered(old(Now()), Now())
    {
      if events == [] {
        return None;
      }
      ev := Some(events[0]);
      events := events[1..];
      Record(Received(ev.value));
    }

    /** Returns the retained receipts in an array of its own, and clears the buffer. */
    method DrainReceipts() returns (out: array<Receipt>)
      requires Valid()
      modifies this, receipts, receipts.data
      ensures Valid() && script == old(script)
      ensures fresh(out) && out[..] == old(receipts.Contents()) && receipts.Contents() == []
      ensures log == old(log) + [Drained(out[..])] && handed == old(handed) + [ReceiptSlice(out, out[..])]
      ensures Interfered(old(Now()), Now()) && receipts.data == old(receipts.data)
    {
      out := receipts.Copy();
      receipts.Clear(Outgoing(Init));
      handed := handed + [ReceiptSlice(out, out[..])];
      Record(Drained(out[..]));
    }

    method Cancel()
      requires Valid()
      modifies this
      ensures Valid() && cancelled && script == old(script) && log == old(log) + [Cancelled] && handed == old(handed)
      ensures Interfered(old(Now()), Now())
    {
      cancelled := true;
      Record(Cancelled);
    }

    /** Copies of the current buffers. */
    method Receipts() returns (out: array<Receipt>)
      requires Valid()
      modifies this`handed
      ensures Valid() && Now() == old(Now())
      ensures fresh(out) && out[..] == receipts.Contents() && handed == old(handed) + [ReceiptSlice(out, out[..])]
    {
      out := receipts.Copy();
      handed := handed + [ReceiptSlice(out, out[..])];
    }

    method Gaps() returns (out: array<Gap>)
      requires Valid()
      modifies this`handed
      ensures Valid() && Now() == old(Now())
      ensures fresh(out) && out[..] == gaps.Contents() && handed == old(handed) + [GapSlice(out, out[..])]
    {
      out := gaps.Copy();
      handed := handed + [GapSlice(out, out[..])];
    }

    // ----- interleaving -----

    /** One thing that the code around the worker may do. */
    method Perform(c: ConsumerAct)
      requires Valid()
      modifies this, receipts, receipts.data
      ensures Valid() && Interfered(old(Now()), Now()) && script == old(script)
      ensures old(log) <= log && old(handed) <= handed && receipts.data == old(receipts.data)
      ensures forall i :: |old(log)| <= i < |log| ==> Outside(log[i])
    {
      match c
      case Receive => var _ := Receive();
      case DrainAll => var _ := DrainReceipts();
      case CopyReceipts => var _ := Receipts();
      case CopyGaps => var _ := Gaps();
      case CancelContext => Cancel();
    }

    /** Everything that happens around the worker before its next atomic step. */
    method Pause() returns (t: Turn)
      requires Valid()
      modifies this, receipts, receipts.data
      ensures Valid() && Interfered(old(Now()), Now()) && old(log) <= log && old(handed) <= handed
      ensures receipts.data == old(receipts.data) && gaps.data == old(gaps.data)
      ensures forall i :: |old(log)| <= i < |log| ==> Outside(log[i])
      ensures t == NextTurn(old(script))
      ensures if old(script) == [] then script == [] && cancelled else script == old(script)[1..]
    {
      if script == [] {
        Cancel();
        return SILENCE;
      }
      t := script[0];
      script := script[1..];
      for i := 0 to |t.consumer|
        invariant Valid() && Interfered(old(Now()), Now()) && old(log) <= log && old(handed) <= handed
        invariant script == old(script)[1..]
        invariant receipts.data == old(receipts.data) && gaps.data == old(gaps.data)
        invariant forall j :: |old(log)| <= j < |log| ==> Outside(log[j])
      {
        Perform(t.consumer[i]);
      }
    }

    // ----- the worker -----

    /** `ctx.Err() != nil` */
    method Check() returns (done: bool)
      requires Valid() && (Now().w.pc.Top? || Now().w.pc.DialFailed? || Now().w.pc.Judging?)
      modifies this`log
      ensures Valid() && done == cancelled && log == old(log) + [Checked(done)] && handed == old(handed)
      ensures Now() == Step(cfg, old(Now()), Checked(done))
    {
      done := cancelled;
      Record(Checked(done));
    }

    /** A send on Events that does not wait. */
    method OfferEvent(ev: Event) returns (ok: bool)
      requires Valid() && Now().w.pc == Offering(ev)
      modifies this
      ensures ok <==> |old(events)| < if cfg.queueCapacity < 1 then 1 else cfg.queueCapacity
      ensures Valid() && script == old(script) && handed == old(handed)
      ensures log == old(log) + [Offered(ev, ok)] && Now().w == AfterOffer(cfg, old(Now()).w, ev, ok)
    {
      ok := |events| < cfg.QueueLimit();
      if ok {
        events := events + [ev];
      }
      Record(Offered(ev, ok));
    }

    /** A receive from Events that does not wait, by the worker. */
    method EvictEvent(ev: Event) returns (out: Option<Event>)
      requires Valid() && Now().w.pc == Evicting(ev)
      modifies this
      ensures Valid() && out == Oldest(old(events)) && script == old(script) && handed == old(handed)
      ensures log == old(log) + [Evicted(out)]
      ensures Now().w == old(Now()).w.(pc := if out.None? then Resending(ev) else Counting(ev))
    {
      out := Oldest(events);
      if out.Some? {
        events := events[1..];
      }
      Record(Evicted(out));
    }

    method CountEviction(ev: Event)
      requires Valid() && Now().w.pc == Counting(ev)
      modifies this
      ensures Valid() && dropped == old(dropped) + 1 && script == old(script) && handed == old(handed)
      ensures log == old(log) + [DropCounted] && Now().w == old(Now()).w.(pc := Resending(ev))
    {
      dropped := dropped + 1;
      Record(DropCounted);
    }

    /** The send of the last select of `enqueue`. There is always room. */
    method SendEvent(ev: Event)
      requires Valid() && Now().w.pc == Resending(ev)
      modifies this
      ensures Valid() && cancelled == old(cancelled) && script == old(script) && handed == old(handed)
      ensures log == old(log) + [Resent(ev)] && Now().w == old(Now()).w.(pc := AfterEnqueue(ev))
    {
      assert |events| < cfg.QueueLimit() by {
        RoomHolds(cfg, log, Now());
      }
      events := events + [ev];
      Record(Resent(ev));
    }

    method SetConn(c: Option<nat>, ghost a: Act)
      requires Valid() && Enabled(cfg, Now(), a) && (a.Dialed? || a.ConnClosed?)
      requires Step(cfg, Now(), a).w.connection == c
      modifies this
      ensures Valid() && log == old(log) + [a] && script == old(script) && handed == old(handed)
      ensures Now() == Step(cfg, old(Now()), a)
    {
      conn := c;
      Record(a);
    }

    /** The dialer has failed: nothing of the stream changes. */
    ghost method LoseDial()
      requires Valid() && Now().w.pc.Dialing?
      modifies this`log
      ensures Valid() && log == old(log) + [Dialed(false)] && Now().w == old(Now()).w.(pc := DialFailed)
    {
      Record(Dialed(false));
    }

    /** The socket has failed to read. */
    ghost method LoseRead()
      requires Valid() && Now().w.pc.Reading?
      modifies this`log
      ensures Valid() && log == old(log) + [ReadFailed]
      ensures Now().w == old(Now()).w.(pc := Returned(false, old(Now()).w.acked, Broken))
    {
      Record(ReadFailed);
    }

    /** The socket has answered a write. */
    ghost method TryWrite(m: Outbound, epoch: nat, ok: bool)
      requires Valid() && Now().w.pc == Writing(m) && Now().w.epoch == epoch
      modifies this`log
      ensures Valid() && log == old(log) + [Wrote(epoch, m, ok)]
      ensures Now().w == old(Now()).w.(pc := if ok then Observing(Outgoing(m), 0, ReadOn)
                                             else Returned(false, old(Now()).w.acked, Broken))
    {
      WroteStep(cfg, Now(), m, ok);
      Record(Wrote(epoch, m, ok));
    }

    /** The sleep is over. */
    ghost method Wake(n: nat, ok: bool)
      requires Valid() && Now().w.pc == Sleeping(n)
      modifies this`log
      ensures Valid() && log == old(log) + [Slept(n, ok)] && Now().w == old(Now()).w.(pc := if ok then Top else Exiting)
    {
      Record(Slept(n, ok));
    }

    /** `serve` has decoded the type of a frame. */
    ghost method Switch(f: Frame, d: Delivery, epoch: nat)
      requires Valid() && Now().w.pc == Handling(f, d) && Now().w.epoch == epoch
      modifies this`log
      ensures Valid() && log == old(log) + [Handled(epoch, f)] && Now().w == AfterHandle(old(Now()).w, f, d)
    {
      HandledStep(cfg, Now(), epoch, f);
      Record(Handled(epoch, f));
    }

    /** Keeps the first error only. */
    method SetErr(e: StreamError)
      requires Valid() && Now().w.pc == Failing(e)
      modifies this
      ensures Valid() && err == Some(e) && log == old(log) + [ErrorSet(e)] && script == old(script)
      ensures handed == old(handed)
      ensures Now() == Step(cfg, old(Now()), ErrorSet(e))
    {
      EndedHolds(cfg, log, Now());
      ErrorSetStep(cfg, Now(), e);
      if err == None {
        err := Some(e);
      }
      Record(ErrorSet(e));
    }

    method NextDelivery(epoch: nat, ghost f: Frame) returns (d: Delivery)
      requires Valid() && Now().w.pc.Reading? && epoch == Now().w.epoch
      modifies this
      ensures Valid() && d == Delivery(epoch, old(receiveSequence) + 1, false) && script == old(script)
      ensures log == old(log) + [Read(epoch, d.sequence, f)] && handed == old(handed)
      ensures Now() == Step(cfg, old(Now()), Read(epoch, d.sequence, f))
    {
      receiveSequence := receiveSequence + 1;
      d := Delivery(epoch, receiveSequence, false);
      Record(Read(epoch, d.sequence, f));
    }

    /** The gap buffer after `addGap`, and whether a gap was dropped. */
    method PushGap(g: Gap) returns (full: bool)
      requires Separate() && Untouched()
      modifies gaps, gaps.data
      ensures Separate() && Untouched() && (gaps.data == old(gaps.data) || fresh(gaps.data))
      ensures full <==> |old(gaps.Contents())| >= if cfg.receiptCapacity < 1 then 1 else cfg.receiptCapacity
      ensures receipts.Contents() == old(receipts.Contents())
      ensures gaps.Contents() == PushBounded(old(gaps.Contents()), cfg.GapLimit(), g)
    {
      full := gaps.len >= cfg.GapLimit();
      if full {
        gaps.ShiftIn(g);
      } else {
        gaps.Append(g);
      }
    }

    method AddGap(g: Gap)
      requires Valid() && Now().w.pc.AddingGap? && Now().w.pc.gap == g
      modifies this, gaps, gaps.data
      ensures Valid() && log == old(log) + [GapAdded(g)] && script == old(script) && handed == old(handed)
      ensures gaps.data == old(gaps.data) || fresh(gaps.data)
      ensures Now() == Step(cfg, old(Now()), GapAdded(g))
    {
      var full := PushGap(g);
      if full {
        gapDropped := gapDropped + 1;
      }
      Record(GapAdded(g));
    }

    /** What the locked part of `observeReceipt` does to the buffer. */
    method PushReceipt(r: Receipt) returns (how: Admission)
      requires Separate() && Untouched()
      modifies this`receiptDropped, receipts, receipts.data
      ensures Separate() && Untouched() && (receipts.data == old(receipts.data) || fresh(receipts.data))
      ensures how == Admit(cfg, old(receipts.Contents())) && Ledger() == Keep(old(Ledger()), how, r)
      ensures |old(receipts.Contents())| < cfg.receiptCapacity ==>
                receipts.Contents() == old(receipts.Contents()) + [r] && receiptDropped == old(receiptDropped)
      ensures 0 < cfg.receiptCapacity <= |old(receipts.Contents())| && cfg.receiptOverflow == DropOldest ==>
                && how == Displaced(old(receipts.Contents())[0])
                && receipts.Contents() == old(receipts.Contents())[1..] + [r]
                && receiptDropped == old(receiptDropped) + 1
    {
      if cfg.receiptCapacity == 0 {
        return Unretained;
      }
      if receipts.len < cfg.receiptCapacity {
        receipts.Append(r);
        return Kept;
      }
      if cfg.receiptOverflow == DropOldest {
        how := Displaced(receipts.data[0]);
        receipts.ShiftIn(r);
        receiptDropped := receiptDropped + 1;
        return;
      }
      return Rejected;
    }

    /** The locked part of `observeReceipt`. */
    method AdmitReceipt(r: Receipt) returns (how: Admission)
      requires Valid() && Now().w.pc.Admitting? && Now().w.pc.receipt == r
      modifies this, receipts, receipts.data
      ensures Valid() && log == old(log) + [Admitted(r, how)] && script == old(script) && handed == old(handed)
      ensures receipts.data == old(receipts.data) || fresh(receipts.data)
      ensures how == Admit(cfg, old(Now()).evidence.receipts)
      ensures Now().w == AfterAdmit(old(Now()).w, how, r, old(Now()).w.pc.sequence, old(Now()).w.pc.next)
    {
      ghost var was := Now();
      how := PushReceipt(r);
      AdmittedStep(cfg, was, r, how);
      Record(Admitted(r, how));
    }

    /** `addGap`, and whatever happens just before it. */
    method AddGapNext(g: Gap)
      requires Valid() && Now().w.pc.AddingGap? && Now().w.pc.gap == g
      modifies Repr()
      ensures Valid() && fresh(Repr() - old(Repr())) && old(log) <= log && old(handed) <= handed
      ensures |script| <= |old(script)|
      ensures Now().w == old(Now()).w.(pc := Resume(old(Now()).w.pc.next))
    {
      var _ := Pause();
      AddGap(g);
    }

    /** `observeReceipt` from the lock on. */
    method RetainReceipt(r: Receipt, epoch: nat, sequence: nat) returns (e: ServeError)
      requires Valid() && Now().w.pc.Admitting?
      requires Now().w.pc.receipt == r && Now().w.pc.sequence == sequence && Now().w.epoch == epoch
      modifies Repr()
      ensures Valid() && fresh(Repr() - old(Repr())) && old(log) <= log && old(handed) <= handed
      ensures |script| <= |old(script)|
      ensures e.NoError? || e.Fatal?
      ensures Now().w == old(Now()).w.(pc :=
                if e.NoError? then Resume(old(Now()).w.pc.next) else Returned(false, old(Now()).w.acked, e))
    {
      var how := AdmitReceipt(r);
      if how.Unretained? || how.Kept? {
        return NoError;
      }
      AddGapNext(Gap(GapReceiptOverflow, epoch, sequence));
      return if how.Rejected? then Fatal(ReceiptOverflow, [r]) else NoError;
    }

    /** Calls the receipt observer, if there is one. */
    method AskObserver(r: Receipt) returns (ok: bool)
      requires Valid() && Now().w.pc.Observing? && Now().w.pc.receipt == r
      modifies this, receipts, receipts.data
      ensures Valid() && receipts.data == old(receipts.data) && gaps.data == old(gaps.data)
      ensures old(log) <= log && old(handed) <= handed && |script| <= |old(script)|
      ensures Now().w == AfterObserver(old(Now()).w, r, old(Now()).w.pc.sequence, old(Now()).w.pc.next, ok)
      ensures ok <==> !cfg.hasObserver || NextTurn(old(script)).observerOk
    {
      var t := Pause();
      ok := !cfg.hasObserver || t.observerOk;
      Record(Observed(r, ok));
    }

    /** Shows the receipt to the observer, if there is one, and retains it. */
    method ObserveReceipt(r: Receipt, epoch: nat, sequence: nat) returns (e: ServeError)
      requires Valid() && Now().w.pc.Observing?
      requires Now().w.pc.receipt == r && Now().w.pc.sequence == sequence && Now().w.epoch == epoch
      modifies Repr()
      ensures Valid() && fresh(Repr() - old(Repr())) && old(log) <= log && old(handed) <= handed
      ensures |script| <= |old(script)|
      ensures e.NoError? || e.Fatal?
      ensures Now().w == old(Now()).w.(pc :=
                if e.NoError? then Resume(old(Now()).w.pc.next) else Returned(false, old(Now()).w.acked, e))
    {
      var ok := AskObserver(r);
      if !ok {
        AddGapNext(Gap(GapReceiptObserver, epoch, sequence));
        return Fatal(ObserverFailed, [r]);
      }
      var _ := Pause();
      e := RetainReceipt(r, epoch, sequence);
    }
  }
}
