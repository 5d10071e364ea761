/** The subscription worker as a transition system. An `Act` is one atomic step, either of
    the worker goroutine (between two uses of the mutex, the channel, the context or the
    socket) or of the code around it: a receive from Events, a call of DrainReceipts, a
    cancellation. A log is a run when every act is enabled in the state that the acts before
    it lead to, so the acts of the consumer may fall between any two acts of the worker. */
module SubscriptionWorker {
  import opened Wrappers
  import opened SubscriptionTypes

  /** Where the worker goes on after an `addGap` or an `observeReceipt`. */
  datatype Next =
    | BeginServe
    | ReadOn
    | Dispatch(frame: Frame, delivery: Delivery)
    | GiveUp(acked: bool, error: ServeError)

  /** The place in `run`, `serve`, `enqueue`, `observeReceipt` or `writeJSON` the worker is at. */
  datatype Pc =
    | Top                                                       // head of the reconnect loop
    | Dialing
    | DialFailed
    | AddingGap(gap: Gap, next: Next)
    | Writing(message: Outbound)
    | Reading
    | Observing(receipt: Receipt, sequence: nat, next: Next)   // about to call the receipt observer
    | Admitting(receipt: Receipt, sequence: nat, next: Next)   // about to lock the receipt buffer
    | Handling(frame: Frame, delivery: Delivery)                // the switch on the frame type
    | Offering(event: Event)                                    // enqueue: first select
    | Evicting(event: Event)                                    // enqueue: second select
    | Counting(event: Event)                                    // enqueue: dropped.Add(1)
    | Resending(event: Event)                                   // enqueue: third select
    | Returned(finished: bool, acked: bool, error: ServeError)  // serve has returned
    | Judging(finished: bool, acked: bool, error: ServeError)   // connection closed, what next
    | Sleeping(attempt: nat)
    | Failing(failure: StreamError)
    | Exiting
    | Closing                                                   // done is closed, Events is not yet
    | Stopped

  /** What only the worker goroutine reads and writes: its place, the variables of `run` and
      `serve`, and the fields of the stream that it alone changes. */
  datatype Control = Control(
    pc: Pc,
    attempts: nat,
    epoch: nat,
    acked: bool,
    firstData: bool,
    sequence: nat,
    connection: Option<nat>,
    error: Option<StreamError>)

  /** The Events channel and its eviction counter. */
  datatype Queue = Queue(buffer: seq<Event>, dropped: nat)

  /** The retained receipts and gaps, and their eviction counters. */
  datatype Evidence = Evidence(receipts: seq<Receipt>, receiptDropped: nat, gaps: seq<Gap>, gapDropped: nat)

  datatype State = State(w: Control, cancelled: bool, queue: Queue, evidence: Evidence)

  /** What the locked part of `observeReceipt` did with a receipt. */
  datatype Admission = Unretained | Kept | Displaced(oldest: Receipt) | Rejected

  datatype Act =
    // the consumer and the caller's context
    | Received(event: Event)
    | Drained(receipts: seq<Receipt>)
    | Cancelled
    // the worker
    | Checked(cancelled: bool)
    | Dialed(ok: bool)
    | GapAdded(gap: Gap)
    | Wrote(epoch: nat, message: Outbound, ok: bool)
    | Read(epoch: nat, sequence: nat, frame: Frame)
    | ReadFailed
    | Observed(receipt: Receipt, ok: bool)
    | Admitted(receipt: Receipt, how: Admission)
    | Handled(epoch: nat, frame: Frame)
    | Offered(event: Event, ok: bool)
    | Evicted(oldest: Option<Event>)
    | DropCounted
    | Resent(event: Event)
    | SendAborted
    | ConnClosed(epoch: nat)
    | Slept(attempt: nat, ok: bool)
    | ErrorSet(failure: StreamError)
    | Finished
    | EventsClosed

  function Resume(next: Next): Pc {
    match next
    case BeginServe => Writing(Init)
    case ReadOn => Reading
    case Dispatch(f, d) => Handling(f, d)
    case GiveUp(acked, error) => Returned(false, acked, error)
  }

  /** Wait returns: `done` is closed. */
  predicate Done(pc: Pc) { pc.Closing? || pc.Stopped? }

  function Start(): State {
    State(Control(Top, 0, 0, false, false, 0, None, None), false, Queue([], 0), Evidence([], 0, [], 0))
  }

  /** The decision of the locked part of `observeReceipt`. */
  function Admit(cfg: Config, receipts: seq<Receipt>): Admission {
    if cfg.receiptCapacity == 0 then Unretained
    else if |receipts| < cfg.receiptCapacity then Kept
    else if cfg.receiptOverflow == DropOldest then Displaced(receipts[0])
    else Rejected
  }

  predicate Enabled(cfg: Config, s: State, a: Act) {
    match a
    case Received(ev) => s.queue.buffer != [] && s.queue.buffer[0] == ev
    case Drained(rs) => rs == s.evidence.receipts
    case Cancelled => true
    case Checked(c) => (s.w.pc.Top? || s.w.pc.DialFailed? || s.w.pc.Judging?) && c == s.cancelled
    case Dialed(_) => s.w.pc.Dialing?
    case GapAdded(g) => s.w.pc.AddingGap? && g == s.w.pc.gap
    case Wrote(e, m, _) => s.w.pc == Writing(m) && e == s.w.epoch
    case Read(e, n, _) => s.w.pc.Reading? && e == s.w.epoch && n == s.w.sequence + 1
    case ReadFailed => s.w.pc.Reading?
    case Observed(r, ok) => s.w.pc.Observing? && r == s.w.pc.receipt && (cfg.hasObserver || ok)
    case Admitted(r, how) => s.w.pc.Admitting? && r == s.w.pc.receipt && how == Admit(cfg, s.evidence.receipts)
    case Handled(e, f) => s.w.pc.Handling? && e == s.w.epoch && f == s.w.pc.frame
    case Offered(ev, ok) => s.w.pc == Offering(ev) && ok == (|s.queue.buffer| < cfg.QueueLimit())
    case Evicted(out) => s.w.pc.Evicting? && out == Oldest(s.queue.buffer)
    case DropCounted => s.w.pc.Counting?
    case Resent(ev) => s.w.pc == Resending(ev) && |s.queue.buffer| < cfg.QueueLimit()
    case SendAborted => s.w.pc.Resending? && s.cancelled
    case ConnClosed(e) => s.w.pc.Returned? && s.w.connection == Some(e)
    case Slept(n, _) => s.w.pc == Sleeping(n)
    case ErrorSet(x) => s.w.pc == Failing(x)
    case Finished => s.w.pc.Exiting?
    case EventsClosed => s.w.pc.Closing?
  }

  function Oldest(buffer: seq<Event>): Option<Event> {
    if buffer == [] then None else Some(buffer[0])
  }

  /** `run` after `ctx.Err()` has been read, at each of the three places where it is read. */
  function AfterCheck(cfg: Config, w: Control, cancelled: bool): Control {
    if cancelled then w.(pc := Exiting)
    else match w.pc
      case DialFailed =>
        if w.attempts >= cfg.maxReconnects then w.(pc := Failing(DialExhausted))
        else w.(attempts := w.attempts + 1, pc := Sleeping(w.attempts + 1))
      case Judging(finished, acked, error) =>
        if finished then w.(pc := Exiting)
        else if error.Fatal? then w.(pc := Failing(Terminal(error.reason, error.receipts)))
        else if acked then w.(attempts := 0, pc := Sleeping(1))
        else if w.attempts >= cfg.maxReconnects then w.(pc := Failing(ReconnectExhausted))
        else w.(attempts := w.attempts + 1, pc := Sleeping(w.attempts + 1))
      case _ => w.(pc := Dialing)
  }

  /** `run` after the dialer has returned. */
  function AfterDial(w: Control, ok: bool): Control {
    if !ok then w.(pc := DialFailed)
    else
      var e := w.epoch + 1;
      w.(epoch := e, connection := Some(e), acked := false, firstData := e > 1,
         pc := if e > 1 then AddingGap(Gap(GapReconnect, e, 0), BeginServe) else Writing(Init))
  }

  /** `observeReceipt` once the observer, if any, has answered. */
  function AfterObserver(w: Control, r: Receipt, n: nat, next: Next, ok: bool): Control {
    if ok then w.(pc := Admitting(r, n, next))
    else w.(pc := AddingGap(Gap(GapReceiptObserver, w.epoch, n), GiveUp(w.acked, Fatal(ObserverFailed, [r]))))
  }

  /** Where `observeReceipt` goes after its locked part. */
  function AfterAdmit(w: Control, how: Admission, r: Receipt, n: nat, next: Next): Control {
    match how
    case Unretained => w.(pc := Resume(next))
    case Kept => w.(pc := Resume(next))
    case Displaced(_) => w.(pc := AddingGap(Gap(GapReceiptOverflow, w.epoch, n), next))
    case Rejected =>
      w.(pc := AddingGap(Gap(GapReceiptOverflow, w.epoch, n), GiveUp(w.acked, Fatal(ReceiptOverflow, [r]))))
  }

  /** The locked part of `observeReceipt`. */
  function Keep(ev: Evidence, how: Admission, r: Receipt): Evidence {
    match how
    case Kept => ev.(receipts := ev.receipts + [r])
    case Displaced(_) =>
      if ev.receipts == [] then ev
      else ev.(receipts := ev.receipts[1..] + [r], receiptDropped := ev.receiptDropped + 1)
    case _ => ev
  }

  /** `addGap`. */
  function AddGap(cfg: Config, ev: Evidence, g: Gap): Evidence {
    ev.(gaps := PushBounded(ev.gaps, cfg.GapLimit(), g),
        gapDropped := if |ev.gaps| >= cfg.GapLimit() then ev.gapDropped + 1 else ev.gapDropped)
  }

  /** The switch of `serve` on the type of a received frame. */
  function AfterHandle(w: Control, f: Frame, d: Delivery): Control {
    match f.kind
    case Ack =>
      if w.acked then w.(pc := Returned(false, true, Fatal(DuplicateAck, [])))
      else w.(acked := true, pc := Writing(Subscribe))
    case Ping => w.(pc := Writing(Pong))
    case Keepalive => w.(pc := Offering(Event(EventKeepalive, f, d, Incoming(f))))
    case Failure => w.(pc := Returned(false, w.acked, Fatal(ServerError, [])))
    case Complete =>
      if !w.acked then w.(pc := Returned(false, false, Fatal(CompleteBeforeAck, [])))
      else w.(pc := Offering(Event(EventComplete, f, d, Incoming(f))))
    case Data =>
      if !w.acked then w.(pc := Returned(false, false, Fatal(DataBeforeAck, [])))
      else w.(firstData := false,
              pc := Offering(Event(EventData, f, d.(reconnectGap := w.firstData), Incoming(f))))
    case Other => w.(pc := Reading)
    case Unparseable => w.(pc := Reading)
  }

  /** Where `serve` goes on once `enqueue` has returned nil. */
  function AfterEnqueue(ev: Event): Pc {
    if ev.kind.EventComplete? then Returned(true, true, NoError) else Reading
  }

  /** The first select of `enqueue`, and its switch on the overflow policy. */
  function AfterOffer(cfg: Config, w: Control, ev: Event, ok: bool): Control {
    if ok then w.(pc := AfterEnqueue(ev))
    else if cfg.overflow == Fail then
      w.(pc := AddingGap(Gap(GapOverflowFail, ev.delivery.epoch, ev.delivery.sequence),
                         GiveUp(w.acked, Fatal(QueueOverflow, [ev.receipt]))))
    else w.(pc := Evicting(ev))
  }

  /** The effect of an enabled act on the worker's own variables. */
  function Move(cfg: Config, s: State, a: Act): Control
    requires Enabled(cfg, s, a)
  {
    var w := s.w;
    match a
    case Received(_) => w
    case Drained(_) => w
    case Cancelled => w
    case Checked(c) => AfterCheck(cfg, w, c)
    case Dialed(ok) => AfterDial(w, ok)
    case GapAdded(g) => w.(pc := Resume(w.pc.next))
    case Wrote(_, m, ok) =>
      w.(pc := if ok then Observing(Outgoing(m), 0, ReadOn) else Returned(false, w.acked, Broken))
    case Read(e, n, f) =>
      w.(sequence := n, pc := Observing(Incoming(f), n, Dispatch(f, Delivery(e, n, false))))
    case ReadFailed => w.(pc := Returned(false, w.acked, Broken))
    case Observed(r, ok) => AfterObserver(w, r, w.pc.sequence, w.pc.next, ok)
    case Admitted(r, how) => AfterAdmit(w, how, r, w.pc.sequence, w.pc.next)
    case Handled(_, f) => AfterHandle(w, f, w.pc.delivery)
    case Offered(ev, ok) => AfterOffer(cfg, w, ev, ok)
    case Evicted(out) => w.(pc := if out.None? then Resending(w.pc.event) else Counting(w.pc.event))
    case DropCounted => w.(pc := Resending(w.pc.event))
    case Resent(ev) => w.(pc := AfterEnqueue(ev))
    case SendAborted => w.(pc := Returned(false, w.acked, Broken))
    case ConnClosed(_) => w.(connection := None, pc := Judging(w.pc.finished, w.pc.acked, w.pc.error))
    case Slept(_, ok) => w.(pc := if ok then Top else Exiting)
    case ErrorSet(x) => w.(error := Some(x), pc := Exiting)
    case Finished => w.(pc := Closing)
    case EventsClosed => w.(pc := Stopped)
  }

  /** The effect of an enabled act on the Events channel and its counter. */
  function MoveQueue(q: Queue, a: Act): Queue {
    match a
    case Received(_) => if q.buffer == [] then q else q.(buffer := q.buffer[1..])
    case Offered(ev, ok) => if ok then q.(buffer := q.buffer + [ev]) else q
    case Evicted(out) => if q.buffer == [] then q else q.(buffer := q.buffer[1..])
    case DropCounted => q.(dropped := q.dropped + 1)
    case Resent(ev) => q.(buffer := q.buffer + [ev])
    case _ => q
  }

  /** The effect of an enabled act on the receipt and gap buffers. */
  function MoveEvidence(cfg: Config, ev: Evidence, a: Act): Evidence {
    match a
    case Drained(_) => ev.(receipts := [])
    case Admitted(r, how) => Keep(ev, how, r)
    case GapAdded(g) => AddGap(cfg, ev, g)
    case _ => ev
  }

  /** The effect of an enabled act. */
  function Step(cfg: Config, s: State, a: Act): State
    requires Enabled(cfg, s, a)
  {
    State(Move(cfg, s, a), s.cancelled || a.Cancelled? || a.Finished?,
          MoveQueue(s.queue, a), MoveEvidence(cfg, s.evidence, a))
  }

  /** The switch of `serve` changes where it is, whether it is acknowledged and its data flag. */
  lemma HandledStep(cfg: Config, s: State, e: nat, f: Frame)
    requires Enabled(cfg, s, Handled(e, f))
    ensures var n := Step(cfg, s, Handled(e, f));
            n == s.(w := AfterHandle(s.w, f, s.w.pc.delivery))
            && n.w == s.w.(pc := n.w.pc, acked := n.w.acked, firstData := n.w.firstData) && !Done(n.w.pc)
  {
  }

  lemma ErrorSetStep(cfg: Config, s: State, e: StreamError)
    requires s.w.pc == Failing(e)
    ensures Step(cfg, s, ErrorSet(e)) == s.(w := s.w.(error := Some(e), pc := Exiting))
  {
  }

  lemma AdmittedStep(cfg: Config, s: State, r: Receipt, how: Admission)
    requires Enabled(cfg, s, Admitted(r, how))
    ensures var n := Step(cfg, s, Admitted(r, how));
            n == s.(w := AfterAdmit(s.w, how, r, s.w.pc.sequence, s.w.pc.next), evidence := Keep(s.evidence, how, r))
            && n.w == s.w.(pc := n.w.pc) && !Done(n.w.pc)
  {
  }

  lemma WroteStep(cfg: Config, s: State, m: Outbound, ok: bool)
    requires s.w.pc == Writing(m)
    ensures Step(cfg, s, Wrote(s.w.epoch, m, ok)) ==
            s.(w := s.w.(pc := if ok then Observing(Outgoing(m), 0, ReadOn) else Returned(false, s.w.acked, Broken)))
  {
  }

  /** The state that `log` leads to, or None when `log` is not a run. */
  ghost function Replay(cfg: Config, log: seq<Act>): Option<State>
  {
    if log == [] then Some(Start())
    else
      var p := Replay(cfg, Front(log));
      var a := Last(log);
      if p.Some? && Enabled(cfg, p.value, a) then Some(Step(cfg, p.value, a)) else None
  }

  /** `log` is a run of the worker that ends in `s`. */
  ghost predicate Run(cfg: Config, log: seq<Act>, s: State) {
    Replay(cfg, log) == Some(s)
  }

  /** Everything but the last act. */
  ghost function Front(log: seq<Act>): seq<Act>
    requires log != []
  {
    log[..|log| - 1]
  }

  ghost function Last(log: seq<Act>): Act
    requires log != []
  {
    log[|log| - 1]
  }

  /** The state before the last act of a run. */
  ghost function Before(cfg: Config, log: seq<Act>): (p: State)
    requires log != [] && Replay(cfg, log).Some?
    ensures Run(cfg, Front(log), p) && Enabled(cfg, p, Last(log))
    ensures Run(cfg, log, Step(cfg, p, Last(log)))
  {
    Replay(cfg, Front(log)).value
  }

  /** What the acts of a log say, in order. */
  ghost function Collect<T>(log: seq<Act>, said: Act -> seq<T>): seq<T> {
    if log == [] then [] else Collect(Front(log), said) + said(Last(log))
  }

  /** Some act of the log satisfies `p`. */
  ghost predicate Ever(log: seq<Act>, p: Act -> bool) {
    log != [] && (Ever(Front(log), p) || p(Last(log)))
  }

  /** Every prefix of a run is a run. */
  lemma {:induction false} PrefixIsRun(cfg: Config, log: seq<Act>, i: nat)
    requires Replay(cfg, log).Some? && i <= |log|
    ensures Replay(cfg, log[..i]).Some?
  {
    if i == |log| {
      assert log[..i] == log;
    } else {
      PrefixIsRun(cfg, Front(log), i);
      assert Front(log)[..i] == log[..i];
    }
  }
}
