/** The values that the V2 subscription client handles: wire frames, events, receipts,
    delivery gaps, and the part of the configuration that the worker reads. */
module SubscriptionTypes {

  /** What a received frame is, after its "type" member has been decoded.
      `Failure` is connection_error or error; `Keepalive` is ka or pong. */
  datatype FrameKind = Ack | Ping | Keepalive | Data | Complete | Failure | Other | Unparseable

  /** A received frame: its kind and its exact bytes. */
  datatype Frame = Frame(kind: FrameKind, raw: string)

  /** The frames that the client writes. */
  datatype Outbound = Init | Subscribe | Pong

  /** The evidence kept for one frame. */
  datatype Receipt = Outgoing(message: Outbound) | Incoming(frame: Frame)

  datatype EventKind = EventData | EventKeepalive | EventComplete

  datatype Delivery = Delivery(epoch: nat, sequence: nat, reconnectGap: bool)

  datatype Event = Event(kind: EventKind, raw: Frame, delivery: Delivery, receipt: Receipt)

  datatype GapReason = GapReconnect | GapOverflowFail | GapReceiptOverflow | GapReceiptObserver

  datatype Gap = Gap(reason: GapReason, epoch: nat, sequence: nat)

  datatype Overflow = DropOldest | Fail

  /** The configuration fields that `run` and its helpers read. */
  datatype Config = Config(
    maxReconnects: nat,
    queueCapacity: nat,
    overflow: Overflow,
    receiptCapacity: nat,
    receiptOverflow: Overflow,
    hasObserver: bool)
  {
    /** Capacity of the Events channel. */
    function QueueLimit(): nat {
      if queueCapacity < 1 then 1 else queueCapacity
    }

    /** Capacity of the gap buffer. */
    function GapLimit(): nat {
      if receiptCapacity < 1 then 1 else receiptCapacity
    }
  }

  /** Why a connection must end the stream without a reconnect. */
  datatype FatalReason =
    | DuplicateAck
    | ServerError
    | CompleteBeforeAck
    | DataBeforeAck
    | QueueOverflow
    | ReceiptOverflow
    | ObserverFailed

  /** The error that `serve` returns. `Broken` is any error that is not fatal:
      a failed read or write, or the context's own error. */
  datatype ServeError = NoError | Broken | Fatal(reason: FatalReason, receipts: seq<Receipt>)

  /** The error that the stream reports in the end. */
  datatype StreamError =
    | DialExhausted
    | ReconnectExhausted
    | Terminal(reason: FatalReason, receipts: seq<Receipt>)

  /** A buffer that makes room for `x` by giving up its oldest element once it holds `limit`. */
  function PushBounded<T>(buffer: seq<T>, limit: nat, x: T): (r: seq<T>)
    requires 0 < limit
  {
    if |buffer| < limit then buffer + [x] else buffer[1..] + [x]
  }
}
