/** readLimitedEvidence: a bounded read of a response body, and the evidence of how it went. */
module BodyEvidence {
  import opened Wrappers
  import opened Backoff

  type Byte = bv8

  datatype End = Eof | ReadFailure

  /** What one call of the body's Read has to give: some bytes, and possibly the end with them. */
  datatype Chunk = Chunk(bytes: seq<Byte>, end: Option<End>)

  datatype Evidence = Evidence(
    applicable: bool,
    readComplete: bool,
    complete: bool,
    limitExceeded: bool,
    readError: bool,
    closeError: bool)

  datatype ReadFault = NoFault | NegativeLimit | TooLarge | Broken

  /** Everything the body gives before its end. A script that stops without one is at its end. */
  function Stream(chunks: seq<Chunk>): seq<Byte> {
    if chunks == [] then []
    else if chunks[0].end.Some? then chunks[0].bytes
    else chunks[0].bytes + Stream(chunks[1..])
  }

  /** How the body ends. */
  function Fate(chunks: seq<Chunk>): End {
    if chunks == [] then Eof
    else if chunks[0].end.Some? then chunks[0].end.value
    else Fate(chunks[1..])
  }

  /** One Read into a buffer with room for `room` bytes: what it gives, and what is left. An end is
      reported once and for all. */
  function ReadOnce(chunks: seq<Chunk>, room: nat): (r: (seq<Byte>, Option<End>, seq<Chunk>))
    requires 0 < room
    ensures |r.0| <= room && r.0 + Stream(r.2) == Stream(chunks)
    ensures r.1.Some? ==> Stream(r.2) == [] && r.1.value == Fate(chunks) == Fate(r.2)
    ensures r.1.None? ==> Fate(r.2) == Fate(chunks)
    ensures r.1.None? ==> |r.2| < |chunks| || (|r.2| == |chunks| && |Stream(r.2)| < |Stream(chunks)|)
  {
    if chunks == [] then ([], Some(Eof), [])
    else
      var c := chunks[0];
      if |c.bytes| <= room then (c.bytes, c.end, if c.end.Some? then [Chunk([], c.end)] else chunks[1..])
      else
        var rest := Chunk(c.bytes[room..], c.end);
        assert c.bytes[..room] + (rest.bytes + Stream(chunks[1..])) == c.bytes + Stream(chunks[1..]);
        assert ([rest] + chunks[1..])[1..] == chunks[1..];
        (c.bytes[..room], None, [rest] + chunks[1..])
  }

  /** The body of a response: a reader that fills as much of the caller's buffer as it can from the
      chunk that is next. */
  class Body {
    var chunks: seq<Chunk>

    constructor (chunks: seq<Chunk>)
      ensures this.chunks == chunks
    {
      this.chunks := chunks;
    }

    method Read(room: nat) returns (bytes: seq<Byte>, end: Option<End>)
      requires 0 < room
      modifies this
      ensures (bytes, end, chunks) == ReadOnce(old(chunks), room)
    {
      if chunks == [] {
        return [], Some(Eof);
      }
      var c := chunks[0];
      if |c.bytes| <= room {
        bytes, end := c.bytes, c.end;
        chunks := if end.Some? then [Chunk([], end)] else chunks[1..];
      } else {
        bytes, end := c.bytes[..room], None;
        chunks := [Chunk(c.bytes[room..], c.end)] + chunks[1..];
      }
    }
  }

  /** A reader may be offered any sequence of buffers; each has room for a byte at least. */
  type Buffers = nat -> nat

  /** How much read number `i` asks for, with `left` bytes to go to the limit. */
  function Ask(rooms: Buffers, i: nat, left: nat): (room: nat)
    requires left > 0
    ensures 0 < room <= left
  {
    if rooms(i) < left then 1 + rooms(i) else left
  }

  /** What is read from `i` on with `left` bytes to go, whether it ends in a failure, and what is left. */
  function Captured(chunks: seq<Chunk>, left: int, rooms: Buffers, i: nat): (r: (seq<Byte>, bool, seq<Chunk>))
    ensures left > 0 ==> |r.0| <= left
    ensures r.0 + Stream(r.2) == Stream(chunks)
    ensures r.1 ==> Fate(chunks) == ReadFailure && r.0 == Stream(chunks)
    ensures left > 0 && !r.1 ==> |r.0| == left || (Fate(chunks) == Eof && r.0 == Stream(chunks))
    decreases |chunks|, |Stream(chunks)|
  {
    if left <= 0 then ([], false, chunks)
    else
      var (bytes, end, rest) := ReadOnce(chunks, Ask(rooms, i, left));
      assert bytes + [] == bytes;
      if end.Some? then (bytes, end.value == ReadFailure, rest)
      else
        var (more, failed, rest') := Captured(rest, left - |bytes|, rooms, i + 1);
        assert bytes + more + Stream(rest') == bytes + (more + Stream(rest'));
        (bytes + more, failed, rest')
  }

  /** Once `data` has been read, the rest of the read leads to `whole`. */
  ghost predicate LeadsTo(whole: (seq<Byte>, bool, seq<Chunk>), data: seq<Byte>, chunks: seq<Chunk>, left: int,
                          rooms: Buffers, i: nat) {
    var (more, failed, rest) := Captured(chunks, left, rooms, i);
    whole == (data + more, failed, rest)
  }

  lemma ReadLeadsOn(whole: (seq<Byte>, bool, seq<Chunk>), data: seq<Byte>, chunks: seq<Chunk>, left: int,
                    rooms: Buffers, i: nat)
    requires left > 0 && LeadsTo(whole, data, chunks, left, rooms, i)
    ensures var (bytes, end, rest) := ReadOnce(chunks, Ask(rooms, i, left));
            if end.Some? then whole == (data + bytes, end.value == ReadFailure, rest)
            else LeadsTo(whole, data + bytes, rest, left - |bytes|, rooms, i + 1)
  {
    var (bytes, end, rest) := ReadOnce(chunks, Ask(rooms, i, left));
    var more := Captured(rest, left - |bytes|, rooms, i + 1).0;
    assert data + (bytes + more) == data + bytes + more;
  }

  /** io.ReadAll over a LimitReader that stops after `n` bytes, at once if `n` is not positive. What is
      read does not depend on the buffers but for an end that comes with the byte at the limit. */
  method ReadAllLimited(r: Body, n: int, rooms: Buffers) returns (data: seq<Byte>, failed: bool)
    modifies r
    ensures (data, failed, r.chunks) == Captured(old(r.chunks), n, rooms, 0)
  {
    data, failed := [], false;
    var left, i := n, 0;
    ghost var whole := Captured(r.chunks, n, rooms, 0);
    assert [] + whole.0 == whole.0;
    while left > 0
      invariant LeadsTo(whole, data, r.chunks, left, rooms, i)
      decreases |r.chunks|, |Stream(r.chunks)|
    {
      ReadLeadsOn(whole, data, r.chunks, left, rooms, i);
      var bytes, end := r.Read(Ask(rooms, i, left));
      data := data + bytes;
      left := left - |bytes|;
      i := i + 1;
      if end.Some? {
        return data, end.value == ReadFailure;
      }
    }
    assert data + [] == data;
  }

  /** What the flags say about a read of `data` from a body with the given stream and fate. */
  ghost predicate Tells(e: Evidence, limit: int, data: seq<Byte>, stream: seq<Byte>, fate: End) {
    && data <= stream && |data| <= limit + 1
    && (e.readComplete ==> data == stream && fate == Eof && |stream| <= limit)
    && (e.limitExceeded ==> |data| == limit + 1)
    && (e.readError ==> data == stream && fate == ReadFailure && |stream| <= limit + 1)
    // and these three are all there is
    && (e.readComplete || e.limitExceeded || e.readError)
    && !(e.readComplete && e.limitExceeded) && !(e.readComplete && e.readError) && !(e.limitExceeded && e.readError)
  }

  const NOTHING_YET := Evidence(true, false, false, false, false, false)

  /** What `readLimitedEvidence` captures, and the flags that it sets. */
  function Capture(chunks: seq<Chunk>, limit: int, rooms: Buffers): (seq<Byte>, Evidence) {
    if limit < 0 then ([], NOTHING_YET)
    else
      var (data, failed, _) := Captured(chunks, Wrap(limit + 1), rooms, 0);
      (data,
       if failed then NOTHING_YET.(readError := true)
       else if |data| > limit then NOTHING_YET.(limitExceeded := true)
       else NOTHING_YET.(readComplete := true, complete := true))
  }

  /** The raw bytes are a prefix of the stream of length at most limit + 1, exactly one of the three
      flags is set, and it tells the truth: for every chunking of the body and every choice of buffers. */
  lemma CaptureIsTrue(chunks: seq<Chunk>, limit: int, rooms: Buffers)
    requires 0 <= limit < MAX_INT64
    ensures var (data, e) := Capture(chunks, limit, rooms);
            && Tells(e, limit, data, Stream(chunks), Fate(chunks))
            && e.applicable && !e.closeError && (e.complete <==> e.readComplete)
  {
    var (data, _, rest) := Captured(chunks, limit + 1, rooms, 0);
    assert data <= data + Stream(rest);
  }

  /** Reads at most `limit` bytes, and one more that proves overflow. At the largest limit of all,
      limit + 1 wraps round, nothing is read, and the read counts as complete. */
  method ReadLimitedEvidence(r: Body, limit: int, rooms: Buffers)
    returns (data: seq<Byte>, e: Evidence, fault: ReadFault)
    requires limit <= MAX_INT64
    modifies r
    ensures (data, e) == Capture(old(r.chunks), limit, rooms)
    ensures e.applicable && !e.closeError && (e.complete <==> e.readComplete)
    ensures fault == NoFault <==> e.readComplete
    ensures limit < 0 ==> fault == NegativeLimit && data == [] && e == NOTHING_YET
    ensures 0 <= limit < MAX_INT64 ==> Tells(e, limit, data, old(Stream(r.chunks)), old(Fate(r.chunks)))
    ensures limit == MAX_INT64 ==> data == [] && e.readComplete
    ensures limit >= 0 ==> (fault == TooLarge <==> e.limitExceeded) && (fault == Broken <==> e.readError)
  {
    e := NOTHING_YET;
    if limit < 0 {
      return [], e, NegativeLimit;
    }
    if limit < MAX_INT64 {
      CaptureIsTrue(r.chunks, limit, rooms);
    }
    var failed;
    data, failed := ReadAllLimited(r, Wrap(limit + 1), rooms);
    if failed {
      e := e.(readError := true);
      return data, e, Broken;
    }
    if |data| > limit {
      e := e.(limitExceeded := true);
      return data, e, TooLarge;
    }
    e := e.(readComplete := true);
    e := e.(complete := true);
    return data, e, NoFault;
  }

  /** The evidence is determined by the body alone, however its bytes are cut into chunks, except
      for a body that fails right after limit + 1 bytes. */
  lemma EvidenceIsDetermined(e: Evidence, limit: nat, data: seq<Byte>, stream: seq<Byte>, fate: End)
    requires Tells(e, limit, data, stream, fate)
    ensures fate == Eof ==> (e.readComplete <==> |stream| <= limit) && (e.limitExceeded <==> |stream| > limit)
    ensures fate == ReadFailure && |stream| <= limit ==> e.readError
    ensures fate == ReadFailure && |stream| > limit + 1 ==> e.limitExceeded
    ensures data == if |stream| <= limit then stream else stream[..limit + 1]
  {
  }

  /** So the evidence tells the truth at that limit exactly about empty bodies. */
  lemma LargestLimitTellsIff(stream: seq<Byte>, fate: End)
    ensures Tells(Evidence(true, true, true, false, false, false), MAX_INT64, [], stream, fate) <==>
              stream == [] && fate == Eof
  {
    assert [] <= stream;
  }
}
