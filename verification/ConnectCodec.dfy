/** The Connect streaming envelope: one flag byte, a four-byte big-endian length, the payload; and
    the reader that takes a stream of them apart. */
module ConnectCodec {
  import opened Basics
  import opened Sequences

  type byte = x: int | 0 <= x < 256

  const HEADER := 5
  const LENGTHS := 0x1_0000_0000
  const COMPRESSED := 1
  const END_STREAM: byte := 2

  /** A 32-bit length in big-endian order; a longer one is cut to its low 32 bits. */
  function BigEndian(n: nat): (b: seq<byte>)
    ensures |b| == 4
  {
    var m := n % LENGTHS;
    [m / 0x100 / 0x100 / 0x100, m / 0x100 / 0x100 % 0x100, m / 0x100 % 0x100, m % 0x100]
  }

  function Length(b: seq<byte>): (n: nat)
    requires |b| == 4
    ensures n < LENGTHS
  {
    var b0: int, b1: int, b2: int, b3: int := b[0], b[1], b[2], b[3];
    ((b0 * 0x100 + b1) * 0x100 + b2) * 0x100 + b3
  }

  function Envelope(flags: byte, payload: seq<byte>): (b: seq<byte>)
    ensures |b| == HEADER + |payload|
  {
    [flags] + BigEndian(|payload|) + payload
  }

  /** The messages of a stream, one envelope after another. */
  function Messages(payloads: seq<seq<byte>>): seq<byte> {
    if payloads == [] then [] else Envelope(0, payloads[0]) + Messages(payloads[1..])
  }

  function Stream(payloads: seq<seq<byte>>, end: seq<byte>): seq<byte> {
    Messages(payloads) + Envelope(END_STREAM, end)
  }

  lemma LengthOfBigEndian(n: nat)
    ensures Length(BigEndian(n)) == n % LENGTHS
  {
    var m := n % LENGTHS;
    assert m == m / 0x100 * 0x100 + m % 0x100;
    assert m / 0x100 == m / 0x100 / 0x100 * 0x100 + m / 0x100 % 0x100;
    assert m / 0x100 / 0x100 == m / 0x100 / 0x100 / 0x100 * 0x100 + m / 0x100 / 0x100 % 0x100;
  }

  lemma Shifted(q: nat, b: byte)
    ensures (q * 0x100 + b) / 0x100 == q && (q * 0x100 + b) % 0x100 == b
  {
  }

  lemma BigEndianOfLength(b: seq<byte>)
    requires |b| == 4
    ensures BigEndian(Length(b)) == b
  {
    var b0: int, b1: int, b2: int := b[0], b[1], b[2];
    Shifted((b0 * 0x100 + b1) * 0x100 + b2, b[3]);
    Shifted(b0 * 0x100 + b1, b[2]);
    Shifted(b0, b[1]);
    assert Length(b) % LENGTHS == Length(b);
  }

  datatype Failure =
    | NoEndOfStream | TruncatedHeader(n: nat) | TruncatedPayload(size: nat) | Transport
    | Compressed | UnknownFlags(flags: byte) | TooLarge(size: nat) | StreamError(code: string)

  /** What a stream comes to: the messages passed on, and how it ended. */
  datatype Outcome = Outcome(pushed: seq<seq<byte>>, failure: Option<Failure>)

  /** What the reader depends on: the cap, and what an end-of-stream message says. */
  datatype Rules = Rules(maxBody: int, end: seq<byte> -> Option<string>)

  /** The bytes that arrive, and whether the connection breaks after them instead of closing. */
  datatype Source = Source(bytes: seq<byte>, breaks: bool)

  function BadFlags(flags: byte): Option<Failure> {
    if flags % 2 == COMPRESSED then Some(Compressed)
    else if flags != 0 && flags != END_STREAM then Some(UnknownFlags(flags))
    else None
  }

  function Ended(r: Rules, payload: seq<byte>): Option<Failure> {
    if r.end(payload).None? then None else Some(StreamError(r.end(payload).value))
  }

  function Consume(r: Rules, s: Source): Outcome
    decreases |s.bytes|
  {
    var b := s.bytes;
    if |b| < HEADER then
      Outcome([], Some(if s.breaks then Transport else if b == [] then NoEndOfStream else TruncatedHeader(|b|)))
    else if BadFlags(b[0]).Some? then Outcome([], BadFlags(b[0]))
    else
      var size := Length(b[1..HEADER]);
      if size > r.maxBody then Outcome([], Some(TooLarge(size)))
      else if |b| - HEADER < size then Outcome([], Some(if s.breaks then Transport else TruncatedPayload(size)))
      else
        var payload := b[HEADER..HEADER + size];
        if b[0] == END_STREAM then Outcome([], Ended(r, payload))
        else
          var rest := Consume(r, Source(b[HEADER + size..], s.breaks));
          Outcome([payload] + rest.pushed, rest.failure)
  }

  /** Small enough for the cap and for the length field. */
  predicate Fits(r: Rules, payload: seq<byte>) {
    |payload| <= r.maxBody && |payload| < LENGTHS
  }

  // The reader of the program.

  datatype ReadError = EOF | UnexpectedEOF(n: nat) | Broken

  class Reader {
    const source: Source
    var pos: nat

    ghost predicate Valid()
      reads this
    {
      pos <= |source.bytes|
    }

    ghost function Left(): Source
      requires Valid()
      reads this
    {
      Source(source.bytes[pos..], source.breaks)
    }

    constructor (source: Source)
      ensures Valid() && Left() == source
    {
      this.source, pos := source, 0;
      new;
      assert source.bytes[0..] == source.bytes;
    }

    /** Exactly n bytes, or why there are not that many. */
    method ReadFull(n: nat) returns (buf: seq<byte>, err: Option<ReadError>)
      requires Valid()
      modifies this
      ensures Valid()
      ensures var b := old(Left()).bytes;
              if n <= |b| then err == None && buf == b[..n] && Left() == Source(b[n..], source.breaks)
              else err == Some(if source.breaks then Broken else if b == [] then EOF else UnexpectedEOF(|b|))
    {
      var left := |source.bytes| - pos;
      if left >= n {
        buf := source.bytes[pos..pos + n];
        DropSplit(source.bytes, pos, pos + n);
        pos := pos + n;
        return buf, None;
      }
      buf := source.bytes[pos..];
      pos := |source.bytes|;
      return buf, Some(if source.breaks then Broken else if left == 0 then EOF else UnexpectedEOF(left));
    }
  }

  method ConnectEnvelope(payload: seq<byte>) returns (b: seq<byte>)
    ensures b == Envelope(0, payload)
  {
    b := [0] + BigEndian(|payload|);
    b := b + payload;
  }

  method ConsumeConnect(r: Rules, reader: Reader) returns (pushed: seq<seq<byte>>, failure: Option<Failure>)
    requires reader.Valid()
    modifies reader
    ensures Outcome(pushed, failure) == Consume(r, old(reader.Left()))
  {
    hide Length;
    ghost var all := reader.Left();
    pushed := [];
    while true
      invariant reader.Valid()
      invariant Consume(r, all) == Outcome(pushed + Consume(r, reader.Left()).pushed, Consume(r, reader.Left()).failure)
      decreases |reader.Left().bytes|
    {
      ghost var left := reader.Left();
      var hdr, err := reader.ReadFull(HEADER);
      match err {
        case Some(EOF) => return pushed, Some(NoEndOfStream);
        case Some(UnexpectedEOF(n)) => return pushed, Some(TruncatedHeader(n));
        case Some(Broken) => return pushed, Some(Transport);
        case None =>
      }
      var flags := hdr[0];
      var size := Length(hdr[1..]);
      assert hdr[1..] == left.bytes[1..HEADER];
      if flags % 2 == COMPRESSED {
        return pushed, Some(Compressed);
      }
      if flags != 0 && flags != END_STREAM {
        return pushed, Some(UnknownFlags(flags));
      }
      if size > r.maxBody {
        return pushed, Some(TooLarge(size));
      }
      var payload, err2 := reader.ReadFull(size);
      if err2.Some? {
        if err2.value == Broken {
          return pushed, Some(Transport);
        }
        return pushed, Some(TruncatedPayload(size));
      }
      DropSplit(left.bytes, HEADER, HEADER + size);
      if flags == END_STREAM {
        return pushed, if r.end(payload).None? then None else Some(StreamError(r.end(payload).value));
      }
      Assoc(pushed, [payload], Consume(r, reader.Left()).pushed);
      pushed := pushed + [payload];
    }
  }

  // What the reader makes of what the writer sends.

  lemma FrontEnvelope(flags: byte, payload: seq<byte>, rest: seq<byte>)
    ensures var b := Envelope(flags, payload) + rest;
            && b[0] == flags && Length(b[1..HEADER]) == |payload| % LENGTHS
            && b[HEADER..] == payload + rest && |b| == HEADER + |payload| + |rest|
  {
    var b := Envelope(flags, payload) + rest;
    LengthOfBigEndian(|payload|);
    assert b[1..HEADER] == BigEndian(|payload|);
  }

  /** The length field gives the payload back exactly when it has fewer than 2^32 bytes. */
  lemma LengthFitsIff(payload: seq<byte>)
    ensures Length(Envelope(0, payload)[1..HEADER]) == |payload| <==> |payload| < LENGTHS
  {
    FrontEnvelope(0, payload, []);
    assert Envelope(0, payload) + [] == Envelope(0, payload);
  }

  lemma ConsumeMessage(r: Rules, payload: seq<byte>, rest: seq<byte>, breaks: bool)
    requires Fits(r, payload)
    ensures var t := Consume(r, Source(rest, breaks));
            Consume(r, Source(Envelope(0, payload) + rest, breaks)) == Outcome([payload] + t.pushed, t.failure)
  {
    hide Envelope, Length;
    var b := Envelope(0, payload) + rest;
    FrontEnvelope(0, payload, rest);
    ConcatParts(payload, rest);
    DropSplit(b, HEADER, HEADER + |payload|);
  }

  lemma ConsumeEnd(r: Rules, end: seq<byte>, rest: seq<byte>, breaks: bool)
    requires Fits(r, end)
    ensures Consume(r, Source(Envelope(END_STREAM, end) + rest, breaks)) == Outcome([], Ended(r, end))
  {
    hide Envelope, Length;
    var b := Envelope(END_STREAM, end) + rest;
    FrontEnvelope(END_STREAM, end, rest);
    ConcatParts(end, rest);
    DropSplit(b, HEADER, HEADER + |end|);
  }

  /** A stream of messages closed by an end message is read back whole and in order, whatever follows; it
      succeeds exactly if the end message says nothing of an error, and otherwise fails with that error. */
  lemma {:induction false} RoundTrip(r: Rules, payloads: seq<seq<byte>>, end: seq<byte>, rest: seq<byte>, breaks: bool)
    requires (forall p :: p in payloads ==> Fits(r, p)) && Fits(r, end)
    ensures var o := Consume(r, Source(Stream(payloads, end) + rest, breaks));
            && o.pushed == payloads
            && (o.failure == None <==> r.end(end) == None)
            && (r.end(end).Some? ==> o.failure == Some(StreamError(r.end(end).value)))
    decreases |payloads|
  {
    if payloads == [] {
      assert Stream(payloads, end) == Envelope(END_STREAM, end);
      ConsumeEnd(r, end, rest, breaks);
    } else {
      var p, ps := payloads[0], payloads[1..];
      RoundTrip(r, ps, end, rest, breaks);
      Assoc(Envelope(0, p), Messages(ps), Envelope(END_STREAM, end));
      Assoc(Envelope(0, p), Stream(ps, end), rest);
      ConsumeMessage(r, p, Stream(ps, end) + rest, breaks);
      Cons(payloads);
    }
  }

  /** Cut short anywhere, the stream ends in an error, and exactly the messages that had arrived
      whole were passed on. */
  lemma {:induction false} PrefixFails(r: Rules, payloads: seq<seq<byte>>, end: seq<byte>, n: nat, breaks: bool) returns (k: nat)
    requires (forall p :: p in payloads ==> Fits(r, p)) && Fits(r, end)
    requires n < |Stream(payloads, end)|
    ensures k <= |payloads| && Consume(r, Source(Stream(payloads, end)[..n], breaks)).pushed == payloads[..k]
    ensures |Messages(payloads[..k])| <= n && (k < |payloads| ==> n < |Messages(payloads[..k + 1])|)
    ensures Consume(r, Source(Stream(payloads, end)[..n], breaks)).failure.Some?
    decreases |payloads|
  {
    hide Consume, Envelope;
    k := 0;
    if payloads == [] {
      assert Stream(payloads, end) == Envelope(END_STREAM, end);
      CutEnvelope(r, END_STREAM, end, n, breaks);
    } else {
      var first, ps := Envelope(0, payloads[0]), payloads[1..];
      Assoc(first, Messages(ps), Envelope(END_STREAM, end));
      CutConcat(first, Stream(ps, end), n);
      if n < |first| {
        CutEnvelope(r, 0, payloads[0], n, breaks);
        FirstMessages(payloads, 0);
      } else {
        var j := PrefixFails(r, ps, end, n - |first|, breaks);
        ConsumeMessage(r, payloads[0], Stream(ps, end)[..n - |first|], breaks);
        k := j + 1;
        FirstMessages(payloads, j);
        if k < |payloads| {
          FirstMessages(payloads, j + 1);
        }
      }
    }
  }

  lemma CutConcat(a: seq<byte>, b: seq<byte>, n: nat)
    requires n <= |a + b|
    ensures (a + b)[..n] == if n < |a| then a[..n] else a + b[..n - |a|]
  {
  }

  lemma FirstMessages(payloads: seq<seq<byte>>, j: nat)
    requires j < |payloads|
    ensures payloads[..j + 1] == [payloads[0]] + payloads[1..][..j]
    ensures Messages(payloads[..j + 1]) == Envelope(0, payloads[0]) + Messages(payloads[1..][..j])
  {
    hide Envelope;
    assert payloads[..j + 1][1..] == payloads[1..][..j];
  }

  lemma CutEnvelope(r: Rules, flags: byte, payload: seq<byte>, n: nat, breaks: bool)
    requires Fits(r, payload) && n < |Envelope(flags, payload)| && (flags == 0 || flags == END_STREAM)
    ensures Consume(r, Source(Envelope(flags, payload)[..n], breaks)).pushed == []
    ensures Consume(r, Source(Envelope(flags, payload)[..n], breaks)).failure.Some?
  {
    hide Envelope, Length;
    var b := Envelope(flags, payload);
    FrontEnvelope(flags, payload, []);
    assert b + [] == b;
    if n >= HEADER {
      assert b[..n][1..HEADER] == b[1..HEADER];
    }
  }

  lemma EnvelopeOf(b: seq<byte>, size: nat)
    requires |b| >= HEADER + size && size == Length(b[1..HEADER])
    ensures b == Envelope(b[0], b[HEADER..HEADER + size]) + b[HEADER + size..]
  {
    BigEndianOfLength(b[1..HEADER]);
    TakeDrop(b, HEADER + size);
    assert b[..HEADER + size] == [b[0]] + b[1..HEADER] + b[HEADER..HEADER + size];
  }

  /** The bytes are the messages' envelopes, a clean end message, and anything after. */
  ghost predicate EndsWell(r: Rules, payloads: seq<seq<byte>>, bytes: seq<byte>) {
    exists end, rest :: Fits(r, end) && r.end(end) == None && bytes == Stream(payloads, end) + rest
  }

  /** What was passed on are the first envelopes of the bytes, whole and within the cap; without a
      failure, a clean end message follows them. */
  ghost predicate ReadFrom(r: Rules, o: Outcome, bytes: seq<byte>) {
    && Messages(o.pushed) <= bytes && (forall p :: p in o.pushed ==> Fits(r, p))
    && (o.failure == None ==> EndsWell(r, o.pushed, bytes))
  }

  lemma OneMoreRead(r: Rules, payload: seq<byte>, o: Outcome, tail: seq<byte>)
    requires Fits(r, payload) && ReadFrom(r, o, tail)
    ensures ReadFrom(r, Outcome([payload] + o.pushed, o.failure), Envelope(0, payload) + tail)
  {
    hide Envelope, Ended;
    var all := [payload] + o.pushed;
    var first := Envelope(0, payload);
    ConsParts(payload, o.pushed);
    assert Messages(all) == first + Messages(o.pushed);
    TakeDrop(tail, |Messages(o.pushed)|);
    Assoc(first, Messages(o.pushed), tail[|Messages(o.pushed)|..]);
    if o.failure == None {
      var end, rest :| Fits(r, end) && r.end(end) == None && tail == Stream(o.pushed, end) + rest;
      Assoc(first, Messages(o.pushed), Envelope(END_STREAM, end));
      Assoc(first, Stream(o.pushed, end), rest);
      assert first + tail == Stream(all, end) + rest;
    }
  }

  lemma NothingRead(r: Rules, failure: Failure, bytes: seq<byte>)
    ensures ReadFrom(r, Outcome([], Some(failure)), bytes)
  {
  }

  lemma EndRead(r: Rules, end: seq<byte>, rest: seq<byte>)
    requires Fits(r, end)
    ensures ReadFrom(r, Outcome([], Ended(r, end)), Envelope(END_STREAM, end) + rest)
  {
    hide Envelope;
    assert Stream([], end) == Envelope(END_STREAM, end);
  }

  /** Whatever arrives, only whole envelopes are passed on, in order and unchanged. */
  lemma {:induction false} ReadsEnvelopes(r: Rules, s: Source)
    ensures ReadFrom(r, Consume(r, s), s.bytes)
    decreases |s.bytes|
  {
    hide Envelope, Length, Ended, ReadFrom;
    var b := s.bytes;
    if |b| >= HEADER && BadFlags(b[0]).None? && Length(b[1..HEADER]) <= r.maxBody && Length(b[1..HEADER]) <= |b| - HEADER {
      var size := Length(b[1..HEADER]);
      EnvelopeOf(b, size);
      if b[0] == END_STREAM {
        EndRead(r, b[HEADER..HEADER + size], b[HEADER + size..]);
      } else {
        ReadsEnvelopes(r, Source(b[HEADER + size..], s.breaks));
        OneMoreRead(r, b[HEADER..HEADER + size], Consume(r, Source(b[HEADER + size..], s.breaks)), b[HEADER + size..]);
      }
    } else {
      NothingRead(r, Consume(r, s).failure.value, b);
    }
  }

  /** A stream succeeds with just these messages if and only if it is their envelopes and a clean
      end message, and anything after. */
  lemma SucceedsIff(r: Rules, s: Source, payloads: seq<seq<byte>>)
    ensures Consume(r, s) == Outcome(payloads, None) <==> (forall p :: p in payloads ==> Fits(r, p)) && EndsWell(r, payloads, s.bytes)
  {
    hide Consume, Stream, Ended;
    ReadsEnvelopes(r, s);
    if (forall p :: p in payloads ==> Fits(r, p)) && EndsWell(r, payloads, s.bytes) {
      var end, rest :| Fits(r, end) && r.end(end) == None && s.bytes == Stream(payloads, end) + rest;
      RoundTrip(r, payloads, end, rest, s.breaks);
    }
  }

  // Why a stream fails.

  /** The bytes do not begin with a message that is whole and within the cap. */
  ghost predicate NoMessage(r: Rules, b: seq<byte>) {
    |b| >= 5 && b[0] == 0 ==> Announced(b) > r.maxBody || |b| - 5 < Announced(b)
  }

  /** The payload's length as the four bytes behind the flags give it. */
  ghost function Announced(b: seq<byte>): int
    requires |b| >= 5
  {
    b[1] as int * 0x100_0000 + b[2] as int * 0x1_0000 + b[3] as int * 0x100 + b[4] as int
  }

  /** What becomes of bytes that no message begins. */
  ghost predicate StopsWith(r: Rules, b: seq<byte>, breaks: bool, f: Option<Failure>) {
    if |b| < 5 then f == Some(if breaks then Transport else if |b| == 0 then NoEndOfStream else TruncatedHeader(|b|))
    else if b[0] % 2 == 1 then f == Some(Compressed)
    else if b[0] > 2 then f == Some(UnknownFlags(b[0]))
    else if Announced(b) > r.maxBody then f == Some(TooLarge(Announced(b)))
    else if |b| - 5 < Announced(b) then f == Some(if breaks then Transport else TruncatedPayload(Announced(b)))
    else
      var said := r.end(b[5..5 + Announced(b)]);
      if said.None? then f == None else f == Some(StreamError(said.value))
  }

  /** After the messages that arrive whole, the stream ends in just the error that the next bytes give rise
      to, or, if they are a clean end message, in none. */
  lemma {:induction false} StopsAsItMust(r: Rules, payloads: seq<seq<byte>>, tail: seq<byte>, breaks: bool)
    requires (forall p :: p in payloads ==> Fits(r, p)) && NoMessage(r, tail)
    ensures var o := Consume(r, Source(Messages(payloads) + tail, breaks));
            o.pushed == payloads && StopsWith(r, tail, breaks, o.failure)
    decreases |payloads|
  {
    if payloads == [] {
      assert Messages(payloads) + tail == tail;
      if |tail| >= 5 {
        AnnouncedIs(tail);
      }
    } else {
      var p, ps := payloads[0], payloads[1..];
      hide Envelope, StopsWith, Consume;
      StopsAsItMust(r, ps, tail, breaks);
      Assoc(Envelope(0, p), Messages(ps), tail);
      ConsumeMessage(r, p, Messages(ps) + tail, breaks);
      Cons(payloads);
    }
  }

  lemma AnnouncedIs(b: seq<byte>)
    requires |b| >= 5
    ensures Announced(b) == Length(b[1..HEADER])
  {
  }
}
