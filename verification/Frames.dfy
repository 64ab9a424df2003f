/** Length-prefixed JSON frames between the gate and its workers, written and read a few bytes at a time. */
module Frames {
  import opened Common
  import opened Json
  import opened Canonical

  type Byte = b: nat | b < 0x100

  const MAX_FRAME := 262_144

  datatype FrameError = BadFrame | Oversize | TimedOut

  // ----- Frames as bytes.

  function BigEndian(n: nat): seq<Byte>
    requires n < 0x1_0000_0000
  {
    [n / 0x100_0000, n / 0x1_0000 % 0x100, n / 0x100 % 0x100, n % 0x100]
  }

  function FromBigEndian(h: seq<Byte>): nat {
    if h == [] then 0 else FromBigEndian(h[..|h| - 1]) * 0x100 + h[|h| - 1]
  }

  lemma BigEndianReadsBack(n: nat)
    requires n < 0x1_0000_0000
    ensures FromBigEndian(BigEndian(n)) == n
  {
    var h := BigEndian(n);
    var a: int, b: int, c: int := h[0], h[1], h[2];
    assert h[..3][..2] == h[..2] && h[..2][..1] == h[..1] && h[..1][..0] == [];
    assert FromBigEndian(h[..1]) == h[0] && FromBigEndian(h[..2]) == a * 0x100 + b;
    assert FromBigEndian(h[..3]) == (a * 0x100 + b) * 0x100 + c;
  }

  predicate Ascii(t: Text) {
    forall i | 0 <= i < |t| :: t[i] < 0x80
  }

  lemma {:induction false} EscapeAllIsAscii(s: Text)
    ensures Ascii(EscapeAll(s))
  {
    if s != [] {
      EscapeAllIsAscii(s[1..]);
      var e := Escape(s[0]);
      assert Ascii(e);
    }
  }

  lemma {:induction false} EmitIsAscii(v: Json)
    requires Numeric(v)
    ensures Ascii(Emit(v))
    decreases v, 1
  {
    match v
    case JString(s) => EscapeAllIsAscii(s);
    case JArray(items) => ItemsAreAscii(items);
    case JObject(fields) => FieldsAreAscii(fields);
    case _ =>
  }

  lemma {:induction false} ItemsAreAscii(items: seq<Json>)
    requires forall x | x in items :: Numeric(x)
    ensures Ascii(EmitItems(items))
    decreases items, 0
  {
    if items != [] {
      EmitIsAscii(items[0]);
      ItemsAreAscii(items[1..]);
    }
  }

  lemma {:induction false} FieldsAreAscii(fields: seq<Field>)
    requires forall f | f in fields :: Numeric(f.value)
    ensures Ascii(EmitFields(fields))
    decreases fields, 0
  {
    if fields != [] {
      EscapeAllIsAscii(fields[0].key);
      EmitIsAscii(fields[0].value);
      assert Ascii(EmitField(fields[0]));
      FieldsAreAscii(fields[1..]);
    }
  }

  /** The body of a frame: compact ASCII JSON, one byte a character. */
  function Body(payload: Args): (b: seq<Byte>)
    ensures b != []
  {
    EmitIsAscii(payload);
    Emit(payload)
  }

  function EncodeFrame(payload: Args): Result<seq<Byte>, FrameError> {
    var body := Body(payload);
    if |body| > MAX_FRAME then Err(BadFrame) else Ok(BigEndian(|body|) + body)
  }

  function FrameSize(header: seq<Byte>): Result<nat, FrameError> {
    var size := FromBigEndian(header);
    if size < 1 then Err(BadFrame)
    else if size > MAX_FRAME then Err(Oversize)
    else Ok(size)
  }

  /** A JSON reader for bodies; None where it raises. */
  type Loads = seq<Byte> -> Option<Json>

  function DecodeBody(loads: Loads, body: seq<Byte>): Result<Json, FrameError> {
    match loads(body)
    case Some(v) => if v.JObject? then Ok(v) else Err(BadFrame)
    case None => Err(BadFrame)
  }

  /** The length that a header's four bytes stand for, the first byte the highest. */
  function LengthOf(h: seq<Byte>): nat
    requires |h| >= 4
  {
    var a: int, b: int, c: int, d: int := h[0], h[1], h[2], h[3];
    a * 0x100_0000 + b * 0x1_0000 + c * 0x100 + d
  }

  lemma {:induction false} HeaderLength(h: seq<Byte>)
    requires |h| == 4
    ensures FromBigEndian(h) == LengthOf(h)
  {
    var a: int, b: int, c: int, d: int := h[0], h[1], h[2], h[3];
    assert h[..3][..2] == h[..2] && h[..2][..1] == h[..1] && h[..1][..0] == [];
    assert FromBigEndian(h[..1]) == a && FromBigEndian(h[..2]) == a * 0x100 + b;
    assert FromBigEndian(h[..3]) == (a * 0x100 + b) * 0x100 + c;
  }

  /** A frame is four bytes of length and the printed body, of at most 256 KiB; and exactly which headers are refused, and how. */
  lemma {:induction false} FrameForm(payload: Args, h: seq<Byte>)
    requires |h| == 4
    ensures EncodeFrame(payload).Ok? <==> |Emit(payload)| <= 256 * 1024
    ensures EncodeFrame(payload).Ok? ==>
              && |EncodeFrame(payload).value| == 4 + |Emit(payload)|
              && LengthOf(EncodeFrame(payload).value) == |Emit(payload)|
              && EncodeFrame(payload).value[4..] == Emit(payload)
    ensures FrameSize(h) == if LengthOf(h) == 0 then Err(BadFrame)
                            else if LengthOf(h) > 256 * 1024 then Err(Oversize) else Ok(LengthOf(h))
  {
    HeaderLength(h);
    hide Emit;
    if EncodeFrame(payload).Ok? {
      var body := Body(payload);
      var head := BigEndian(|body|);
      BigEndianReadsBack(|body|);
      HeaderLength(head);
      assert (head + body)[4..] == body;
    }
  }

  // ----- Reading as a function of the whole stream.

  /** None for a stream that ends before the first byte, an error for one that ends later. */
  function Exact(stream: seq<Byte>, size: nat): (Result<Option<seq<Byte>>, FrameError>, seq<Byte>) {
    if |stream| >= size then (Ok(Some(stream[..size])), stream[size..])
    else if stream == [] then (Ok(None), [])
    else (Err(BadFrame), [])
  }

  function Frame(stream: seq<Byte>, loads: Loads): (Result<Option<Json>, FrameError>, seq<Byte>) {
    match Exact(stream, 4)
    case (Err(e), rest) => (Err(e), rest)
    case (Ok(None), rest) => (Ok(None), rest)
    case (Ok(Some(header)), rest) =>
      match FrameSize(header)
      case Err(e) => (Err(e), rest)
      case Ok(size) =>
        match Exact(rest, size)
        case (Err(e), rest') => (Err(e), rest')
        case (Ok(None), rest') => (Err(BadFrame), rest')
        case (Ok(Some(body)), rest') =>
          match DecodeBody(loads, body)
          case Err(e) => (Err(e), rest')
          case Ok(v) => (Ok(Some(v)), rest')
  }

  // ----- Reading from a connection that delivers as it likes.

  /** How one receive goes: a signal, the deadline, or at most `k + 1` bytes. */
  datatype Delivery = Signal | Deadline | Upto(k: nat)

  datatype Received = Block(bytes: seq<Byte>) | Interrupted | PastDeadline

  /** What the peer sends before it closes, and how the bytes will arrive. */
  class Conn {
    var incoming: seq<Byte>
    var schedule: seq<Delivery>

    constructor (bytes: seq<Byte>, deliveries: seq<Delivery>)
      ensures incoming == bytes && schedule == deliveries
    {
      incoming := bytes;
      schedule := deliveries;
    }

    method Recv(n: nat) returns (r: Received)
      requires n > 0
      modifies this
      ensures |schedule| <= |old(schedule)| && schedule == old(schedule)[|old(schedule)| - |schedule|..]
      ensures r.Block? ==> old(incoming) == r.bytes + incoming && |r.bytes| <= n && (r.bytes == [] <==> old(incoming) == [])
      ensures !r.Block? ==> incoming == old(incoming)
      ensures r.Interrupted? ==> |schedule| < |old(schedule)|
      ensures r.PastDeadline? ==> Deadline in old(schedule)
    {
      var most := n;
      if schedule != [] {
        var next := schedule[0];
        schedule := schedule[1..];
        match next
        case Signal => return Interrupted;
        case Deadline => return PastDeadline;
        case Upto(k) => most := if k + 1 < n then k + 1 else n;
      }
      var size := if most < |incoming| then most else |incoming|;
      r := Block(incoming[..size]);
      incoming := incoming[size..];
    }

    /** However the bytes arrive: exactly `size` of them, none for a closed connection, or an error. */
    method ReadExact(size: nat) returns (r: Result<Option<seq<Byte>>, FrameError>)
      modifies this
      ensures |schedule| <= |old(schedule)| && schedule == old(schedule)[|old(schedule)| - |schedule|..]
      ensures r != Err(TimedOut) ==> (r, incoming) == Exact(old(incoming), size)
      ensures r == Err(TimedOut) ==>
                && Deadline in old(schedule)
                && exists n | 0 <= n < size && n <= |old(incoming)| :: incoming == old(incoming)[n..]
    {
      var chunks: seq<Byte> := [];
      while |chunks| < size
        invariant |chunks| <= size && old(incoming) == chunks + incoming
        invariant |schedule| <= |old(schedule)| && schedule == old(schedule)[|old(schedule)| - |schedule|..]
        decreases size - |chunks|, |schedule|
      {
        var block := Recv(size - |chunks|);
        match block
        case PastDeadline =>
          assert incoming == old(incoming)[|chunks|..];
          return Err(TimedOut);
        case Interrupted =>
        case Block(bytes) =>
          if bytes == [] {
            if chunks == [] {
              return Ok(None);
            }
            return Err(BadFrame);
          }
          chunks := chunks + bytes;
      }
      assert chunks == old(incoming)[..size] && incoming == old(incoming)[size..];
      return Ok(Some(chunks));
    }

    /** One frame, for every way its bytes can arrive before the deadline; never a byte beyond it. */
    method ReadFrame(loads: Loads) returns (r: Result<Option<Json>, FrameError>)
      modifies this
      ensures |schedule| <= |old(schedule)| && schedule == old(schedule)[|old(schedule)| - |schedule|..]
      ensures r != Err(TimedOut) ==> (r, incoming) == Frame(old(incoming), loads)
      ensures r == Err(TimedOut) ==> Deadline in old(schedule)
    {
      var header := ReadExact(4);
      match header
      case Err(e) => return Err(e);
      case Ok(None) => return Ok(None);
      case Ok(Some(h)) =>
        var size := FrameSize(h);
        match size
        case Err(e) => return Err(e);
        case Ok(n) =>
          var body := ReadExact(n);
          match body
          case Err(e) => return Err(e);
          case Ok(None) => return Err(BadFrame);
          case Ok(Some(b)) =>
            match DecodeBody(loads, b)
            case Err(e) => return Err(e);
            case Ok(v) => return Ok(Some(v));
    }
  }

  // ----- Writing to a descriptor that takes as much as it likes.

  datatype Written = TookSignal | TookNothing | Took(k: nat)

  class Pipe {
    var sent: seq<Byte>
    var schedule: seq<Written>

    constructor (takes: seq<Written>)
      ensures sent == [] && schedule == takes
    {
      sent := [];
      schedule := takes;
    }

    /** Every byte in order, or an error with some of them written. */
    method WriteFrame(payload: Args) returns (r: Result<(), FrameError>)
      modifies this
      ensures r.Ok? ==> EncodeFrame(payload).Ok? && sent == old(sent) + EncodeFrame(payload).value
      ensures EncodeFrame(payload).Err? ==> sent == old(sent)
      ensures EncodeFrame(payload).Ok? && r.Err? ==>
                && TookNothing in old(schedule)
                && exists n | 0 <= n < |EncodeFrame(payload).value| :: sent == old(sent) + EncodeFrame(payload).value[..n]
    {
      var frame := EncodeFrame(payload);
      if frame.Err? {
        return Err(BadFrame);
      }
      var view := frame.value;
      ghost var done := 0;
      while view != []
        invariant 0 <= done <= |frame.value| && view == frame.value[done..] && sent == old(sent) + frame.value[..done]
        invariant |schedule| <= |old(schedule)| && schedule == old(schedule)[|old(schedule)| - |schedule|..]
        decreases |view|, |schedule|
      {
        var wrote := |view|;
        if schedule != [] {
          var next := schedule[0];
          schedule := schedule[1..];
          match next
          case TookSignal => continue;
          case TookNothing => return Err(BadFrame);
          case Took(k) => wrote := if k + 1 < |view| then k + 1 else |view|;
        }
        sent := sent + view[..wrote];
        view := view[wrote..];
        done := done + wrote;
      }
      return Ok(());
    }
  }

  // ----- Round trips.

  /** The reader gives back what the printer wrote. */
  ghost predicate ReadsPrinted(loads: Loads) {
    forall v: Args | Decoded(v) :: loads(Body(v)) == Some(v)
  }

  /** A reader for printed bodies, as a witness that one exists. */
  function PrintedReader(b: seq<Byte>): Option<Json> {
    match ReadValue(b)
    case Some((v, rest)) => if rest == [] then Some(Build(v)) else None
    case None => None
  }

  lemma PrintedReaderReads()
    ensures ReadsPrinted(PrintedReader)
  {
    forall v: Args | Decoded(v) ensures PrintedReader(Body(v)) == Some(v) {
      ValueReads(v, []);
      assert Emit(v) + [] == Emit(v);
      MergeAllDecodes(v);
      BuildKeepsDict(v);
    }
  }

  predicate Encodable(v: Json) {
    v.JObject? && Numeric(v) && IsDict(v) && Decoded(v) && EncodeFrame(v).Ok?
  }

  lemma FrameReadsBack(v: Json, tail: seq<Byte>, loads: Loads)
    requires Encodable(v) && ReadsPrinted(loads)
    ensures Frame(EncodeFrame(v).value + tail, loads) == (Ok(Some(v)), tail)
  {
    var body := Body(v);
    var header := BigEndian(|body|);
    var stream := EncodeFrame(v).value + tail;
    BigEndianReadsBack(|body|);
    assert loads(Body(v)) == Some(v);
    assert stream[..4] == header && stream[4..] == body + tail;
    assert (body + tail)[..|body|] == body && (body + tail)[|body|..] == tail;
  }

  function Stream(vs: seq<Json>): seq<Byte>
    requires forall k | 0 <= k < |vs| :: Encodable(vs[k])
  {
    if vs == [] then []
    else
      assert Encodable(vs[0]);
      EncodeFrame(vs[0]).value + Stream(vs[1..])
  }

  /** What `n` reads in a row return, and what is left. */
  function Reads(stream: seq<Byte>, n: nat, loads: Loads): (seq<Result<Option<Json>, FrameError>>, seq<Byte>)
    decreases n
  {
    if n == 0 then ([], stream)
    else
      var (r, rest) := Frame(stream, loads);
      var (more, end) := Reads(rest, n - 1, loads);
      ([r] + more, end)
  }

  function Payloads(vs: seq<Json>): (r: seq<Result<Option<Json>, FrameError>>)
    ensures |r| == |vs| && forall k | 0 <= k < |vs| :: r[k] == Ok(Some(vs[k]))
  {
    if vs == [] then [] else [Ok(Some(vs[0]))] + Payloads(vs[1..])
  }

  /** Frames written one after the other are read one after the other, and then the end is seen. */
  lemma {:induction false} StreamReadsBack(vs: seq<Json>, loads: Loads)
    requires (forall k | 0 <= k < |vs| :: Encodable(vs[k])) && ReadsPrinted(loads)
    ensures Reads(Stream(vs), |vs| + 1, loads) == (Payloads(vs) + [Ok(None)], [])
  {
    hide Frame, Encodable, EncodeFrame, ReadsPrinted;
    if vs == [] {
      assert Frame([], loads) == (Ok(None), []) by { EmptyStreamEnds(loads); }
      assert Reads([], 0, loads) == ([], []);
      assert Reads([], 1, loads) == ([Ok(None)] + [], []);
      assert Payloads([]) + [Ok(None)] == [Ok(None)] + [];
    } else {
      FrameReadsBack(vs[0], Stream(vs[1..]), loads);
      StreamReadsBack(vs[1..], loads);
      assert [Ok(Some(vs[0]))] + (Payloads(vs[1..]) + [Ok(None)]) == Payloads(vs) + [Ok(None)];
    }
  }

  lemma EmptyStreamEnds(loads: Loads)
    ensures Frame([], loads) == (Ok(None), [])
  {}

  /** A header of zero or over the limit is refused with nothing taken but the header, and nothing else is refused as oversize. */
  lemma HeaderRefusals(stream: seq<Byte>, loads: Loads)
    requires |stream| >= 4
    ensures var size := FromBigEndian(stream[..4]);
            && (Frame(stream, loads).0 == Err(Oversize) <==> size > MAX_FRAME)
            && (size == 0 || size > MAX_FRAME ==> Frame(stream, loads).0.Err? && Frame(stream, loads).1 == stream[4..])
            && (1 <= size <= MAX_FRAME && |stream| >= 4 + size ==> Frame(stream, loads).1 == stream[4 + size..])
  {
    var size := FromBigEndian(stream[..4]);
    if 1 <= size <= MAX_FRAME && |stream| >= 4 + size {
      assert stream[4..][size..] == stream[4 + size..];
    }
  }
}
