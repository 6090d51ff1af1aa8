/** What a body comes to on an HTTP/1.1 wire: h11's three ways to frame it, with the bytes themselves
    or with the placeholder of src/anycorn/protocol/h11.py that reports their number. */
module Framing {
  import opened Common
  import opened SendFiles

  /** h11's writers; `left` is what remains of the declared content length. */
  datatype Framing = ContentLength(left: nat) | Chunked | UntilClose

  /** The TCP server gets raw bytes and windows of files to send. */
  datatype Item = RawData(data: Bytes) | SendFile(offset: nat, count: nat)

  datatype Payload = Data(data: Bytes) | Placeholder(offset: nat, count: nat)

  function Length(p: Payload): nat { if p.Data? then |p.data| else p.count }

  function ItemOf(p: Payload): Item { if p.Data? then RawData(p.data) else SendFile(p.offset, p.count) }

  // ---- chunk sizes ----------------------------------------------------------------------------------

  function Digit(d: nat): byte
    requires d < 16
  {
    if d < 10 then 48 + d else 87 + d
  }

  function Hex(n: nat): (h: Bytes)
    ensures h != []
  {
    if n < 16 then [Digit(n)] else Hex(n / 16) + [Digit(n % 16)]
  }

  /** The value of hexadecimal digits, None for anything else. */
  function Unhex(h: Bytes): Option<nat> {
    if h == [] then Some(0)
    else
      var high := Unhex(h[..|h| - 1]);
      var low := h[|h| - 1];
      if high.Some? && IsHexDigit(low) then Some(16 * high.value + HexDigitValue(low)) else None
  }

  lemma {:induction false} UnhexHex(n: nat)
    ensures Unhex(Hex(n)) == Some(n)
    decreases n
  {
    var h := Hex(n);
    if n < 16 {
      assert h[..|h| - 1] == [];
    } else {
      UnhexHex(n / 16);
      assert h[..|h| - 1] == Hex(n / 16);
    }
  }

  const CRLF: Bytes := [13, 10]

  // ---- framing --------------------------------------------------------------------------------------

  /** `send_data` of the writer in use; None where h11 raises. A chunk of length zero would read as
      the end of the body, so it writes nothing. */
  function Frame(f: Framing, p: Payload): Option<(Framing, seq<Item>)> {
    match f
    case ContentLength(left) =>
      if Length(p) > left then None else Some((ContentLength(left - Length(p)), [ItemOf(p)]))
    case Chunked =>
      if Length(p) == 0 then Some((f, []))
      else Some((f, [RawData(Hex(Length(p)) + CRLF), ItemOf(p), RawData(CRLF)]))
    case UntilClose => Some((f, [ItemOf(p)]))
  }

  function ItemBytes(file: Bytes, item: Item): Bytes {
    if item.RawData? then item.data else Window(file, item.offset, Some(item.count))
  }

  /** What the TCP server puts on the wire: SendFiles says that a window goes out as it is. */
  function Wire(file: Bytes, items: seq<Item>): Bytes {
    if items == [] then [] else ItemBytes(file, items[0]) + Wire(file, items[1..])
  }

  lemma WireOf(file: Bytes, item: Item)
    ensures Wire(file, [item]) == ItemBytes(file, item)
  {
    assert [item][1..] == [];
  }

  lemma WireOfChunk(file: Bytes, head: Bytes, item: Item)
    ensures Wire(file, [RawData(head), item, RawData(CRLF)]) == head + Wire(file, [item]) + CRLF
  {
    var items := [RawData(head), item, RawData(CRLF)];
    assert items[1..] == [item, RawData(CRLF)] && [item, RawData(CRLF)][1..] == [RawData(CRLF)];
    WireOf(file, RawData(CRLF));
    WireOf(file, item);
  }

  /** The outcome of a framing as the client sees it. */
  function Seen(file: Bytes, r: Option<(Framing, seq<Item>)>): Option<(Framing, Bytes)> {
    if r.None? then None else Some((r.value.0, Wire(file, r.value.1)))
  }

  predicate Inside(file: Bytes, offset: nat, count: nat) { count == 0 || offset + count <= |file| }

  /** A zero-copy send of a window inside the file is on the wire what a body with its bytes is. */
  lemma ZeroCopyIsABody(f: Framing, file: Bytes, offset: nat, count: nat)
    requires Inside(file, offset, count)
    ensures Seen(file, Frame(f, Placeholder(offset, count)))
         == Seen(file, Frame(f, Data(Window(file, offset, Some(count)))))
  {
    var bytes := Window(file, offset, Some(count));
    WireOf(file, SendFile(offset, count));
    WireOf(file, RawData(bytes));
    WireOfChunk(file, Hex(count) + CRLF, SendFile(offset, count));
    WireOfChunk(file, Hex(count) + CRLF, RawData(bytes));
  }

  /** Outside the file that holds where no size is announced, or where even the bytes that are there
      exceed the content length and h11 raises; else a chunk says a size that does not come, or
      the content length is used up too soon. */
  lemma OnlyInsideTheFile(f: Framing, file: Bytes, offset: nat, count: nat)
    requires !Inside(file, offset, count)
    ensures
      var bytes := Window(file, offset, Some(count));
      (Seen(file, Frame(f, Placeholder(offset, count))) == Seen(file, Frame(f, Data(bytes))))
      <==> (f.UntilClose? || (f.ContentLength? && f.left < |bytes|))
  {
    var bytes := Window(file, offset, Some(count));
    assert |bytes| < count;
    WireOf(file, SendFile(offset, count));
    WireOf(file, RawData(bytes));
    if f.Chunked? {
      WireOfChunk(file, Hex(count) + CRLF, SendFile(offset, count));
      WireOfChunk(file, Hex(|bytes|) + CRLF, RawData(bytes));
      ChunkSizesDiffer(count, |bytes|, bytes, bytes);
    }
  }

  // ---- reading chunks back --------------------------------------------------------------------------

  /** The position of the first CRLF, the length where there is none. */
  function LineEnd(b: Bytes): (n: nat)
    ensures n <= |b| && (n < |b| ==> n + 1 < |b| && b[n..n + 2] == CRLF)
  {
    if |b| < 2 then |b|
    else if b[..2] == CRLF then 0
    else 1 + LineEnd(b[1..])
  }

  datatype Chunk = Malformed | Last | More(data: Bytes, rest: Bytes)

  /** Section 7.1 of RFC 9112, without extensions and trailers: one chunk. */
  function ReadChunk(b: Bytes): (c: Chunk)
    ensures c.More? ==> |c.rest| < |b|
  {
    var n := LineEnd(b);
    var size := if n == |b| || n == 0 then None else Unhex(b[..n]);
    if size.None? then Malformed
    else if size.value == 0 then (if b[n..] == CRLF + CRLF then Last else Malformed)
    else if n + 4 + size.value > |b| || b[n + 2 + size.value..n + 4 + size.value] != CRLF then Malformed
    else More(b[n + 2..n + 2 + size.value], b[n + 4 + size.value..])
  }

  /** What a client makes of all of them. */
  function Dechunk(b: Bytes): Option<Bytes>
    decreases |b|
  {
    var c := ReadChunk(b);
    if c.Malformed? then None
    else if c.Last? then Some([])
    else
      var rest := Dechunk(c.rest);
      if rest.None? then None else Some(c.data + rest.value)
  }

  lemma {:induction false} HexLine(n: nat, rest: Bytes)
    ensures LineEnd(Hex(n) + CRLF + rest) == |Hex(n)|
  {
    HexDigits(n);
    NoCrlf(Hex(n), rest);
  }

  lemma {:induction false} HexDigits(n: nat)
    ensures forall i :: 0 <= i < |Hex(n)| ==> Hex(n)[i] != 13
    decreases n
  {
    if n >= 16 {
      HexDigits(n / 16);
    }
  }

  lemma {:induction false} NoCrlf(head: Bytes, rest: Bytes)
    requires forall i :: 0 <= i < |head| ==> head[i] != 13
    ensures LineEnd(head + CRLF + rest) == |head|
    decreases |head|
  {
    var b := head + CRLF + rest;
    if head == [] {
      assert b[..2] == CRLF;
    } else {
      assert b[1..] == head[1..] + CRLF + rest;
      assert b[..2][0] != 13;
      NoCrlf(head[1..], rest);
    }
  }

  lemma ChunkSizesDiffer(m: nat, n: nat, a: Bytes, b: Bytes)
    requires m != n
    ensures Hex(m) + CRLF + a + CRLF != Hex(n) + CRLF + b + CRLF
  {
    assert Hex(m) + CRLF + a + CRLF == Hex(m) + CRLF + (a + CRLF);
    assert Hex(n) + CRLF + b + CRLF == Hex(n) + CRLF + (b + CRLF);
    HexLine(m, a + CRLF);
    HexLine(n, b + CRLF);
    UnhexHex(m);
    UnhexHex(n);
    assert (Hex(m) + CRLF + (a + CRLF))[..|Hex(m)|] == Hex(m);
    assert (Hex(n) + CRLF + (b + CRLF))[..|Hex(n)|] == Hex(n);
  }

  /** The items of a whole chunked body, its last chunk included. */
  function ChunkedBody(payloads: seq<Payload>): seq<Item> {
    if payloads == [] then [RawData(Hex(0) + CRLF + CRLF)]
    else Frame(Chunked, payloads[0]).value.1 + ChunkedBody(payloads[1..])
  }

  function Bodies(file: Bytes, payloads: seq<Payload>): Bytes {
    if payloads == [] then []
    else Wire(file, [ItemOf(payloads[0])]) + Bodies(file, payloads[1..])
  }

  lemma {:induction false} WireConcat(file: Bytes, a: seq<Item>, b: seq<Item>)
    ensures Wire(file, a + b) == Wire(file, a) + Wire(file, b)
    decreases |a|
  {
    if a == [] {
      assert a + b == b;
    } else {
      WireConcat(file, a[1..], b);
      assert (a + b)[1..] == a[1..] + b;
      Associate(ItemBytes(file, a[0]), Wire(file, a[1..]), Wire(file, b));
    }
  }

  /** A client reads back exactly the bodies, whether sent as bytes or out of the file. */
  lemma {:induction false} ChunksReadBack(file: Bytes, payloads: seq<Payload>)
    requires forall i :: 0 <= i < |payloads| && payloads[i].Placeholder? ==>
      Inside(file, payloads[i].offset, payloads[i].count)
    ensures Dechunk(Wire(file, ChunkedBody(payloads))) == Some(Bodies(file, payloads))
    decreases |payloads|
  {
    if payloads == [] {
      LastChunkReadsBack(file);
    } else {
      ChunksReadBack(file, payloads[1..]);
      WireConcat(file, Frame(Chunked, payloads[0]).value.1, ChunkedBody(payloads[1..]));
      ChunkReadsBack(file, payloads[0], Wire(file, ChunkedBody(payloads[1..])));
    }
  }

  lemma LastChunkReadsBack(file: Bytes)
    ensures Dechunk(Wire(file, ChunkedBody([]))) == Some([])
  {
    var b := Hex(0) + CRLF + CRLF;
    WireOf(file, RawData(b));
    HexLine(0, CRLF);
    assert b == [48, 13, 10, 13, 10];
    assert b[..1] == [48] && b[1..] == CRLF + CRLF;
    UnhexHex(0);
  }

  lemma ChunkReadsBack(file: Bytes, p: Payload, rest: Bytes)
    requires p.Placeholder? ==> Inside(file, p.offset, p.count)
    requires Dechunk(rest).Some?
    ensures Dechunk(Wire(file, Frame(Chunked, p).value.1) + rest) == Some(Wire(file, [ItemOf(p)]) + Dechunk(rest).value)
  {
    var data := Wire(file, [ItemOf(p)]);
    WireOf(file, ItemOf(p));
    if Length(p) == 0 {
      assert [] + rest == rest && [] + Dechunk(rest).value == Dechunk(rest).value;
    } else {
      WireOfChunk(file, Hex(Length(p)) + CRLF, ItemOf(p));
      DechunkOne(data, rest);
    }
  }

  /** Where the parts of a chunk lie. */
  lemma ChunkParts(h: Bytes, data: Bytes, rest: Bytes)
    ensures
      var b := h + CRLF + (data + CRLF + rest);
      && b == h + CRLF + data + CRLF + rest
      && b[..|h|] == h && b[|h| + 2..|h| + 2 + |data|] == data
      && b[|h| + 2 + |data|..|h| + 4 + |data|] == CRLF && b[|h| + 4 + |data|..] == rest
  {
    var b := h + CRLF + (data + CRLF + rest);
    var tail := data + CRLF + rest;
    assert b[|h| + 2..] == tail;
    assert tail[..|data|] == data && tail[|data|..|data| + 2] == CRLF && tail[|data| + 2..] == rest;
  }

  lemma ReadChunkParts(h: Bytes, data: Bytes, rest: Bytes)
    requires LineEnd(h + CRLF + (data + CRLF + rest)) == |h| > 0 && data != [] && Unhex(h) == Some(|data|)
    ensures ReadChunk(h + CRLF + (data + CRLF + rest)) == More(data, rest)
  {
    ChunkParts(h, data, rest);
  }

  lemma DechunkOne(data: Bytes, rest: Bytes)
    requires data != [] && Dechunk(rest).Some?
    ensures Dechunk(Hex(|data|) + CRLF + data + CRLF + rest) == Some(data + Dechunk(rest).value)
  {
    var h := Hex(|data|);
    ChunkParts(h, data, rest);
    HexLine(|data|, data + CRLF + rest);
    UnhexHex(|data|);
    ReadChunkParts(h, data, rest);
  }

  // ---- bodies that are not chunked --------------------------------------------------------------------

  /** Payloads one after the other; None as soon as h11 raises. */
  function FrameAll(f: Framing, payloads: seq<Payload>): Option<(Framing, seq<Item>)>
    decreases |payloads|
  {
    if payloads == [] then Some((f, []))
    else
      var first := Frame(f, payloads[0]);
      if first.None? then None
      else
        var rest := FrameAll(first.value.0, payloads[1..]);
        if rest.None? then None else Some((rest.value.0, first.value.1 + rest.value.1))
  }

  function Total(payloads: seq<Payload>): nat {
    if payloads == [] then 0 else Length(payloads[0]) + Total(payloads[1..])
  }

  lemma {:induction false} TotalIsLength(file: Bytes, payloads: seq<Payload>)
    requires forall i :: 0 <= i < |payloads| && payloads[i].Placeholder? ==>
      Inside(file, payloads[i].offset, payloads[i].count)
    ensures |Bodies(file, payloads)| == Total(payloads)
  {
    if payloads != [] {
      TotalIsLength(file, payloads[1..]);
      WireOf(file, ItemOf(payloads[0]));
    }
  }

  /** Under a content length of n, bodies are accepted exactly as long as they do not exceed it, and a client
      that reads the connection finds their bytes and nothing else; all n of them exactly if h11 then
      lets the response end. */
  lemma {:induction false} CountedReadsBack(file: Bytes, n: nat, payloads: seq<Payload>)
    ensures
      var r := FrameAll(ContentLength(n), payloads);
      && (r.Some? <==> Total(payloads) <= n)
      && (r.Some? ==> r.value.0 == ContentLength(n - Total(payloads))
                      && Wire(file, r.value.1) == Bodies(file, payloads))
    decreases |payloads|
  {
    if payloads != [] && Length(payloads[0]) <= n {
      var first := [ItemOf(payloads[0])];
      var left := n - Length(payloads[0]);
      CountedReadsBack(file, left, payloads[1..]);
      if FrameAll(ContentLength(left), payloads[1..]).Some? {
        WireConcat(file, first, FrameAll(ContentLength(left), payloads[1..]).value.1);
      }
    }
  }

  /** Without either, everything is accepted and the client reads it up to the end of the connection. */
  lemma {:induction false} UntilCloseReadsBack(file: Bytes, payloads: seq<Payload>)
    ensures
      var r := FrameAll(UntilClose, payloads);
      r.Some? && r.value.0 == UntilClose && Wire(file, r.value.1) == Bodies(file, payloads)
    decreases |payloads|
  {
    if payloads != [] {
      UntilCloseReadsBack(file, payloads[1..]);
      WireConcat(file, [ItemOf(payloads[0])], FrameAll(UntilClose, payloads[1..]).value.1);
    }
  }
}
