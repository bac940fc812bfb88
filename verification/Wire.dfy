/** The bridge's frame format: `[u32 length][op u8][msg u64][corr u64][seq u32][total u32][chunk]`. */
module Wire {
  import opened BigEndian
  import opened Common

  const HEADER_LEN: nat := 25
  const MAX_CHUNK: nat := 64 * 1024
  const MAX_FRAME: nat := 32 * 1024 * 1024

  const OP_HELLO: byte := 0x01
  const OP_WELCOME: byte := 0x02
  const OP_REQUEST: byte := 0x10
  const OP_RESPONSE: byte := 0x11
  const OP_SIGNAL: byte := 0x20
  const OP_PING: byte := 0x30
  const OP_PONG: byte := 0x31
  const OP_ERROR: byte := 0x40

  datatype Frame = Frame(op: byte, msgId: nat, corr: nat, seqNo: nat, total: nat, chunk: seq<byte>)

  /** The values `struct.pack(">BQQII", ...)` accepts; any other value raises. */
  predicate Packable(f: Frame) {
    f.msgId < U64 && f.corr < U64 && f.seqNo < U32 && f.total < U32
  }

  function Body(f: Frame): (b: seq<byte>)
    requires Packable(f)
    ensures |b| == HEADER_LEN + |f.chunk|
  {
    Widths();
    [f.op] + Pack(f.msgId, 8) + Pack(f.corr, 8) + Pack(f.seqNo, 4) + Pack(f.total, 4) + f.chunk
  }

  function ParseBody(b: seq<byte>): (f: Frame)
    requires HEADER_LEN <= |b|
    ensures Packable(f)
  {
    Widths();
    Frame(b[0], Unpack(b[1..9]), Unpack(b[9..17]), Unpack(b[17..21]), Unpack(b[21..25]), b[25..])
  }

  /** Where each field of the header lies: opcode, message, correlation, chunk number, chunk count. */
  lemma BodyLayout(f: Frame)
    requires Packable(f)
    ensures Pow256(8) == U64 && Pow256(4) == U32
    ensures var b := Body(f);
            && b[0] == f.op && b[1..9] == Pack(f.msgId, 8) && b[9..17] == Pack(f.corr, 8)
            && b[17..21] == Pack(f.seqNo, 4) && b[21..25] == Pack(f.total, 4) && b[25..] == f.chunk
  {
    Widths();
  }

  lemma BodyRoundTrip(f: Frame)
    requires Packable(f)
    ensures ParseBody(Body(f)) == f
  {
    BodyLayout(f);
    UnpackPack(f.msgId, 8);
    UnpackPack(f.corr, 8);
    UnpackPack(f.seqNo, 4);
    UnpackPack(f.total, 4);
  }

  /** The parser loses nothing: two bodies that read as the same frame are the same bytes. */
  lemma ParseBodyRoundTrip(b: seq<byte>)
    requires HEADER_LEN <= |b|
    ensures Body(ParseBody(b)) == b
  {
    PackUnpack(b[1..9]);
    PackUnpack(b[9..17]);
    PackUnpack(b[17..21]);
    PackUnpack(b[21..25]);
    assert b == [b[0]] + b[1..9] + b[9..17] + b[17..21] + b[21..25] + b[25..];
  }

  // ---- chunking -------------------------------------------------------------

  function Total(payload: seq<byte>): (n: nat)
    ensures n >= 1
    ensures |payload| <= n * MAX_CHUNK && (n == 1 || (n - 1) * MAX_CHUNK < |payload|)
  {
    var n := (|payload| + MAX_CHUNK - 1) / MAX_CHUNK;
    if n < 1 then 1 else n
  }

  /** `payload[i*MAX_CHUNK:(i+1)*MAX_CHUNK]`, which Python clips at the end of the payload. */
  function Chunk(payload: seq<byte>, i: nat): (c: seq<byte>)
    requires i < Total(payload)
    ensures |c| <= MAX_CHUNK
  {
    payload[Reach(payload, i)..Reach(payload, i + 1)]
  }

  /** Where chunk `i` starts. */
  function Reach(payload: seq<byte>, i: nat): (k: nat)
    ensures k <= |payload|
  {
    if i * MAX_CHUNK <= |payload| then i * MAX_CHUNK else |payload|
  }

  function FrameAt(op: byte, msgId: nat, corr: nat, payload: seq<byte>, i: nat): Frame
    requires i < Total(payload)
  {
    Frame(op, msgId, corr, i, Total(payload), Chunk(payload, i))
  }

  /** The frames `_send` cuts one message into, in sending order. */
  function Cut(op: byte, msgId: nat, corr: nat, payload: seq<byte>): (fs: seq<Frame>)
    ensures |fs| == Total(payload)
    ensures forall i :: 0 <= i < |fs| ==> fs[i] == FrameAt(op, msgId, corr, payload, i)
  {
    seq(Total(payload), i requires 0 <= i < Total(payload) => FrameAt(op, msgId, corr, payload, i))
  }

  /** `b"".join(chunks[i] for i in range(n))`. */
  function Join(chunks: map<nat, seq<byte>>, n: nat): seq<byte>
    requires forall i: nat :: i < n ==> i in chunks
  {
    if n == 0 then [] else Join(chunks, n - 1) + chunks[n - 1]
  }

  /** Joining consecutive slices of `s` gives back the stretch between the outer cut points. */
  lemma {:induction false} JoinOfSlices(s: seq<byte>, cuts: seq<nat>, chunks: map<nat, seq<byte>>, n: nat)
    requires n < |cuts|
    requires forall i: nat :: i <= n ==> cuts[i] <= |s|
    requires forall i: nat :: i < n ==> cuts[i] <= cuts[i + 1]
    requires forall i: nat :: i < n ==> i in chunks && chunks[i] == s[cuts[i]..cuts[i + 1]]
    ensures cuts[0] <= cuts[n] && Join(chunks, n) == s[cuts[0]..cuts[n]]
  {
    if n > 0 {
      JoinOfSlices(s, cuts, chunks, n - 1);
      assert s[cuts[0]..cuts[n]] == s[cuts[0]..cuts[n - 1]] + s[cuts[n - 1]..cuts[n]];
    }
  }

  /** Chunks put back in order are the payload. */
  lemma JoinOfChunks(payload: seq<byte>, chunks: map<nat, seq<byte>>)
    requires forall i: nat :: i < Total(payload) ==> i in chunks && chunks[i] == Chunk(payload, i)
    ensures Join(chunks, Total(payload)) == payload
  {
    var n := Total(payload);
    var cuts := seq(n + 1, i requires 0 <= i <= n => Reach(payload, i));
    JoinOfSlices(payload, cuts, chunks, n);
    assert cuts[0] == 0 && cuts[n] == |payload|;
  }

  // ---- the byte stream ------------------------------------------------------

  /** What travels on the socket: frames, and zero-length keep-alives the reader skips. */
  datatype Item = KeepAlive | Data(frame: Frame)

  /** What the length guard in `_read_loop` lets through. */
  predicate Transmissible(f: Frame) {
    Packable(f) && HEADER_LEN + |f.chunk| <= MAX_FRAME
  }

  predicate AllTransmissible(items: seq<Item>) {
    forall i :: 0 <= i < |items| && items[i].Data? ==> Transmissible(items[i].frame)
  }

  function Encode(item: Item): seq<byte>
    requires item.Data? ==> Transmissible(item.frame)
  {
    Widths();
    match item
    case KeepAlive => Pack(0, 4)
    case Data(f) => Pack(|Body(f)|, 4) + Body(f)
  }

  function Stream(items: seq<Item>): seq<byte>
    requires AllTransmissible(items)
  {
    if items == [] then [] else Encode(items[0]) + Stream(items[1..])
  }

  function FramesIn(items: seq<Item>): seq<Frame> {
    if items == [] then []
    else (if items[0].Data? then [items[0].frame] else []) + FramesIn(items[1..])
  }

  function AsItems(fs: seq<Frame>): (items: seq<Item>)
    ensures |items| == |fs| && forall i :: 0 <= i < |fs| ==> items[i] == Data(fs[i])
  {
    seq(|fs|, i requires 0 <= i < |fs| => Data(fs[i]))
  }

  /** What the reader finds next: the end of what it can read, a keep-alive, or a frame. */
  datatype Ahead = NoneAhead | KeepAliveAhead(rest: seq<byte>) | FrameAhead(frame: Frame, rest: seq<byte>)

  function LookAhead(s: seq<byte>): (a: Ahead)
    ensures !a.NoneAhead? ==> |a.rest| < |s|
  {
    if |s| < 4 then NoneAhead
    else
      var len := Unpack(s[..4]);
      if len == 0 then KeepAliveAhead(s[4..])
      else if len > MAX_FRAME || len < HEADER_LEN || |s| - 4 < len then NoneAhead
      else FrameAhead(ParseBody(s[4..4 + len]), s[4 + len..])
  }

  /** The frames `_read_loop` hands on when `s` is everything the peer ever sends. */
  function ParseStream(s: seq<byte>): seq<Frame>
    decreases |s|
  {
    match LookAhead(s)
    case NoneAhead => []
    case KeepAliveAhead(rest) => ParseStream(rest)
    case FrameAhead(frame, rest) => [frame] + ParseStream(rest)
  }

  /** How `ParseStream` reads on when the next four bytes are not the prefix of a whole frame, whose body is
      no shorter than 25 bytes and no longer than 32 MiB. */
  lemma ParseNone(s: seq<byte>, prefix: seq<byte>, rest: seq<byte>)
    requires s == prefix + rest && |prefix| == 4
    ensures var len := Unpack(prefix);
            && (len == 0 ==> ParseStream(s) == ParseStream(rest))
            && (len > 0x200_0000 || 0 < len < 25 || |rest| < len ==> ParseStream(s) == [])
  {
    assert s[..4] == prefix && s[4..] == rest;
  }

  lemma ParseOne(s: seq<byte>, prefix: seq<byte>, body: seq<byte>, rest: seq<byte>)
    requires s == prefix + (body + rest) && |prefix| == 4
    requires Unpack(prefix) == |body| && 25 <= |body| <= 0x200_0000
    ensures ParseStream(s) == [ParseBody(body)] + ParseStream(rest)
  {
    SplitsAt(s, prefix, body, rest);
    assert LookAhead(s) == FrameAhead(ParseBody(body), rest);
  }

  lemma SplitsAt(s: seq<byte>, prefix: seq<byte>, body: seq<byte>, rest: seq<byte>)
    requires s == prefix + (body + rest) && |prefix| == 4
    ensures s[..4] == prefix && s[4..4 + |body|] == body && s[4 + |body|..] == rest
  {
  }

  lemma EncodeParsesFirst(item: Item, rest: seq<byte>)
    requires item.Data? ==> Transmissible(item.frame)
    ensures ParseStream(Encode(item) + rest) ==
            (if item.Data? then [item.frame] else []) + ParseStream(rest)
  {
    Widths();
    match item {
      case KeepAlive =>
        UnpackPack(0, 4);
        ParseNone(Encode(item) + rest, Pack(0, 4), rest);
      case Data(f) =>
        UnpackPack(|Body(f)|, 4);
        BodyRoundTrip(f);
        Reassociate(Pack(|Body(f)|, 4), Body(f), rest);
        ParseOne(Encode(item) + rest, Pack(|Body(f)|, 4), Body(f), rest);
    }
  }

  /** A stream of whole items decodes to exactly its frames, whatever follows it. */
  lemma {:induction false} StreamDecodes(items: seq<Item>, rest: seq<byte>)
    requires AllTransmissible(items)
    ensures ParseStream(Stream(items) + rest) == FramesIn(items) + ParseStream(rest)
  {
    if items == [] {
      assert Stream(items) + rest == rest;
    } else {
      var tail := Stream(items[1..]) + rest;
      assert Stream(items) + rest == Encode(items[0]) + tail;
      EncodeParsesFirst(items[0], tail);
      StreamDecodes(items[1..], rest);
    }
  }

  lemma {:induction false} FramesInAsItems(fs: seq<Frame>)
    ensures FramesIn(AsItems(fs)) == fs
  {
    if fs != [] {
      assert AsItems(fs)[1..] == AsItems(fs[1..]);
      FramesInAsItems(fs[1..]);
    }
  }

  lemma {:induction false} StreamAppend(a: seq<Item>, b: seq<Item>)
    requires AllTransmissible(a) && AllTransmissible(b)
    ensures AllTransmissible(a + b) && Stream(a + b) == Stream(a) + Stream(b)
  {
    if a == [] {
      assert a + b == b;
    } else {
      assert (a + b)[1..] == a[1..] + b;
      StreamAppend(a[1..], b);
      assert Stream(a + b) == Encode(a[0]) + (Stream(a[1..]) + Stream(b));
    }
  }

  lemma StreamGrows(items: seq<Item>, n: nat)
    requires AllTransmissible(items) && n < |items|
    ensures AllTransmissible(items[..n]) && AllTransmissible(items[..n + 1])
    ensures Stream(items[..n + 1]) == Stream(items[..n]) + Encode(items[n])
  {
    var last := [items[n]];
    assert items[..n + 1] == items[..n] + last;
    StreamAppend(items[..n], last);
    assert last[1..] == [] && Stream(last) == Encode(items[n]);
  }

  /** Every frame `_send` can pack passes the receiver's length guard. */
  lemma CutIsTransmissible(op: byte, msgId: nat, corr: nat, payload: seq<byte>)
    requires msgId < U64 && corr < U64 && Total(payload) < U32
    ensures forall f :: f in Cut(op, msgId, corr, payload) ==>
              Transmissible(f) && HEADER_LEN <= |Body(f)| <= HEADER_LEN + MAX_CHUNK
  {
  }

  /** What `_send` writes for one message reads back as the frames it was cut into. */
  lemma CutSurvivesTheStream(op: byte, msgId: nat, corr: nat, payload: seq<byte>)
    requires msgId < U64 && corr < U64 && Total(payload) < U32
    ensures var items := AsItems(Cut(op, msgId, corr, payload));
            AllTransmissible(items) && ParseStream(Stream(items)) == Cut(op, msgId, corr, payload)
  {
    var fs := Cut(op, msgId, corr, payload);
    CutIsTransmissible(op, msgId, corr, payload);
    StreamDecodes(AsItems(fs), []);
    FramesInAsItems(fs);
    assert Stream(AsItems(fs)) + [] == Stream(AsItems(fs)) && fs + ParseStream([]) == fs;
  }

  /** Chunk `i` is the stretch of the payload from `64 KiB * i` on: 64 KiB long, but for the last. */
  lemma ChunkIs(payload: seq<byte>, i: nat)
    requires i < Total(payload)
    ensures i * 0x10000 <= |payload|
    ensures Chunk(payload, i) ==
            payload[i * 0x10000..if i < Total(payload) - 1 then (i + 1) * 0x10000 else |payload|]
  {
    assert i * MAX_CHUNK <= (Total(payload) - 1) * MAX_CHUNK;
    if i < Total(payload) - 1 {
      assert (i + 1) * MAX_CHUNK <= (Total(payload) - 1) * MAX_CHUNK;
    }
  }

  /** What one frame puts on the wire: its length in four bytes, then the header and the chunk. */
  lemma FrameOnTheWire(f: Frame)
    requires Transmissible(f)
    ensures HEADER_LEN + |f.chunk| < Pow256(4)
    ensures Stream([Data(f)]) == Pack(HEADER_LEN + |f.chunk|, 4) + Body(f)
  {
    Widths();
    assert Stream([Data(f)]) == Encode(Data(f)) + Stream([Data(f)][1..]) && [Data(f)][1..] == [];
  }
}
