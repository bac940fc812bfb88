/** The bridge client's sender and reader, as they work on their own sockets and tables. */
module BridgeClient {
  import opened BigEndian
  import opened Common
  import opened Matcher
  import opened Outbox
  import opened Reassembly
  import opened Wire

  /** What one `recv` call does; `closing` says another thread closed the client meanwhile. */
  datatype Moment =
    | Arrives(size: nat, closing: bool)
    | Stalls(closing: bool)  // socket.timeout
    | Breaks                 // any other OSError

  datatype Received = Bytes(data: seq<byte>, closing: bool) | TimedOut(closing: bool) | Failed

  predicate Benign(script: seq<Moment>) {
    forall i :: 0 <= i < |script| ==> !script[i].Breaks? && !script[i].closing
  }

  /**
    A connected socket. `inbox` is all the peer will ever send and has not been read; `script` cuts it
    into reads and puts timeouts between them in any way. Once the script is used up reads are eager.
   */
  class Socket {
    var inbox: seq<byte>
    var script: seq<Moment>
    var outbox: seq<byte>

    constructor (inbox: seq<byte>, script: seq<Moment>)
      ensures this.inbox == inbox && this.script == script && outbox == []
    {
      this.inbox, this.script, outbox := inbox, script, [];
    }

    /** No more than `n` bytes, at least one unless the stream has ended. */
    method Recv(n: nat) returns (r: Received)
      requires n > 0
      modifies this`inbox, this`script
      ensures script == if old(script) == [] then [] else old(script)[1..]
      ensures r.Bytes? ==> |r.data| <= n && old(inbox) == r.data + inbox && (r.data == [] ==> inbox == [])
      ensures !r.Bytes? ==> inbox == old(inbox) && old(script) != []
      ensures Benign(old(script)) ==> !r.Failed? && !r.closing
    {
      var moment := if script == [] then Arrives(n, false) else script[0];
      script := if script == [] then [] else script[1..];
      match moment {
        case Breaks => r := Failed;
        case Stalls(closing) => r := TimedOut(closing);
        case Arrives(size, closing) =>
          var k := if size == 0 then 1 else if size > n then n else size;
          k := if k > |inbox| then |inbox| else k;
          r := Bytes(inbox[..k], closing);
          inbox := inbox[k..];
      }
    }

    method SendAll(data: seq<byte>)
      modifies this`outbox
      ensures outbox == old(outbox) + data
    {
      outbox := outbox + data;
    }
  }

  /** A decoded answer: an empty payload decodes to None, any other is kept as its JSON text. */
  type Value = Option<seq<byte>>

  function ValueOf(payload: seq<byte>): Value {
    if payload == [] then None else Some(payload)
  }

  predicate Answers(op: byte) {
    op == OP_RESPONSE || op == OP_WELCOME || op == OP_PONG || op == OP_ERROR
  }

  /** `_on_message`, the part that concerns waiting callers. */
  function Route(t: Table<nat, Value>, m: Message): Table<nat, Value> {
    if Answers(m.op) then Complete(t, m.corr, ValueOf(m.payload)) else t
  }

  function RouteAll(t: Table<nat, Value>, ms: seq<Message>): Table<nat, Value> {
    if ms == [] then t else Route(RouteAll(t, ms[..|ms| - 1]), ms[|ms| - 1])
  }

  /** The pushed signals the handler is called with. */
  function Signals(ms: seq<Message>, d: Decoder): seq<seq<byte>> {
    if ms == [] then []
    else
      var m := ms[|ms| - 1];
      Signals(ms[..|ms| - 1], d) + if Heard(d, m) then [m.payload] else []
  }

  /** All that the reader thread changes. */
  datatype Reader = Reader(rx: Receiver, waiters: Table<nat, Value>, signalled: seq<seq<byte>>)

  /**
    What `json.loads` makes of a payload that is not empty. `decodes` is false when it raises anything but
    `JSONDecodeError`, as it does for bytes that are not text; `isObject` says that it gives an object.
    `handled` is whether a signal handler is set.
   */
  datatype Decoder = Decoder(decodes: seq<byte> -> bool, isObject: seq<byte> -> bool, handled: bool)

  predicate Readable(d: Decoder, payload: seq<byte>) {
    payload == [] || d.decodes(payload)
  }

  predicate Heard(d: Decoder, m: Message) {
    m.op == OP_SIGNAL && d.handled && m.payload != [] && d.isObject(m.payload)
  }

  /** `_on_message`, which raises out of the reader thread when the payload cannot be decoded. */
  function ReadMessage(d: Decoder, rd: Reader, ps: map<nat, Partial>, m: Message): Reader {
    if !Readable(d, m.payload) then rd.(rx := rd.rx.(partials := ps, dead := true))
    else
      Reader(Receiver(ps, rd.rx.out + [m], rd.rx.dead), Route(rd.waiters, m),
             rd.signalled + if Heard(d, m) then [m.payload] else [])
  }

  function ReadFrame(d: Decoder, rd: Reader, f: Frame): Reader {
    if rd.rx.dead then rd
    else match Dispatch(rd.rx.partials, f)
      case Kept(ps) => rd.(rx := rd.rx.(partials := ps))
      case Handed(ps, m) => ReadMessage(d, rd, ps, m)
      case KeyMissing(ps) => rd.(rx := rd.rx.(partials := ps, dead := true))
  }

  function ReadFrames(d: Decoder, rd: Reader, fs: seq<Frame>): Reader {
    if fs == [] then rd else ReadFrame(d, ReadFrames(d, rd, fs[..|fs| - 1]), fs[|fs| - 1])
  }

  lemma RouteOne(t: Table<nat, Value>, ms: seq<Message>, m: Message, d: Decoder)
    ensures RouteAll(t, ms + [m]) == Route(RouteAll(t, ms), m)
    ensures Signals(ms + [m], d) == Signals(ms, d) + if Heard(d, m) then [m.payload] else []
  {
    assert (ms + [m])[..|ms|] == ms;
  }

  lemma ReadOneMore(d: Decoder, rd: Reader, fs: seq<Frame>, f: Frame)
    ensures ReadFrames(d, rd, fs + [f]) == ReadFrame(d, ReadFrames(d, rd, fs), f)
  {
    assert (fs + [f])[..|fs|] == fs;
  }

  /** Exactly which frame kills the reader: one that fills a count but leaves a gap, or that hands on a
      payload which cannot be decoded. */
  lemma FrameKillsIff(d: Decoder, rd: Reader, f: Frame)
    requires !rd.rx.dead
    ensures var got := Dispatch(rd.rx.partials, f);
            ReadFrame(d, rd, f).rx.dead <==>
            FillsWithGap(rd.rx.partials, f) || (got.Handed? && !Readable(d, got.message.payload))
  {
    DispatchRaisesIff(rd.rx.partials, f);
  }

  /** Some message handed on after the first `n` cannot be decoded. */
  ghost predicate Unreadable(d: Decoder, ms: seq<Message>, n: nat) {
    exists i :: n <= i < |ms| && !Readable(d, ms[i].payload)
  }

  lemma UnreadableGrows(d: Decoder, ms: seq<Message>, m: Message, n: nat)
    requires n <= |ms|
    ensures Unreadable(d, ms + [m], n) <==> Unreadable(d, ms, n) || !Readable(d, m.payload)
  {
    var all := ms + [m];
    assert all[|ms|] == m && forall i :: 0 <= i < |ms| ==> all[i] == ms[i];
  }

  /** Reading frames is reassembly, up to a frame that kills the reader: it dies exactly when reassembly
      raises or hands on a payload that cannot be decoded ... */
  lemma {:induction false} ReadFramesReassembles(d: Decoder, rd: Reader, fs: seq<Frame>)
    ensures var (end, all) := (ReadFrames(d, rd, fs).rx, Feed(rd.rx, fs));
            && rd.rx.out <= all.out
            && (end.dead <==> all.dead || Unreadable(d, all.out, |rd.rx.out|))
            && (!end.dead ==> end == all)
  {
    if fs != [] {
      var front, f := fs[..|fs| - 1], fs[|fs| - 1];
      ReadFramesReassembles(d, rd, front);
      var mid := Feed(rd.rx, front);
      if !mid.dead && Dispatch(mid.partials, f).Handed? {
        UnreadableGrows(d, mid.out, Dispatch(mid.partials, f).message, |rd.rx.out|);
      }
    }
  }

  /** The tables and signals are what routing the messages taken in gives. */
  ghost predicate Routed(d: Decoder, start: Reader, rd: Reader) {
    rd.waiters == RouteAll(start.waiters, rd.rx.out) && rd.signalled == start.signalled + Signals(rd.rx.out, d)
  }

  lemma MessageIsRouted(d: Decoder, start: Reader, rd: Reader, ps: map<nat, Partial>, m: Message)
    requires Routed(d, start, rd)
    ensures Routed(d, start, ReadMessage(d, rd, ps, m))
  {
    RouteOne(start.waiters, rd.rx.out, m, d);
    Reassociate(start.signalled, Signals(rd.rx.out, d), if Heard(d, m) then [m.payload] else []);
  }

  lemma FrameIsRouted(d: Decoder, start: Reader, rd: Reader, f: Frame)
    requires Routed(d, start, rd)
    ensures Routed(d, start, ReadFrame(d, rd, f))
  {
    var got := Dispatch(rd.rx.partials, f);
    if !rd.rx.dead && got.Handed? {
      MessageIsRouted(d, start, rd, got.partials, got.message);
    }
  }

  /** ... and then routing of each message it takes in: answers to waiters, signals to the handler. */
  lemma {:induction false} ReadFramesRoutes(d: Decoder, rd: Reader, fs: seq<Frame>)
    requires rd.rx.out == []
    ensures Routed(d, rd, ReadFrames(d, rd, fs))
  {
    if fs == [] {
      assert rd.signalled + [] == rd.signalled;
    } else {
      ReadFramesRoutes(d, rd, fs[..|fs| - 1]);
      FrameIsRouted(d, rd, ReadFrames(d, rd, fs[..|fs| - 1]), fs[|fs| - 1]);
    }
  }

  /** The handler hears exactly the signals it can read as objects. */
  lemma {:induction false} SignalsMean(ms: seq<Message>, d: Decoder, payload: seq<byte>)
    ensures payload in Signals(ms, d) <==>
            d.handled && payload != [] && d.isObject(payload) &&
            exists m :: m in ms && m.op == OP_SIGNAL && m.payload == payload
  {
    if ms != [] {
      var front, last := ms[..|ms| - 1], ms[|ms| - 1];
      assert ms == front + [last];
      SignalsMean(front, d, payload);
    }
  }

  function Hearing(d: Decoder): Message -> Option<seq<byte>> {
    m => if Heard(d, m) then Some(m.payload) else None
  }

  lemma {:induction false} SignalsAreCollected(ms: seq<Message>, d: Decoder)
    ensures Signals(ms, d) == Collect(Hearing(d), ms)
  {
    if ms != [] {
      SignalsAreCollected(ms[..|ms| - 1], d);
    }
  }

  /** One call of the handler for each such message, in the order they were handed on. */
  lemma SignalsInOrder(ms: seq<Message>, d: Decoder) returns (at: seq<nat>)
    ensures |Signals(ms, d)| == |at| && (forall i, j :: 0 <= i < j < |at| ==> at[i] < at[j])
    ensures forall i :: 0 <= i < |at| ==> at[i] < |ms| && Signals(ms, d)[i] == ms[at[i]].payload
    ensures forall k :: 0 <= k < |ms| ==>
              (k in at <==> ms[k].op == OP_SIGNAL && d.handled && ms[k].payload != [] && d.isObject(ms[k].payload))
  {
    at := CollectPicks(Hearing(d), ms);
    SignalsAreCollected(ms, d);
  }

  /** Responses, welcomes, pongs and errors answer the call whose id they carry; nothing else does. */
  ghost predicate AnswersTo(m: Message, corr: nat) {
    m.op in {OP_RESPONSE, OP_WELCOME, OP_PONG, OP_ERROR} && m.corr == corr
  }

  /** What a caller takes from an answer: nothing from an empty one, else the payload, whole. */
  ghost predicate Carries(value: Value, payload: seq<byte>) {
    (payload == [] ==> value == None) && (payload != [] ==> value == Some(payload))
  }

  /** The last of `ms` that answers `corr`. */
  ghost function AnswerFor(ms: seq<Message>, corr: nat): (r: Option<Message>)
    ensures r.None? <==> forall m :: m in ms ==> !AnswersTo(m, corr)
    ensures r.Some? ==> r.value in ms && AnswersTo(r.value, corr)
  {
    if ms == [] then None
    else if AnswersTo(ms[|ms| - 1], corr) then Some(ms[|ms| - 1])
    else
      assert ms == ms[..|ms| - 1] + [ms[|ms| - 1]];
      AnswerFor(ms[..|ms| - 1], corr)
  }

  /** A waiter ends up with the last answer routed under its own id, and no other message touches it. */
  lemma {:induction false} RouteAllDelivers(t: Table<nat, Value>, ms: seq<Message>, corr: nat)
    ensures var (was, now, answer) := (Lookup(t, corr), Lookup(RouteAll(t, ms), corr), AnswerFor(ms, corr));
            if was.waits && answer.Some?
            then now.waits && now.woken && now.answer.Some? && Carries(now.answer.value, answer.value.payload)
            else now == was
  {
    if ms != [] {
      RouteAllDelivers(t, ms[..|ms| - 1], corr);
    }
  }

  /** Some message cannot be decoded. */
  ghost predicate AnyUnreadable(d: Decoder, msgs: map<nat, Post>) {
    exists id :: id in msgs && !Readable(d, msgs[id].payload)
  }

  /** What reading a whole stream of whole messages comes to. */
  lemma MessagesAreRead(d: Decoder, t: Table<nat, Value>, msgs: map<nat, Post>, items: seq<Item>) returns (end: Reader)
    requires AllTransmissible(items) && Traffic(msgs, FramesIn(items))
    requires forall f :: Belongs(msgs, f) ==> f in FramesIn(items)
    ensures end == ReadFrames(d, Reader(FRESH, t, []), ParseStream(Stream(items)))
    ensures end.rx.dead <==> AnyUnreadable(d, msgs)
    ensures !end.rx.dead ==> end.rx.partials == map[] &&
                             forall m :: m in end.rx.out <==> m.msgId in msgs && m == Whole(msgs, m.msgId)
    ensures end.waiters == RouteAll(t, end.rx.out) && end.signalled == Signals(end.rx.out, d)
  {
    var start, fs := Reader(FRESH, t, []), ParseStream(Stream(items));
    end := ReadFrames(d, start, fs);
    ReadFramesReassembles(d, start, fs);
    ReadFramesRoutes(d, start, fs);
    StreamDelivers(msgs, items);
    DeliveredAreReadable(d, msgs, Feed(FRESH, fs).out);
  }

  lemma DeliveredAreReadable(d: Decoder, msgs: map<nat, Post>, ms: seq<Message>)
    requires forall m :: m in ms <==> m.msgId in msgs && m == Whole(msgs, m.msgId)
    ensures Unreadable(d, ms, 0) <==> AnyUnreadable(d, msgs)
  {
    if Unreadable(d, ms, 0) {
      var i :| 0 <= i < |ms| && !Readable(d, ms[i].payload);
      assert ms[i] in ms;
    }
    forall id | id in msgs && !Readable(d, msgs[id].payload)
      ensures Unreadable(d, ms, 0)
    {
      assert Whole(msgs, id) in ms;
    }
  }

  /**
    From the peer's messages to the callers, whatever the interleaving of chunks, the keep-alives and the
    reads. The reader dies exactly when some payload cannot be decoded. Otherwise every waiter is woken and
    holds what an answer sent under its own id says, or None when none was sent.
   */
  lemma AnswersReachTheirWaiters(d: Decoder, t: Table<nat, Value>, msgs: map<nat, Post>, items: seq<Item>,
                                 corr: nat) returns (end: Reader, answer: Option<Message>)
    requires AllTransmissible(items) && Traffic(msgs, FramesIn(items))
    requires forall f :: Belongs(msgs, f) ==> f in FramesIn(items)
    requires Lookup(t, corr) == Entry(true, false, None)
    ensures end == ReadFrames(d, Reader(FRESH, t, []), ParseStream(Stream(items)))
    ensures end.rx.dead <==> AnyUnreadable(d, msgs)
    ensures !end.rx.dead ==>
              && end.rx.partials == map[]
              && (var now := Lookup(WakeAll(end.waiters, None), corr);
                  now.waits && now.woken && now.answer.Some? &&
                  Carries(now.answer.value, if answer.Some? then answer.value.payload else []))
              && (answer.None? <==> forall id :: id in msgs ==> !AnswersTo(Whole(msgs, id), corr))
              && (answer.Some? ==> AnswersTo(answer.value, corr) && answer.value.msgId in msgs &&
                                   answer.value == Whole(msgs, answer.value.msgId))
  {
    end := MessagesAreRead(d, t, msgs, items);
    var ms := end.rx.out;
    answer := AnswerFor(ms, corr);
    RouteAllDelivers(t, ms, corr);
    if !end.rx.dead && answer.None? {
      forall id | id in msgs
        ensures !AnswersTo(Whole(msgs, id), corr)
      {
        assert Whole(msgs, id) in ms;
      }
    }
  }

  /** An answer that is not text: the reader dies and its waiter is not woken. */
  lemma UndecodableAnswerKillsTheReader(d: Decoder)
    requires !d.decodes([0xFF])
    ensures var end := ReadFrames(d, Reader(FRESH, Table(map[1 := false], map[]), []),
                                  [Frame(OP_RESPONSE, 7, 1, 0, 1, [0xFF])]);
            end.rx.dead && Lookup(end.waiters, 1) == Entry(true, false, None)
  {
    var start, f := Reader(FRESH, Table(map[1 := false], map[]), []), Frame(OP_RESPONSE, 7, 1, 0, 1, [0xFF]);
    assert [f][..0] == [] && ReadFrames(d, start, []) == start;
  }

  lemma {:induction false} ReadAfterDeath(d: Decoder, rd: Reader, a: seq<Frame>, b: seq<Frame>)
    requires ReadFrames(d, rd, a).rx.dead
    ensures ReadFrames(d, rd, a + b) == ReadFrames(d, rd, a)
  {
    if b == [] {
      assert a + b == a;
    } else {
      assert (a + b)[..|a + b| - 1] == a + b[..|b| - 1];
      ReadAfterDeath(d, rd, a, b[..|b| - 1]);
    }
  }

  datatype Next = Stop | Skip | Filled(body: seq<byte>)

  class CasparBridgeClient {
    const sock: Socket
    const decoder: Decoder
    var connected: bool
    var closed: bool
    var nextId: nat
    var pending: map<nat, bool>
    var results: map<nat, Value>
    var partials: map<nat, Partial>
    var signalled: seq<seq<byte>>      // what the handler was called with
    var dead: bool                     // the reader thread died of an exception
    ghost var sent: seq<Sent>          // the messages written so far
    ghost var handed: seq<Message>     // the messages `_on_message` took in

    constructor (sock: Socket, decoder: Decoder)
      ensures this.sock == sock && this.decoder == decoder
      ensures connected && !closed && nextId == 1 && sent == [] && (sock.outbox == [] ==> OutboxFits())
      ensures State() == Reader(FRESH, Table(map[], map[]), [])
    {
      this.sock, this.decoder := sock, decoder;
      connected, closed, dead, nextId := true, false, false, 1;
      pending, results, partials, signalled, handed, sent := map[], map[], map[], [], [], [];
    }

    ghost function Waiters(): Table<nat, Value>
      reads `pending, `results
    {
      Table(pending, results)
    }

    ghost function State(): Reader
      reads `partials, `handed, `dead, `pending, `results, `signalled
    {
      Reader(Receiver(partials, handed, dead), Waiters(), signalled)
    }

    method AllocId() returns (v: nat)
      modifies this`nextId
      ensures v == old(nextId) && nextId == v + 1
      ensures old(OutboxFits()) ==> OutboxFits()
    {
      LaterIsAscending(sent, nextId, nextId + 1);
      v := nextId;
      nextId := nextId + 1;
    }

    method Register(corr: nat)
      modifies this`pending
      ensures Waiters() == Matcher.Register(old(Waiters()), corr)
    {
      pending := pending[corr := false];
    }

    method Take(corr: nat) returns (v: Value)
      modifies this`pending, this`results
      ensures Waiters() == Matcher.Take(old(Waiters()), corr)
      ensures v == if corr in old(results) then old(results)[corr] else None
    {
      v := if corr in results then results[corr] else None;
      pending := pending - {corr};
      results := results - {corr};
    }

    method Complete(corr: nat, value: Value)
      modifies this`pending, this`results
      ensures Waiters() == Matcher.Complete(old(Waiters()), corr, value)
    {
      if corr in pending {
        results := results[corr := value];
        pending := pending[corr := true];
      }
    }

    method WakeWaiters()
      modifies this`pending, this`results
      ensures Waiters() == WakeAll(old(Waiters()), None)
    {
      ghost var before := Waiters();
      var todo := pending.Keys;
      WakeBounds(before, None);
      while todo != {}
        invariant todo <= before.pending.Keys
        invariant Waiters() == WakeSome(before, todo, None)
        decreases todo
      {
        var corr :| corr in todo;
        WakeOne(before, todo, corr, None);
        var woken := Wake(Table(pending, results), corr, None);  // setdefault, then set the event
        pending, results := woken.pending, woken.results;
        todo := todo - {corr};
      }
    }

    /** What is on the wire is what was sent, under ids in the order they were drawn. */
    ghost predicate OutboxFits()
      reads `sent, `nextId, sock`outbox
    {
      Ascending(sent, nextId) && AllSendable(sent) && sock.outbox == Written(sent)
    }

    /**
      Cuts `payload` into frames and writes them. It fails, with nothing written, when not connected
      or when a number does not fit its header field.
     */
    method Send(op: byte, corr: nat, payload: seq<byte>) returns (ok: bool)
      modifies this`nextId, this`sent, sock`outbox
      ensures nextId == old(nextId) + if connected then 1 else 0
      ensures ok <==> connected && old(nextId) < U64 && corr < U64 && Total(payload) < U32
      ensures sent == old(sent) + if ok then [Sent(old(nextId), Post(op, corr, payload))] else []
      ensures ok ==> AllTransmissible(AsItems(Cut(op, old(nextId), corr, payload)))
      ensures ok ==> sock.outbox == old(sock.outbox) + Stream(AsItems(Cut(op, old(nextId), corr, payload)))
      ensures !ok ==> sock.outbox == old(sock.outbox)
      ensures old(OutboxFits()) ==> OutboxFits()
    {
      if !connected {
        return false;
      }
      var msgId := AllocId();
      if !(msgId < U64 && corr < U64 && Total(payload) < U32) {
        return false;  // struct.pack raises on the first frame
      }
      WriteFrames(msgId, op, corr, payload);
      ghost var s := Sent(msgId, Post(op, corr, payload));
      if old(OutboxFits()) {
        WrittenGrows(sent, s);
      }
      assert (sent + [s])[..|sent|] == sent;
      sent := sent + [s];
      return true;
    }

    /** The loop of `_send`, under the send lock. */
    method WriteFrames(msgId: nat, op: byte, corr: nat, payload: seq<byte>)
      requires Sendable(Sent(msgId, Post(op, corr, payload)))
      modifies sock`outbox
      ensures AllTransmissible(AsItems(Cut(op, msgId, corr, payload)))
      ensures sock.outbox == old(sock.outbox) + Stream(AsItems(Cut(op, msgId, corr, payload)))
    {
      ghost var start := sock.outbox;
      ghost var items := AsItems(Cut(op, msgId, corr, payload));
      CutIsTransmissible(op, msgId, corr, payload);
      var total, seqNo := Total(payload), 0;
      while seqNo < total
        invariant seqNo <= total
        invariant AllTransmissible(items[..seqNo])
        invariant sock.outbox == start + Stream(items[..seqNo])
      {
        var body := Body(FrameAt(op, msgId, corr, payload, seqNo));
        Widths();
        StreamGrows(items, seqNo);
        Reassociate(start, Stream(items[..seqNo]), Encode(items[seqNo]));
        sock.SendAll(Pack(|body|, 4) + body);
        seqNo := seqNo + 1;
      }
      assert items[..total] == items;
    }

    /** `n` bytes, or None when the stream ends, breaks, or the client is being closed. */
    method RecvAll(n: nat) returns (r: Option<seq<byte>>)
      modifies this`closed, sock`inbox, sock`script
      ensures r.Some? ==> |r.value| == n && old(sock.inbox) == r.value + sock.inbox
      ensures Benign(old(sock.script)) ==> Benign(sock.script) && closed == old(closed)
      ensures Benign(old(sock.script)) && !old(closed) && r.None? ==> |old(sock.inbox)| < n
    {
      if closed {
        return None;
      }
      var buf: seq<byte> := [];
      while |buf| < n
        invariant |buf| <= n && old(sock.inbox) == buf + sock.inbox
        invariant Benign(old(sock.script)) ==> Benign(sock.script) && !closed
        decreases |sock.inbox| + |sock.script|
      {
        var got := sock.Recv(n - |buf|);
        closed := closed || (!got.Failed? && got.closing);
        match got {
          case TimedOut(_) =>
            if closed {
              return None;
            }
          case Failed => return None;
          case Bytes(chunk, _) =>
            if chunk == [] {
              return None;
            }
            buf := buf + chunk;
        }
      }
      return Some(buf);
    }

    method OnMessage(ghost msgId: nat, op: byte, corr: nat, payload: seq<byte>)
      modifies this`pending, this`results, this`signalled, this`handed, this`dead
      ensures State() == ReadMessage(decoder, old(State()), partials, Message(msgId, op, corr, payload))
      ensures var readable := payload == [] || decoder.decodes(payload);
              && dead == (old(dead) || !readable)
              && (if readable && op in {OP_RESPONSE, OP_WELCOME, OP_PONG, OP_ERROR} && corr in old(pending)
                  then pending == old(pending)[corr := true] && corr in results && Carries(results[corr], payload) &&
                       results == old(results)[corr := results[corr]]
                  else pending == old(pending) && results == old(results))
              && signalled == old(signalled) +
                              (if readable && op == OP_SIGNAL && decoder.handled && payload != [] &&
                                  decoder.isObject(payload) then [payload] else [])
    {
      if payload != [] && !decoder.decodes(payload) {
        dead := true;  // `json.loads` raises
        return;
      }
      handed := handed + [Message(msgId, op, corr, payload)];
      var value := ValueOf(payload);
      if op == OP_RESPONSE || op == OP_WELCOME || op == OP_PONG || op == OP_ERROR {
        Complete(corr, value);
      } else if op == OP_SIGNAL {
        if decoder.handled && payload != [] && decoder.isObject(payload) {
          signalled := signalled + [payload];
        }
      }
    }

    method DispatchFrame(body: seq<byte>)
      requires HEADER_LEN <= |body| && !dead
      modifies this`partials, this`pending, this`results, this`signalled, this`handed, this`dead
      ensures State() == ReadFrame(decoder, old(State()), ParseBody(body))
    {
      var f := ParseBody(body);
      if f.total <= 1 {
        OnMessage(f.msgId, f.op, f.corr, f.chunk);
        return;
      }
      if f.msgId !in partials {
        partials := partials[f.msgId := Partial(f.total, f.op, f.corr, map[])];
      }
      var part := partials[f.msgId];
      partials := partials[f.msgId := part.(chunks := part.chunks[f.seqNo := f.chunk])];
      assert partials == old(partials)[f.msgId := Extended(old(partials), f)];
      if |partials[f.msgId].chunks| < f.total {
        return;
      }
      var chunks := partials[f.msgId].chunks;
      partials := partials - {f.msgId};
      assert partials == old(partials) - {f.msgId};
      if forall i: nat :: i < f.total ==> i in chunks {
        OnMessage(f.msgId, f.op, f.corr, Join(chunks, f.total));
      } else {
        dead := true;
      }
    }

    /** The reader's next read: a whole frame body, a keep-alive to skip, or the end of the loop. */
    method NextBody() returns (next: Next)
      requires !closed
      modifies this`closed, sock`inbox, sock`script
      ensures Benign(old(sock.script)) ==> Benign(sock.script) && !closed
      ensures next.Filled? ==> HEADER_LEN <= |next.body|
      ensures next.Filled? ==> ParseStream(old(sock.inbox)) == [ParseBody(next.body)] + ParseStream(sock.inbox)
      ensures next.Skip? ==> ParseStream(old(sock.inbox)) == ParseStream(sock.inbox)
      ensures !next.Stop? ==> |sock.inbox| < |old(sock.inbox)|
      ensures next.Stop? && Benign(old(sock.script)) ==> ParseStream(old(sock.inbox)) == []
    {
      var hdr := RecvAll(4);
      if hdr.None? {
        return Stop;
      }
      ParseNone(old(sock.inbox), hdr.value, sock.inbox);
      var len := Unpack(hdr.value);
      if len == 0 {
        return Skip;
      }
      if len > MAX_FRAME || len < HEADER_LEN {
        return Stop;
      }
      var body := RecvAll(len);
      if body.None? {
        return Stop;
      }
      ParseOne(old(sock.inbox), hdr.value, body.value, sock.inbox);
      return Filled(body.value);
    }

    /**
      The reader thread from start to end. It reads a prefix of the frames in the stream, all of them
      unless the socket breaks or the client is closed; unless one of them has killed it, it then
      wakes every waiter.
     */
    method ReadLoop() returns (ghost frames: seq<Frame>)
      requires !dead
      modifies this`closed, this`partials, this`pending, this`results, this`signalled, this`handed, this`dead,
        sock`inbox, sock`script
      ensures frames <= ParseStream(old(sock.inbox))
      ensures Benign(old(sock.script)) && !old(closed) ==> frames == ParseStream(old(sock.inbox))
      ensures var end := ReadFrames(decoder, old(State()), frames);
              State() == if end.rx.dead then end else end.(waiters := WakeAll(end.waiters, None))
    {
      ghost var start := State();
      ghost var all := ParseStream(sock.inbox);
      ghost var benign := Benign(sock.script) && !closed;
      frames := [];
      while !closed
        invariant !dead
        invariant all == frames + ParseStream(sock.inbox)
        invariant State() == ReadFrames(decoder, start, frames)
        invariant benign ==> Benign(sock.script) && !closed
        decreases |sock.inbox|
      {
        var next := NextBody();
        match next {
          case Stop => break;
          case Skip => continue;
          case Filled(body) =>
            ReadOneMore(decoder, start, frames, ParseBody(body));
            DispatchFrame(body);
            Reassociate(frames, [ParseBody(body)], ParseStream(sock.inbox));
            frames := frames + [ParseBody(body)];
        }
        if dead {
          if benign {
            ReadAfterDeath(decoder, start, frames, ParseStream(sock.inbox));
            frames := all;
          }
          return;
        }
      }
      WakeWaiters();
    }
  }
}
