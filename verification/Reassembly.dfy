/** `_dispatch_frame`: rebuilding messages from chunks that arrive in any order and interleaving. */
module Reassembly {
  import opened BigEndian
  import opened Common
  import opened Wire

  datatype Partial = Partial(total: nat, op: byte, corr: nat, chunks: map<nat, seq<byte>>)

  /** What `_dispatch_frame` gives `_on_message`; `msgId` only labels it. */
  datatype Message = Message(msgId: nat, op: byte, corr: nat, payload: seq<byte>)

  datatype Outcome =
    | Kept(partials: map<nat, Partial>)
    | Handed(partials: map<nat, Partial>, message: Message)
    | KeyMissing(partials: map<nat, Partial>)  // the join raises KeyError

  /** The partial entry `_dispatch_frame` works on, after it has stored the new chunk. */
  function Extended(partials: map<nat, Partial>, f: Frame): Partial {
    var part := if f.msgId in partials then partials[f.msgId] else Partial(f.total, f.op, f.corr, map[]);
    part.(chunks := part.chunks[f.seqNo := f.chunk])
  }

  function Dispatch(partials: map<nat, Partial>, f: Frame): Outcome {
    if f.total <= 1 then Handed(partials, Message(f.msgId, f.op, f.corr, f.chunk))
    else
      var part := Extended(partials, f);
      if |part.chunks| < f.total then Kept(partials[f.msgId := part])
      else if forall i: nat :: i < f.total ==> i in part.chunks then
        Handed(partials - {f.msgId}, Message(f.msgId, f.op, f.corr, Join(part.chunks, f.total)))
      else KeyMissing(partials - {f.msgId})
  }

  datatype Receiver = Receiver(partials: map<nat, Partial>, out: seq<Message>, dead: bool)

  /** One frame on the reader thread. A KeyError kills the thread: later frames are not read. */
  function Receive(r: Receiver, f: Frame): Receiver {
    if r.dead then r
    else match Dispatch(r.partials, f)
      case Kept(ps) => r.(partials := ps)
      case Handed(ps, m) => r.(partials := ps, out := r.out + [m])
      case KeyMissing(ps) => r.(partials := ps, dead := true)
  }

  function Feed(r: Receiver, fs: seq<Frame>): Receiver {
    if fs == [] then r else Receive(Feed(r, fs[..|fs| - 1]), fs[|fs| - 1])
  }

  const FRESH := Receiver(map[], [], false)

  // ---- well-formed traffic --------------------------------------------------

  datatype Post = Post(op: byte, corr: nat, payload: seq<byte>)

  function FrameOf(msgs: map<nat, Post>, id: nat, i: nat): Frame
    requires id in msgs && i < Total(msgs[id].payload)
  {
    FrameAt(msgs[id].op, id, msgs[id].corr, msgs[id].payload, i)
  }

  function Whole(msgs: map<nat, Post>, id: nat): Message
    requires id in msgs
  {
    Message(id, msgs[id].op, msgs[id].corr, msgs[id].payload)
  }

  /** `f` is one of the frames the messages `msgs` are cut into. */
  ghost predicate Belongs(msgs: map<nat, Post>, f: Frame) {
    f.msgId in msgs && f.seqNo < Total(msgs[f.msgId].payload) && f == FrameOf(msgs, f.msgId, f.seqNo)
  }

  /** Frames of `msgs` in any order and interleaving, none of them twice. */
  ghost predicate Traffic(msgs: map<nat, Post>, fs: seq<Frame>) {
    NoDup(fs) && forall f :: f in fs ==> Belongs(msgs, f)
  }

  ghost predicate FullyArrived(msgs: map<nat, Post>, fs: seq<Frame>, id: nat) {
    id in msgs && forall i: nat :: i < Total(msgs[id].payload) ==> FrameOf(msgs, id, i) in fs
  }

  /** The chunk numbers of message `id` that are in `fs`. */
  ghost function Arrived(fs: seq<Frame>, id: nat): set<nat> {
    set f | f in fs && f.msgId == id :: f.seqNo
  }

  /** What the receiver must look like once it has read `fs`. */
  ghost predicate Faithful(msgs: map<nat, Post>, fs: seq<Frame>, r: Receiver) {
    && !r.dead
    && NoDup(r.out)
    && (forall m :: m in r.out <==> FullyArrived(msgs, fs, m.msgId) && m == Whole(msgs, m.msgId))
    && (forall id :: id in r.partials <==>
          id in msgs && Total(msgs[id].payload) > 1 && Arrived(fs, id) != {} && !FullyArrived(msgs, fs, id))
    && (forall id :: id in r.partials ==> HoldsArrived(msgs, fs, id, r.partials[id]))
  }

  ghost predicate HoldsArrived(msgs: map<nat, Post>, fs: seq<Frame>, id: nat, p: Partial)
    requires id in msgs
  {
    && p.total == Total(msgs[id].payload) && p.op == msgs[id].op && p.corr == msgs[id].corr
    && p.chunks.Keys == Arrived(fs, id)
    && forall i: nat :: i in p.chunks && i < Total(msgs[id].payload) ==> p.chunks[i] == Chunk(msgs[id].payload, i)
  }

  lemma {:induction false} BoundedSet(a: set<nat>, n: nat)
    requires forall x :: x in a ==> x < n
    ensures |a| <= n
    ensures |a| == n <==> forall i: nat :: i < n ==> i in a
  {
    if n > 0 {
      BoundedSet(a - {n - 1}, n - 1);
    } else {
      assert a == {};
    }
  }

  lemma ArrivedGrows(msgs: map<nat, Post>, fs: seq<Frame>, f: Frame)
    requires Traffic(msgs, fs + [f])
    ensures Traffic(msgs, fs) && Belongs(msgs, f)
    ensures f.seqNo !in Arrived(fs, f.msgId) && !FullyArrived(msgs, fs, f.msgId)
    ensures Arrived(fs + [f], f.msgId) == Arrived(fs, f.msgId) + {f.seqNo}
    ensures forall id :: id != f.msgId ==> Arrived(fs + [f], id) == Arrived(fs, id)
    ensures forall id :: id != f.msgId ==> FullyArrived(msgs, fs + [f], id) == FullyArrived(msgs, fs, id)
  {
    var gs := fs + [f];
    assert forall i :: 0 <= i < |fs| ==> gs[i] == fs[i];
    assert gs[|fs|] == f;
    assert forall g :: g in gs <==> g in fs || g == f;
    assert f !in fs;
  }

  lemma FullyArrivedIffCounted(msgs: map<nat, Post>, fs: seq<Frame>, id: nat)
    requires Traffic(msgs, fs) && id in msgs
    ensures forall i :: i in Arrived(fs, id) ==> i < Total(msgs[id].payload) && FrameOf(msgs, id, i) in fs
    ensures |Arrived(fs, id)| <= Total(msgs[id].payload)
    ensures FullyArrived(msgs, fs, id) <==> |Arrived(fs, id)| == Total(msgs[id].payload)
  {
    var a, n := Arrived(fs, id), Total(msgs[id].payload);
    forall i | i in a
      ensures i < n && FrameOf(msgs, id, i) in fs
    {
      var f :| f in fs && f.msgId == id && f.seqNo == i;
      assert Belongs(msgs, f);
    }
    BoundedSet(a, n);
    if FullyArrived(msgs, fs, id) {
      forall i: nat | i < n
        ensures i in a
      {
        assert FrameOf(msgs, id, i) in fs;
      }
    }
  }

  lemma Finishes(msgs: map<nat, Post>, fs: seq<Frame>, f: Frame, r: Receiver)
    requires Traffic(msgs, fs + [f]) && Faithful(msgs, fs, r)
    requires FullyArrived(msgs, fs + [f], f.msgId)
    ensures Faithful(msgs, fs + [f], Finished(msgs, f, r))
  {
    ArrivedGrows(msgs, fs, f);
    var gs, r' := fs + [f], Finished(msgs, f, r);
    assert Whole(msgs, f.msgId) !in r.out;
    forall m
      ensures m in r'.out <==> FullyArrived(msgs, gs, m.msgId) && m == Whole(msgs, m.msgId)
    {
      assert m in r'.out <==> m in r.out || m == Whole(msgs, f.msgId);
      if m.msgId != f.msgId {
        assert FullyArrived(msgs, gs, m.msgId) == FullyArrived(msgs, fs, m.msgId);
      }
    }
    forall id
      ensures id in r'.partials <==>
                id in msgs && Total(msgs[id].payload) > 1 && Arrived(gs, id) != {} && !FullyArrived(msgs, gs, id)
      ensures id in r'.partials ==> HoldsArrived(msgs, gs, id, r'.partials[id])
    {
      if id != f.msgId {
        assert id in r'.partials <==> id in r.partials;
        assert Arrived(gs, id) == Arrived(fs, id);
      }
    }
  }

  lemma Waits(msgs: map<nat, Post>, fs: seq<Frame>, f: Frame, r: Receiver)
    requires Traffic(msgs, fs + [f]) && Faithful(msgs, fs, r) && f.msgId in msgs
    requires f.total > 1 && !FullyArrived(msgs, fs + [f], f.msgId)
    requires HoldsArrived(msgs, fs + [f], f.msgId, Extended(r.partials, f))
    ensures Faithful(msgs, fs + [f], Waiting(f, r))
  {
    ArrivedGrows(msgs, fs, f);
    var gs, ps := fs + [f], Waiting(f, r).partials;
    assert f.seqNo in Arrived(gs, f.msgId);
    forall id
      ensures id in ps <==>
                id in msgs && Total(msgs[id].payload) > 1 && Arrived(gs, id) != {} && !FullyArrived(msgs, gs, id)
      ensures id in ps ==> HoldsArrived(msgs, gs, id, ps[id])
    {
      if id != f.msgId {
        assert id in ps <==> id in r.partials;
        assert Arrived(gs, id) == Arrived(fs, id);
      }
    }
    forall m
      ensures m in r.out <==> FullyArrived(msgs, gs, m.msgId) && m == Whole(msgs, m.msgId)
    {
      if m.msgId != f.msgId {
        assert FullyArrived(msgs, gs, m.msgId) == FullyArrived(msgs, fs, m.msgId);
      }
    }
  }

  lemma ChunkHolds(msgs: map<nat, Post>, fs: seq<Frame>, f: Frame, p: Partial)
    requires Traffic(msgs, fs + [f]) && f.msgId in msgs && HoldsArrived(msgs, fs, f.msgId, p)
    ensures HoldsArrived(msgs, fs + [f], f.msgId, p.(chunks := p.chunks[f.seqNo := f.chunk]))
  {
    ArrivedGrows(msgs, fs, f);
  }

  lemma NothingHolds(msgs: map<nat, Post>, fs: seq<Frame>, f: Frame)
    requires Belongs(msgs, f) && Arrived(fs, f.msgId) == {}
    ensures HoldsArrived(msgs, fs, f.msgId, Partial(f.total, f.op, f.corr, map[]))
  {
  }

  lemma ExtendedHolds(msgs: map<nat, Post>, fs: seq<Frame>, f: Frame, r: Receiver)
    requires Traffic(msgs, fs + [f]) && Faithful(msgs, fs, r) && f.msgId in msgs && f.total > 1
    ensures HoldsArrived(msgs, fs + [f], f.msgId, Extended(r.partials, f))
  {
    ArrivedGrows(msgs, fs, f);
    if f.msgId in r.partials {
      ChunkHolds(msgs, fs, f, r.partials[f.msgId]);
    } else {
      NothingHolds(msgs, fs, f);
      ChunkHolds(msgs, fs, f, Partial(f.total, f.op, f.corr, map[]));
    }
  }

  ghost function Finished(msgs: map<nat, Post>, f: Frame, r: Receiver): Receiver
    requires f.msgId in msgs
  {
    r.(partials := r.partials - {f.msgId}, out := r.out + [Whole(msgs, f.msgId)])
  }

  ghost function Waiting(f: Frame, r: Receiver): Receiver {
    r.(partials := r.partials[f.msgId := Extended(r.partials, f)])
  }

  lemma ReceiveResult(msgs: map<nat, Post>, gs: seq<Frame>, f: Frame, r: Receiver)
    requires Traffic(msgs, gs) && f in gs && Belongs(msgs, f) && !r.dead
    requires f.total <= 1 ==> f.msgId !in r.partials
    requires f.total > 1 ==> HoldsArrived(msgs, gs, f.msgId, Extended(r.partials, f))
    ensures FullyArrived(msgs, gs, f.msgId) ==> Receive(r, f) == Finished(msgs, f, r)
    ensures !FullyArrived(msgs, gs, f.msgId) ==> f.total > 1 && Receive(r, f) == Waiting(f, r)
  {
    var id, p := f.msgId, Extended(r.partials, f);
    var payload := msgs[id].payload;
    FullyArrivedIffCounted(msgs, gs, id);
    if f.total <= 1 {
      OnlyChunk(payload);
      assert f.seqNo in Arrived(gs, id);
      assert r.partials - {id} == r.partials;
    } else {
      assert |p.chunks| == |p.chunks.Keys|;
      BoundedSet(p.chunks.Keys, f.total);
      if |p.chunks| == f.total {
        JoinOfChunks(payload, p.chunks);
      }
    }
  }

  lemma ReceiveIsFaithful(msgs: map<nat, Post>, fs: seq<Frame>, f: Frame, r: Receiver)
    requires Traffic(msgs, fs + [f]) && Faithful(msgs, fs, r)
    ensures Faithful(msgs, fs + [f], Receive(r, f))
  {
    ArrivedGrows(msgs, fs, f);
    if f.total > 1 {
      ExtendedHolds(msgs, fs, f, r);
    }
    ReceiveResult(msgs, fs + [f], f, r);
    if FullyArrived(msgs, fs + [f], f.msgId) {
      Finishes(msgs, fs, f, r);
    } else {
      Waits(msgs, fs, f, r);
    }
  }

  lemma OnlyChunk(payload: seq<byte>)
    requires Total(payload) == 1
    ensures Chunk(payload, 0) == payload
  {
  }

  /** At every moment the receiver holds exactly the unfinished messages' chunks, and has handed on
      exactly the finished messages, each once and as sent. */
  lemma {:induction false} FeedIsFaithful(msgs: map<nat, Post>, fs: seq<Frame>)
    requires Traffic(msgs, fs)
    ensures Faithful(msgs, fs, Feed(FRESH, fs))
  {
    if fs == [] {
      forall id | id in msgs
        ensures !FullyArrived(msgs, fs, id)
      {
        assert FrameOf(msgs, id, 0) !in fs;
      }
    } else {
      var front, f := fs[..|fs| - 1], fs[|fs| - 1];
      assert fs == front + [f];
      ArrivedGrows(msgs, front, f);
      FeedIsFaithful(msgs, front);
      ReceiveIsFaithful(msgs, front, f, Feed(FRESH, front));
    }
  }

  /** Cutting and reassembling undo each other, whatever order the frames arrive in. */
  lemma Reassembles(msgs: map<nat, Post>, fs: seq<Frame>)
    requires Traffic(msgs, fs)
    requires forall f :: Belongs(msgs, f) ==> f in fs
    ensures var r := Feed(FRESH, fs);
            && !r.dead && r.partials == map[] && NoDup(r.out)
            && (forall m :: m in r.out <==> m.msgId in msgs && m == Whole(msgs, m.msgId))
  {
    FeedIsFaithful(msgs, fs);
    forall id | id in msgs
      ensures FullyArrived(msgs, fs, id)
    {
      forall i: nat | i < Total(msgs[id].payload)
        ensures FrameOf(msgs, id, i) in fs
      {
        assert Belongs(msgs, FrameOf(msgs, id, i));
      }
    }
  }

  /** From bytes to messages: whatever the interleaving and the keep-alives between frames. */
  lemma StreamDelivers(msgs: map<nat, Post>, items: seq<Item>)
    requires AllTransmissible(items) && Traffic(msgs, FramesIn(items))
    requires forall f :: Belongs(msgs, f) ==> f in FramesIn(items)
    ensures var r := Feed(FRESH, ParseStream(Stream(items)));
            && !r.dead && r.partials == map[] && NoDup(r.out)
            && (forall m :: m in r.out <==> m.msgId in msgs && m == Whole(msgs, m.msgId))
  {
    StreamDecodes(items, []);
    assert Stream(items) + [] == Stream(items);
    assert FramesIn(items) + ParseStream([]) == FramesIn(items);
    Reassembles(msgs, FramesIn(items));
  }

  /** Two frames of one two-chunk message, the second misnumbered. */
  const MISNUMBERED_FRAMES: seq<Frame> :=
    [Frame(OP_RESPONSE, 7, 1, 0, 2, [1]), Frame(OP_RESPONSE, 7, 1, 5, 2, [2])]

  /** The frame fills the count of its message and leaves a chunk number missing. */
  ghost predicate FillsWithGap(partials: map<nat, Partial>, f: Frame) {
    && f.total > 1
    && var held := (if f.msgId in partials then partials[f.msgId].chunks.Keys else {}) + {f.seqNo};
       |held| >= f.total && exists i: nat :: i < f.total && i !in held
  }

  /** Exactly when the join raises. */
  lemma DispatchRaisesIff(partials: map<nat, Partial>, f: Frame)
    ensures Dispatch(partials, f).KeyMissing? <==> FillsWithGap(partials, f)
  {
    var held := (if f.msgId in partials then partials[f.msgId].chunks.Keys else {}) + {f.seqNo};
    var chunks := Extended(partials, f).chunks;
    assert chunks.Keys == held;
    assert |chunks| == |chunks.Keys|;
  }

  lemma MisnumberedFramesKillTheReader()
    ensures Feed(FRESH, MISNUMBERED_FRAMES).dead
  {
    var f, g := MISNUMBERED_FRAMES[0], MISNUMBERED_FRAMES[1];
    assert MISNUMBERED_FRAMES[..1] == [f] && [f][..0] == [];
    var one := Partial(2, OP_RESPONSE, 1, map[0 := [1]]);
    var r := Receive(FRESH, f);
    assert Feed(FRESH, [f]) == r;
    assert r.partials == map[7 := one];
    DispatchRaisesIff(r.partials, g);
    assert one.chunks.Keys + {5} == {0, 5};
    assert 1 !in {0, 5};
  }
}
