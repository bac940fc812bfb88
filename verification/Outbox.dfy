/** Everything one client ever sends, and what becomes of it at the other end. */
module Outbox {
  import opened BigEndian
  import opened Common
  import opened Reassembly
  import opened Wire

  datatype Sent = Sent(msgId: nat, post: Post)

  /** Message ids were drawn from a counter that now stands at `next`. */
  predicate Ascending(sent: seq<Sent>, next: nat) {
    sent == [] ||
    var last := sent[|sent| - 1];
    last.msgId < next && Ascending(sent[..|sent| - 1], last.msgId)
  }

  lemma LaterIsAscending(sent: seq<Sent>, n: nat, m: nat)
    requires n <= m
    ensures Ascending(sent, n) ==> Ascending(sent, m)
  {
  }

  /** What `struct.pack` accepts. */
  predicate Sendable(s: Sent) {
    s.msgId < U64 && s.post.corr < U64 && Total(s.post.payload) < U32
  }

  ghost predicate AllSendable(sent: seq<Sent>) {
    forall s :: s in sent ==> Sendable(s)
  }

  function FramesFor(s: Sent): seq<Frame> {
    Cut(s.post.op, s.msgId, s.post.corr, s.post.payload)
  }

  function FramesOf(sent: seq<Sent>): seq<Frame> {
    if sent == [] then [] else FramesOf(sent[..|sent| - 1]) + FramesFor(sent[|sent| - 1])
  }

  function PostsOf(sent: seq<Sent>): map<nat, Post> {
    if sent == [] then map[]
    else PostsOf(sent[..|sent| - 1])[sent[|sent| - 1].msgId := sent[|sent| - 1].post]
  }

  lemma {:induction false} FramesAreTransmissible(sent: seq<Sent>)
    requires AllSendable(sent)
    ensures AllTransmissible(AsItems(FramesOf(sent)))
    ensures forall f :: f in FramesOf(sent) ==> Transmissible(f)
  {
    if sent != [] {
      var front, last := sent[..|sent| - 1], sent[|sent| - 1];
      assert sent == front + [last];
      FramesAreTransmissible(front);
      assert last in sent;
      CutIsTransmissible(last.post.op, last.msgId, last.post.corr, last.post.payload);
    }
  }

  lemma {:induction false} IdsAreBelow(sent: seq<Sent>, next: nat)
    requires Ascending(sent, next)
    ensures forall id :: id in PostsOf(sent) ==> id < next
    ensures forall f :: f in FramesOf(sent) ==> f.msgId < next
  {
    if sent != [] {
      IdsAreBelow(sent[..|sent| - 1], sent[|sent| - 1].msgId);
    }
  }

  lemma FramesOfOne(s: Sent)
    ensures NoDup(FramesFor(s)) && forall f :: f in FramesFor(s) ==> f.msgId == s.msgId
  {
    forall i, j | 0 <= i < j < |FramesFor(s)|
      ensures FramesFor(s)[i] != FramesFor(s)[j]
    {
      assert FramesFor(s)[i].seqNo == i && FramesFor(s)[j].seqNo == j;
    }
  }

  lemma NoDupAppend<T>(a: seq<T>, b: seq<T>)
    requires NoDup(a) && NoDup(b) && forall x :: x in a ==> x !in b
    ensures NoDup(a + b)
  {
    forall i, j | 0 <= i < j < |a + b|
      ensures (a + b)[i] != (a + b)[j]
    {
      if i < |a| <= j {
        assert a[i] in a && b[j - |a|] in b;
      }
    }
  }

  /** A frame of the messages with one more added is an old frame or one of the new message's. */
  lemma BelongsGrows(front: seq<Sent>, last: Sent, f: Frame)
    requires Ascending(front, last.msgId)
    ensures Belongs(PostsOf(front)[last.msgId := last.post], f) <==> Belongs(PostsOf(front), f) || f in FramesFor(last)
  {
    IdsAreBelow(front, last.msgId);
    var msgs := PostsOf(front)[last.msgId := last.post];
    if f.msgId == last.msgId {
      if Belongs(msgs, f) {
        assert FramesFor(last)[f.seqNo] == f;
      }
    }
  }

  /** The frames sent are exactly those of distinct messages, none of them twice. */
  lemma {:induction false} SentIsTraffic(sent: seq<Sent>, next: nat)
    requires Ascending(sent, next)
    ensures NoDup(FramesOf(sent)) && forall f :: f in FramesOf(sent) <==> Belongs(PostsOf(sent), f)
  {
    if sent != [] {
      var front, last := sent[..|sent| - 1], sent[|sent| - 1];
      SentIsTraffic(front, last.msgId);
      IdsAreBelow(front, last.msgId);
      FramesOfOne(last);
      NoDupAppend(FramesOf(front), FramesFor(last));
      forall f
        ensures f in FramesOf(sent) <==> Belongs(PostsOf(sent), f)
      {
        BelongsGrows(front, last, f);
      }
    }
  }

  lemma {:induction false} PostsAreSent(sent: seq<Sent>, next: nat)
    requires Ascending(sent, next)
    ensures forall id, post :: (id in PostsOf(sent) && PostsOf(sent)[id] == post) <==> Sent(id, post) in sent
  {
    if sent != [] {
      var front, last := sent[..|sent| - 1], sent[|sent| - 1];
      assert sent == front + [last];
      PostsAreSent(front, last.msgId);
      IdsAreBelow(front, last.msgId);
    }
  }

  /** The bytes on the wire after these messages. */
  function Written(sent: seq<Sent>): seq<byte>
    requires AllSendable(sent)
  {
    FramesAreTransmissible(sent);
    Stream(AsItems(FramesOf(sent)))
  }

  lemma FramesSnoc(sent: seq<Sent>, s: Sent)
    ensures FramesOf(sent + [s]) == FramesOf(sent) + FramesFor(s)
  {
    assert (sent + [s])[..|sent|] == sent;
  }

  lemma AsItemsAppends(a: seq<Frame>, b: seq<Frame>)
    ensures AsItems(a + b) == AsItems(a) + AsItems(b)
  {
  }

  /** Each further message adds the stream of its own frames. */
  lemma WrittenGrows(sent: seq<Sent>, s: Sent)
    requires AllSendable(sent) && Sendable(s)
    ensures AllSendable(sent + [s]) && AllTransmissible(AsItems(FramesFor(s)))
    ensures Written(sent + [s]) == Written(sent) + Stream(AsItems(FramesFor(s)))
  {
    CutIsTransmissible(s.post.op, s.msgId, s.post.corr, s.post.payload);
    FramesAreTransmissible(sent);
    FramesSnoc(sent, s);
    AsItemsAppends(FramesOf(sent), FramesFor(s));
    StreamAppend(AsItems(FramesOf(sent)), AsItems(FramesFor(s)));
  }

  /** Whatever a client has sent, the bytes it wrote are handed on at the other end as exactly its
      messages, each once, with nothing left over. */
  lemma SentIsDelivered(sent: seq<Sent>, next: nat)
    requires Ascending(sent, next) && AllSendable(sent)
    ensures var r := Feed(FRESH, ParseStream(Written(sent)));
            && !r.dead && r.partials == map[] && NoDup(r.out)
            && forall m :: m in r.out <==> Sent(m.msgId, Post(m.op, m.corr, m.payload)) in sent
  {
    FramesAreTransmissible(sent);
    FramesInAsItems(FramesOf(sent));
    SentIsTraffic(sent, next);
    StreamDelivers(PostsOf(sent), AsItems(FramesOf(sent)));
    PostsAreSent(sent, next);
    var r := Feed(FRESH, ParseStream(Written(sent)));
    forall m
      ensures m in r.out <==> Sent(m.msgId, Post(m.op, m.corr, m.payload)) in sent
    {
      WholeIsSent(PostsOf(sent), m);
    }
  }

  lemma WholeIsSent(msgs: map<nat, Post>, m: Message)
    ensures m.msgId in msgs ==> (m == Whole(msgs, m.msgId) <==> msgs[m.msgId] == Post(m.op, m.corr, m.payload))
  {
  }
}
