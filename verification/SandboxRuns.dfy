/** The tool's other actions, and whole runs of it beside everything else that happens to the service. */
module SandboxRuns {
  import opened Common
  import opened SandboxServer
  import opened SandboxSessions

  datatype Outcome = Text(text: string) | About(info: Info) | Stopped(already: bool) | Deleted(deleted: bool)

  datatype Op =
    | Use(name: Name, handler: Handler, first: Times, second: Times)
    | Create(name: Name)
    | Start(name: Name)
    | Stop(name: Name)
    | Delete(name: Name)
    | Elsewhere(next: Server)

  function Describe(v: Visit<Info>): Visit<Outcome> {
    Visit(v.server, match v.reply case Failed(status) => Failed(status) case Done(info) => Done(About(info)))
  }

  /** `_action_stop`, which never resumes. */
  function StopVisit(s: Server, name: Name): Visit<Outcome> {
    var got := Get(s, name, false);
    match got.reply
    case Failed(status) => Visit(got.server, if status in {404, 410} then Done(Stopped(true)) else Failed(status))
    case Done(info) =>
      var sid := SessionId(info);
      if !info.running || sid.None? then Visit(got.server, Done(Stopped(true)))
      else
        var halted := Halt(got.server, sid.value);
        if halted.reply.Failed? && halted.reply.status !in {404, 410}
        then Visit(halted.server, Failed(halted.reply.status))
        else Visit(halted.server, Done(Stopped(false)))
  }

  function DeleteVisit(s: Server, name: Name): Visit<Outcome> {
    var removed := Remove(s, name);
    match removed.reply
    case Failed(status) => Visit(removed.server, if status in {404, 410} then Done(Deleted(false)) else Failed(status))
    case Done(_) => Visit(removed.server, Done(Deleted(true)))
  }

  /** A stop that finds no sandbox returns without forgetting; one that fails raises before forgetting. */
  predicate StopForgets(s: Server, name: Name) {
    Get(s, name, false).reply.Done? && StopVisit(s, name).reply.Done?
  }

  function TextOf(reply: Reply<string>): Reply<Outcome> {
    match reply
    case Failed(status) => Failed(status)
    case Done(text) => Done(Text(text))
  }

  function Still(s: Server): Server {
    s
  }

  function Step(cache: Cache, s: Server, op: Op, ttl: int): Held<Outcome>
    requires !op.Elsewhere?
  {
    match op
    case Use(name, handler, t, t') =>
      var u := WithSession(cache, s, name, handler, t, t', ttl, Still);
      Held(u.cache, u.server, TextOf(u.reply))
    case Create(name) =>
      var v := Describe(CreateOrAdopt(s, name));
      Held(cache - {name}, v.server, v.reply)
    case Start(name) =>
      var v := Describe(ResumeOrCreate(s, name));
      Held(cache - {name}, v.server, v.reply)
    case Stop(name) =>
      var v := StopVisit(s, name);
      Held(if StopForgets(s, name) then cache - {name} else cache, v.server, v.reply)
    case Delete(name) =>
      var v := DeleteVisit(s, name);
      Held(cache - {name}, v.server, v.reply)
  }

  /** The same tool without a cache. */
  function UncachedStep(s: Server, op: Op): Visit<Outcome>
    requires !op.Elsewhere?
  {
    match op
    case Use(name, handler, _, _) =>
      var v := Direct(s, name, handler);
      Visit(v.server, TextOf(v.reply))
    case Create(name) => Describe(CreateOrAdopt(s, name))
    case Start(name) => Describe(ResumeOrCreate(s, name))
    case Stop(name) => StopVisit(s, name)
    case Delete(name) => DeleteVisit(s, name)
  }

  ghost predicate Gentle(handler: Handler) {
    forall sid, disk :: Repeats(handler, sid, disk)
  }

  /** The service answers, and operations that a running session refuses as "gone" can be repeated. */
  ghost predicate Fair(op: Op) {
    match op
    case Use(_, handler, _, _) => Gentle(handler)
    case Elsewhere(next) => next.down.None?
    case _ => true
  }

  datatype World = World(cache: Cache, server: Server, replies: seq<Reply<Outcome>>)

  datatype PlainWorld = PlainWorld(server: Server, replies: seq<Reply<Outcome>>)

  ghost function Run(s: Server, ops: seq<Op>, ttl: int): World {
    if ops == [] then World(map[], s, [])
    else
      var (w, op) := (Run(s, ops[..|ops| - 1], ttl), ops[|ops| - 1]);
      if op.Elsewhere? then w.(server := if Later(w.server, op.next) then op.next else w.server)
      else
        var h := Step(w.cache, w.server, op, ttl);
        World(h.cache, h.server, w.replies + [h.reply])
  }

  ghost function PlainRun(s: Server, ops: seq<Op>): PlainWorld {
    if ops == [] then PlainWorld(s, [])
    else
      var (w, op) := (PlainRun(s, ops[..|ops| - 1]), ops[|ops| - 1]);
      if op.Elsewhere? then w.(server := if Later(w.server, op.next) then op.next else w.server)
      else
        var v := UncachedStep(w.server, op);
        PlainWorld(v.server, w.replies + [v.reply])
  }

  // ---- every operation keeps the cache honest -------------------------------

  lemma RetryKeeps(cache: Cache, s: Server, name: Name, handler: Handler, t: Times, ttl: int, failed: Sid)
    requires Valid(s) && Issued(cache, s)
    ensures var u := Retry(cache, s, name, handler, t, ttl, failed);
            Later(s, u.server) && Issued(u.cache, u.server) && u.server.down == s.down
  {
    SessionIsIssued(cache - {name}, s, name, t, ttl);
    var again := Session(cache - {name}, s, name, t, ttl);
    if again.reply.Done? {
      CallKeeps(again.server, again.reply.value, handler);
    }
  }

  lemma UseKeeps(cache: Cache, s: Server, name: Name, handler: Handler, t: Times, t': Times, ttl: int)
    requires Valid(s) && Issued(cache, s)
    ensures var u := WithSession(cache, s, name, handler, t, t', ttl, Still);
            Later(s, u.server) && Issued(u.cache, u.server) && u.server.down == s.down
  {
    SessionIsIssued(cache, s, name, t, ttl);
    var first := Session(cache, s, name, t, ttl);
    if first.reply.Done? {
      CallKeeps(first.server, first.reply.value, handler);
      var done := Call(first.server, first.reply.value, handler);
      if Gone(done.reply) {
        RetryKeeps(first.cache, done.server, name, handler, t', ttl, first.reply.value);
      }
    }
  }

  lemma GetKeeps(s: Server, name: Name, resume: bool)
    requires Valid(s)
    ensures var v := Get(s, name, resume); Later(s, v.server) && v.server.down == s.down
  {
    if name in s.boxes {
      OpenIsLive(s, name, s.boxes[name].disk);
    }
  }

  lemma CreateKeeps(s: Server, name: Name)
    requires Valid(s)
    ensures var v := CreateOrAdopt(s, name); Later(s, v.server) && v.server.down == s.down
  {
    OpenIsLive(s, name, map[]);
    GetKeeps(s, name, true);
  }

  lemma ResumeKeeps(s: Server, name: Name)
    requires Valid(s)
    ensures var v := ResumeOrCreate(s, name); Later(s, v.server) && v.server.down == s.down
  {
    GetKeeps(s, name, true);
    CreateKeeps(Get(s, name, true).server, name);
  }

  lemma StopKeeps(s: Server, name: Name)
    requires Valid(s)
    ensures var v := StopVisit(s, name); Later(s, v.server) && v.server.down == s.down
  {
  }

  lemma DeleteKeeps(s: Server, name: Name)
    requires Valid(s)
    ensures var v := DeleteVisit(s, name); Later(s, v.server) && v.server.down == s.down
  {
  }

  lemma ActionKeeps(s: Server, op: Op)
    requires Valid(s) && !op.Use? && !op.Elsewhere?
    ensures var v := UncachedStep(s, op); Later(s, v.server) && v.server.down == s.down
  {
    match op {
      case Create(name) => CreateKeeps(s, name);
      case Start(name) => ResumeKeeps(s, name);
      case Stop(name) => StopKeeps(s, name);
      case Delete(name) => DeleteKeeps(s, name);
    }
  }

  lemma StepKeeps(cache: Cache, s: Server, op: Op, ttl: int)
    requires Valid(s) && Issued(cache, s) && !op.Elsewhere?
    ensures var h := Step(cache, s, op, ttl);
            Later(s, h.server) && Issued(h.cache, h.server) && h.server.down == s.down
  {
    if op.Use? {
      UseKeeps(cache, s, op.name, op.handler, op.first, op.second, ttl);
    } else {
      ActionKeeps(s, op);
    }
  }

  lemma {:induction false} RunKeeps(s: Server, ops: seq<Op>, ttl: int)
    requires Valid(s)
    ensures var w := Run(s, ops, ttl); Valid(w.server) && Issued(w.cache, w.server)
  {
    if ops != [] {
      var front, op := ops[..|ops| - 1], ops[|ops| - 1];
      RunKeeps(s, front, ttl);
      var w := Run(s, front, ttl);
      if !op.Elsewhere? {
        StepKeeps(w.cache, w.server, op, ttl);
      }
    }
  }

  lemma {:induction false} FairRunsStayUp(s: Server, ops: seq<Op>, ttl: int)
    requires Valid(s) && s.down.None? && forall i :: 0 <= i < |ops| ==> Fair(ops[i])
    ensures Run(s, ops, ttl).server.down.None?
  {
    if ops != [] {
      var front, op := ops[..|ops| - 1], ops[|ops| - 1];
      FairRunsStayUp(s, front, ttl);
      RunKeeps(s, front, ttl);
      var w := Run(s, front, ttl);
      if !op.Elsewhere? {
        StepKeeps(w.cache, w.server, op, ttl);
      } else {
        assert Fair(op);
      }
    }
  }

  // ---- what the actions answer and leave ------------------------------------

  /** While the service answers, create and start leave the named sandbox running in its own session, which
      the reply tells, forget what was cached for it, and leave every other sandbox alone. */
  lemma ProvisionServes(cache: Cache, s: Server, op: Op, ttl: int)
    requires Valid(s) && s.down.None? && (op.Create? || op.Start?)
    ensures var h := Step(cache, s, op, ttl);
            && h.reply.Done? && h.reply.value.About? && Serves(h.server, op.name, h.reply.value.info)
            && Provided(s, h.server, op.name) && OthersKept(s, h.server, op.name)
            && h.reply.value.info.adopted ==
               (if op.Create? then Some(op.name in s.boxes) else if op.name in s.boxes then None else Some(false))
            && h.cache == cache - {op.name}
  {
    CreateProvides(s, op.name);
    ResumeProvides(s, op.name);
  }

  /** Stop shuts a running sandbox down with its files, and finds any other stopped already. */
  lemma StopMeans(s: Server, name: Name)
    requires Valid(s) && s.down.None?
    ensures var v := StopVisit(s, name);
            if name in s.boxes && s.boxes[name].running then
              v.reply == Done(Stopped(false)) &&
              v.server == s.(boxes := s.boxes[name := s.boxes[name].(running := false)])
            else v.reply == Done(Stopped(true)) && v.server == s
  {
    if name in s.boxes && s.boxes[name].running {
      assert Live(s, s.boxes[name].current.value);
    }
  }

  /** Delete removes the sandbox and nothing else, and says whether there was one. */
  lemma DeleteMeans(s: Server, name: Name)
    requires s.down.None?
    ensures DeleteVisit(s, name) == Visit(s.(boxes := s.boxes - {name}), Done(Deleted(name in s.boxes)))
  {
    assert name !in s.boxes ==> s.boxes - {name} == s.boxes;
  }

  /** While the service is down nothing changes and every action fails with its status, except that stop and
      delete take 404 and 410 for an absent sandbox. */
  lemma OutageMeans(s: Server, op: Op)
    requires s.down.Some? && !op.Use? && !op.Elsewhere?
    ensures var (v, status) := (UncachedStep(s, op), s.down.value);
            && v.server == s
            && v.reply == (if op.Stop? && (status == 404 || status == 410) then Done(Stopped(true))
                           else if op.Delete? && (status == 404 || status == 410) then Done(Deleted(false))
                           else Failed(status))
  {
  }

  /**
    An operation gets to a session of its own sandbox. If the first one runs and does not answer "gone", its
    answer is the reply and its changes are the files; otherwise the answer and the changes are those of the
    running session that was then resolved, with the files the sandbox had.
   */
  lemma OperationRuns(cache: Cache, s: Server, name: Name, handler: Handler, t: Times, t': Times, ttl: int)
    requires Valid(s) && Issued(cache, s) && s.down.None?
    ensures var first := Session(cache, s, name, t, ttl);
            var u := WithSession(cache, s, name, handler, t, t', ttl, Still);
            && first.reply.Done? && u.calls != [] && u.calls[0] == first.reply.value
            && name in u.server.boxes
            && if Live(first.server, u.calls[0]) && !Gone(handler(u.calls[0], first.server.boxes[name].disk).reply)
               then
                 && |u.calls| == 1
                 && Answer(u.reply, u.server.boxes[name].disk) ==
                    handler(u.calls[0], first.server.boxes[name].disk)
               else
                 var after := Call(first.server, u.calls[0], handler).server;
                 && |u.calls| == 2
                 && Answer(u.reply, u.server.boxes[name].disk) ==
                    handler(u.calls[1], if name in after.boxes then after.boxes[name].disk else map[])
  {
    SessionIsIssued(cache, s, name, t, ttl);
    var first := Session(cache, s, name, t, ttl);
    ResolvedIsLive(s, name);
    var sid := first.reply.value;
    CallKeeps(first.server, sid, handler);
    var after := Call(first.server, sid, handler).server;
    ResolvedIsLive(after, name);
    ResumeProvides(after, name);
    assert !SandboxSessions.Fresh(first.cache - {name}, name, t'.asked);
  }

  // ---- when the cache shows -------------------------------------------------

  /** The answer leaves the files alone, and is "gone" or the failure that any request gives while the
      service is down. */
  predicate Unseen(handler: Handler, sid: Sid, disk: Disk, down: int) {
    var a := handler(sid, disk);
    a.disk == disk && (Gone(a.reply) || a.reply == Failed(down))
  }

  /**
    The cache does not show in this step. While the service answers, a running session's "gone" must
    repeat; while it does not, a running session that is still cached must do nothing that shows.
   */
  predicate Agrees(cache: Cache, s: Server, op: Op, ttl: int) {
    op.Use? ==>
      if s.down.None? then
        var first := Session(cache, s, op.name, op.first, ttl);
        first.reply.Done? && Live(first.server, first.reply.value) ==>
          Repeats(op.handler, first.reply.value, DiskOf(first.server, first.reply.value))
      else
        SandboxSessions.Fresh(cache, op.name, op.first.asked) && Live(s, cache[op.name].sid) ==>
          Unseen(op.handler, cache[op.name].sid, DiskOf(s, cache[op.name].sid), s.down.value)
  }

  ghost predicate SameStep(cache: Cache, s: Server, op: Op, ttl: int)
    requires !op.Elsewhere?
  {
    var (h, v) := (Step(cache, s, op, ttl), UncachedStep(s, op));
    h.server == v.server && h.reply == v.reply
  }

  lemma ResolveFails(s: Server, name: Name)
    requires s.down.Some?
    ensures Resolve(s, name) == Visit(s, Failed(s.down.value))
  {
  }

  lemma RetryFails(cache: Cache, s: Server, name: Name, handler: Handler, t: Times, ttl: int, failed: Sid)
    requires s.down.Some?
    ensures var u := Retry(cache, s, name, handler, t, ttl, failed); u.server == s && u.reply == Failed(s.down.value)
  {
    ResolveFails(s, name);
    assert !SandboxSessions.Fresh(cache - {name}, name, t.asked);
  }

  lemma CallMayShow(s: Server, sid: Sid, handler: Handler)
    requires Live(s, sid)
    ensures Call(s, sid, handler).server == s <==> handler(sid, DiskOf(s, sid)).disk == DiskOf(s, sid)
  {
    var (name, box) := (s.owner[sid], s.boxes[s.owner[sid]]);
    var v := Call(s, sid, handler);
    if v.server == s {
      assert v.server.boxes[name].disk == box.disk;
    } else {
      assert s.boxes[name := box] == s.boxes;
    }
  }

  lemma OutageAgreesIff(cache: Cache, s: Server, op: Op, ttl: int)
    requires Valid(s) && Issued(cache, s) && s.down.Some? && op.Use?
    ensures SameStep(cache, s, op, ttl) <==> Agrees(cache, s, op, ttl)
  {
    ResolveFails(s, op.name);
    if SandboxSessions.Fresh(cache, op.name, op.first.asked) {
      var sid := cache[op.name].sid;
      var done := Call(s, sid, op.handler);
      RetryFails(cache, done.server, op.name, op.handler, op.second, ttl, sid);
      if Live(s, sid) {
        CallMayShow(s, sid, op.handler);
      }
    }
  }

  lemma UpAgreesIff(cache: Cache, s: Server, op: Op, ttl: int)
    requires Valid(s) && Issued(cache, s) && s.down.None? && op.Use?
    ensures SameStep(cache, s, op, ttl) <==> Agrees(cache, s, op, ttl)
  {
    SessionIsIssued(cache, s, op.name, op.first, ttl);
    CacheIsInvisibleIff(cache, s, op.name, op.handler, op.first, op.second, ttl, Still);
    SessionThenDirect(cache, s, op.name, op.handler, op.first, ttl);
    TextsDiffer(WithSession(cache, s, op.name, op.handler, op.first, op.second, ttl, Still).reply,
                Direct(s, op.name, op.handler).reply);
  }

  lemma TextsDiffer(a: Reply<string>, b: Reply<string>)
    ensures TextOf(a) == TextOf(b) <==> a == b
  {
  }

  /** In any state whatever, a step shows the cache exactly when it does not agree. */
  lemma StepAgreesIff(cache: Cache, s: Server, op: Op, ttl: int)
    requires Valid(s) && Issued(cache, s) && !op.Elsewhere?
    ensures SameStep(cache, s, op, ttl) <==> Agrees(cache, s, op, ttl)
  {
    if op.Use? {
      if s.down.None? {
        UpAgreesIff(cache, s, op, ttl);
      } else {
        OutageAgreesIff(cache, s, op, ttl);
      }
    }
  }

  /** So far the tool with a cache and the one without have given the same. */
  ghost predicate SameRun(s: Server, ops: seq<Op>, ttl: int) {
    var (w, p) := (Run(s, ops, ttl), PlainRun(s, ops));
    w.server == p.server && w.replies == p.replies
  }

  ghost predicate AgreesNext(s: Server, ops: seq<Op>, op: Op, ttl: int) {
    op.Elsewhere? || Agrees(Run(s, ops, ttl).cache, Run(s, ops, ttl).server, op, ttl)
  }

  lemma SameGrowsIff(s: Server, front: seq<Op>, op: Op, ttl: int)
    requires Valid(s) && SameRun(s, front, ttl)
    ensures SameRun(s, front + [op], ttl) <==> AgreesNext(s, front, op, ttl)
  {
    assert (front + [op])[..|front|] == front;
    RunKeeps(s, front, ttl);
    if !op.Elsewhere? {
      var w, p := Run(s, front, ttl), PlainRun(s, front);
      StepAgreesIff(w.cache, w.server, op, ttl);
      SnocsAgree(w.replies, Step(w.cache, w.server, op, ttl).reply, UncachedStep(p.server, op).reply);
    }
  }

  lemma SnocsAgree<T>(s: seq<T>, x: T, y: T)
    ensures s + [x] == s + [y] <==> x == y
  {
    assert (s + [x])[|s|] == x && (s + [y])[|s|] == y;
  }

  lemma {:induction false} SamePrefixes(s: Server, ops: seq<Op>, ttl: int, n: nat)
    requires Valid(s) && n <= |ops|
    requires forall k :: 0 <= k < n ==> AgreesNext(s, ops[..k], ops[k], ttl)
    ensures SameRun(s, ops[..n], ttl)
  {
    if n > 0 {
      SamePrefixes(s, ops, ttl, n - 1);
      SameGrowsIff(s, ops[..n - 1], ops[n - 1], ttl);
      assert ops[..n] == ops[..n - 1] + [ops[n - 1]];
    }
  }

  /**
    Over every run, beside whatever else stops, resumes, creates and deletes the sandboxes between the
    operations, outages included: the tool with its cache gives at every point the replies, and leaves the
    service, of the tool without one, exactly when every step agrees.
   */
  lemma RunsAreUncachedIff(s: Server, ops: seq<Op>, ttl: int)
    requires Valid(s)
    ensures (forall n :: 0 <= n <= |ops| ==> SameRun(s, ops[..n], ttl)) <==>
            (forall n :: 0 <= n < |ops| ==> AgreesNext(s, ops[..n], ops[n], ttl))
  {
    if forall n :: 0 <= n <= |ops| ==> SameRun(s, ops[..n], ttl) {
      forall n | 0 <= n < |ops|
        ensures AgreesNext(s, ops[..n], ops[n], ttl)
      {
        assert SameRun(s, ops[..n], ttl) && SameRun(s, ops[..n + 1], ttl);
        assert ops[..n + 1] == ops[..n] + [ops[n]];
        SameGrowsIff(s, ops[..n], ops[n], ttl);
      }
    }
    if forall n :: 0 <= n < |ops| ==> AgreesNext(s, ops[..n], ops[n], ttl) {
      forall n | 0 <= n <= |ops|
        ensures SameRun(s, ops[..n], ttl)
      {
        SamePrefixes(s, ops, ttl, n);
      }
    }
  }

  /** Having resolved already makes no difference to the uncached operation. */
  lemma SessionThenDirect(cache: Cache, s: Server, name: Name, handler: Handler, t: Times, ttl: int)
    requires Valid(s) && s.down.None?
    ensures Direct(Session(cache, s, name, t, ttl).server, name, handler) == Direct(s, name, handler)
  {
    var found := Resolve(s, name);
    ResolvedIsLive(s, name);
    LiveIsResolved(found.server, found.reply.value);
  }

  /** In particular the cache never shows while the service answers and operations that a running session
      refuses as "gone" can be repeated. */
  lemma RunsAreUncached(s: Server, ops: seq<Op>, ttl: int)
    requires Valid(s) && s.down.None? && forall i :: 0 <= i < |ops| ==> Fair(ops[i])
    ensures SameRun(s, ops, ttl)
  {
    forall n | 0 <= n < |ops|
      ensures AgreesNext(s, ops[..n], ops[n], ttl)
    {
      FairRunsStayUp(s, ops[..n], ttl);
      assert Fair(ops[n]);
    }
    SamePrefixes(s, ops, ttl, |ops|);
    assert ops[..|ops|] == ops;
  }

  /** An operation that a running session answers with 404 after writing a file: it is carried out twice. */
  function Surprise(sid: Sid, disk: Disk): Answer {
    if "seen" in disk then Answer(Done("second"), disk) else Answer(Failed(404), disk["seen" := "yes"])
  }

  lemma RunningSessionIsCalledTwice()
    ensures exists s: Server, op: Op :: Valid(s) && s.down.None? && op.Use? && !SameStep(map[], s, op, 120)
  {
    var name := Name("space");
    var s := Server(map[name := Box(true, Some(0), map[])], [name], None, 404, 404);
    var op := Use(name, Surprise, Times(0, 0), Times(0, 0));
    assert Live(s, 0) && DiskOf(s, 0) == map[];
    LiveIsResolved(s, 0);
    assert !Repeats(Surprise, 0, map[]);
    UpAgreesIff(map[], s, op, 120);
  }

  // ---- whose files change ---------------------------------------------------

  /** Every other sandbox is as it was. */
  ghost predicate OthersKept(s: Server, s': Server, name: Name) {
    forall other :: other != name ==>
      (other in s.boxes <==> other in s'.boxes) && (other in s.boxes ==> s'.boxes[other] == s.boxes[other])
  }

  lemma ResolveTouchesOne(s: Server, name: Name)
    ensures OthersKept(s, Resolve(s, name).server, name)
  {
  }

  lemma CallTouchesOne(s: Server, sid: Sid, handler: Handler)
    requires sid < |s.owner|
    ensures OthersKept(s, Call(s, sid, handler).server, s.owner[sid])
  {
  }

  lemma RetryTouchesOne(cache: Cache, s: Server, name: Name, handler: Handler, t: Times, ttl: int, failed: Sid)
    requires Valid(s) && Issued(cache, s)
    ensures OthersKept(s, Retry(cache, s, name, handler, t, ttl, failed).server, name)
  {
    SessionIsIssued(cache - {name}, s, name, t, ttl);
    ResolveTouchesOne(s, name);
    var again := Session(cache - {name}, s, name, t, ttl);
    if again.reply.Done? {
      CallTouchesOne(again.server, again.reply.value, handler);
    }
  }

  /** No operation on one space reaches another space's sandbox, whatever is cached. */
  lemma UseTouchesOne(cache: Cache, s: Server, name: Name, handler: Handler, t: Times, t': Times, ttl: int)
    requires Valid(s) && Issued(cache, s)
    ensures OthersKept(s, WithSession(cache, s, name, handler, t, t', ttl, Still).server, name)
  {
    SessionIsIssued(cache, s, name, t, ttl);
    ResolveTouchesOne(s, name);
    var first := Session(cache, s, name, t, ttl);
    if first.reply.Done? {
      CallTouchesOne(first.server, first.reply.value, handler);
      CallKeeps(first.server, first.reply.value, handler);
      RetryTouchesOne(first.cache, Call(first.server, first.reply.value, handler).server, name, handler, t', ttl,
                      first.reply.value);
    }
  }

  /** Creating, starting and stopping keep every sandbox's files. */
  lemma FilesSurvive(s: Server, op: Op, name: Name)
    requires Valid(s) && (op.Create? || op.Start? || op.Stop?) && name in s.boxes
    ensures var v := UncachedStep(s, op); name in v.server.boxes && v.server.boxes[name].disk == s.boxes[name].disk
  {
    match op {
      case Create(other) => CreateKeepsFiles(s, other, name);
      case Start(other) =>
        GetKeepsFiles(s, other, true, name);
        CreateKeepsFiles(Get(s, other, true).server, other, name);
      case Stop(other) => StopKeepsFiles(s, other, name);
    }
  }

  lemma GetKeepsFiles(s: Server, other: Name, resume: bool, name: Name)
    requires name in s.boxes
    ensures var v := Get(s, other, resume); name in v.server.boxes && v.server.boxes[name].disk == s.boxes[name].disk
  {
  }

  lemma CreateKeepsFiles(s: Server, other: Name, name: Name)
    requires name in s.boxes
    ensures var v := CreateOrAdopt(s, other); name in v.server.boxes && v.server.boxes[name].disk == s.boxes[name].disk
  {
    GetKeepsFiles(Post(s, other).server, other, true, name);
  }

  lemma StopKeepsFiles(s: Server, other: Name, name: Name)
    requires Valid(s) && name in s.boxes
    ensures var v := StopVisit(s, other); name in v.server.boxes && v.server.boxes[name].disk == s.boxes[name].disk
  {
  }

  // ---- what stop and delete leave behind ------------------------------------

  /** After a delete nothing is cached for the name, however the service answered. */
  lemma DeleteForgets(cache: Cache, s: Server, name: Name, ttl: int)
    ensures var h := Step(cache, s, Delete(name), ttl);
            name !in h.cache && (h.reply.Done? && s.down.None? ==> name !in h.server.boxes)
  {
  }

  /**
    A completed stop leaves nothing running. It leaves an id cached exactly when there was one and
    the sandbox no longer exists: that answer returns before the cache is cleared.
   */
  lemma StopForgetsIff(cache: Cache, s: Server, name: Name, ttl: int)
    requires Valid(s) && s.down.None?
    ensures var h := Step(cache, s, Stop(name), ttl);
            && h.reply.Done?
            && (name in h.server.boxes ==> !h.server.boxes[name].running)
            && (name in h.cache <==> name in cache && name !in s.boxes)
  {
  }

  lemma StepIsRun(s: Server, front: seq<Op>, op: Op, ttl: int)
    requires !op.Elsewhere?
    ensures var (w, v) := (Run(s, front, ttl), Run(s, front + [op], ttl));
            v.cache == Step(w.cache, w.server, op, ttl).cache && v.server == Step(w.cache, w.server, op, ttl).server
  {
    assert (front + [op])[..|front|] == front;
  }

  lemma ElsewhereIsRun(s: Server, front: seq<Op>, op: Op, ttl: int)
    requires op.Elsewhere? && Later(Run(s, front, ttl).server, op.next)
    ensures var (w, v) := (Run(s, front, ttl), Run(s, front + [op], ttl));
            v.cache == w.cache && v.server == op.next
  {
    assert (front + [op])[..|front|] == front;
  }

  /** One such run: use, a deletion elsewhere, stop. */
  lemma StopCanLeaveAnId()
    ensures exists s: Server, ops: seq<Op>, name: Name ::
              Valid(s) && s.down.None? && (forall i :: 0 <= i < |ops| ==> Fair(ops[i])) &&
              ops != [] && ops[|ops| - 1] == Stop(name) && name in Run(s, ops, 120).cache
  {
    var name, empty := Name("space"), Server(map[], [], None, 404, 404);
    var read: Handler := (sid, disk) => Answer(Done("ok"), disk);
    var use := Use(name, read, Times(0, 0), Times(0, 0));
    var gone := Elsewhere(empty.(owner := [name]));
    var ops := [use, gone, Stop(name)];
    assert [] + [use] == [use] && [use] + [gone] == [use, gone] && [use, gone] + [Stop(name)] == ops;
    StepIsRun(empty, [], use, 120);
    assert name in Run(empty, [use], 120).cache && Run(empty, [use], 120).server.owner == [name];
    ElsewhereIsRun(empty, [use], gone, 120);
    StepIsRun(empty, [use, gone], Stop(name), 120);
    assert name in Run(empty, ops, 120).cache;
  }
}
