/**
  The session cache of the cloud sandbox tool: whatever it holds, an operation gives what
  resolving the session anew and calling once would give.
 */
module SandboxSessions {
  import opened Common
  import opened SandboxServer

  datatype Entry = Entry(sid: Sid, deadline: int)

  type Cache = map<Name, Entry>

  /** The two clock readings of one `_session`. */
  datatype Times = Times(asked: int, stored: int)

  datatype Held<+T> = Held(cache: Cache, server: Server, reply: Reply<T>)

  /** `calls` lists the session ids the operation was called with. */
  datatype Used = Used(cache: Cache, server: Server, reply: Reply<string>, calls: seq<Sid>)

  /** `_create`: a name that exists already is adopted. */
  function CreateOrAdopt(s: Server, name: Name): Visit<Info> {
    var made := Post(s, name);
    if made.reply == Failed(409) then Adopted(Get(made.server, name, true), true) else Adopted(made, false)
  }

  function Adopted(v: Visit<Info>, adopted: bool): Visit<Info> {
    if v.reply.Done? then v.(reply := Done(v.reply.value.(adopted := Some(adopted)))) else v
  }

  /** Resumes the sandbox, creating it when it is not there. */
  function ResumeOrCreate(s: Server, name: Name): Visit<Info> {
    var got := Get(s, name, true);
    if got.reply.Failed? && got.reply.status in {404, 410} then CreateOrAdopt(got.server, name) else got
  }

  function SessionId(info: Info): Option<Sid> {
    if info.session.Some? then info.session else info.current
  }

  /** What `_session` does when it has nothing cached. */
  function Resolve(s: Server, name: Name): Visit<Sid> {
    var found := ResumeOrCreate(s, name);
    match found.reply
    case Failed(status) => Visit(found.server, Failed(status))
    case Done(info) =>
      match SessionId(info)
      case None => Visit(found.server, Failed(0))
      case Some(sid) => Visit(found.server, Done(sid))
  }

  predicate Fresh(cache: Cache, name: Name, asked: int) {
    name in cache && cache[name].deadline > asked
  }

  function Session(cache: Cache, s: Server, name: Name, t: Times, ttl: int): Held<Sid> {
    if Fresh(cache, name, t.asked) then Held(cache, s, Done(cache[name].sid))
    else
      var found := Resolve(s, name);
      var cache' := if found.reply.Done? then cache[name := Entry(found.reply.value, t.stored + ttl)] else cache;
      Held(cache', found.server, found.reply)
  }

  /** `_with_session`; `meanwhile` is what happens to the service before the first call arrives. */
  function WithSession(cache: Cache, s: Server, name: Name, handler: Handler, t: Times, t': Times, ttl: int,
                       meanwhile: Server -> Server): Used {
    var first := Session(cache, s, name, t, ttl);
    if first.reply.Failed? then Used(first.cache, first.server, Failed(first.reply.status), [])
    else
      var sid := first.reply.value;
      var done := Call(meanwhile(first.server), sid, handler);
      if Gone(done.reply) then Retry(first.cache, done.server, name, handler, t', ttl, sid)
      else Used(first.cache, done.server, done.reply, [sid])
  }

  /** Forgets the session, resolves it once more and calls again. */
  function Retry(cache: Cache, s: Server, name: Name, handler: Handler, t: Times, ttl: int, failed: Sid): Used {
    var again := Session(cache - {name}, s, name, t, ttl);
    if again.reply.Failed? then Used(again.cache, again.server, Failed(again.reply.status), [failed])
    else
      var done := Call(again.server, again.reply.value, handler);
      Used(again.cache, done.server, done.reply, [failed, again.reply.value])
  }

  /** The same operation without a cache. */
  function Direct(s: Server, name: Name, handler: Handler): Visit<string> {
    var found := Resolve(s, name);
    if found.reply.Failed? then Visit(found.server, Failed(found.reply.status))
    else Call(found.server, found.reply.value, handler)
  }

  // ---- what resolving gives -------------------------------------------------

  /** Every cached id belongs to the name it is cached under. It need not be alive. */
  ghost predicate Issued(cache: Cache, s: Server) {
    forall name :: name in cache ==> cache[name].sid < |s.owner| && s.owner[cache[name].sid] == name
  }

  lemma OpenIsLive(s: Server, name: Name, disk: Disk)
    requires Valid(s)
    ensures var v := Open(s, name, disk);
            Valid(v.server) && s.owner <= v.server.owner && Live(v.server, |s.owner|) &&
            v.server.owner[|s.owner|] == name && SessionId(v.reply.value) == Some(|s.owner|)
  {
  }

  /** When the service is up, resolving always ends with a running session of that sandbox. */
  lemma ResolvedIsLive(s: Server, name: Name)
    requires Valid(s) && s.down.None?
    ensures var v := Resolve(s, name);
            Valid(v.server) && s.owner <= v.server.owner && v.server.down.None? && v.reply.Done? &&
            Live(v.server, v.reply.value) && v.server.owner[v.reply.value] == name
  {
    if name !in s.boxes {
      OpenIsLive(s, name, map[]);
    } else if !s.boxes[name].running {
      OpenIsLive(s, name, s.boxes[name].disk);
    }
  }

  /** And resolving a sandbox whose session runs changes nothing. */
  lemma LiveIsResolved(s: Server, sid: Sid)
    requires s.down.None? && Live(s, sid)
    ensures Resolve(s, s.owner[sid]) == Visit(s, Done(sid))
  {
  }

  lemma ResolvedIsValid(s: Server, name: Name)
    requires Valid(s)
    ensures Later(s, Resolve(s, name).server)
    ensures Resolve(s, name).server.down == s.down
  {
    if s.down.None? {
      ResolvedIsLive(s, name);
    }
  }

  lemma SessionIsIssued(cache: Cache, s: Server, name: Name, t: Times, ttl: int)
    requires Valid(s) && Issued(cache, s)
    ensures var h := Session(cache, s, name, t, ttl);
            && Later(s, h.server) && h.server.down == s.down && Issued(h.cache, h.server)
            && (h.reply.Done? ==> h.reply.value < |h.server.owner| && h.server.owner[h.reply.value] == name)
  {
    ResolvedIsValid(s, name);
    if s.down.None? {
      ResolvedIsLive(s, name);
    }
  }

  lemma CallKeeps(s: Server, sid: Sid, handler: Handler)
    requires Valid(s)
    ensures var v := Call(s, sid, handler);
            Valid(v.server) && v.server.owner == s.owner && v.server.down == s.down
    ensures Live(s, sid) <==> Live(Call(s, sid, handler).server, sid)
  {
  }

  /** The sandbox is there and runs, and the session told is the running one, opened for it. */
  ghost predicate Serves(s: Server, name: Name, info: Info) {
    && name in s.boxes && s.boxes[name].running && info.running
    && info.session.Some? && info.session == info.current == s.boxes[name].current
    && Live(s, info.session.value) && s.owner[info.session.value] == name
  }

  /** What may become of the named sandbox: a running one is left alone, a stopped one is resumed with its
      files, and a missing one is created empty, each time in a new session. */
  ghost predicate Provided(s: Server, s': Server, name: Name) {
    if name in s.boxes && s.boxes[name].running then s' == s
    else
      && s'.owner == s.owner + [name] && s'.down == s.down
      && s'.boxes == s.boxes[name := Box(true, Some(|s.owner|),
                                         if name in s.boxes then s.boxes[name].disk else map[])]
  }

  /** Creating provides a running sandbox, and says whether it was there before. */
  lemma CreateProvides(s: Server, name: Name)
    requires Valid(s) && s.down.None?
    ensures var v := CreateOrAdopt(s, name);
            && v.reply.Done? && Serves(v.server, name, v.reply.value) && Provided(s, v.server, name)
            && v.reply.value.adopted == Some(name in s.boxes)
  {
  }

  /** So does resuming, and a sandbox that was not there is created on the way. */
  lemma ResumeProvides(s: Server, name: Name)
    requires Valid(s) && s.down.None?
    ensures var v := ResumeOrCreate(s, name);
            && v.reply.Done? && Serves(v.server, name, v.reply.value) && Provided(s, v.server, name)
            && v.reply.value.adopted == (if name in s.boxes then None else Some(false))
  {
    CreateProvides(s, name);
  }

  /**
    A session once resolved is used until its time is up, whatever has become of the service and without
    asking it; after that it is resolved anew. What cannot be resolved is not remembered.
   */
  lemma SessionIsRemembered(cache: Cache, s: Server, name: Name, t: Times, ttl: int, later: Server, t': Times)
    requires name in cache ==> cache[name].deadline <= t.asked
    ensures var h := Session(cache, s, name, t, ttl);
            var again := Session(h.cache, later, name, t', ttl);
            && (h.reply.Failed? ==> h.cache == cache)
            && (h.reply.Done? && t'.asked < t.stored + ttl ==> again == Held(h.cache, later, h.reply))
            && (h.reply.Done? && t'.asked >= t.stored + ttl ==>
                  again.server == Resolve(later, name).server && again.reply == Resolve(later, name).reply)
  {
  }

  // ---- the cache is invisible -----------------------------------------------

  /** A session that answers "gone" although it runs answers the same, with the same files, when asked again. */
  predicate Repeats(handler: Handler, sid: Sid, disk: Disk) {
    var a := handler(sid, disk);
    Gone(a.reply) ==> handler(sid, a.disk) == a
  }

  function DiskOf(s: Server, sid: Sid): Disk
    requires Live(s, sid)
  {
    s.boxes[s.owner[sid]].disk
  }

  lemma RetryIsDirect(cache: Cache, s: Server, name: Name, handler: Handler, t: Times, ttl: int, failed: Sid)
    ensures var (r, d) := (Retry(cache, s, name, handler, t, ttl, failed), Direct(s, name, handler));
            r.server == d.server && r.reply == d.reply
  {
    assert !Fresh(cache - {name}, name, t.asked);
  }

  lemma CallIs(s: Server, sid: Sid, handler: Handler)
    requires Live(s, sid)
    ensures var (v, a) := (Call(s, sid, handler), handler(sid, DiskOf(s, sid)));
            Live(v.server, sid) && DiskOf(v.server, sid) == a.disk && v.reply == a.reply
  {
  }

  lemma CallTwice(s: Server, sid: Sid, handler: Handler)
    requires Live(s, sid)
    ensures var a := handler(sid, DiskOf(s, sid));
            Call(Call(s, sid, handler).server, sid, handler) == Call(s, sid, handler) <==>
            handler(sid, a.disk) == a
  {
    var (v, a) := (Call(s, sid, handler), handler(sid, DiskOf(s, sid)));
    CallIs(s, sid, handler);
    CallIs(v.server, sid, handler);
    var (v', b) := (Call(v.server, sid, handler), handler(sid, a.disk));
    var (name, box) := (s.owner[sid], s.boxes[s.owner[sid]]);
    assert s.boxes[name := box.(disk := a.disk)][name := box.(disk := b.disk)] ==
           s.boxes[name := box.(disk := b.disk)];
    if v' == v {
      assert b.disk == a.disk && b.reply == a.reply;
    }
  }

  lemma LiveDirect(s: Server, sid: Sid, handler: Handler)
    requires s.down.None? && Live(s, sid)
    ensures Direct(s, s.owner[sid], handler) == Call(s, sid, handler)
  {
    LiveIsResolved(s, sid);
  }

  /** The call and its retry against one session, dead or alive. */
  function CallOrRetry(cache: Cache, s: Server, name: Name, sid: Sid, handler: Handler, t: Times, ttl: int): Used {
    var done := Call(s, sid, handler);
    if Gone(done.reply) then Retry(cache, done.server, name, handler, t, ttl, sid)
    else Used(cache, done.server, done.reply, [sid])
  }

  lemma CallOrRetryIsDirectIff(cache: Cache, s: Server, sid: Sid, handler: Handler, t: Times, ttl: int)
    requires s.down.None? && sid < |s.owner|
    ensures var (u, d) := (CallOrRetry(cache, s, s.owner[sid], sid, handler, t, ttl), Direct(s, s.owner[sid], handler));
            (u.server == d.server && u.reply == d.reply) <==> (Live(s, sid) ==> Repeats(handler, sid, DiskOf(s, sid)))
  {
    var name, done := s.owner[sid], Call(s, sid, handler);
    if Gone(done.reply) {
      RetryIsDirect(cache, done.server, name, handler, t, ttl, sid);
    }
    if Live(s, sid) {
      LiveDirect(s, sid, handler);
      CallIs(s, sid, handler);
      CallTwice(s, sid, handler);
      LiveDirect(done.server, sid, handler);
    }
  }

  /**
    The cache is invisible. Take any cache whose ids belong to their names, alive or not, and let
    anything happen to the service before the first call arrives. Then `_with_session` leaves the
    reply and the service that resolving anew and calling once would have left, exactly when the
    session was dead, or did not answer "gone" while it ran, or answers that repeatably.
   */
  lemma CacheIsInvisibleIff(cache: Cache, s: Server, name: Name, handler: Handler, t: Times, t': Times, ttl: int,
                            meanwhile: Server -> Server)
    requires Valid(s) && Issued(cache, s) && s.down.None?
    requires var s' := Session(cache, s, name, t, ttl).server;
             Later(s', meanwhile(s')) && meanwhile(s').down.None?
    ensures var first := Session(cache, s, name, t, ttl);
            var (s', u) := (meanwhile(first.server), WithSession(cache, s, name, handler, t, t', ttl, meanwhile));
            var d := Direct(s', name, handler);
            && first.reply.Done?
            && ((u.server == d.server && u.reply == d.reply) <==>
                (Live(s', first.reply.value) ==> Repeats(handler, first.reply.value, DiskOf(s', first.reply.value))))
  {
    SessionIsIssued(cache, s, name, t, ttl);
    ResolvedIsLive(s, name);
    var first := Session(cache, s, name, t, ttl);
    CallOrRetryIsDirectIff(first.cache, meanwhile(first.server), first.reply.value, handler, t', ttl);
  }

  /** The retry calls at most once more, with a running session just resolved. */
  lemma RetryCallsOnce(cache: Cache, s: Server, name: Name, handler: Handler, t: Times, ttl: int, failed: Sid)
    requires Valid(s)
    ensures var calls := Retry(cache, s, name, handler, t, ttl, failed).calls;
            && 1 <= |calls| <= 2 && calls[0] == failed
            && (|calls| == 2 ==> Resolve(s, name).reply == Done(calls[1]) && Live(Resolve(s, name).server, calls[1]))
  {
    assert !Fresh(cache - {name}, name, t.asked);
    if s.down.None? {
      ResolvedIsLive(s, name);
    }
  }

  /** The operation is called at most twice, and the second time with a running session just resolved. */
  lemma CalledAtMostTwice(cache: Cache, s: Server, name: Name, handler: Handler, t: Times, t': Times, ttl: int,
                          meanwhile: Server -> Server)
    requires Valid(s) && Issued(cache, s)
    requires var s' := Session(cache, s, name, t, ttl).server; Later(s', meanwhile(s'))
    ensures var first := Session(cache, s, name, t, ttl);
            var s' := meanwhile(first.server);
            var calls := WithSession(cache, s, name, handler, t, t', ttl, meanwhile).calls;
            && |calls| <= 2
            && (calls != [] <==> first.reply.Done?)
            && (|calls| == 2 ==>
                  var after := Call(s', calls[0], handler);
                  after.reply.Failed? && after.reply.status in {404, 409, 410} &&
                  Resolve(after.server, name).reply == Done(calls[1]) &&
                  Live(Resolve(after.server, name).server, calls[1]))
  {
    var first := Session(cache, s, name, t, ttl);
    SessionIsIssued(cache, s, name, t, ttl);
    if first.reply.Done? {
      var s' := meanwhile(first.server);
      CallKeeps(s', first.reply.value, handler);
      RetryCallsOnce(first.cache, Call(s', first.reply.value, handler).server, name, handler, t', ttl,
                     first.reply.value);
    }
  }
}
