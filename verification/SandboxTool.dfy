/** The tool as it changes its `_SESSIONS` in place, over a service that changes as it is asked. */
module SandboxTool {
  import opened Common
  import opened SandboxServer
  import opened SandboxSessions
  import R = SandboxRuns

  /** The remote service. */
  class Api {
    var server: Server

    constructor (server: Server)
      ensures this.server == server
    {
      this.server := server;
    }

    method Get(name: Name, resume: bool) returns (reply: Reply<Info>)
      modifies this
      ensures Visit(server, reply) == SandboxServer.Get(old(server), name, resume)
    {
      var v := SandboxServer.Get(server, name, resume);
      server, reply := v.server, v.reply;
    }

    method Post(name: Name) returns (reply: Reply<Info>)
      modifies this
      ensures Visit(server, reply) == SandboxServer.Post(old(server), name)
    {
      var v := SandboxServer.Post(server, name);
      server, reply := v.server, v.reply;
    }

    method Remove(name: Name) returns (reply: Reply<bool>)
      modifies this
      ensures Visit(server, reply) == SandboxServer.Remove(old(server), name)
    {
      var v := SandboxServer.Remove(server, name);
      server, reply := v.server, v.reply;
    }

    method Halt(sid: Sid) returns (reply: Reply<bool>)
      modifies this
      ensures Visit(server, reply) == SandboxServer.Halt(old(server), sid)
    {
      var v := SandboxServer.Halt(server, sid);
      server, reply := v.server, v.reply;
    }

    method Call(sid: Sid, handler: Handler) returns (reply: Reply<string>)
      modifies this
      ensures Visit(server, reply) == SandboxServer.Call(old(server), sid, handler)
    {
      var v := SandboxServer.Call(server, sid, handler);
      server, reply := v.server, v.reply;
    }

    /** Whatever the rest of the world does to it. */
    method Pass(meanwhile: Server -> Server)
      modifies this
      ensures server == meanwhile(old(server))
    {
      server := meanwhile(server);
    }
  }

  class Tool {
    const api: Api
    const ttl: int
    var sessions: Cache

    constructor (api: Api, ttl: int)
      ensures this.api == api && this.ttl == ttl && sessions == map[]
    {
      this.api, this.ttl, sessions := api, ttl, map[];
    }

    method CreateOrAdopt(name: Name) returns (reply: Reply<Info>)
      modifies api
      ensures Visit(api.server, reply) == SandboxSessions.CreateOrAdopt(old(api.server), name)
      ensures Valid(old(api.server)) && old(api.server).down.None? ==>
                reply.Done? && Serves(api.server, name, reply.value) && Provided(old(api.server), api.server, name)
    {
      if Valid(api.server) && api.server.down.None? {
        CreateProvides(api.server, name);
      }
      reply := api.Post(name);
      var adopted := reply == Failed(409);
      if adopted {
        reply := api.Get(name, true);
      }
      if reply.Done? {
        reply := Done(reply.value.(adopted := Some(adopted)));
      }
    }

    method ResumeOrCreate(name: Name) returns (reply: Reply<Info>)
      modifies api
      ensures Visit(api.server, reply) == SandboxSessions.ResumeOrCreate(old(api.server), name)
      ensures Valid(old(api.server)) && old(api.server).down.None? ==>
                reply.Done? && Serves(api.server, name, reply.value) && Provided(old(api.server), api.server, name)
    {
      if Valid(api.server) && api.server.down.None? {
        ResumeProvides(api.server, name);
      }
      reply := api.Get(name, true);
      if reply.Failed? && reply.status in {404, 410} {
        reply := CreateOrAdopt(name);
      }
    }

    /** `_session`. */
    method Session(name: Name, t: Times) returns (reply: Reply<Sid>)
      modifies this, api
      ensures Held(sessions, api.server, reply) ==
              SandboxSessions.Session(old(sessions), old(api.server), name, t, ttl)
    {
      if name in sessions && sessions[name].deadline > t.asked {
        return Done(sessions[name].sid);
      }
      var info := ResumeOrCreate(name);
      if info.Failed? {
        return Failed(info.status);
      }
      var sid := SessionId(info.value);
      if sid.None? {
        return Failed(0);
      }
      sessions := sessions[name := Entry(sid.value, t.stored + ttl)];
      reply := Done(sid.value);
    }

    /** `_forget_session`. */
    method Forget(name: Name)
      modifies `sessions
      ensures sessions == old(sessions) - {name}
    {
      sessions := sessions - {name};
    }

    /** `_with_session`. */
    method WithSession(name: Name, handler: Handler, t: Times, t': Times, meanwhile: Server -> Server)
      returns (reply: Reply<string>, ghost calls: seq<Sid>)
      modifies this, api
      ensures Used(sessions, api.server, reply, calls) ==
              SandboxSessions.WithSession(old(sessions), old(api.server), name, handler, t, t', ttl, meanwhile)
    {
      calls := [];
      var session := Session(name, t);
      if session.Failed? {
        return Failed(session.status), calls;
      }
      api.Pass(meanwhile);
      calls := [session.value];
      reply := api.Call(session.value, handler);
      if !Gone(reply) {
        return;
      }
      Forget(name);
      var again := Session(name, t');
      if again.Failed? {
        return Failed(again.status), calls;
      }
      calls := calls + [again.value];
      reply := api.Call(again.value, handler);
    }

    /** `_action_create`. */
    method Create(name: Name) returns (reply: Reply<Info>)
      modifies this, api
      ensures var v := Visit(api.server, reply);
              Held(sessions, api.server, R.Describe(v).reply) ==
              R.Step(old(sessions), old(api.server), R.Create(name), ttl)
      ensures Valid(old(api.server)) && old(api.server).down.None? ==>
                reply.Done? && Serves(api.server, name, reply.value) && Provided(old(api.server), api.server, name)
    {
      Forget(name);
      reply := CreateOrAdopt(name);
    }

    /** `_action_start`. */
    method Start(name: Name) returns (reply: Reply<Info>)
      modifies this, api
      ensures var v := Visit(api.server, reply);
              Held(sessions, api.server, R.Describe(v).reply) ==
              R.Step(old(sessions), old(api.server), R.Start(name), ttl)
      ensures Valid(old(api.server)) && old(api.server).down.None? ==>
                reply.Done? && Serves(api.server, name, reply.value) && Provided(old(api.server), api.server, name)
    {
      Forget(name);
      reply := ResumeOrCreate(name);
    }

    /** `_action_stop`. */
    method Stop(name: Name) returns (reply: Reply<R.Outcome>)
      modifies this, api
      ensures Held(sessions, api.server, reply) == R.Step(old(sessions), old(api.server), R.Stop(name), ttl)
      ensures Valid(old(api.server)) && old(api.server).down.None? ==>
                reply == Done(R.Stopped(!(name in old(api.server).boxes && old(api.server).boxes[name].running)))
    {
      if Valid(api.server) && api.server.down.None? {
        R.StopMeans(api.server, name);
      }
      var info := api.Get(name, false);
      if info.Failed? {
        return if info.status in {404, 410} then Done(R.Stopped(true)) else Failed(info.status);
      }
      var sid := SessionId(info.value);
      if !info.value.running || sid.None? {
        Forget(name);
        return Done(R.Stopped(true));
      }
      var halted := api.Halt(sid.value);
      if halted.Failed? && halted.status !in {404, 410} {
        return Failed(halted.status);
      }
      Forget(name);
      reply := Done(R.Stopped(false));
    }

    /** `_action_delete`. */
    method Delete(name: Name) returns (reply: Reply<R.Outcome>)
      modifies this, api
      ensures Held(sessions, api.server, reply) == R.Step(old(sessions), old(api.server), R.Delete(name), ttl)
      ensures old(api.server).down.None? ==>
                reply == Done(R.Deleted(name in old(api.server).boxes)) && name !in api.server.boxes
    {
      var removed := api.Remove(name);
      Forget(name);
      if removed.Failed? {
        return if removed.status in {404, 410} then Done(R.Deleted(false)) else Failed(removed.status);
      }
      reply := Done(R.Deleted(true));
    }
  }
}
