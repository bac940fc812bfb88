/** The sandbox service as its client sees it: named sandboxes, each with at most one running session. */
module SandboxServer {
  import opened Common

  type Sid = nat

  type Disk = map<string, string>

  datatype Name = Name(text: string)

  /** A sandbox keeps its files when it stops; `current` is its latest session, running or not. */
  datatype Box = Box(running: bool, current: Option<Sid>, disk: Disk)

  /** How the service says that a sandbox does not exist. */
  type Absent = status: int | status == 404 || status == 410 witness 404

  /** How it says that a session is over. */
  type Dead = status: int | status == 404 || status == 409 || status == 410 witness 404

  /**
    `owner[sid]` is the sandbox that session `sid` was opened for; session ids are never used again.
    While `down` holds a status, every request about a sandbox is answered with it.
   */
  datatype Server = Server(boxes: map<Name, Box>, owner: seq<Name>, down: Option<int>, absent: Absent, dead: Dead)

  datatype Reply<+T> = Done(value: T) | Failed(status: int)

  datatype Visit<+T> = Visit(server: Server, reply: Reply<T>)

  /** What is told about a sandbox; `adopted` only by the request that asked for its creation. */
  datatype Info = Info(running: bool, session: Option<Sid>, current: Option<Sid>, adopted: Option<bool>)

  datatype Answer = Answer(reply: Reply<string>, disk: Disk)

  /** What one operation does inside a running session: any result, any change of its files. */
  type Handler = (Sid, Disk) -> Answer

  predicate Gone(reply: Reply<string>) {
    reply.Failed? && reply.status in {404, 409, 410}
  }

  function InfoOf(box: Box): Info {
    Info(box.running, if box.running then box.current else None, box.current, None)
  }

  function Open(s: Server, name: Name, disk: Disk): Visit<Info> {
    var box := Box(true, Some(|s.owner|), disk);
    Visit(s.(boxes := s.boxes[name := box], owner := s.owner + [name]), Done(InfoOf(box)))
  }

  /** `GET /v2/sandboxes/{name}?resume=…`. */
  function Get(s: Server, name: Name, resume: bool): Visit<Info> {
    if s.down.Some? then Visit(s, Failed(s.down.value))
    else if name !in s.boxes then Visit(s, Failed(s.absent))
    else if resume && !s.boxes[name].running then Open(s, name, s.boxes[name].disk)
    else Visit(s, Done(InfoOf(s.boxes[name])))
  }

  /** `POST /v2/sandboxes`. */
  function Post(s: Server, name: Name): Visit<Info> {
    if s.down.Some? then Visit(s, Failed(s.down.value))
    else if name in s.boxes then Visit(s, Failed(409))
    else Open(s, name, map[])
  }

  /** `DELETE /v2/sandboxes/{name}`. */
  function Remove(s: Server, name: Name): Visit<bool> {
    if s.down.Some? then Visit(s, Failed(s.down.value))
    else if name !in s.boxes then Visit(s, Failed(s.absent))
    else Visit(s.(boxes := s.boxes - {name}), Done(true))
  }

  predicate Live(s: Server, sid: Sid) {
    && sid < |s.owner|
    && s.owner[sid] in s.boxes
    && s.boxes[s.owner[sid]].running
    && s.boxes[s.owner[sid]].current == Some(sid)
  }

  /** `POST /v2/sandboxes/sessions/{sid}/stop`: the files are kept. */
  function Halt(s: Server, sid: Sid): Visit<bool> {
    if s.down.Some? then Visit(s, Failed(s.down.value))
    else if Live(s, sid) then
      var box := s.boxes[s.owner[sid]];
      Visit(s.(boxes := s.boxes[s.owner[sid] := box.(running := false)]), Done(true))
    else Visit(s, Failed(s.dead))
  }

  /** Any request on a session. */
  function Call(s: Server, sid: Sid, handler: Handler): Visit<string> {
    if Live(s, sid) then
      var box := s.boxes[s.owner[sid]];
      var a := handler(sid, box.disk);
      Visit(s.(boxes := s.boxes[s.owner[sid] := box.(disk := a.disk)]), a.reply)
    else Visit(s, Failed(s.dead))
  }

  /** A running sandbox runs a session that was opened for it. */
  ghost predicate Valid(s: Server) {
    forall name :: name in s.boxes && s.boxes[name].running ==>
      s.boxes[name].current.Some? && s.boxes[name].current.value < |s.owner| &&
      s.owner[s.boxes[name].current.value] == name
  }

  /**
    Anything the rest of the world may have done to the service: sandboxes stopped, resumed,
    created, deleted, their files changed. Sessions already opened stay what they were.
   */
  ghost predicate Later(s: Server, s': Server) {
    Valid(s') && s.owner <= s'.owner
  }
}
