/**
 The whole server as a value, and one turn of its event loop: sessions at
 addresses, the event pool, the requests the kernel holds, the free slots, the
 open client descriptors. A session is named by its address, as the event's
 client pointer names it; addresses are never handed out twice, so a pointer to
 a deleted session is always noticed.
 */
module ServerSpec {
  import opened Socks5
  import opened SessionSpec
  import opened Wire

  datatype Event = Event(client: nat, kind: EventType)

  const NULL: nat := 0

  // The event pool (events, free) together with the requests the kernel holds;
  // the user data of a request is the index of its event.
  datatype Ring = Ring(events: seq<Event>, free: seq<nat>, pending: map<nat, Request>)

  // obtain_event, the event's fields, and the submission.
  function Launch1(r: Ring, client: nat, q: Request): Option<Ring> {
    if r.free == [] || r.free[0] >= |r.events| then None
    else
      var e := r.free[0];
      Some(Ring(r.events[e := Event(client, q.kind)], r.free[1..], r.pending[e := q]))
  }

  function Launch(r: Ring, client: nat, qs: seq<Request>): Option<Ring>
    decreases |qs|
  {
    if qs == [] then Some(r)
    else
      var r' := Launch1(r, client, qs[0]);
      if r'.None? then None else Launch(r'.value, client, qs[1..])
  }

  function Taken(r: Ring, e: nat): Ring { r.(pending := r.pending - {e}) }

  function Returned(r: Ring, e: nat): Ring { r.(free := r.free + [e]) }

  datatype World = World(
    cfg: Config,
    sessions: map<nat, Conn>,
    wires: map<nat, Wire>,
    ring: Ring,
    freeSlots: seq<nat>,
    open: set<int>,
    armed: bool,
    next: nat
  )

  // What has been seen of the session at address id.
  function WireOf(w: World, id: nat): Wire {
    if id in w.wires then w.wires[id] else SILENCE
  }

  datatype Status = Running(w: World) | Crashed(fault: Fault)

  datatype Completion =
    // a connection is accepted; slot is what its slot happens to contain, if it gets one
    | Accepted(fd: int, slot: seq<byte>)
    | AcceptFailed
    | Op(event: nat, result: Result, env: Env)

  function Init(cfg: Config): World {
    World(cfg, map[], map[],
          Ring(seq(4 * cfg.connections, _ => Event(NULL, ClientAccept)), seq(4 * cfg.connections, i => i), map[]),
          seq(cfg.connections, i => i), {}, true, 1)
  }

  // What the kernel may report next.
  predicate Enabled(w: World, c: Completion) {
    match c
    case Accepted(fd, slot) => w.armed && fd >= 0 && fd !in w.open && |slot| == BUFFER_SIZE
    case AcceptFailed => w.armed
    case Op(e, res, _) => e in w.ring.pending && Answers(w.ring.pending[e], res)
  }

  function Step(w: World, c: Completion): Status {
    match c
    case Accepted(fd, slot) => HandleAccept(w, fd, slot)
    case AcceptFailed => Running(w.(armed := false))
    case Op(e, res, env) => Complete(w, e, res, env)
  }

  function HandleAccept(w: World, fd: int, slot: seq<byte>): Status {
    if w.freeSlots == [] then Running(w.(armed := true))
    else
      var c := NewConn(fd, w.freeSlots[0], slot).(awaiting := 1);
      match ReadSomeFromClient(w.cfg, c, 3, QUIET)
      case Keep(c', qs) =>
        Post(w.(armed := true, open := w.open + {fd}, freeSlots := w.freeSlots[1..], next := w.next + 1,
                wires := w.wires[w.next := SILENCE]), w.next, c', qs)
      case Drop(_, _) => Crashed(AssertionFailed)
      case Crash(fault) => Crashed(fault)
  }

  // The session at address id is now c and has submitted qs.
  function Post(w: World, id: nat, c: Conn, qs: seq<Request>): Status {
    var r := Launch(w.ring, id, qs);
    if r.None? then Crashed(NoFreeEvent) else Running(w.(sessions := w.sessions[id := c], ring := r.value))
  }

  function Complete(w: World, e: nat, res: Result, env: Env): Status {
    if e >= |w.ring.events| || e !in w.ring.pending then Crashed(Dangling)
    else
      var id, q := w.ring.events[e].client, w.ring.pending[e];
      if id !in w.sessions then Crashed(Dangling)
      else
        var c := w.sessions[id];
        if q.start + q.offset + Moved(res) > |c.slot| then Crashed(OutOfBounds)
        else
          var w' := w.(ring := Taken(w.ring, e), wires := w.wires[id := Observe(w.cfg, c, WireOf(w, id), q, res, env)]);
          match Settle(w.cfg, c, q, w.ring.events[e].kind, res, env)
          case Crash(fault) => Crashed(fault)
          case Keep(c', qs) => Finish(Store(w', id, c', qs), e)
          case Drop(c', qs) => Finish(Delete(Store(w', id, c', qs), id), e)
  }

  // What the handlers did to the session at address id: its descriptor closed,
  // perhaps, its fields, its requests.
  function Store(w: World, id: nat, c': Conn, qs: seq<Request>): Status
    requires id in w.sessions
  {
    var fd := w.sessions[id].fd;
    if c'.fd != fd && fd !in w.open then Crashed(BadDescriptor)
    else Post(w.(open := if c'.fd == fd then w.open else w.open - {fd}), id, c', qs)
  }

  // ~Session: the descriptor is closed unless it is -1, the slot goes back.
  function Delete(s: Status, id: nat): Status
    requires s.Running? ==> id in s.w.sessions
  {
    match s
    case Crashed(_) => s
    case Running(w) =>
      var c := w.sessions[id];
      if c.fd != -1 && c.fd !in w.open then Crashed(BadDescriptor)
      else Running(w.(sessions := w.sessions - {id}, wires := w.wires - {id}, freeSlots := w.freeSlots + [c.slotIndex],
                      open := if c.fd == -1 then w.open else w.open - {c.fd}))
  }

  function Finish(s: Status, e: nat): Status {
    match s
    case Running(w) => Running(w.(ring := Returned(w.ring, e)))
    case Crashed(_) => s
  }

  // Runs: the completions of cs, one after the other, until a crash.
  function Run(w: World, cs: seq<Completion>): Status
    decreases |cs|
  {
    if cs == [] then Running(w)
    else
      match Step(w, cs[0])
      case Running(w') => Run(w', cs[1..])
      case Crashed(fault) => Crashed(fault)
  }

  // Every completion is one the kernel may report when its turn comes.
  predicate Legal(w: World, cs: seq<Completion>)
    decreases |cs|
  {
    cs == [] || (Enabled(w, cs[0]) && (var s := Step(w, cs[0]); s.Running? ==> Legal(s.w, cs[1..])))
  }
}
