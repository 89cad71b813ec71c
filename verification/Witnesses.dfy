/**
 Runs from the start of the server to the worlds the theorems are about: a
 session that relays for every valid client; and, for each thing the code does
 less well than it looks, a run in which it happens.
 */
module Witnesses {
  import opened Socks5
  import opened SessionSpec
  import opened OneShot
  import opened Wire
  import opened HandshakeProof
  import opened SessionProof
  import opened RelayProof
  import opened ServerSpec
  import opened RingProof
  import opened Safety
  import opened Guarantees
  import opened HandshakeGuarantees

  // cs is a run of the server to the world w.
  ghost predicate Leads(cfg: Config, cs: seq<Completion>, w: World) {
    Legal(Init(cfg), cs) && Run(Init(cfg), cs) == Running(w) && w.cfg == cfg
  }

  // In the world w, session id has the requests f in flight and o has been seen
  // of it.
  ghost predicate Shows(w: World, id: nat, f: Lanes, o: Wire) {
    id in w.sessions && WireOf(w, id) == o && exists fl :: WorldOk(w, fl) && id in fl && LanesOf(w.ring, fl[id]) == f
  }

  lemma Shown(w: World, fl: map<nat, Tickets>, id: nat, f: Lanes, o: Wire)
    requires WorldOk(w, fl) && id in fl && LanesOf(w.ring, fl[id]) == f && WireOf(w, id) == o
    ensures Shows(w, id, f, o)
  {
  }

  lemma Extended(cfg: Config, cs: seq<Completion>, w: World, c: Completion, w': World)
    requires Leads(cfg, cs, w) && Enabled(w, c) && Step(w, c) == Running(w')
    ensures Leads(cfg, cs + [c], w')
  {
    RunExtends(Init(cfg), cs, c);
  }

  // A request of the session completes, and the session lives on.
  lemma Happens(cfg: Config, cs: seq<Completion>, w: World, id: nat, f: Lanes, o: Wire, q: Request, res: Result, env: Env,
                c': Conn, qs: seq<Request>, f': Lanes, o': Wire)
    returns (cs': seq<Completion>, w': World)
    requires Leads(cfg, cs, w) && Shows(w, id, f, o) && At(f, LaneOf(q.kind)) == Some(q) && Answers(q, res)
    requires q.start + q.offset + Moved(res) <= |w.sessions[id].slot|
    requires Settle(cfg, w.sessions[id], q, q.kind, res, env) == Keep(c', qs)
    requires o' == Observe(cfg, w.sessions[id], o, q, res, env) && f' == PlaceAll(Clear(f, LaneOf(q.kind)), qs)
    ensures Leads(cfg, cs', w') && w'.sessions == w.sessions[id := c'] && w'.armed == w.armed && w'.freeSlots == w.freeSlots
    ensures Shows(w', id, f', o')
  {
    var fl :| WorldOk(w, fl) && id in fl && LanesOf(w.ring, fl[id]) == f;
    var e := EventOfLane(w, fl, id, LaneOf(q.kind));
    var fl';
    w', fl' := HappensAt(w, fl, e, res, env, c', qs, f', o');
    cs' := cs + [Op(e, res, env)];
    Extended(cfg, cs, w, Op(e, res, env), w');
    Shown(w', fl', id, f', o');
  }

  lemma HappensAt(w: World, fl: map<nat, Tickets>, e: nat, res: Result, env: Env, c': Conn, qs: seq<Request>, f': Lanes, o': Wire)
    returns (w': World, fl': map<nat, Tickets>)
    requires WorldOk(w, fl) && Enabled(w, Op(e, res, env)) && e < |w.ring.events|
    requires var id, q := w.ring.events[e].client, w.ring.pending[e];
             && id in w.sessions && id in fl && q.start + q.offset + Moved(res) <= |w.sessions[id].slot|
             && Settle(w.cfg, w.sessions[id], q, q.kind, res, env) == Keep(c', qs)
             && o' == Observe(w.cfg, w.sessions[id], WireOf(w, id), q, res, env)
             && f' == PlaceAll(Clear(LanesOf(w.ring, fl[id]), LaneOf(q.kind)), qs)
    ensures Step(w, Op(e, res, env)) == Running(w') && WorldOk(w', fl') && w'.armed == w.armed && w'.freeSlots == w.freeSlots
    ensures var id := w.ring.events[e].client;
            && w'.sessions == w.sessions[id := c'] && WireOf(w', id) == o' && id in fl' && LanesOf(w'.ring, fl'[id]) == f'
  {
    var out := LocalStep(w, fl, e, res, env);
    w', fl' := OpKeeps(w, fl, e, res, env, c', qs);
  }

  lemma EventOfLane(w: World, fl: map<nat, Tickets>, id: nat, lane: Lane) returns (e: nat)
    requires TicketsOk(w.ring, fl) && id in fl && At(LanesOf(w.ring, fl[id]), lane).Some?
    ensures e in w.ring.pending && e < |w.ring.events| && w.ring.events[e] == Event(id, w.ring.pending[e].kind)
    ensures At(LanesOf(w.ring, fl[id]), lane) == Some(w.ring.pending[e]) && LaneOf(w.ring.pending[e].kind) == lane
  {
    e := TicketAt(fl[id], lane).value;
    assert TicketOk(w.ring, id, fl[id].up, Upward) && TicketOk(w.ring, id, fl[id].down, Downward);
  }

  // A connection comes in and gets a session.
  lemma Admits(cfg: Config, cs: seq<Completion>, w: World, fd: int, slot: seq<byte>)
    returns (cs': seq<Completion>, w': World, c: Conn)
    requires Leads(cfg, cs, w) && w.armed && w.freeSlots != [] && fd >= 0 && fd !in w.open && |slot| == BUFFER_SIZE
    ensures Leads(cfg, cs', w') && w'.armed && w.next !in w.sessions && w'.sessions == w.sessions[w.next := c]
    ensures c == Newcomer(cfg, fd, w.freeSlots[0], slot)
    ensures Shows(w', w.next, Lanes(Some(ClientReadRequest(cfg, c)), None), SILENCE)
    ensures w'.freeSlots == w.freeSlots[1..]
  {
    ReachableIsSane(w);
    NewcomerIsFresh(w);
    var fl :| WorldOk(w, fl);
    var fl' := AcceptOk(w, fl, fd, slot);
    c, w' := Newcomer(cfg, fd, w.freeSlots[0], slot), HandleAccept(w, fd, slot).w;
    cs' := cs + [Accepted(fd, slot)];
    Extended(cfg, cs, w, Accepted(fd, slot), w');
    Shown(w', fl', w.next, Lanes(Some(ClientReadRequest(cfg, c)), None), SILENCE);
  }

  lemma StartLeads(cfg: Config)
    ensures Leads(cfg, [], Init(cfg)) && Init(cfg).sessions == map[] && |Init(cfg).freeSlots| == cfg.connections
  {
  }

  // ------------------------------------------------------------------
  // One session's history
  // ------------------------------------------------------------------

  // A session, its requests in flight and what has been seen of it.
  datatype Scene = Scene(c: Conn, f: Lanes, o: Wire)

  // The request of a lane completes with a result.
  datatype Move = Move(lane: Lane, res: Result, env: Env)

  // The scene after a move, if the kernel may make it and the session lives on.
  function Next(cfg: Config, s: Scene, m: Move): Option<Scene> {
    if At(s.f, m.lane).None? then None
    else
      var q := At(s.f, m.lane).value;
      if !Answers(q, m.res) || q.start + q.offset + Moved(m.res) > |s.c.slot| then None
      else
        match Settle(cfg, s.c, q, q.kind, m.res, m.env)
        case Keep(c', qs) => Some(Scene(c', PlaceAll(Clear(s.f, m.lane), qs), Observe(cfg, s.c, s.o, q, m.res, m.env)))
        case _ => None
  }

  function Play(cfg: Config, s: Scene, ms: seq<Move>): Option<Scene>
    decreases |ms|
  {
    if ms == [] then Some(s)
    else
      match Next(cfg, s, ms[0])
      case None => None
      case Some(s') => Play(cfg, s', ms[1..])
  }

  // The first session of a server, as it is accepted.
  function Entrance(cfg: Config): Scene {
    var c := NewConn(0, 0, seq(BUFFER_SIZE, _ => 0)).(awaiting := 2, threshold := 3);
    Scene(c, Lanes(Some(ClientReadRequest(cfg, c)), None), SILENCE)
  }

  // These moves lead the first session to the scene s.
  ghost predicate Plays(cfg: Config, ms: seq<Move>, s: Scene) { Play(cfg, Entrance(cfg), ms) == Some(s) }

  lemma PlaysOn(cfg: Config, start: Scene, ms: seq<Move>, s: Scene, m: Move)
    requires Play(cfg, start, ms) == Some(s)
    ensures Play(cfg, start, ms + [m]) == Next(cfg, s, m)
    decreases |ms|
  {
    if ms == [] {
      assert [] + [m] == [m] && [m][1..] == [];
    } else {
      PlaysOn(cfg, Next(cfg, start, ms[0]).value, ms[1..], s, m);
      assert (ms + [m])[0] == ms[0] && (ms + [m])[1..] == ms[1..] + [m];
    }
  }

  lemma PlayIsOk(cfg: Config, start: Scene, ms: seq<Move>, s: Scene)
    requires SessionOk(cfg, start.c, start.o, start.f) && Play(cfg, start, ms) == Some(s)
    ensures SessionOk(cfg, s.c, s.o, s.f)
    decreases |ms|
  {
    if ms != [] {
      NextIsOk(cfg, start, ms[0]);
      PlayIsOk(cfg, Next(cfg, start, ms[0]).value, ms[1..], s);
    }
  }

  lemma NextIsOk(cfg: Config, s: Scene, m: Move)
    requires SessionOk(cfg, s.c, s.o, s.f) && Next(cfg, s, m).Some?
    ensures var s' := Next(cfg, s, m).value; SessionOk(cfg, s'.c, s'.o, s'.f)
  {
    SessionStep(cfg, s.c, s.o, s.f, m.lane, m.res, m.env);
  }

  lemma PlaysIsOk(cfg: Config, ms: seq<Move>, s: Scene)
    requires Plays(cfg, ms, s)
    ensures SessionOk(cfg, s.c, s.o, s.f)
  {
    NewcomerOk(cfg, 0, 0, seq(BUFFER_SIZE, _ => 0));
    PlaceOne(IDLE, [ClientReadRequest(cfg, Entrance(cfg).c)]);
    PlayIsOk(cfg, Entrance(cfg), ms, s);
  }

  // Every such history is a run of the server: whatever moves lead its first
  // session to the scene s, some run leads the server there.
  lemma {:induction false} EveryHistoryIsARun(cfg: Config, ms: seq<Move>, s: Scene) returns (cs: seq<Completion>, w: World, id: nat)
    requires cfg.connections >= 1 && Plays(cfg, ms, s)
    ensures Leads(cfg, cs, w) && w.sessions == map[id := s.c] && Shows(w, id, s.f, s.o)
  {
    var cs0, w0;
    cs0, w0, id := Enters(cfg);
    cs, w := Played(cfg, cs0, w0, id, Entrance(cfg), ms, s);
  }

  lemma Enters(cfg: Config) returns (cs: seq<Completion>, w: World, id: nat)
    requires cfg.connections >= 1
    ensures Leads(cfg, cs, w) && w.sessions == map[id := Entrance(cfg).c] && Shows(w, id, Entrance(cfg).f, Entrance(cfg).o)
  {
    StartLeads(cfg);
    id := Init(cfg).next;
    var c;
    cs, w, c := Admits(cfg, [], Init(cfg), 0, Entrance(cfg).c.slot);
  }

  lemma Played(cfg: Config, cs: seq<Completion>, w: World, id: nat, start: Scene, ms: seq<Move>, s: Scene)
    returns (cs': seq<Completion>, w': World)
    requires Leads(cfg, cs, w) && w.sessions == map[id := start.c] && Shows(w, id, start.f, start.o)
    requires Play(cfg, start, ms) == Some(s)
    ensures Leads(cfg, cs', w') && w'.sessions == map[id := s.c] && Shows(w', id, s.f, s.o)
    decreases |ms|
  {
    if ms == [] {
      cs', w' := cs, w;
    } else {
      var cs1, w1 := MovePlayed(cfg, cs, w, id, start, ms[0], Next(cfg, start, ms[0]).value);
      cs', w' := Played(cfg, cs1, w1, id, Next(cfg, start, ms[0]).value, ms[1..], s);
    }
  }

  lemma MovePlayed(cfg: Config, cs: seq<Completion>, w: World, id: nat, s: Scene, m: Move, s': Scene)
    returns (cs': seq<Completion>, w': World)
    requires Leads(cfg, cs, w) && w.sessions == map[id := s.c] && Shows(w, id, s.f, s.o) && Next(cfg, s, m) == Some(s')
    ensures Leads(cfg, cs', w') && w'.sessions == map[id := s'.c] && Shows(w', id, s'.f, s'.o)
  {
    var q, qs := MoveSettles(cfg, s, m, s');
    ShownInLane(w, id, s.f, s.o, m.lane);
    assert LaneOf(q.kind) == m.lane;
    cs', w' := Happens(cfg, cs, w, id, s.f, s.o, q, m.res, m.env, s'.c, qs, s'.f, s'.o);
    SetTwice(map[], id, s.c, s'.c);
  }

  lemma SetTwice(sessions: map<nat, Conn>, id: nat, c: Conn, c': Conn)
    ensures sessions[id := c][id := c'] == sessions[id := c']
    ensures sessions == map[] ==> sessions[id := c] == map[id := c] && sessions[id := c'] == map[id := c']
  {
  }

  lemma MoveSettles(cfg: Config, s: Scene, m: Move, s': Scene) returns (q: Request, qs: seq<Request>)
    requires Next(cfg, s, m) == Some(s')
    ensures At(s.f, m.lane) == Some(q) && Answers(q, m.res) && q.start + q.offset + Moved(m.res) <= |s.c.slot|
    ensures Settle(cfg, s.c, q, q.kind, m.res, m.env) == Keep(s'.c, qs)
    ensures s'.f == PlaceAll(Clear(s.f, m.lane), qs) && s'.o == Observe(cfg, s.c, s.o, q, m.res, m.env)
  {
    q := At(s.f, m.lane).value;
    qs := Settle(cfg, s.c, q, q.kind, m.res, m.env).requests;
  }

  lemma ShownInLane(w: World, id: nat, f: Lanes, o: Wire, lane: Lane)
    requires Shows(w, id, f, o) && At(f, lane).Some?
    ensures LaneOf(At(f, lane).value.kind) == lane
  {
    var fl :| WorldOk(w, fl) && id in fl && LanesOf(w.ring, fl[id]) == f;
    var e := EventOfLane(w, fl, id, lane);
  }

  // ------------------------------------------------------------------
  // A client is served
  // ------------------------------------------------------------------

  lemma LivesOn(cfg: Config, c: Conn, o: Wire, f: Lanes, q: Request, res: Result, env: Env, o': Wire)
    returns (c': Conn, qs: seq<Request>)
    requires SessionOk(cfg, c, o, f) && At(f, LaneOf(q.kind)) == Some(q) && Answers(q, res) && !c.failed
    requires !o.broken && !res.Failed? && res != Received([])
    requires q.start + q.offset + Moved(res) <= |c.slot| && o' == Observe(cfg, c, o, q, res, env) && !ViewOf(o').Wrecked?
    ensures Settle(cfg, c, q, q.kind, res, env) == Keep(c', qs)
  {
    SessionStep(cfg, c, o, f, LaneOf(q.kind), res, env);
    var out := Settle(cfg, c, q, q.kind, res, env);
    c', qs := out.conn, out.requests;
  }

  // The one request of a handshake completes.
  lemma Advances(cfg: Config, ms: seq<Move>, s: Scene, q: Request, res: Result, env: Env, o': Wire)
    returns (ms': seq<Move>, s': Scene, qs: seq<Request>)
    requires Plays(cfg, ms, s) && s.f == Place(IDLE, q) && !s.c.failed && !s.o.broken
    requires Answers(q, res) && !res.Failed? && res != Received([]) && q.start + q.offset + Moved(res) <= |s.c.slot|
    requires o' == Observe(cfg, s.c, s.o, q, res, env) && !ViewOf(o').Wrecked?
    ensures Plays(cfg, ms', s') && s'.o == o' && s'.f == PlaceAll(IDLE, qs)
    ensures Settle(cfg, s.c, q, q.kind, res, env) == Keep(s'.c, qs)
  {
    PlaysIsOk(cfg, ms, s);
    var c';
    c', qs := LivesOn(cfg, s.c, s.o, s.f, q, res, env, o');
    s' := Scene(c', PlaceAll(IDLE, qs), o');
    ms' := ms + [Move(LaneOf(q.kind), res, env)];
    PlaysOn(cfg, Entrance(cfg), ms, s, Move(LaneOf(q.kind), res, env));
  }

  // Before the client has been told everything, the session is what the view of
  // the record says.
  lemma Shakes(cfg: Config, ms: seq<Move>, s: Scene)
    requires Plays(cfg, ms, s) && |s.o.toClient| < 12 && !s.o.broken
    ensures Follows(cfg, s.c, ViewOf(s.o), s.o.toClient, Only(s.f))
    ensures Only(s.f).Some? ==> s.f == Place(IDLE, Only(s.f).value)
  {
    PlaysIsOk(cfg, ms, s);
  }

  lemma GreetingIsAnswered(m: Message, early: seq<byte>, env: Env)
    requires ValidMessage(m)
    ensures Handshake(EncodeMessage(m) + early, false, env, false).Replying?
  {
    var q := EncodeRequest(m.target) + early;
    assert EncodeMessage(m) + early == EncodeGreeting(m.methods) + q;
    var r, n := EncodeGreeting(m.methods) + q, |m.methods|;
    assert r[2..] == m.methods + q && (m.methods + q)[..n] == m.methods;
  }

  // The record once the client's messages, and bytes right behind them, are in.
  function Heard(r: seq<byte>, env: Env): Wire {
    SILENCE.(fromClient := r, readCount := 1, env := env)
  }

  // They come in one read, and the method reply is on its way.
  lemma MessagesArrive(cfg: Config, m: Message, early: seq<byte>, env: Env) returns (ms: seq<Move>, s: Scene, q: Request)
    requires ValidMessage(m) && |EncodeMessage(m) + early| <= HALF_BUFFER_SIZE
    ensures Plays(cfg, ms, s) && s.f == Place(IDLE, q) && s.o == Heard(EncodeMessage(m) + early, env)
    ensures !s.c.failed && PreConnect(s.c.state) && s.c.writeBuffer == METHOD_REPLY && HALF_BUFFER_SIZE + 2 <= |s.c.slot|
    ensures q == ClientWriteRequest(cfg, s.c, 2, 0) && OnWire(cfg, s.c, q, 2) == METHOD_REPLY
  {
    GreetingIsAnswered(m, early, env);
    ms, s := FirstRead(cfg, EncodeMessage(m) + early, env);
    q := AnswerShown(cfg, ms, s);
  }

  lemma FirstRead(cfg: Config, r: seq<byte>, env: Env) returns (ms: seq<Move>, s: Scene)
    requires 0 < |r| <= HALF_BUFFER_SIZE && !Handshake(r, false, env, false).Wrecked?
    ensures Plays(cfg, ms, s) && s.o == Heard(r, env)
  {
    var s0 := Entrance(cfg);
    var read, qs := ClientReadRequest(cfg, s0.c), [];
    HeardAtOnce(cfg, s0.c, read, r, env);
    ms, s, qs := Advances(cfg, [], s0, read, Received(r), env, Heard(r, env));
  }

  lemma AnswerShown(cfg: Config, ms: seq<Move>, s: Scene) returns (q: Request)
    requires Plays(cfg, ms, s) && s.o.toClient == [] && !s.o.broken && ViewOf(s.o).Replying?
    ensures s.f == Place(IDLE, q)
    ensures !s.c.failed && PreConnect(s.c.state) && s.c.writeBuffer == METHOD_REPLY && HALF_BUFFER_SIZE + 2 <= |s.c.slot|
    ensures q == ClientWriteRequest(cfg, s.c, 2, 0) && OnWire(cfg, s.c, q, 2) == METHOD_REPLY
  {
    Shakes(cfg, ms, s);
    q := AnswerPending(cfg, s.c, ViewOf(s.o), Only(s.f));
  }

  lemma HeardAtOnce(cfg: Config, c: Conn, q: Request, r: seq<byte>, env: Env)
    requires c.state == ReadingClientGreeting && !c.failed && |c.slot| == BUFFER_SIZE && q == ClientReadRequest(cfg, c)
    requires 0 < |r| <= HALF_BUFFER_SIZE
    ensures Answers(q, Received(r)) && Observe(cfg, c, SILENCE, q, Received(r), env) == Heard(r, env)
  {
    assert SILENCE.fromClient + r == r;
  }

  lemma AnswerPending(cfg: Config, c: Conn, v: View, f: Option<Request>) returns (q: Request)
    requires Follows(cfg, c, v, [], f) && v.Replying?
    ensures f == Some(q) && !c.failed && PreConnect(c.state) && c.writeBuffer == METHOD_REPLY && q == ClientWriteRequest(cfg, c, 2, 0)
    ensures HALF_BUFFER_SIZE + 2 <= |c.slot| && OnWire(cfg, c, q, 2) == METHOD_REPLY
  {
    q := f.value;
    assert [] + c.writeBuffer == c.writeBuffer;
  }

  // The records of the stages that follow: the method reply is out, the
  // destination has answered, the success reply is out.
  function Told(r: seq<byte>, env: Env): Wire {
    Heard(r, env).(toClient := METHOD_REPLY, writeCount := 1)
  }

  function Reached(r: seq<byte>, env: Env): Wire {
    Told(r, env).(connected := true, connectCount := 1)
  }

  function Informed(r: seq<byte>, env: Env, to: Endpoint): Wire {
    Reached(r, env).(toClient := METHOD_REPLY + SuccessReply(to), writeCount := 2)
  }

  lemma MethodReplySeen(cfg: Config, c: Conn, r: seq<byte>, env: Env, env': Env, q: Request)
    requires PreConnect(c.state) && !c.failed && q == ClientWriteRequest(cfg, c, 2, 0)
    requires HALF_BUFFER_SIZE + 2 <= |c.slot| && OnWire(cfg, c, q, 2) == METHOD_REPLY
    ensures Answers(q, Sent(2)) && Observe(cfg, c, Heard(r, env), q, Sent(2), env') == Told(r, env')
  {
  }

  lemma Dials(cfg: Config, m: Message, early: seq<byte>, env: Env, to: Endpoint) returns (ms: seq<Move>, s: Scene)
    requires ValidMessage(m) && |EncodeMessage(m) + early| <= HALF_BUFFER_SIZE
    requires env.creation.Created? && Resolve(m.target, env) == Some(to)
    ensures Plays(cfg, ms, s) && s.f == Place(IDLE, ConnectRequest()) && s.o == Told(EncodeMessage(m) + early, env)
    ensures !s.c.failed && s.c.state.ConnectingToDestination?
  {
    var r := EncodeMessage(m) + early;
    var ms0, s0, q, qs;
    ms0, s0, q := MessagesArrive(cfg, m, early, env);
    MethodReplySeen(cfg, s0.c, r, env, env, q);
    EncodedClientIsServed(m, early, env, false);
    ms, s, qs := Advances(cfg, ms0, s0, q, Sent(2), env, Told(r, env));
    Shakes(cfg, ms, s);
  }

  lemma Connects(cfg: Config, m: Message, early: seq<byte>, env: Env, to: Endpoint) returns (ms: seq<Move>, s: Scene, q: Request)
    requires ValidMessage(m) && |EncodeMessage(m) + early| <= HALF_BUFFER_SIZE
    requires env.creation.Created? && Resolve(m.target, env) == Some(to)
    ensures Plays(cfg, ms, s) && s.f == Place(IDLE, q) && s.o == Reached(EncodeMessage(m) + early, env)
    ensures SuccessPending(cfg, s.c, early, to, q)
  {
    var r := EncodeMessage(m) + early;
    var ms0, s0, qs;
    ms0, s0 := Dials(cfg, m, early, env, to);
    EncodedClientIsServed(m, early, env, true);
    ms, s, qs := Advances(cfg, ms0, s0, ConnectRequest(), Connected, env, Reached(r, env));
    Shakes(cfg, ms, s);
    q := AnsweringGranted(cfg, s.c, early, to, Only(s.f));
  }

  // The success reply is about to go out.
  ghost predicate SuccessPending(cfg: Config, c: Conn, early: seq<byte>, to: Endpoint, q: Request) {
    && !c.failed && c.fd >= 0 && c.state.ConnectingToDestination? && c.awaiting == 1 && |c.slot| == BUFFER_SIZE
    && c.readBuffer == early && c.writeBuffer == SuccessReply(to) && c.destination == Some(to)
    && q == ClientWriteRequest(cfg, c, |c.writeBuffer|, 0) && Loaded(c, c.writeBuffer)
  }

  lemma AnsweringGranted(cfg: Config, c: Conn, early: seq<byte>, to: Endpoint, q: Option<Request>) returns (r: Request)
    requires Follows(cfg, c, Granted(early, to), METHOD_REPLY, q)
    ensures q == Some(r) && SuccessPending(cfg, c, early, to, r)
  {
    r := q.value;
    assert (METHOD_REPLY + c.writeBuffer)[2..] == c.writeBuffer && (METHOD_REPLY + SuccessReply(to))[2..] == SuccessReply(to);
  }

  // A relay that has just started.
  ghost predicate Fresh(cfg: Config, c: Conn, early: seq<byte>, to: Endpoint, f: Lanes) {
    && Busy(c) && c.readBuffer == early && c.destination == Some(to)
    && f.down == Some(DestinationReadRequest(cfg, c))
    && f.up == Some(if early == [] then ClientReadRequest(cfg, c) else DestinationWriteRequest(cfg, c, 0, 0))
    && (early != [] ==> c.toDestination == Chunk(0, 0))
  }

  lemma Proxies(cfg: Config, m: Message, early: seq<byte>, env: Env, to: Endpoint) returns (ms: seq<Move>, s: Scene)
    requires ValidMessage(m) && |EncodeMessage(m) + early| <= HALF_BUFFER_SIZE
    requires env.creation.Created? && Resolve(m.target, env) == Some(to)
    ensures Plays(cfg, ms, s) && Fresh(cfg, s.c, early, to, s.f) && s.o == Informed(EncodeMessage(m) + early, env, to)
  {
    var r := EncodeMessage(m) + early;
    var ms0, s0, q, qs;
    ms0, s0, q := Connects(cfg, m, early, env, to);
    EncodedClientIsServed(m, early, env, true);
    SuccessSeen(cfg, s0.c, r, early, env, to, q);
    ms, s, qs := Advances(cfg, ms0, s0, q, Sent(|s0.c.writeBuffer|), env, Informed(r, env, to));
    RelayBegins(cfg, s0.c, early, to, q, env, s.c, qs);
  }

  // For every valid message and whatever follows it in the same read: a run that
  // ends with the session relaying to the endpoint that the message names.
  lemma {:induction false} EveryValidClientIsProxied(cfg: Config, m: Message, early: seq<byte>, env: Env, to: Endpoint)
    returns (cs: seq<Completion>, w: World, id: nat)
    requires cfg.connections >= 1 && ValidMessage(m) && |EncodeMessage(m) + early| <= HALF_BUFFER_SIZE
    requires env.creation.Created? && Resolve(m.target, env) == Some(to)
    ensures Leads(cfg, cs, w) && w.sessions.Keys == {id}
    ensures var c, o := w.sessions[id], WireOf(w, id);
            && c.state.ProxyingRequests? && !c.failed && c.destination == Some(to) && c.readBuffer == early
            && o.fromClient == EncodeMessage(m) + early && o.toClient == METHOD_REPLY + SuccessReply(to)
  {
    var ms, s := Proxies(cfg, m, early, env, to);
    cs, w, id := EveryHistoryIsARun(cfg, ms, s);
  }

  lemma SuccessSeen(cfg: Config, c: Conn, r: seq<byte>, early: seq<byte>, env: Env, to: Endpoint, q: Request)
    requires SuccessPending(cfg, c, early, to, q)
    ensures var n := |c.writeBuffer|;
            && Answers(q, Sent(n)) && q.start + q.offset + n <= |c.slot|
            && Observe(cfg, c, Reached(r, env), q, Sent(n), env) == Informed(r, env, to)
  {
    assert c.slot[HALF_BUFFER_SIZE..HALF_BUFFER_SIZE + |c.writeBuffer|] == c.writeBuffer;
  }

  lemma RelayBegins(cfg: Config, c: Conn, early: seq<byte>, to: Endpoint, q: Request, env: Env, c': Conn, qs: seq<Request>)
    requires SuccessPending(cfg, c, early, to, q)
    requires Settle(cfg, c, q, q.kind, Sent(|c.writeBuffer|), env) == Keep(c', qs)
    ensures Fresh(cfg, c', early, to, PlaceAll(IDLE, qs))
  {
    WriteSettles(cfg, c, q, |c.writeBuffer|, env);
    var c1 := c.(awaiting := 0, writeBuffer := [], state := ProxyingRequests);
    var up := if early == [] then ClientReadRequest(cfg, c1) else DestinationWriteRequest(cfg, c1, 0, 0);
    assert Settled(StartProxying(cfg, c1, env)) == Keep(c', qs);
    RelayRequests(cfg, c1, env, up, c', qs);
  }

  lemma RelayRequests(cfg: Config, c: Conn, env: Env, up: Request, c': Conn, qs: seq<Request>)
    requires c.state.ProxyingRequests? && c.awaiting == 0 && !c.failed && |c.slot| == BUFFER_SIZE && c.destination.Some?
    requires up == if c.readBuffer == [] then ClientReadRequest(cfg, c) else DestinationWriteRequest(cfg, c, 0, 0)
    requires Settled(StartProxying(cfg, c, env)) == Keep(c', qs)
    ensures Fresh(cfg, c', c.readBuffer, c.destination.value, PlaceAll(IDLE, qs))
  {
    assert qs == [DestinationReadRequest(cfg, c), up];
    PlaceTwo(IDLE, DestinationReadRequest(cfg, c), up);
  }

  // ------------------------------------------------------------------
  // The program stops
  // ------------------------------------------------------------------

  predicate OfOtherFamily(asked: Option<seq<byte>>, env: Env) { asked.Some? && env.lookup(asked.value).OtherFamily? }

  lemma EncodedClientWrecks(m: Message, rest: seq<byte>, env: Env)
    requires ValidMessage(m) && BadAnswer(HostOf(m.target), env)
    ensures Handshake(EncodeMessage(m) + rest, true, env, false) == Wrecked(!OfOtherFamily(HostOf(m.target), env))
  {
    var q := EncodeRequest(m.target) + rest;
    assert EncodeMessage(m) + rest == EncodeGreeting(m.methods) + q;
    MethodsOfEncoding(m.methods, q, env, false);
    RequestOfEncoding(m.target, rest, env, false);
  }

  // For every valid message and every bad answer: a run that stops, on the null
  // socket or on the failed assertion.
  lemma {:induction false} BadAnswerStops(cfg: Config, m: Message, early: seq<byte>, env: Env) returns (cs: seq<Completion>)
    requires cfg.connections >= 1 && ValidMessage(m) && |EncodeMessage(m) + early| <= HALF_BUFFER_SIZE
    requires BadAnswer(HostOf(m.target), env)
    ensures Legal(Init(cfg), cs)
    ensures Run(Init(cfg), cs) == Crashed(if OfOtherFamily(HostOf(m.target), env) then AssertionFailed else NullSocket)
  {
    var r := EncodeMessage(m) + early;
    var ms, s, q := MessagesArrive(cfg, m, early, env);
    MethodReplySeen(cfg, s.c, r, env, env, q);
    EncodedClientWrecks(m, early, env);
    var w, id;
    cs, w, id := EveryHistoryIsARun(cfg, ms, s);
    var e := StopsHere(w, id, s.f, s.o, q, Sent(2), env, Told(r, env));
    RunExtends(Init(cfg), cs, Op(e, Sent(2), env));
    cs := cs + [Op(e, Sent(2), env)];
  }

  lemma StopsHere(w: World, id: nat, f: Lanes, o: Wire, q: Request, res: Result, env: Env, o': Wire) returns (e: nat)
    requires Shows(w, id, f, o) && At(f, LaneOf(q.kind)) == Some(q) && Answers(q, res)
    requires q.start + q.offset + Moved(res) <= |w.sessions[id].slot|
    requires o' == Observe(w.cfg, w.sessions[id], o, q, res, env) && Wrecks(w.sessions[id], o')
    ensures Enabled(w, Op(e, res, env))
    ensures Step(w, Op(e, res, env)) == Crashed(if ViewOf(o').nullSocket then NullSocket else AssertionFailed)
  {
    var fl :| WorldOk(w, fl) && id in fl && LanesOf(w.ring, fl[id]) == f;
    e := EventOfLane(w, fl, id, LaneOf(q.kind));
    var out := LocalStep(w, fl, e, res, env);
    CrashesThere(w, fl, e, res, env, out, o');
  }

  lemma CrashesThere(w: World, fl: map<nat, Tickets>, e: nat, res: Result, env: Env, out: Outcome, o': Wire)
    requires Local(w, fl, e, res, env, out)
    requires var id := w.ring.events[e].client;
             o' == Observe(w.cfg, w.sessions[id], WireOf(w, id), w.ring.pending[e], res, env) && Wrecks(w.sessions[id], o')
    ensures Complete(w, e, res, env) == Crashed(if ViewOf(o').nullSocket then NullSocket else AssertionFailed)
  {
    FaultOfOp(w, fl, e, res, env, out);
  }

  // ------------------------------------------------------------------
  // A client is refused
  // ------------------------------------------------------------------

  // A greeting without "no authentication", in one read: the reply is 05 00, and
  // the session has failed.
  lemma GreetingRefused(cfg: Config, c: Conn, methods: seq<byte>, env: Env) returns (c': Conn)
    requires c.state.ReadingClientGreeting? && !c.failed && c.awaiting == 2 && c.threshold == 3 && c.readBuffer == []
    requires |c.slot| == BUFFER_SIZE && 0 < |methods| <= 255 && 0 !in methods
    ensures var q, r := ClientReadRequest(cfg, c), EncodeGreeting(methods);
            Answers(q, Received(r)) && Settle(cfg, c, q, q.kind, Received(r), env) == Keep(c', [ClientWriteRequest(cfg, c', 2, 0)])
    ensures c'.failed && c'.state.ReadingAuthMethods? && c'.awaiting == 2 && |c'.slot| == BUFFER_SIZE && Loaded(c', METHOD_REPLY)
  {
    var r, n := EncodeGreeting(methods), |methods|;
    ReadSettles(cfg, c, ClientReadRequest(cfg, c), r, env);
    var c1 := c.(slot := Splice(c.slot, 0, r), awaiting := 1, readBuffer := c.readBuffer + r);
    assert c1.readBuffer == r && r[2..] == methods && methods[..n] == methods;
    var c2 := Consume(c1, 2).(asked := c1.asked.(methodsCount := n), state := ReadingAuthMethods);
    assert |r| == n + 2 && r[0] == 5 && r[1] as nat == n;
    assert Examine(cfg, c1, env) == ReadClientGreeting(cfg, c1, env) == ReadSomeFromClient(cfg, c2, n, env);
    ReadSomeExamines(cfg, c2, n, env);
    c' := ChoiceTold(cfg, c2.(threshold := n), env);
  }

  lemma ChoiceTold(cfg: Config, c: Conn, env: Env) returns (c': Conn)
    requires c.state.ReadingAuthMethods? && |c.readBuffer| == c.asked.methodsCount == c.threshold && 0 !in c.readBuffer
    requires |c.slot| == BUFFER_SIZE && c.awaiting == 1
    ensures Examine(cfg, c, env) == Keep(c', [ClientWriteRequest(cfg, c', 2, 0)])
    ensures c'.failed && c'.state.ReadingAuthMethods? && c'.awaiting == 2 && |c'.slot| == BUFFER_SIZE && Loaded(c', METHOD_REPLY)
  {
    var n := c.asked.methodsCount;
    assert c.readBuffer[..n] == c.readBuffer;
    var told := Consume(MethodChosen(c), n).(writeBuffer := METHOD_REPLY);
    assert Examine(cfg, c, env) == WriteToClient(cfg, told);
    WriteLoads(cfg, told);
    c' := WriteToClient(cfg, told).conn;
  }

  lemma RefusalPlays(cfg: Config, methods: seq<byte>, n: nat) returns (ms: seq<Move>, s: Scene)
    requires 0 < |methods| <= 255 && 0 !in methods && n <= 2
    ensures Plays(cfg, ms, s) && s.c.failed && PreConnect(s.c.state) && s.c.awaiting == 1
    ensures s.o.fromClient == EncodeGreeting(methods) && s.o.toClient == METHOD_REPLY[..n]
  {
    var s0, r := Entrance(cfg), EncodeGreeting(methods);
    var c1 := GreetingRefused(cfg, s0.c, methods, QUIET);
    HeardAtOnce(cfg, s0.c, ClientReadRequest(cfg, s0.c), r, QUIET);
    var q := ClientWriteRequest(cfg, c1, 2, 0);
    var s1 := Scene(c1, Place(IDLE, q), Heard(r, QUIET));
    PlaysOn(cfg, s0, [], s0, Move(Upward, Received(r), QUIET));
    PlaceOne(IDLE, [q]);
    ms := [] + [Move(Upward, Received(r), QUIET)];
    s := Scene(c1.(awaiting := 1), IDLE, s1.o.(toClient := METHOD_REPLY[..n], writeCount := 1, idleCount := if n == 0 then 1 else 0));
    ReplyTaken(cfg, c1, q, r, n);
    PlaysOn(cfg, s0, ms, s1, Move(Downward, Sent(n), QUIET));
    ms := ms + [Move(Downward, Sent(n), QUIET)];
  }

  lemma ReplyTaken(cfg: Config, c: Conn, q: Request, r: seq<byte>, n: nat)
    requires c.failed && c.state.ReadingAuthMethods? && c.awaiting == 2 && |c.slot| == BUFFER_SIZE && Loaded(c, METHOD_REPLY)
    requires q == ClientWriteRequest(cfg, c, 2, 0) && n <= 2
    ensures Answers(q, Sent(n)) && Settle(cfg, c, q, q.kind, Sent(n), QUIET) == Keep(c.(awaiting := 1), [])
    ensures Observe(cfg, c, Heard(r, QUIET), q, Sent(n), QUIET)
            == Heard(r, QUIET).(toClient := METHOD_REPLY[..n], writeCount := 1, idleCount := if n == 0 then 1 else 0)
  {
    assert c.slot[HALF_BUFFER_SIZE..HALF_BUFFER_SIZE + n] == METHOD_REPLY[..n];
    assert [] + METHOD_REPLY[..n] == METHOD_REPLY[..n];
  }

  // Whatever methods other than "no authentication" a client offers, and however
  // much of the reply it takes: a run that ends with the client told n bytes of
  // 05 00, nothing more on its way, and its session there for good.
  lemma {:induction false} RefusalRun(cfg: Config, methods: seq<byte>, n: nat) returns (cs: seq<Completion>, w: World, id: nat)
    requires cfg.connections >= 1 && 0 < |methods| <= 255 && 0 !in methods && n <= 2
    ensures Leads(cfg, cs, w) && Stranded(w, id) && EventsOf(w, id) == {}
    ensures WireOf(w, id).fromClient == EncodeGreeting(methods) && WireOf(w, id).toClient == METHOD_REPLY[..n]
  {
    var ms, s := RefusalPlays(cfg, methods, n);
    cs, w, id := EveryHistoryIsARun(cfg, ms, s);
    NothingPends(w, id);
  }

  // ------------------------------------------------------------------
  // The server fills up
  // ------------------------------------------------------------------

  lemma FillsUp(cfg: Config, cs: seq<Completion>, w: World) returns (cs': seq<Completion>, w': World)
    requires Leads(cfg, cs, w) && w.armed && forall id | id in w.sessions :: Stranded(w, id) && w.sessions[id].fd == -1
    ensures Leads(cfg, cs', w') && |w'.sessions| == cfg.connections && forall id | id in w'.sessions :: Stranded(w', id)
    decreases |w.freeSlots|
  {
    CapacityConserved(w);
    if w.freeSlots == [] {
      cs', w' := cs, w;
    } else {
      DescriptorDiscipline(w);
      assert w.open == {};
      var cs1, w1, c := OneStranded(cfg, cs, w);
      cs', w' := FillsUp(cfg, cs1, w1);
    }
  }

  // A client connects, and its first read fails.
  lemma OneStranded(cfg: Config, cs: seq<Completion>, w: World) returns (cs': seq<Completion>, w': World, c': Conn)
    requires Leads(cfg, cs, w) && w.armed && w.freeSlots != [] && w.open == {}
    ensures Leads(cfg, cs', w') && w'.armed && w'.freeSlots == w.freeSlots[1..]
    ensures w'.sessions == w.sessions[w.next := c'] && c'.failed && PreConnect(c'.state) && c'.fd == -1
  {
    var cs1, w1, c;
    cs1, w1, c := Admits(cfg, cs, w, 0, seq(BUFFER_SIZE, _ => 0));
    var q, env := ClientReadRequest(cfg, c), QUIET;
    c' := FirstReadFails(cfg, c, q, env);
    cs', w' := Happens(cfg, cs1, w1, w.next, Lanes(Some(q), None), SILENCE, q, Failed, env, c', [], IDLE, SILENCE.(broken := true));
    SetTwice(w.sessions, w.next, c, c');
  }

  lemma FirstReadFails(cfg: Config, c: Conn, q: Request, env: Env) returns (c': Conn)
    requires c.state.ReadingClientGreeting? && c.awaiting == 2 && c.fd == 0 && |c.slot| == BUFFER_SIZE
    requires q == ClientReadRequest(cfg, c)
    ensures Settle(cfg, c, q, q.kind, Failed, env) == Keep(c', []) && Observe(cfg, c, SILENCE, q, Failed, env) == SILENCE.(broken := true)
    ensures c'.failed && PreConnect(c'.state) && c'.fd == -1
  {
    FailureSettles(cfg, c, q, Failed, env);
    c' := c.(awaiting := 1, failed := true, destination := None, fd := -1);
  }

  // A run after which every slot is held by a session that nothing will ever
  // delete (see StrandedForever, ExhaustedForever and RefusedWhenFull).
  lemma {:induction false} ServerFillsUp(cfg: Config) returns (cs: seq<Completion>, w: World)
    ensures Leads(cfg, cs, w) && |w.sessions| == cfg.connections && forall id | id in w.sessions :: Stranded(w, id)
  {
    StartLeads(cfg);
    cs, w := FillsUp(cfg, [], Init(cfg));
  }

  // ------------------------------------------------------------------
  // Relay runs
  // ------------------------------------------------------------------

  // One direction's request completes and the handler submits the next.
  lemma RelayMoves(cfg: Config, ms: seq<Move>, s: Scene, q: Request, res: Result, c': Conn, q': Request, o': Wire)
    returns (ms': seq<Move>, s': Scene)
    requires Plays(cfg, ms, s) && At(s.f, LaneOf(q.kind)) == Some(q) && Answers(q, res)
    requires q.start + q.offset + Moved(res) <= |s.c.slot|
    requires Settle(cfg, s.c, q, q.kind, res, QUIET) == Keep(c', [q']) && LaneOf(q'.kind) == LaneOf(q.kind)
    requires o' == Observe(cfg, s.c, s.o, q, res, QUIET)
    ensures Plays(cfg, ms', s') && s' == Scene(c', Place(s.f, q'), o')
  {
    PlaceOne(Clear(s.f, LaneOf(q.kind)), [q']);
    s', ms' := Scene(c', Place(s.f, q'), o'), ms + [Move(LaneOf(q.kind), res, QUIET)];
    PlaysOn(cfg, Entrance(cfg), ms, s, Move(LaneOf(q.kind), res, QUIET));
  }

  lemma ClientSends(cfg: Config, ms: seq<Move>, s: Scene, d: seq<byte>) returns (ms': seq<Move>, s': Scene)
    requires Plays(cfg, ms, s) && Busy(s.c) && s.f.up == Some(ClientReadRequest(cfg, s.c))
    requires 0 < |d| <= ClientReadRequest(cfg, s.c).len
    ensures Plays(cfg, ms', s') && s'.c == s.c.(slot := Splice(s.c.slot, 0, d), toDestination := Chunk(|d|, 0))
    ensures s'.f == s.f.(up := Some(DestinationWriteRequest(cfg, s.c, |d|, 0)))
    ensures s'.o == s.o.(up := s.o.up.(received := s.o.up.received + d),
                         down := Overrun(s.o.down, HALF_BUFFER_SIZE, s.c.toClient, 0, |d|))
  {
    var q := ClientReadRequest(cfg, s.c);
    UpReadSettles(cfg, s.c, q, d, QUIET);
    ms', s' := RelayMoves(cfg, ms, s, q, Received(d), s.c.(slot := Splice(s.c.slot, 0, d), toDestination := Chunk(|d|, 0)),
                          DestinationWriteRequest(cfg, s.c, |d|, 0), Observe(cfg, s.c, s.o, q, Received(d), QUIET));
  }

  // The destination takes n bytes, the last of the chunk or not.
  lemma DestinationTakes(cfg: Config, ms: seq<Move>, s: Scene, q: Request, n: nat) returns (ms': seq<Move>, s': Scene)
    requires Plays(cfg, ms, s) && Busy(s.c) && s.c.toDestination.offset <= s.c.toDestination.size <= BUFFER_SIZE
    requires q == DestinationWriteRequest(cfg, s.c, s.c.toDestination.size - s.c.toDestination.offset, s.c.toDestination.offset)
    requires s.f.up == Some(q) && n <= q.len
    ensures Plays(cfg, ms', s') && s'.o == s.o.(up := Relayed(cfg, s.c, s.o.up, q, n))
    ensures n == q.len ==> s'.c == s.c && s'.f == s.f.(up := Some(ClientReadRequest(cfg, s.c)))
    ensures n < q.len ==>
              && s'.c == s.c.(toDestination := s.c.toDestination.(offset := q.offset + n))
              && s'.f == s.f.(up := Some(DestinationWriteRequest(cfg, s.c, q.len - n, q.offset + n)))
  {
    UpWriteSettles(cfg, s.c, q, n, QUIET);
    var o' := Observe(cfg, s.c, s.o, q, Sent(n), QUIET);
    if n == q.len {
      ms', s' := RelayMoves(cfg, ms, s, q, Sent(n), s.c, ClientReadRequest(cfg, s.c), o');
    } else {
      ms', s' := RelayMoves(cfg, ms, s, q, Sent(n), s.c.(toDestination := s.c.toDestination.(offset := q.offset + n)),
                            DestinationWriteRequest(cfg, s.c, q.len - n, q.offset + n), o');
    }
  }

  lemma DestinationSends(cfg: Config, ms: seq<Move>, s: Scene, d: seq<byte>) returns (ms': seq<Move>, s': Scene)
    requires Plays(cfg, ms, s) && Busy(s.c) && s.f.down == Some(DestinationReadRequest(cfg, s.c)) && 0 < |d| <= HALF_BUFFER_SIZE
    ensures Plays(cfg, ms', s') && s'.c == s.c.(slot := Splice(s.c.slot, HALF_BUFFER_SIZE, d), toClient := Chunk(|d|, 0))
    ensures s'.f == s.f.(down := Some(ClientWriteRequest(cfg, s.c, |d|, 0)))
    ensures s'.o == s.o.(down := s.o.down.(received := s.o.down.received + d),
                         up := Overrun(s.o.up, 0, s.c.toDestination, HALF_BUFFER_SIZE, |d|))
  {
    var q := DestinationReadRequest(cfg, s.c);
    DownReadSettles(cfg, s.c, q, d, QUIET);
    ms', s' := RelayMoves(cfg, ms, s, q, Received(d), s.c.(slot := Splice(s.c.slot, HALF_BUFFER_SIZE, d), toClient := Chunk(|d|, 0)),
                          ClientWriteRequest(cfg, s.c, |d|, 0), Observe(cfg, s.c, s.o, q, Received(d), QUIET));
  }

  // The client takes a whole chunk.
  lemma ClientTakes(cfg: Config, ms: seq<Move>, s: Scene, q: Request) returns (ms': seq<Move>, s': Scene)
    requires Plays(cfg, ms, s) && Busy(s.c) && s.c.toClient.offset == 0 && s.c.toClient.size <= HALF_BUFFER_SIZE
    requires q == ClientWriteRequest(cfg, s.c, s.c.toClient.size, 0) && s.f.down == Some(q)
    ensures Plays(cfg, ms', s') && s'.c == s.c && s'.o == s.o.(down := Relayed(cfg, s.c, s.o.down, q, q.len))
  {
    DownWriteSettles(cfg, s.c, q, q.len, QUIET);
    ms', s' := RelayMoves(cfg, ms, s, q, Sent(q.len), s.c, DestinationReadRequest(cfg, s.c),
                          Observe(cfg, s.c, s.o, q, Sent(q.len), QUIET));
  }

  // A short write, in a run: of the chunk 1, 2, written one byte at a time, the
  // destination gets 1, 1.
  lemma {:induction false} ShortWriteRun(cfg: Config, m: Message, env: Env, to: Endpoint)
    returns (cs: seq<Completion>, w: World, id: nat)
    requires cfg.connections >= 1 && !cfg.offsetMoves && ValidMessage(m)
    requires env.creation.Created? && Resolve(m.target, env) == Some(to)
    ensures Leads(cfg, cs, w) && id in w.sessions && w.sessions[id].state.ProxyingRequests?
    ensures WireOf(w, id).up.received == [1, 2] && WireOf(w, id).up.sent == [1, 1] && !WireOf(w, id).up.mixed
  {
    var ms, s := ShortWritePlays(cfg, m, env, to);
    cs, w, id := EveryHistoryIsARun(cfg, ms, s);
  }

  lemma ShortWritePlays(cfg: Config, m: Message, env: Env, to: Endpoint) returns (ms: seq<Move>, s: Scene)
    requires !cfg.offsetMoves && ValidMessage(m) && env.creation.Created? && Resolve(m.target, env) == Some(to)
    ensures Plays(cfg, ms, s) && s.c.state.ProxyingRequests?
    ensures s.o.up.received == [1, 2] && s.o.up.sent == [1, 1] && !s.o.up.mixed
  {
    MessageIsShort(m);
    ms, s := Proxies(cfg, m, [], env, to);
    ms, s := ClientSends(cfg, ms, s, [1, 2]);
    assert s.c.slot[..2] == [1, 2];
    ms, s := OneByteTaken(cfg, ms, s, 0);
    ms, s := OneByteTaken(cfg, ms, s, 1);
  }

  // One byte of the chunk 1, 2 is taken; it is always the first.
  lemma OneByteTaken(cfg: Config, ms: seq<Move>, s: Scene, offset: nat) returns (ms': seq<Move>, s': Scene)
    requires Plays(cfg, ms, s) && Busy(s.c) && !cfg.offsetMoves && offset <= 1
    requires s.c.toDestination == Chunk(2, offset) && s.c.slot[..2] == [1, 2]
    requires s.f.up == Some(DestinationWriteRequest(cfg, s.c, 2 - offset, offset))
    ensures Plays(cfg, ms', s') && Busy(s'.c) && s'.c.slot == s.c.slot
    ensures s'.o.up.received == s.o.up.received && s'.o.up.sent == s.o.up.sent + [1] && s'.o.up.mixed == s.o.up.mixed
    ensures offset == 0 ==> s'.c.toDestination == Chunk(2, 1) && s'.f.up == Some(DestinationWriteRequest(cfg, s'.c, 1, 1))
  {
    var q := DestinationWriteRequest(cfg, s.c, 2 - offset, offset);
    FrontOfChunk(cfg, s.c, [1, 2], 2 - offset, offset, 1);
    ms', s' := DestinationTakes(cfg, ms, s, q, 1);
  }

  lemma MessageIsShort(m: Message)
    requires ValidMessage(m)
    ensures |EncodeMessage(m) + []| <= 519
  {
  }

  // As the code stands a write begins at the front of the chunk, wherever it is
  // to be resumed.
  lemma FrontOfChunk(cfg: Config, c: Conn, d: seq<byte>, nbytes: nat, offset: nat, n: nat)
    requires |c.slot| == BUFFER_SIZE && n <= nbytes && offset + nbytes == |d| <= BUFFER_SIZE && c.slot[..|d|] == d
    requires cfg.offsetMoves ==> offset == 0
    ensures OnWire(cfg, c, DestinationWriteRequest(cfg, c, nbytes, offset), n) == d[..n]
  {
    assert c.slot[..|d|][..n] == c.slot[..n];
  }

  // The two directions in each other's way, in a run without registered buffers:
  // the destination sends 1, and a client read larger than half a slot lands
  // before it is passed on; the client gets 0.
  lemma {:induction false} MixedRun(cfg: Config, m: Message, env: Env, to: Endpoint)
    returns (cs: seq<Completion>, w: World, id: nat)
    requires cfg.connections >= 1 && !cfg.root && ValidMessage(m)
    requires env.creation.Created? && Resolve(m.target, env) == Some(to)
    ensures Leads(cfg, cs, w) && id in w.sessions && w.sessions[id].state.ProxyingRequests?
    ensures WireOf(w, id).down.received == [1] && WireOf(w, id).down.sent == [0] && !WireOf(w, id).down.partial
  {
    var ms, s := MixedPlays(cfg, m, env, to);
    cs, w, id := EveryHistoryIsARun(cfg, ms, s);
  }

  lemma MixedPlays(cfg: Config, m: Message, env: Env, to: Endpoint) returns (ms: seq<Move>, s: Scene)
    requires !cfg.root && ValidMessage(m) && env.creation.Created? && Resolve(m.target, env) == Some(to)
    ensures Plays(cfg, ms, s) && s.c.state.ProxyingRequests?
    ensures s.o.down.received == [1] && s.o.down.sent == [0] && !s.o.down.partial
  {
    var d := seq(HALF_BUFFER_SIZE + 1, i => 0 as byte);
    MessageIsShort(m);
    ms, s := Proxies(cfg, m, [], env, to);
    ms, s := DestinationSends(cfg, ms, s, [1]);
    ms, s := ClientSends(cfg, ms, s, d);
    var q := ClientWriteRequest(cfg, s.c, 1, 0);
    assert s.c.slot[HALF_BUFFER_SIZE] == d[HALF_BUFFER_SIZE];
    assert OnWire(cfg, s.c, q, 1) == [0];
    ms, s := ClientTakes(cfg, ms, s, q);
  }

  // Bytes right behind the request, in a run: the client sends early with its
  // request and then d; the destination gets d.
  lemma {:induction false} EarlyBytesRun(cfg: Config, m: Message, early: seq<byte>, d: seq<byte>, env: Env, to: Endpoint)
    returns (cs: seq<Completion>, w: World, id: nat)
    requires cfg.connections >= 1 && ValidMessage(m) && |EncodeMessage(m) + early| <= HALF_BUFFER_SIZE
    requires env.creation.Created? && Resolve(m.target, env) == Some(to) && early != [] && 0 < |d| <= HALF_BUFFER_SIZE
    ensures Leads(cfg, cs, w) && id in w.sessions && w.sessions[id].state.ProxyingRequests?
    ensures var o := WireOf(w, id);
            && o.fromClient == EncodeMessage(m) + early && o.up.received == d && o.up.sent == d && !o.up.partial && !o.up.mixed
  {
    var ms, s := EarlyBytesPlay(cfg, m, early, d, env, to);
    cs, w, id := EveryHistoryIsARun(cfg, ms, s);
  }

  lemma EarlyBytesPlay(cfg: Config, m: Message, early: seq<byte>, d: seq<byte>, env: Env, to: Endpoint)
    returns (ms: seq<Move>, s: Scene)
    requires ValidMessage(m) && |EncodeMessage(m) + early| <= HALF_BUFFER_SIZE && early != [] && 0 < |d| <= HALF_BUFFER_SIZE
    requires env.creation.Created? && Resolve(m.target, env) == Some(to)
    ensures Plays(cfg, ms, s) && s.c.state.ProxyingRequests? && s.o.fromClient == EncodeMessage(m) + early
    ensures s.o.up.received == d && s.o.up.sent == d && !s.o.up.partial && !s.o.up.mixed
  {
    ms, s := Proxies(cfg, m, early, env, to);
    assert OnWire(cfg, s.c, DestinationWriteRequest(cfg, s.c, 0, 0), 0) == [];
    ms, s := DestinationTakes(cfg, ms, s, DestinationWriteRequest(cfg, s.c, 0, 0), 0);
    ms, s := ClientSends(cfg, ms, s, d);
    assert [] + d == d;
    FrontOfChunk(cfg, s.c, d, |d|, 0, |d|);
    ms, s := DestinationTakes(cfg, ms, s, DestinationWriteRequest(cfg, s.c, |d|, 0), |d|);
  }
}
