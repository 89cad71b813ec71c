/**
 The invariant of the whole server, kept by every turn of the event loop: any
 number of sessions, completions in any order, with any result.
 */
module Safety {
  import opened Socks5
  import opened SessionSpec
  import opened Wire
  import opened HandshakeProof
  import opened SessionProof
  import opened RelayProof
  import opened ServerSpec
  import opened RingProof

  // Free slots and slots of live sessions are disjoint, without duplicates,
  // and together as many as there are.
  ghost predicate SlotsOk(sessions: map<nat, Conn>, freeSlots: seq<nat>, n: nat) {
    && (forall i, j | 0 <= i < j < |freeSlots| :: freeSlots[i] != freeSlots[j])
    && (forall s | s in freeSlots :: s < n)
    && (forall id | id in sessions :: sessions[id].slotIndex < n && sessions[id].slotIndex !in freeSlots)
    && (forall a, b | a in sessions && b in sessions && a != b :: sessions[a].slotIndex != sessions[b].slotIndex)
    && |freeSlots| + |sessions| == n
  }

  // The open client descriptors are exactly those of the live sessions, one each.
  ghost predicate FdsOk(sessions: map<nat, Conn>, open: set<int>) {
    && (forall id | id in sessions :: sessions[id].fd == -1 || sessions[id].fd in open)
    && (forall a, b | a in sessions && b in sessions && a != b && sessions[a].fd != -1 :: sessions[a].fd != sessions[b].fd)
    && (forall x | x in open :: x >= 0 && exists id :: id in sessions && sessions[id].fd == x)
  }

  ghost predicate SessionsOk(w: World, fl: map<nat, Tickets>) {
    forall id | id in w.sessions ::
      id in fl && SessionOk(w.cfg, w.sessions[id], WireOf(w, id), LanesOf(w.ring, fl[id]))
  }

  ghost predicate KeysOk(w: World, fl: map<nat, Tickets>) {
    fl.Keys == w.sessions.Keys && forall id | id in w.sessions :: id < w.next
  }

  ghost predicate WorldOk(w: World, fl: map<nat, Tickets>) {
    && KeysOk(w, fl)
    && RingOk(w.ring, fl, None, 4 * w.cfg.connections)
    && SessionsOk(w, fl)
    && SlotsOk(w.sessions, w.freeSlots, w.cfg.connections)
    && FdsOk(w.sessions, w.open)
  }

  // ------------------------------------------------------------------
  // Slots and descriptors
  // ------------------------------------------------------------------

  lemma SlotsReplaced(sessions: map<nat, Conn>, freeSlots: seq<nat>, n: nat, id: nat, c: Conn)
    requires SlotsOk(sessions, freeSlots, n) && id in sessions && c.slotIndex == sessions[id].slotIndex
    ensures SlotsOk(sessions[id := c], freeSlots, n)
  {
    assert sessions[id := c].Keys == sessions.Keys;
  }

  lemma SlotsDeleted(sessions: map<nat, Conn>, freeSlots: seq<nat>, n: nat, id: nat)
    requires SlotsOk(sessions, freeSlots, n) && id in sessions
    ensures SlotsOk(sessions - {id}, freeSlots + [sessions[id].slotIndex], n)
  {
    var s, free := sessions - {id}, freeSlots + [sessions[id].slotIndex];
    assert s.Keys == sessions.Keys - {id};
    assert |s| == |sessions| - 1;
  }

  lemma SlotsAdmitted(sessions: map<nat, Conn>, freeSlots: seq<nat>, n: nat, id: nat, c: Conn)
    requires SlotsOk(sessions, freeSlots, n) && id !in sessions && freeSlots != [] && c.slotIndex == freeSlots[0]
    ensures SlotsOk(sessions[id := c], freeSlots[1..], n)
  {
    var s, free := sessions[id := c], freeSlots[1..];
    forall x | x in free
      ensures x in freeSlots && x != freeSlots[0]
    {
    }
    assert freeSlots[0] in freeSlots;
    assert s.Keys == sessions.Keys + {id};
    assert |s| == |sessions| + 1;
  }

  lemma FdsReplaced(sessions: map<nat, Conn>, open: set<int>, id: nat, c: Conn)
    requires FdsOk(sessions, open) && id in sessions && Same(sessions[id], c)
    ensures c.fd != sessions[id].fd ==> sessions[id].fd in open
    ensures FdsOk(sessions[id := c], if c.fd == sessions[id].fd then open else open - {sessions[id].fd})
  {
    var s, o := sessions[id := c], if c.fd == sessions[id].fd then open else open - {sessions[id].fd};
    forall x | x in o
      ensures x >= 0 && exists k :: k in s && s[k].fd == x
    {
      var k :| k in sessions && sessions[k].fd == x;
      assert k in s && s[k].fd == x;
    }
  }

  lemma FdsDeleted(sessions: map<nat, Conn>, open: set<int>, id: nat)
    requires FdsOk(sessions, open) && id in sessions
    ensures FdsOk(sessions - {id}, if sessions[id].fd == -1 then open else open - {sessions[id].fd})
  {
    var s, o := sessions - {id}, if sessions[id].fd == -1 then open else open - {sessions[id].fd};
    forall x | x in o
      ensures x >= 0 && exists k :: k in s && s[k].fd == x
    {
      var k :| k in sessions && sessions[k].fd == x;
      assert k in s && s[k].fd == x;
    }
  }

  lemma FdsAdmitted(sessions: map<nat, Conn>, open: set<int>, id: nat, c: Conn)
    requires FdsOk(sessions, open) && id !in sessions && c.fd >= 0 && c.fd !in open
    ensures FdsOk(sessions[id := c], open + {c.fd})
  {
    var s, o := sessions[id := c], open + {c.fd};
    forall x | x in o
      ensures x >= 0 && exists k :: k in s && s[k].fd == x
    {
      if x == c.fd {
        assert id in s && s[id].fd == x;
      } else {
        var k :| k in sessions && sessions[k].fd == x;
        assert k in s && s[k].fd == x;
      }
    }
  }

  // ------------------------------------------------------------------
  // The start
  // ------------------------------------------------------------------

  lemma InitOk(cfg: Config)
    ensures WorldOk(Init(cfg), map[])
  {
  }

  // ------------------------------------------------------------------
  // Accepting
  // ------------------------------------------------------------------

  // A session as handle_accept leaves it.
  ghost function Newcomer(cfg: Config, fd: int, slotIndex: nat, slot: seq<byte>): Conn {
    NewConn(fd, slotIndex, slot).(awaiting := 2, threshold := 3)
  }

  lemma NewcomerOk(cfg: Config, fd: int, slotIndex: nat, slot: seq<byte>)
    requires fd >= 0 && |slot| == BUFFER_SIZE
    ensures var c, q := Newcomer(cfg, fd, slotIndex, slot), ClientReadRequest(cfg, NewConn(fd, slotIndex, slot));
            && ReadSomeFromClient(cfg, NewConn(fd, slotIndex, slot).(awaiting := 1), 3, QUIET)
               == Keep(c, [q])
            && Placeable(IDLE, [q]) && SessionOk(cfg, c, SILENCE, PlaceAll(IDLE, [q]))
  {
    var q := ClientReadRequest(cfg, NewConn(fd, slotIndex, slot));
    PlaceOne(IDLE, [q]);
  }

  // handle_accept, given a slot.
  lemma AcceptAdmits(w: World, fd: int, slot: seq<byte>)
    requires w.freeSlots != [] && Enabled(w, Accepted(fd, slot))
    requires var q := ClientReadRequest(w.cfg, NewConn(fd, w.freeSlots[0], slot)); Launch(w.ring, w.next, [q]).Some?
    ensures var q := ClientReadRequest(w.cfg, NewConn(fd, w.freeSlots[0], slot));
            HandleAccept(w, fd, slot)
            == Running(Admitted(w, w.next, Newcomer(w.cfg, fd, w.freeSlots[0], slot), Launch(w.ring, w.next, [q]).value))
  {
    NewcomerOk(w.cfg, fd, w.freeSlots[0], slot);
  }

  lemma NewcomerSession(cfg: Config, fd: int, slotIndex: nat, slot: seq<byte>, q: Request)
    requires fd >= 0 && |slot| == BUFFER_SIZE && q == ClientReadRequest(cfg, NewConn(fd, slotIndex, slot))
    ensures Placeable(IDLE, [q]) && PlaceAll(IDLE, [q]) == Lanes(Some(q), None)
    ensures SessionOk(cfg, Newcomer(cfg, fd, slotIndex, slot), SILENCE, PlaceAll(IDLE, [q]))
  {
    NewcomerOk(cfg, fd, slotIndex, slot);
    PlaceOne(IDLE, [q]);
  }

  lemma AcceptOk(w: World, fl: map<nat, Tickets>, fd: int, slot: seq<byte>) returns (fl': map<nat, Tickets>)
    requires WorldOk(w, fl) && Enabled(w, Accepted(fd, slot))
    ensures HandleAccept(w, fd, slot).Running? && WorldOk(HandleAccept(w, fd, slot).w, fl')
    ensures w.freeSlots != [] ==>
              var w', c := HandleAccept(w, fd, slot).w, Newcomer(w.cfg, fd, w.freeSlots[0], slot);
              && w' == Admitted(w, w.next, c, w'.ring)
              && w.next in fl' && LanesOf(w'.ring, fl'[w.next]) == Lanes(Some(ClientReadRequest(w.cfg, c)), None)
  {
    if w.freeSlots == [] {
      fl' := fl;
    } else {
      var w';
      w', fl' := Admission(w, fl, fd, slot, Newcomer(w.cfg, fd, w.freeSlots[0], slot));
    }
  }

  lemma Admission(w: World, fl: map<nat, Tickets>, fd: int, slot: seq<byte>, c: Conn) returns (w': World, fl': map<nat, Tickets>)
    requires WorldOk(w, fl) && Enabled(w, Accepted(fd, slot)) && w.freeSlots != []
    requires c == Newcomer(w.cfg, fd, w.freeSlots[0], slot)
    ensures HandleAccept(w, fd, slot) == Running(w') && WorldOk(w', fl') && w' == Admitted(w, w.next, c, w'.ring)
    ensures w.next in fl' && LanesOf(w'.ring, fl'[w.next]) == Lanes(Some(ClientReadRequest(w.cfg, c)), None)
  {
    var q := ClientReadRequest(w.cfg, NewConn(fd, w.freeSlots[0], slot));
    NewcomerSession(w.cfg, fd, w.freeSlots[0], slot, q);
    FewSessions(w, fl);
    fl' := AdmissionOnRing(w.ring, fl, w.cfg.connections, w.next, [q]);
    AcceptAdmits(w, fd, slot);
    AdmittedOk(w, fl, fl', w.next, c, [q]);
    w' := Admitted(w, w.next, c, Launch(w.ring, w.next, [q]).value);
  }

  ghost function Admitted(w: World, id: nat, c: Conn, r: Ring): World
    requires w.freeSlots != []
  {
    w.(sessions := w.sessions[id := c], wires := w.wires[id := SILENCE], ring := r, open := w.open + {c.fd},
       freeSlots := w.freeSlots[1..], armed := true, next := id + 1)
  }

  lemma AdmittedKeys(w: World, fl: map<nat, Tickets>, fl': map<nat, Tickets>, id: nat, c: Conn, r: Ring)
    requires KeysOk(w, fl) && w.freeSlots != [] && id == w.next && fl'.Keys == fl.Keys + {id}
    ensures KeysOk(Admitted(w, id, c, r), fl')
  {
    var w' := Admitted(w, id, c, r);
    assert w'.sessions.Keys == w.sessions.Keys + {id};
  }

  lemma AdmittedSessions(w: World, fl: map<nat, Tickets>, fl': map<nat, Tickets>, id: nat, c: Conn, r: Ring)
    requires KeysOk(w, fl) && SessionsOk(w, fl) && w.freeSlots != [] && id == w.next && fl'.Keys == fl.Keys + {id}
    requires SessionOk(w.cfg, c, SILENCE, LanesOf(r, fl'[id]))
    requires forall j | j in fl :: LanesOf(r, fl'[j]) == LanesOf(w.ring, fl[j])
    ensures SessionsOk(Admitted(w, id, c, r), fl')
  {
  }

  lemma AdmittedOk(w: World, fl: map<nat, Tickets>, fl': map<nat, Tickets>, id: nat, c: Conn, qs: seq<Request>)
    requires KeysOk(w, fl) && SessionsOk(w, fl) && FdsOk(w.sessions, w.open)
    requires SlotsOk(w.sessions, w.freeSlots, w.cfg.connections) && w.freeSlots != []
    requires id == w.next && c.slotIndex == w.freeSlots[0] && c.fd >= 0 && c.fd !in w.open
    requires Launch(w.ring, id, qs).Some? && fl'.Keys == fl.Keys + {id}
    requires var r' := Launch(w.ring, id, qs).value;
             && RingOk(r', fl', None, 4 * w.cfg.connections)
             && SessionOk(w.cfg, c, SILENCE, LanesOf(r', fl'[id]))
             && (forall j | j in fl :: LanesOf(r', fl'[j]) == LanesOf(w.ring, fl[j]))
    ensures WorldOk(Admitted(w, id, c, Launch(w.ring, id, qs).value), fl')
  {
    SlotsAdmitted(w.sessions, w.freeSlots, w.cfg.connections, id, c);
    FdsAdmitted(w.sessions, w.open, id, c);
    var w' := Admitted(w, id, c, Launch(w.ring, id, qs).value);
    AdmittedSessions(w, fl, fl', id, c, w'.ring);
    AdmittedKeys(w, fl, fl', id, c, w'.ring);
  }

  // ------------------------------------------------------------------
  // Completions
  // ------------------------------------------------------------------

  // The program stops at this completion; by then the client's bytes, read in
  // one shot, ask for a socket, and the world has given the wrong answer.
  ghost predicate StopsAt(w: World, c: Completion) {
    && c.Op? && c.event in w.ring.pending && c.event < |w.ring.events|
    && var id, q := w.ring.events[c.event].client, w.ring.pending[c.event];
       && id in w.sessions && q.start + q.offset + Moved(c.result) <= |w.sessions[id].slot|
       && Wrecks(w.sessions[id], Observe(w.cfg, w.sessions[id], WireOf(w, id), q, c.result, c.env))
  }

  // A completion of a live session, whose local effect is out.
  ghost predicate Local(w: World, fl: map<nat, Tickets>, e: nat, res: Result, env: Env, out: Outcome) {
    && e in w.ring.pending && e < |w.ring.events| && w.ring.events[e].kind == w.ring.pending[e].kind
    && var id, q := w.ring.events[e].client, w.ring.pending[e];
       && id in w.sessions && id in fl
       && q.start + q.offset + Moved(res) <= |w.sessions[id].slot|
       && Settle(w.cfg, w.sessions[id], q, q.kind, res, env) == out
       && SettledOk(w.cfg, w.sessions[id], out, Observe(w.cfg, w.sessions[id], WireOf(w, id), q, res, env),
                    Clear(LanesOf(w.ring, fl[id]), LaneOf(q.kind)))
  }

  // The session step, for the session and the lane the completion belongs to.
  lemma LocalStep(w: World, fl: map<nat, Tickets>, e: nat, res: Result, env: Env) returns (out: Outcome)
    requires WorldOk(w, fl) && Enabled(w, Op(e, res, env))
    ensures Local(w, fl, e, res, env, out)
  {
    TakeOk(w.ring, fl, 4 * w.cfg.connections, e);
    TakeLanes(w.ring, fl, 4 * w.cfg.connections, e);
    var id, q := w.ring.events[e].client, w.ring.pending[e];
    SessionStep(w.cfg, w.sessions[id], WireOf(w, id), LanesOf(w.ring, fl[id]), LaneOf(q.kind), res, env);
    out := Settle(w.cfg, w.sessions[id], q, q.kind, res, env);
  }

  // The world in which session id has become c, with record o and ring r.
  ghost function Kept(w: World, id: nat, c: Conn, o: Wire, r: Ring): World
    requires id in w.sessions
  {
    w.(sessions := w.sessions[id := c], wires := w.wires[id := o], ring := r,
       open := if c.fd == w.sessions[id].fd then w.open else w.open - {w.sessions[id].fd})
  }

  lemma KeptKeys(w: World, fl: map<nat, Tickets>, id: nat, c: Conn, o: Wire, r: Ring, fl': map<nat, Tickets>)
    requires KeysOk(w, fl) && id in w.sessions && fl'.Keys == fl.Keys
    ensures KeysOk(Kept(w, id, c, o, r), fl')
  {
    var w' := Kept(w, id, c, o, r);
    assert w'.sessions.Keys == w.sessions.Keys;
  }

  lemma KeptSessions(w: World, fl: map<nat, Tickets>, id: nat, c: Conn, o: Wire, r: Ring, fl': map<nat, Tickets>)
    requires SessionsOk(w, fl) && id in w.sessions && fl'.Keys == fl.Keys
    requires SessionOk(w.cfg, c, o, LanesOf(r, fl'[id]))
    requires forall j | j in fl && j != id :: LanesOf(r, fl'[j]) == LanesOf(w.ring, fl[j])
    ensures SessionsOk(Kept(w, id, c, o, r), fl')
  {
  }

  lemma KeptOk(w: World, fl: map<nat, Tickets>, id: nat, c: Conn, o: Wire, r: Ring, fl': map<nat, Tickets>)
    requires KeysOk(w, fl) && SessionsOk(w, fl) && FdsOk(w.sessions, w.open)
    requires SlotsOk(w.sessions, w.freeSlots, w.cfg.connections)
    requires id in w.sessions && Same(w.sessions[id], c) && fl'.Keys == fl.Keys
    requires RingOk(r, fl', None, 4 * w.cfg.connections) && SessionOk(w.cfg, c, o, LanesOf(r, fl'[id]))
    requires forall j | j in fl && j != id :: LanesOf(r, fl'[j]) == LanesOf(w.ring, fl[j])
    ensures WorldOk(Kept(w, id, c, o, r), fl')
    ensures c.fd != w.sessions[id].fd ==> w.sessions[id].fd in w.open
  {
    SlotsReplaced(w.sessions, w.freeSlots, w.cfg.connections, id, c);
    FdsReplaced(w.sessions, w.open, id, c);
    KeptSessions(w, fl, id, c, o, r, fl');
    KeptKeys(w, fl, id, c, o, r, fl');
  }

  // The world in which session id is deleted.
  ghost function Deleted(w: World, id: nat, r: Ring): World
    requires id in w.sessions
  {
    var c := w.sessions[id];
    w.(sessions := w.sessions - {id}, wires := w.wires - {id}, ring := r, freeSlots := w.freeSlots + [c.slotIndex],
       open := if c.fd == -1 then w.open else w.open - {c.fd})
  }

  lemma DeletedKeys(w: World, fl: map<nat, Tickets>, id: nat, r: Ring, fl': map<nat, Tickets>)
    requires KeysOk(w, fl) && id in w.sessions && fl'.Keys == fl.Keys - {id}
    ensures KeysOk(Deleted(w, id, r), fl')
  {
    var w' := Deleted(w, id, r);
    assert w'.sessions.Keys == w.sessions.Keys - {id};
  }

  lemma DeletedSessions(w: World, fl: map<nat, Tickets>, id: nat, r: Ring, fl': map<nat, Tickets>)
    requires KeysOk(w, fl) && SessionsOk(w, fl) && id in w.sessions && fl'.Keys == fl.Keys - {id}
    requires forall j | j in fl' :: LanesOf(r, fl'[j]) == LanesOf(w.ring, fl[j])
    ensures SessionsOk(Deleted(w, id, r), fl')
  {
  }

  lemma DeletedOk(w: World, fl: map<nat, Tickets>, id: nat, r: Ring, fl': map<nat, Tickets>)
    requires KeysOk(w, fl) && SessionsOk(w, fl) && FdsOk(w.sessions, w.open)
    requires SlotsOk(w.sessions, w.freeSlots, w.cfg.connections)
    requires id in w.sessions && fl'.Keys == fl.Keys - {id}
    requires RingOk(r, fl', None, 4 * w.cfg.connections)
    requires forall j | j in fl' :: LanesOf(r, fl'[j]) == LanesOf(w.ring, fl[j])
    ensures WorldOk(Deleted(w, id, r), fl')
    ensures w.sessions[id].fd == -1 || w.sessions[id].fd in w.open
  {
    SlotsDeleted(w.sessions, w.freeSlots, w.cfg.connections, id);
    FdsDeleted(w.sessions, w.open, id);
    DeletedSessions(w, fl, id, r, fl');
    DeletedKeys(w, fl, id, r, fl');
  }

  // What Complete comes to, given what the handler and the ring do.
  lemma CompleteKeeps(w: World, e: nat, res: Result, env: Env, id: nat, c': Conn, qs: seq<Request>)
    requires e in w.ring.pending && e < |w.ring.events| && id == w.ring.events[e].client && id in w.sessions
    requires w.ring.events[e].kind == w.ring.pending[e].kind
    requires var c, q := w.sessions[id], w.ring.pending[e];
             && q.start + q.offset + Moved(res) <= |c.slot|
             && Settle(w.cfg, c, q, q.kind, res, env) == Keep(c', qs)
             && (c'.fd != c.fd ==> c.fd in w.open)
    requires Launch(Taken(w.ring, e), id, qs).Some?
    ensures var o := Observe(w.cfg, w.sessions[id], WireOf(w, id), w.ring.pending[e], res, env);
            Complete(w, e, res, env) == Running(Kept(w, id, c', o, Returned(Launch(Taken(w.ring, e), id, qs).value, e)))
  {
  }

  lemma CompleteDeletes(w: World, e: nat, res: Result, env: Env, id: nat, c': Conn)
    requires e in w.ring.pending && e < |w.ring.events| && id == w.ring.events[e].client && id in w.sessions
    requires w.ring.events[e].kind == w.ring.pending[e].kind
    requires var c, q := w.sessions[id], w.ring.pending[e];
             && q.start + q.offset + Moved(res) <= |c.slot|
             && Settle(w.cfg, c, q, q.kind, res, env) == Drop(c', [])
             && c'.fd == c.fd && c'.slotIndex == c.slotIndex && (c.fd == -1 || c.fd in w.open)
    ensures Complete(w, e, res, env) == Running(Deleted(w, id, Returned(Taken(w.ring, e), e)))
  {
    assert (w.wires[id := Observe(w.cfg, w.sessions[id], WireOf(w, id), w.ring.pending[e], res, env)]) - {id} == w.wires - {id};
    assert w.sessions[id := c'] - {id} == w.sessions - {id};
  }

  // ------------------------------------------------------------------
  // The step theorem
  // ------------------------------------------------------------------

  lemma FewSessions(w: World, fl: map<nat, Tickets>)
    requires KeysOk(w, fl) && SlotsOk(w.sessions, w.freeSlots, w.cfg.connections)
    ensures |fl| + |w.freeSlots| == w.cfg.connections
  {
    assert |fl.Keys| == |w.sessions.Keys|;
  }

  lemma OpOk(w: World, fl: map<nat, Tickets>, e: nat, res: Result, env: Env) returns (fl': map<nat, Tickets>)
    requires WorldOk(w, fl) && Enabled(w, Op(e, res, env))
    ensures Complete(w, e, res, env).Crashed? <==> StopsAt(w, Op(e, res, env))
    ensures Complete(w, e, res, env).Running? ==> WorldOk(Complete(w, e, res, env).w, fl')
  {
    var out := LocalStep(w, fl, e, res, env);
    OpStops(w, fl, e, res, env, out);
    match out
    case Keep(c', qs) =>
      var w';
      w', fl' := OpKeeps(w, fl, e, res, env, c', qs);
    case Drop(c', qs) => fl' := OpDrops(w, fl, e, res, env, c', qs);
    case Crash(_) => fl' := fl;
  }

  lemma OpStops(w: World, fl: map<nat, Tickets>, e: nat, res: Result, env: Env, out: Outcome)
    requires Local(w, fl, e, res, env, out)
    ensures out.Crash? <==> StopsAt(w, Op(e, res, env))
    ensures out.Crash? ==> Complete(w, e, res, env).Crashed?
  {
  }

  lemma OpKeeps(w: World, fl: map<nat, Tickets>, e: nat, res: Result, env: Env, c': Conn, qs: seq<Request>)
    returns (w': World, fl': map<nat, Tickets>)
    requires WorldOk(w, fl) && Local(w, fl, e, res, env, Keep(c', qs))
    ensures Complete(w, e, res, env) == Running(w') && WorldOk(w', fl')
    ensures var id, q := w.ring.events[e].client, w.ring.pending[e];
            && w' == Kept(w, id, c', Observe(w.cfg, w.sessions[id], WireOf(w, id), q, res, env), w'.ring)
            && id in fl' && LanesOf(w'.ring, fl'[id]) == PlaceAll(Clear(LanesOf(w.ring, fl[id]), LaneOf(q.kind)), qs)
  {
    var id, q := w.ring.events[e].client, w.ring.pending[e];
    var r;
    r, fl' := OpOnRing(w, fl, e, res, env, c', qs);
    w' := Kept(w, id, c', Observe(w.cfg, w.sessions[id], WireOf(w, id), q, res, env), r);
    CompleteKeeps(w, e, res, env, id, c', qs);
  }

  lemma OpOnRing(w: World, fl: map<nat, Tickets>, e: nat, res: Result, env: Env, c': Conn, qs: seq<Request>)
    returns (r: Ring, fl': map<nat, Tickets>)
    requires WorldOk(w, fl) && Local(w, fl, e, res, env, Keep(c', qs))
    ensures var id, q := w.ring.events[e].client, w.ring.pending[e];
            && Launch(Taken(w.ring, e), id, qs).Some? && r == Returned(Launch(Taken(w.ring, e), id, qs).value, e)
            && WorldOk(Kept(w, id, c', Observe(w.cfg, w.sessions[id], WireOf(w, id), q, res, env), r), fl')
            && id in fl' && LanesOf(r, fl'[id]) == PlaceAll(Clear(LanesOf(w.ring, fl[id]), LaneOf(q.kind)), qs)
            && (c'.fd != w.sessions[id].fd ==> w.sessions[id].fd in w.open)
  {
    var id, q := w.ring.events[e].client, w.ring.pending[e];
    FewSessions(w, fl);
    fl' := CompletionOnRing(w.ring, fl, w.cfg.connections, e, qs);
    r := Returned(Launch(Taken(w.ring, e), id, qs).value, e);
    KeptOk(w, fl, id, c', Observe(w.cfg, w.sessions[id], WireOf(w, id), q, res, env), r, fl');
  }

  lemma OpDrops(w: World, fl: map<nat, Tickets>, e: nat, res: Result, env: Env, c': Conn, qs: seq<Request>)
    returns (fl': map<nat, Tickets>)
    requires WorldOk(w, fl) && Local(w, fl, e, res, env, Drop(c', qs))
    ensures Complete(w, e, res, env).Running? && WorldOk(Complete(w, e, res, env).w, fl')
  {
    var id := w.ring.events[e].client;
    fl' := LastOnRing(w.ring, fl, 4 * w.cfg.connections, e);
    DeletedOk(w, fl, id, Returned(Taken(w.ring, e), e), fl');
    CompleteDeletes(w, e, res, env, id, c');
  }

  lemma DisarmedOk(w: World, fl: map<nat, Tickets>)
    requires WorldOk(w, fl)
    ensures WorldOk(w.(armed := false), fl)
  {
    DisarmedSessions(w, fl);
  }

  lemma DisarmedSessions(w: World, fl: map<nat, Tickets>)
    requires SessionsOk(w, fl)
    ensures SessionsOk(w.(armed := false), fl)
  {
  }

  lemma {:induction false} StepKeepsInvariant(w: World, fl: map<nat, Tickets>, c: Completion) returns (fl': map<nat, Tickets>)
    requires WorldOk(w, fl) && Enabled(w, c)
    ensures Step(w, c).Crashed? <==> StopsAt(w, c)
    ensures Step(w, c).Running? ==> WorldOk(Step(w, c).w, fl')
  {
    match c
    case AcceptFailed =>
      fl' := fl;
      DisarmedOk(w, fl);
    case Accepted(fd, slot) => fl' := AcceptOk(w, fl, fd, slot);
    case Op(e, res, env) => fl' := OpOk(w, fl, e, res, env);
  }

  // ------------------------------------------------------------------
  // Runs
  // ------------------------------------------------------------------

  ghost predicate Sane(w: World) { exists fl :: WorldOk(w, fl) }

  lemma {:induction false} SaneStep(w: World, c: Completion)
    requires Sane(w) && Enabled(w, c)
    ensures Step(w, c).Crashed? <==> StopsAt(w, c)
    ensures Step(w, c).Running? ==> Sane(Step(w, c).w)
  {
    var fl :| WorldOk(w, fl);
    var fl' := StepKeepsInvariant(w, fl, c);
  }

  lemma {:induction false} SaneRun(w: World, cs: seq<Completion>)
    requires Sane(w) && Legal(w, cs) && Run(w, cs).Running?
    ensures Sane(Run(w, cs).w)
    decreases |cs|
  {
    if cs != [] {
      SaneStep(w, cs[0]);
      SaneRun(Step(w, cs[0]).w, cs[1..]);
    }
  }

  // The worlds some run from a start leads to.
  ghost predicate Reachable(w: World) {
    exists cs :: Legal(Init(w.cfg), cs) && Run(Init(w.cfg), cs) == Running(w)
  }

  lemma {:induction false} ReachableIsSane(w: World)
    requires Reachable(w)
    ensures Sane(w)
  {
    var cs :| Legal(Init(w.cfg), cs) && Run(Init(w.cfg), cs) == Running(w);
    InitOk(w.cfg);
    SaneRun(Init(w.cfg), cs);
  }
}
