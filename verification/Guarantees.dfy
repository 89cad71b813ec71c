/**
 What holds in every world that some run of the server leads to.
 */
module Guarantees {
  import opened Socks5
  import opened SessionSpec
  import opened OneShot
  import opened Wire
  import opened HandshakeProof
  import opened SessionProof
  import opened Pools
  import opened ServerSpec
  import opened RingProof
  import opened Safety

  // The events of the session at address id that are in flight.
  function EventsOf(w: World, id: nat): set<nat> {
    set e | e in w.ring.pending && e < |w.ring.events| && w.ring.events[e].client == id
  }

  function AsSet(t: Option<nat>): set<nat> {
    if t.Some? then {t.value} else {}
  }

  lemma EventsAreTickets(w: World, fl: map<nat, Tickets>, id: nat)
    requires RingOk(w.ring, fl, None, 4 * w.cfg.connections) && id in fl
    ensures EventsOf(w, id) == AsSet(fl[id].up) + AsSet(fl[id].down)
    ensures |EventsOf(w, id)| == Count(LanesOf(w.ring, fl[id]))
    ensures LanesOf(w.ring, fl[id]).up.Some? ==>
              fl[id].up.Some? && LanesOf(w.ring, fl[id]).up.value == w.ring.pending[fl[id].up.value]
    ensures LanesOf(w.ring, fl[id]).down.Some? ==>
              fl[id].down.Some? && LanesOf(w.ring, fl[id]).down.value == w.ring.pending[fl[id].down.value]
  {
    var t := fl[id];
    assert TicketOk(w.ring, id, t.up, Upward) && TicketOk(w.ring, id, t.down, Downward);
    forall e | e in EventsOf(w, id)
      ensures e in AsSet(t.up) + AsSet(t.down)
    {
      assert TicketAt(fl[w.ring.events[e].client], LaneOf(w.ring.pending[e].kind)) == Some(e);
    }
    if t.up.Some? && t.down.Some? {
      assert t.up.value != t.down.value;
    }
    assert |AsSet(t.up) + AsSet(t.down)| == |AsSet(t.up)| + |AsSet(t.down)|;
  }

  // f is what the session at address id has in flight.
  ghost predicate InFlight(w: World, id: nat, f: Lanes) {
    && |EventsOf(w, id)| == Count(f)
    && (forall e | e in EventsOf(w, id) :: At(f, LaneOf(w.ring.pending[e].kind)) == Some(w.ring.pending[e]))
    && (f.up.Some? ==> exists e :: e in EventsOf(w, id) && w.ring.pending[e] == f.up.value)
    && (f.down.Some? ==> exists e :: e in EventsOf(w, id) && w.ring.pending[e] == f.down.value)
  }

  lemma RingInFlight(w: World, fl: map<nat, Tickets>, id: nat)
    requires RingOk(w.ring, fl, None, 4 * w.cfg.connections) && id in fl
    ensures InFlight(w, id, LanesOf(w.ring, fl[id]))
  {
    EventsAreTickets(w, fl, id);
    var f := LanesOf(w.ring, fl[id]);
    forall e | e in EventsOf(w, id)
      ensures At(f, LaneOf(w.ring.pending[e].kind)) == Some(w.ring.pending[e])
    {
      assert TicketAt(fl[w.ring.events[e].client], LaneOf(w.ring.pending[e].kind)) == Some(e);
    }
  }

  lemma SessionInvariant(w: World, fl: map<nat, Tickets>, id: nat)
    requires SessionsOk(w, fl) && id in w.sessions
    ensures id in fl && SessionOk(w.cfg, w.sessions[id], WireOf(w, id), LanesOf(w.ring, fl[id]))
  {
  }

  // The invariant, seen from one session of a reachable world.
  lemma OneSession(w: World, id: nat) returns (f: Lanes)
    requires Reachable(w) && id in w.sessions
    ensures SessionOk(w.cfg, w.sessions[id], WireOf(w, id), f) && InFlight(w, id, f)
  {
    ReachableIsSane(w);
    var fl :| WorldOk(w, fl);
    SessionInvariant(w, fl, id);
    RingInFlight(w, fl, id);
    f := LanesOf(w.ring, fl[id]);
  }

  // ------------------------------------------------------------------
  // Lifetime
  // ------------------------------------------------------------------

  // A request stays in its session's slot; with registered buffers, it stays in
  // the half that it names.
  predicate WithinSlot(cfg: Config, c: Conn, q: Request) {
    && (q.start == 0 || q.start == HALF_BUFFER_SIZE) && q.start + q.offset + q.len <= BUFFER_SIZE
    && (cfg.root && (Reads(q.kind) || Writes(q.kind)) ==>
          && (q.iovec == Some(2 * c.slotIndex) || q.iovec == Some(2 * c.slotIndex + 1))
          && (q.iovec == Some(2 * c.slotIndex) ==> q.start == 0 && q.offset + q.len <= HALF_BUFFER_SIZE)
          && (q.iovec == Some(2 * c.slotIndex + 1) ==> q.start == HALF_BUFFER_SIZE))
  }

  lemma RequestsWithinSlot(cfg: Config, c: Conn, w: Wire, f: Lanes, lane: Lane)
    requires SessionOk(cfg, c, w, f) && At(f, lane).Some?
    ensures WithinSlot(cfg, c, At(f, lane).value)
  {
    if c.state.ProxyingRequests? {
      RelayWithinSlot(cfg, c, w, f, lane);
    } else {
      HandshakeWithinSlot(cfg, c, w, f, lane);
    }
  }

  lemma RelayWithinSlot(cfg: Config, c: Conn, w: Wire, f: Lanes, lane: Lane)
    requires RelayPart(cfg, c, w, f) && At(f, lane).Some?
    ensures WithinSlot(cfg, c, At(f, lane).value)
  {
  }

  lemma HandshakeWithinSlot(cfg: Config, c: Conn, w: Wire, f: Lanes, lane: Lane)
    requires HandshakeOk(cfg, c, w, f) && At(f, lane).Some?
    ensures WithinSlot(cfg, c, At(f, lane).value)
  {
    RequestFits(cfg, c, ViewOf(w), w.toClient, At(f, lane).value);
  }

  lemma RequestFits(cfg: Config, c: Conn, v: View, toClient: seq<byte>, q: Request)
    requires Follows(cfg, c, v, toClient, Some(q))
    ensures WithinSlot(cfg, c, q)
  {
  }

  lemma ClientOf(w: World, fl: map<nat, Tickets>, e: nat)
    requires KeysOk(w, fl) && TicketsOk(w.ring, fl) && e in w.ring.pending
    ensures e < |w.ring.events| && w.ring.events[e].kind == w.ring.pending[e].kind
    ensures w.ring.events[e].client in w.sessions && e in EventsOf(w, w.ring.events[e].client)
  {
    TakeTickets(w.ring, fl, e);
  }

  lemma PendingClient(w: World, e: nat)
    requires Reachable(w) && e in w.ring.pending
    ensures e < |w.ring.events| && w.ring.events[e].kind == w.ring.pending[e].kind
    ensures w.ring.events[e].client in w.sessions && e in EventsOf(w, w.ring.events[e].client)
  {
    ReachableIsSane(w);
    var fl :| WorldOk(w, fl);
    ClientOf(w, fl, e);
  }

  lemma SlotInUse(w: World, id: nat)
    requires Reachable(w) && id in w.sessions
    ensures w.sessions[id].slotIndex < w.cfg.connections && w.sessions[id].slotIndex !in w.freeSlots
  {
    ReachableIsSane(w);
  }

  // No completion can reach a session that is gone, and no slot is handed out
  // while the kernel may still use it.
  lemma {:induction false} NoDanglingCompletion(w: World, e: nat)
    requires Reachable(w) && e in w.ring.pending
    ensures e < |w.ring.events| && w.ring.events[e].kind == w.ring.pending[e].kind
    ensures var id := w.ring.events[e].client;
            && id in w.sessions
            && w.sessions[id].slotIndex < w.cfg.connections && w.sessions[id].slotIndex !in w.freeSlots
            && WithinSlot(w.cfg, w.sessions[id], w.ring.pending[e])
  {
    PendingClient(w, e);
    var id := w.ring.events[e].client;
    SlotInUse(w, id);
    var f := OneSession(w, id);
    RequestsWithinSlot(w.cfg, w.sessions[id], WireOf(w, id), f, LaneOf(w.ring.pending[e].kind));
  }

  // The system call that a request makes: where in the slot its memory begins,
  // how many bytes a read asks for, and, with registered buffers only, which one
  // it names. The two halves of slot i are the buffers 2i and 2i + 1.
  predicate AsSubmitted(root: bool, i: nat, q: Request) {
    match q.kind
    case ClientAccept => false
    case ClientRead =>
      && q.start == 0 && q.offset == 0 && q.len == (if root then 16384 else 32768)
      && q.iovec == (if root then Some(2 * i) else None)
    case ClientWrite => q.start == 16384 && q.iovec == (if root then Some(2 * i + 1) else None)
    case DestinationConnect => q == Request(DestinationConnect, 0, 0, 0, None)
    case DestinationRead =>
      && q.start == 16384 && q.offset == 0 && q.len == 16384
      && q.iovec == (if root then Some(2 * i + 1) else None)
    case DestinationWrite => q.start == 0 && q.iovec == (if root then Some(2 * i) else None)
  }

  lemma RelayAsSubmitted(cfg: Config, c: Conn, w: Wire, f: Lanes, lane: Lane)
    requires RelayPart(cfg, c, w, f) && At(f, lane).Some?
    ensures AsSubmitted(cfg.root, c.slotIndex, At(f, lane).value)
  {
  }

  lemma HandshakeAsSubmitted(cfg: Config, c: Conn, v: View, toClient: seq<byte>, q: Request)
    requires Follows(cfg, c, v, toClient, Some(q))
    ensures AsSubmitted(cfg.root, c.slotIndex, q)
  {
  }

  lemma SessionAsSubmitted(cfg: Config, c: Conn, w: Wire, f: Lanes, lane: Lane)
    requires SessionOk(cfg, c, w, f) && At(f, lane).Some?
    ensures AsSubmitted(cfg.root, c.slotIndex, At(f, lane).value)
  {
    if c.state.ProxyingRequests? {
      RelayAsSubmitted(cfg, c, w, f, lane);
    } else {
      HandshakeAsSubmitted(cfg, c, ViewOf(w), w.toClient, At(f, lane).value);
    }
  }

  // Every request in flight is one of the five system calls, with these
  // arguments: registered buffers are named by every read and write of a server
  // that has registered them, and by nothing else.
  lemma {:induction false} RequestsAreAsSubmitted(w: World, e: nat)
    requires Reachable(w) && e in w.ring.pending
    ensures e < |w.ring.events| && w.ring.events[e].client in w.sessions
    ensures AsSubmitted(w.cfg.root, w.sessions[w.ring.events[e].client].slotIndex, w.ring.pending[e])
    ensures var q := w.ring.pending[e]; q.iovec.Some? <==> w.cfg.root && (Reads(q.kind) || Writes(q.kind))
  {
    PendingClient(w, e);
    var id, q := w.ring.events[e].client, w.ring.pending[e];
    var f := OneSession(w, id);
    SessionAsSubmitted(w.cfg, w.sessions[id], WireOf(w, id), f, LaneOf(q.kind));
  }

  // In the buffer vector: a request's memory begins with a half of its session's
  // slot and stays in the slot; with registered buffers it lies within the
  // buffer whose index the request carries.
  lemma {:induction false} MemoryIsRegistered(w: World, e: nat)
    requires Reachable(w) && w.cfg.connections < 0x2_0000 && e in w.ring.pending
    ensures e < |w.ring.events| && w.ring.events[e].client in w.sessions
    ensures var i, q := w.sessions[w.ring.events[e].client].slotIndex, w.ring.pending[e];
            var base := if q.start == 0 then BufferHalf0(i).base else BufferHalf1(i).base;
            && i * BUFFER_SIZE <= base && base + q.offset + q.len <= (i + 1) * BUFFER_SIZE <= w.cfg.connections * BUFFER_SIZE
            && (w.cfg.root && (Reads(q.kind) || Writes(q.kind)) ==>
                  && q.iovec.Some? && q.iovec.value < 2 * w.cfg.connections
                  && var buffer := Iovec(q.iovec.value);
                     buffer.base <= base && base + q.offset + q.len <= buffer.base + buffer.len)
  {
    NoDanglingCompletion(w, e);
    var id, q := w.ring.events[e].client, w.ring.pending[e];
    InRegisteredBuffer(w.cfg, w.sessions[id], q);
  }

  lemma InRegisteredBuffer(cfg: Config, c: Conn, q: Request)
    requires WithinSlot(cfg, c, q) && c.slotIndex < cfg.connections < 0x2_0000
    ensures var i := c.slotIndex;
            var base := if q.start == 0 then BufferHalf0(i).base else BufferHalf1(i).base;
            && i * BUFFER_SIZE <= base && base + q.offset + q.len <= (i + 1) * BUFFER_SIZE <= cfg.connections * BUFFER_SIZE
            && (cfg.root && (Reads(q.kind) || Writes(q.kind)) ==>
                  && q.iovec.Some? && q.iovec.value < 2 * cfg.connections
                  && var buffer := Iovec(q.iovec.value);
                     buffer.base <= base && base + q.offset + q.len <= buffer.base + buffer.len)
  {
    SlotGeometry(cfg.connections, c.slotIndex);
  }

  // The hand-kept counter: the pending events, and one more until the connect
  // request has been submitted.
  lemma {:induction false} CounterAccounting(w: World, id: nat)
    requires Reachable(w) && id in w.sessions
    ensures w.sessions[id].awaiting == |EventsOf(w, id)| + if PreConnect(w.sessions[id].state) then 1 else 0
  {
    var f := OneSession(w, id);
  }

  lemma TwoElements(s: set<nat>, a: nat, b: nat)
    requires |s| == 2 && a in s && b in s && a != b
    ensures s == {a, b}
  {
    assert |s - {a, b}| == 0;
  }

  lemma RelayLanes(cfg: Config, c: Conn, w: Wire, f: Lanes)
    requires RelayPart(cfg, c, w, f) && !c.failed
    ensures f.up.Some? && (f.up.value.kind.ClientRead? || f.up.value.kind.DestinationWrite?)
    ensures f.down.Some? && (f.down.value.kind.DestinationRead? || f.down.value.kind.ClientWrite?)
  {
  }

  // What a session is waiting for before it relays.
  function Awaited(c: Conn): EventType {
    if c.writeBuffer != [] then ClientWrite
    else if c.state.ConnectingToDestination? then DestinationConnect
    else ClientRead
  }

  lemma HandshakeLane(cfg: Config, c: Conn, w: Wire, f: Lanes)
    requires HandshakeOk(cfg, c, w, f) && !c.failed
    ensures Count(f) == 1 && Only(f).Some? && Only(f).value.kind == Awaited(c)
  {
    AwaitedIsAsked(cfg, c, ViewOf(w), w.toClient, Only(f));
  }

  lemma AwaitedIsAsked(cfg: Config, c: Conn, v: View, toClient: seq<byte>, q: Option<Request>)
    requires Follows(cfg, c, v, toClient, q) && !c.failed
    ensures q.Some? && q.value.kind == Awaited(c)
  {
  }

  lemma OneElement(s: set<nat>, a: nat)
    requires |s| == 1 && a in s
    ensures s == {a}
  {
    assert |s - {a}| == 0;
  }

  // No session stalls and no direction has two requests in flight: a session
  // that has not failed waits for one thing before it relays, and then for one
  // thing in each direction.
  lemma {:induction false} Tokens(w: World, id: nat)
    requires Reachable(w) && id in w.sessions && !w.sessions[id].failed
    ensures !w.sessions[id].state.ProxyingRequests? ==>
              exists e: nat :: EventsOf(w, id) == {e} && e in w.ring.pending && w.ring.pending[e].kind == Awaited(w.sessions[id])
    ensures w.sessions[id].state.ProxyingRequests? ==>
              exists u: nat, d: nat :: EventsOf(w, id) == {u, d} && u != d && u in w.ring.pending && d in w.ring.pending
                && (w.ring.pending[u].kind.ClientRead? || w.ring.pending[u].kind.DestinationWrite?)
                && (w.ring.pending[d].kind.DestinationRead? || w.ring.pending[d].kind.ClientWrite?)
  {
    var f := OneSession(w, id);
    if w.sessions[id].state.ProxyingRequests? {
      RelayLanes(w.cfg, w.sessions[id], WireOf(w, id), f);
      var u :| u in EventsOf(w, id) && w.ring.pending[u] == f.up.value;
      var d :| d in EventsOf(w, id) && w.ring.pending[d] == f.down.value;
      TwoElements(EventsOf(w, id), u, d);
    } else {
      HandshakeLane(w.cfg, w.sessions[id], WireOf(w, id), f);
      var e :| e in EventsOf(w, id) && Some(w.ring.pending[e]) == Only(f);
      OneElement(EventsOf(w, id), e);
    }
  }

  // A failed session has at most one event left, and its descriptor is closed
  // before the last one of a relay comes in.
  lemma {:induction false} FailedSessions(w: World, id: nat)
    requires Reachable(w) && id in w.sessions && w.sessions[id].failed
    ensures |EventsOf(w, id)| <= 1 && w.sessions[id].destination.None?
    ensures !PreConnect(w.sessions[id].state) ==> |EventsOf(w, id)| == 1 && w.sessions[id].fd == -1
    ensures w.sessions[id].fd == -1 && PreConnect(w.sessions[id].state) ==> EventsOf(w, id) == {}
  {
    var f := OneSession(w, id);
    FailedLanes(w.cfg, w.sessions[id], WireOf(w, id), f);
    if |EventsOf(w, id)| == 0 {
      assert EventsOf(w, id) == {};
    }
  }

  lemma FailedLanes(cfg: Config, c: Conn, o: Wire, f: Lanes)
    requires SessionOk(cfg, c, o, f) && c.failed
    ensures Count(f) <= 1 && c.destination.None?
    ensures !PreConnect(c.state) ==> Count(f) == 1 && c.fd == -1
    ensures c.fd == -1 && PreConnect(c.state) ==> Count(f) == 0
  {
  }

  // A session has failed if and only if something of its connection broke or the
  // client was refused.
  lemma {:induction false} FailedIffBrokenOrRefused(w: World, id: nat)
    requires Reachable(w) && id in w.sessions
    ensures w.sessions[id].failed <==> WireOf(w, id).broken || ViewOf(WireOf(w, id)).Refused?
  {
    var f := OneSession(w, id);
    FailedInSession(w.cfg, w.sessions[id], WireOf(w, id), f);
  }

  lemma FailedInSession(cfg: Config, c: Conn, o: Wire, f: Lanes)
    requires SessionOk(cfg, c, o, f)
    ensures c.failed <==> o.broken || ViewOf(o).Refused?
    ensures o.broken ==> c.fd == -1
  {
  }

  // A request that fails, or a peer that closes its end, ends the session: its
  // descriptor is closed and nothing is submitted for it any more.
  lemma {:induction false} BreakingEndsTheSession(w: World, e: nat, res: Result, env: Env)
    requires Reachable(w) && Enabled(w, Op(e, res, env)) && (res.Failed? || res == Received([]))
    ensures e < |w.ring.events|
    ensures var id, s := w.ring.events[e].client, Step(w, Op(e, res, env));
            && s.Running? && |EventsOf(s.w, id)| == |EventsOf(w, id)| - 1
            && (id in s.w.sessions ==> s.w.sessions[id].failed && s.w.sessions[id].fd == -1 && s.w.sessions[id].destination == None)
  {
    PendingClient(w, e);
    var id := w.ring.events[e].client;
    BreakingIsSurvived(w, e, res, env);
    var fl, out := OpInReach(w, e, res, env);
    BreakingSettles(w.cfg, w.sessions[id], w.ring.pending[e], res, env, out);
    BrokenOp(w, fl, e, res, env, out);
    StepIsReachable(w, Op(e, res, env));
    BrokenIsClosed(w, Step(w, Op(e, res, env)).w, id);
  }

  lemma BreakingIsSurvived(w: World, e: nat, res: Result, env: Env)
    requires Reachable(w) && Enabled(w, Op(e, res, env)) && (res.Failed? || res == Received([]))
    ensures Step(w, Op(e, res, env)).Running?
  {
    ReachableIsSane(w);
    SaneStep(w, Op(e, res, env));
  }

  lemma BreakingSettles(cfg: Config, c: Conn, q: Request, res: Result, env: Env, out: Outcome)
    requires Answers(q, res) && (res.Failed? || res == Received([]))
    requires Settle(cfg, c, q, q.kind, res, env) == out
    ensures match out
            case Keep(c', qs) => qs == [] && c'.awaiting == c.awaiting - 1 && c'.state == c.state
            case Drop(_, _) => c.awaiting == 1
            case Crash(_) => true
  {
  }

  lemma BrokenOp(w: World, fl: map<nat, Tickets>, e: nat, res: Result, env: Env, out: Outcome)
    requires Local(w, fl, e, res, env, out) && (res.Failed? || res == Received([]))
    requires match out
             case Keep(c', qs) => var c := w.sessions[w.ring.events[e].client];
                                  qs == [] && c'.awaiting == c.awaiting - 1 && c'.state == c.state
             case Drop(_, _) => w.sessions[w.ring.events[e].client].awaiting == 1
             case Crash(_) => true
    requires Complete(w, e, res, env).Running?
    ensures var id, w' := w.ring.events[e].client, Complete(w, e, res, env).w;
            if id in w'.sessions then
              && WireOf(w', id).broken && w'.sessions[id].awaiting == w.sessions[id].awaiting - 1
              && w'.sessions[id].state == w.sessions[id].state
            else w.sessions[id].awaiting == 1 && !PreConnect(w.sessions[id].state)
  {
  }

  lemma BrokenIsClosed(w: World, w': World, id: nat)
    requires Reachable(w) && Reachable(w') && id in w.sessions
    requires if id in w'.sessions then
               && WireOf(w', id).broken && w'.sessions[id].awaiting == w.sessions[id].awaiting - 1
               && w'.sessions[id].state == w.sessions[id].state
             else w.sessions[id].awaiting == 1 && !PreConnect(w.sessions[id].state)
    ensures |EventsOf(w', id)| == |EventsOf(w, id)| - 1
    ensures id in w'.sessions ==> w'.sessions[id].failed && w'.sessions[id].fd == -1 && w'.sessions[id].destination == None
  {
    CounterAccounting(w, id);
    if id in w'.sessions {
      var f := OneSession(w', id);
      FailedInSession(w'.cfg, w'.sessions[id], WireOf(w', id), f);
      FailedSessions(w', id);
      CounterAccounting(w', id);
    } else {
      EventsIffLive(w', id);
    }
  }

  // After its connect request has been submitted a session is there exactly as
  // long as it has an event in flight; before, it is never deleted. A deleted
  // session's slot goes back to the pool once.
  lemma {:induction false} ExactDestruction(w: World, c: Completion, id: nat)
    requires Reachable(w) && Enabled(w, c) && Step(w, c).Running? && id in w.sessions
    ensures var w' := Step(w, c).w;
            && (!PreConnect(w.sessions[id].state) ==> (id in w'.sessions <==> EventsOf(w', id) != {}))
            && (PreConnect(w.sessions[id].state) ==> id in w'.sessions)
            && (id !in w'.sessions ==> w'.freeSlots == w.freeSlots + [w.sessions[id].slotIndex])
  {
    StepIsReachable(w, c);
    StepOnSession(w, c, id);
    DeletedOrLive(w, Step(w, c).w, id);
  }

  lemma DeletedOrLive(w: World, w': World, id: nat)
    requires Reachable(w') && id in w.sessions
    requires if id in w'.sessions then Same(w.sessions[id], w'.sessions[id])
             else !PreConnect(w.sessions[id].state) && w'.freeSlots == w.freeSlots + [w.sessions[id].slotIndex]
    ensures !PreConnect(w.sessions[id].state) ==> (id in w'.sessions <==> EventsOf(w', id) != {})
    ensures PreConnect(w.sessions[id].state) ==> id in w'.sessions
    ensures id !in w'.sessions ==> w'.freeSlots == w.freeSlots + [w.sessions[id].slotIndex]
  {
    EventsIffLive(w', id);
  }

  lemma EventsIffLive(w: World, id: nat)
    requires Reachable(w)
    ensures id !in w.sessions ==> EventsOf(w, id) == {}
    ensures id in w.sessions && !PreConnect(w.sessions[id].state) ==> EventsOf(w, id) != {}
  {
    if id in w.sessions {
      var f := OneSession(w, id);
      assert |EventsOf(w, id)| == 0 <==> EventsOf(w, id) == {};
    } else {
      forall e | e in EventsOf(w, id)
        ensures false
      {
        PendingClient(w, e);
      }
    }
  }

  // A turn of the loop leaves a session as it is, moves it forward, or deletes it.
  lemma StepOnSession(w: World, c: Completion, id: nat)
    requires Reachable(w) && Enabled(w, c) && Step(w, c).Running? && id in w.sessions
    ensures var w' := Step(w, c).w;
            if id in w'.sessions then Same(w.sessions[id], w'.sessions[id])
            else !PreConnect(w.sessions[id].state) && w'.freeSlots == w.freeSlots + [w.sessions[id].slotIndex]
  {
    match c
    case AcceptFailed =>
    case Accepted(fd, slot) => NextIsFresh(w, id);
    case Op(e, res, env) =>
      var fl, out := OpInReach(w, e, res, env);
      OpOnSession(w, fl, e, res, env, out, id);
  }

  lemma NextIsFresh(w: World, id: nat)
    requires Reachable(w) && id in w.sessions
    ensures id < w.next
  {
    ReachableIsSane(w);
  }

  lemma OpInReach(w: World, e: nat, res: Result, env: Env) returns (fl: map<nat, Tickets>, out: Outcome)
    requires Reachable(w) && Enabled(w, Op(e, res, env))
    ensures Local(w, fl, e, res, env, out)
  {
    ReachableIsSane(w);
    fl :| WorldOk(w, fl);
    out := LocalStep(w, fl, e, res, env);
  }

  lemma OpOnSession(w: World, fl: map<nat, Tickets>, e: nat, res: Result, env: Env, out: Outcome, id: nat)
    requires Local(w, fl, e, res, env, out) && Complete(w, e, res, env).Running? && id in w.sessions
    ensures var w' := Complete(w, e, res, env).w;
            if id in w'.sessions then Same(w.sessions[id], w'.sessions[id])
            else !PreConnect(w.sessions[id].state) && w'.freeSlots == w.freeSlots + [w.sessions[id].slotIndex]
  {
  }

  lemma {:induction false} RunExtends(w: World, cs: seq<Completion>, c: Completion)
    requires Legal(w, cs) && Run(w, cs).Running? && Enabled(Run(w, cs).w, c)
    ensures Legal(w, cs + [c]) && Run(w, cs + [c]) == Step(Run(w, cs).w, c)
    decreases |cs|
  {
    if cs == [] {
      OneCompletion(w, c);
    } else {
      RunExtends(Step(w, cs[0]).w, cs[1..], c);
      OneMore(cs, c);
    }
  }

  lemma OneMore(cs: seq<Completion>, c: Completion)
    requires cs != []
    ensures (cs + [c])[0] == cs[0] && (cs + [c])[1..] == cs[1..] + [c]
  {
  }

  lemma OneCompletion(w: World, c: Completion)
    requires Enabled(w, c)
    ensures Legal(w, [] + [c]) && Run(w, [] + [c]) == Step(w, c)
  {
    assert [] + [c] == [c] && [c][1..] == [];
  }

  lemma {:induction false} StepIsReachable(w: World, c: Completion)
    requires Reachable(w) && Enabled(w, c) && Step(w, c).Running?
    ensures Reachable(Step(w, c).w)
  {
    var cs :| Legal(Init(w.cfg), cs) && Run(Init(w.cfg), cs) == Running(w);
    RunExtends(Init(w.cfg), cs, c);
    StepKeepsConfig(w, c);
  }

  lemma StepKeepsConfig(w: World, c: Completion)
    requires Step(w, c).Running?
    ensures Step(w, c).w.cfg == w.cfg
  {
  }

  // ------------------------------------------------------------------
  // Capacity
  // ------------------------------------------------------------------

  lemma Populations(w: World, fl: map<nat, Tickets>)
    requires KeysOk(w, fl) && RingOk(w.ring, fl, None, 4 * w.cfg.connections)
    requires SlotsOk(w.sessions, w.freeSlots, w.cfg.connections)
    ensures |w.sessions| + |w.freeSlots| == w.cfg.connections
    ensures |w.ring.free| + |w.ring.pending| == 4 * w.cfg.connections
    ensures |w.ring.pending| <= 2 * |w.sessions|
  {
    FewSessions(w, fl);
    AtMostTwoEach(w.ring, fl);
    assert |w.sessions.Keys| == |fl.Keys|;
  }

  // Free events and events in flight share out the pool. Even with the event
  // that is being handled not yet returned, at most 2n + 1 of the 4n are in use.
  lemma {:induction false} PoolNeverDry(w: World)
    requires Reachable(w)
    ensures PoolOk(w.ring, None, 4 * w.cfg.connections)
    ensures |w.ring.free| + |w.ring.pending| == 4 * w.cfg.connections
    ensures |w.ring.pending| <= 2 * w.cfg.connections
    ensures w.ring.pending != map[] ==> |w.ring.pending| + 1 < 4 * w.cfg.connections
  {
    ReachableIsSane(w);
    var fl :| WorldOk(w, fl);
    Populations(w, fl);
  }

  // Inside a handler, when its requests are submitted and the event it handles
  // is not yet returned: at most 2n + 1 of the 4n events are in use.
  lemma {:induction false} PoolInHandler(w: World, e: nat, res: Result, env: Env)
    requires Reachable(w) && Enabled(w, Op(e, res, env)) && Step(w, Op(e, res, env)).Running?
    ensures e < |w.ring.events| && w.ring.events[e].client in w.sessions
    ensures var id := w.ring.events[e].client;
            var out := Settle(w.cfg, w.sessions[id], w.ring.pending[e], w.ring.events[e].kind, res, env);
            && !out.Crash? && Launch(Taken(w.ring, e), id, out.requests).Some?
            && var r := Launch(Taken(w.ring, e), id, out.requests).value;
               && PoolOk(r, Some(e), 4 * w.cfg.connections)
               && |r.pending| + 1 <= 2 * w.cfg.connections + 1
               && |r.free| + |r.pending| + 1 == 4 * w.cfg.connections
  {
    var fl, out := RingOfHandler(w, e, res, env);
    RingInHandler(w.ring, fl, w.cfg.connections, e, out.requests);
  }

  lemma RingOfHandler(w: World, e: nat, res: Result, env: Env) returns (fl: map<nat, Tickets>, out: Outcome)
    requires Reachable(w) && Enabled(w, Op(e, res, env))
    ensures Local(w, fl, e, res, env, out) && RingOk(w.ring, fl, None, 4 * w.cfg.connections) && |fl| <= w.cfg.connections
  {
    ReachableIsSane(w);
    fl :| WorldOk(w, fl);
    out := LocalStep(w, fl, e, res, env);
    FewSessions(w, fl);
  }

  lemma RingInHandler(r: Ring, fl: map<nat, Tickets>, connections: nat, e: nat, qs: seq<Request>)
    requires RingOk(r, fl, None, 4 * connections) && |fl| <= connections
    requires e in r.pending && e < |r.events| && r.events[e].client in fl
    requires Placeable(Clear(LanesOf(r, fl[r.events[e].client]), LaneOf(r.pending[e].kind)), qs)
    ensures Launch(Taken(r, e), r.events[e].client, qs).Some?
    ensures var r' := Launch(Taken(r, e), r.events[e].client, qs).value;
            && PoolOk(r', Some(e), 4 * connections)
            && |r'.pending| + 1 <= 2 * connections + 1 && |r'.free| + |r'.pending| + 1 == 4 * connections
  {
    var fl' := TakenAndLaunched(r, fl, connections, e, qs);
    AtMostTwoEach(Launch(Taken(r, e), r.events[e].client, qs).value, fl');
    assert |fl'.Keys| == |fl.Keys|;
  }

  // Live sessions and free slots add up, every slot in use belongs to one
  // session, and an accepted connection is turned away (and its descriptor
  // closed) exactly when as many sessions are live as there are slots.
  lemma {:induction false} CapacityConserved(w: World)
    requires Reachable(w)
    ensures |w.sessions| + |w.freeSlots| == w.cfg.connections
    ensures forall a, b | a in w.sessions && b in w.sessions && a != b :: w.sessions[a].slotIndex != w.sessions[b].slotIndex
  {
    ReachableIsSane(w);
    var fl :| WorldOk(w, fl);
    Populations(w, fl);
  }

  lemma {:induction false} RefusedWhenFull(w: World, fd: int, slot: seq<byte>)
    requires Reachable(w) && Enabled(w, Accepted(fd, slot))
    ensures var s := Step(w, Accepted(fd, slot));
            && s.Running? && s.w.armed
            && (|w.sessions| == w.cfg.connections ==> s.w == w)
            && (|w.sessions| < w.cfg.connections ==>
                  && s.w.sessions.Keys == w.sessions.Keys + {w.next} && w.next !in w.sessions
                  && w.freeSlots != [] && s.w.freeSlots == w.freeSlots[1..]
                  && s.w.sessions[w.next].slotIndex == w.freeSlots[0]
                  && s.w.sessions[w.next].fd == fd && s.w.open == w.open + {fd})
  {
    CapacityConserved(w);
    SaneAccept(w, fd, slot);
    if w.freeSlots != [] {
      NewcomerIsFresh(w);
      NewcomerIsIn(w, fd, slot);
    }
  }

  lemma NewcomerIsIn(w: World, fd: int, slot: seq<byte>)
    requires w.freeSlots != [] && fd >= 0 && |slot| == BUFFER_SIZE && HandleAccept(w, fd, slot).Running?
    ensures var w' := HandleAccept(w, fd, slot).w;
            && w'.armed && w'.sessions.Keys == w.sessions.Keys + {w.next}
            && w'.freeSlots == w.freeSlots[1..] && w'.sessions[w.next].slotIndex == w.freeSlots[0]
            && w'.sessions[w.next].fd == fd && w'.open == w.open + {fd}
  {
    NewcomerOk(w.cfg, fd, w.freeSlots[0], slot);
  }

  lemma NewcomerIsFresh(w: World)
    requires Reachable(w)
    ensures w.next !in w.sessions
  {
    if w.next in w.sessions {
      NextIsFresh(w, w.next);
    }
  }

  lemma SaneAccept(w: World, fd: int, slot: seq<byte>)
    requires Reachable(w) && Enabled(w, Accepted(fd, slot))
    ensures Step(w, Accepted(fd, slot)).Running?
  {
    ReachableIsSane(w);
    SaneStep(w, Accepted(fd, slot));
  }

  // Client descriptors: each live session that has not closed its own holds one,
  // no two hold the same, and nothing else is open. A descriptor that is not -1
  // is therefore open whenever it is about to be closed.
  lemma {:induction false} DescriptorDiscipline(w: World)
    requires Reachable(w)
    ensures w.open == set id | id in w.sessions && w.sessions[id].fd != -1 :: w.sessions[id].fd
    ensures forall a, b | a in w.sessions && b in w.sessions && a != b && w.sessions[a].fd != -1 ::
              w.sessions[a].fd != w.sessions[b].fd
    ensures forall id | id in w.sessions && !w.sessions[id].failed :: w.sessions[id].fd != -1
  {
    OneDescriptorEach(w);
    OpenAreHeld(w.sessions, w.open);
    forall id | id in w.sessions && !w.sessions[id].failed
      ensures w.sessions[id].fd != -1
    {
      NotFailedNotClosed(w, id);
    }
  }

  lemma OneDescriptorEach(w: World)
    requires Reachable(w)
    ensures FdsOk(w.sessions, w.open)
  {
    ReachableIsSane(w);
  }

  lemma OpenAreHeld(sessions: map<nat, Conn>, open: set<int>)
    requires FdsOk(sessions, open)
    ensures open == set id | id in sessions && sessions[id].fd != -1 :: sessions[id].fd
  {
    forall x | x in open
      ensures x in set id | id in sessions && sessions[id].fd != -1 :: sessions[id].fd
    {
      var id :| id in sessions && sessions[id].fd == x;
    }
  }

  lemma NotFailedNotClosed(w: World, id: nat)
    requires Reachable(w) && id in w.sessions && !w.sessions[id].failed
    ensures w.sessions[id].fd != -1
  {
    var f := OneSession(w, id);
  }

  // ------------------------------------------------------------------
  // What is never undone
  // ------------------------------------------------------------------

  // A session that failed before its connect: in flight at most the one write
  // of its reply, and nothing will ever make it go away.
  ghost predicate Stranded(w: World, id: nat) {
    id in w.sessions && w.sessions[id].failed && PreConnect(w.sessions[id].state)
  }

  lemma {:induction false} StrandedForever(w: World, cs: seq<Completion>, id: nat)
    requires Reachable(w) && Stranded(w, id) && Legal(w, cs) && Run(w, cs).Running?
    ensures Stranded(Run(w, cs).w, id) && Run(w, cs).w.sessions[id].slotIndex == w.sessions[id].slotIndex
    decreases |cs|
  {
    if cs != [] {
      var w' := Step(w, cs[0]).w;
      StepIsReachable(w, cs[0]);
      StrandedStep(w, cs[0], id);
      StrandedForever(w', cs[1..], id);
    }
  }

  lemma StrandedStep(w: World, c: Completion, id: nat)
    requires Reachable(w) && Stranded(w, id) && Enabled(w, c) && Step(w, c).Running?
    ensures Stranded(Step(w, c).w, id) && Step(w, c).w.sessions[id].slotIndex == w.sessions[id].slotIndex
  {
    match c
    case AcceptFailed =>
    case Accepted(fd, slot) => NextIsFresh(w, id);
    case Op(e, res, env) =>
      StepOnSession(w, c, id);
      var fl, out := OpInReach(w, e, res, env);
      StrandedOp(w, fl, e, res, env, out, id);
  }

  lemma StrandedOp(w: World, fl: map<nat, Tickets>, e: nat, res: Result, env: Env, out: Outcome, id: nat)
    requires Local(w, fl, e, res, env, out) && Complete(w, e, res, env).Running? && Stranded(w, id)
    ensures Stranded(Complete(w, e, res, env).w, id)
    ensures Complete(w, e, res, env).w.sessions[id].slotIndex == w.sessions[id].slotIndex
  {
    if id == w.ring.events[e].client {
      FailedStays(w.cfg, w.sessions[id], w.ring.pending[e], w.ring.events[e].kind, res, env);
    }
  }

  lemma FailedStays(cfg: Config, c: Conn, q: Request, kind: EventType, res: Result, env: Env)
    requires c.failed
    ensures var out := Settle(cfg, c, q, kind, res, env);
            out.Keep? ==> out.conn.failed && out.conn.state == c.state
  {
  }

  // A server all of whose slots are held by stranded sessions turns away every
  // connection from then on.
  lemma {:induction false} ExhaustedForever(w: World, cs: seq<Completion>)
    requires Reachable(w) && Legal(w, cs) && Run(w, cs).Running?
    requires |w.sessions| == w.cfg.connections && forall id | id in w.sessions :: Stranded(w, id)
    ensures Run(w, cs).w.sessions.Keys == w.sessions.Keys && Run(w, cs).w.freeSlots == []
    decreases |cs|
  {
    if cs == [] {
      CapacityConserved(w);
    } else {
      ExhaustedStep(w, cs[0]);
      ExhaustedForever(Step(w, cs[0]).w, cs[1..]);
    }
  }

  lemma ExhaustedStep(w: World, c: Completion)
    requires Reachable(w) && Enabled(w, c) && Step(w, c).Running?
    requires |w.sessions| == w.cfg.connections && forall id | id in w.sessions :: Stranded(w, id)
    ensures var w' := Step(w, c).w;
            && Reachable(w') && w'.sessions.Keys == w.sessions.Keys && w'.cfg == w.cfg
            && |w'.sessions| == w.cfg.connections && forall id | id in w'.sessions :: Stranded(w', id)
  {
    var w' := Step(w, c).w;
    StepIsReachable(w, c);
    StepKeepsConfig(w, c);
    forall id | id in w.sessions
      ensures Stranded(w', id)
    {
      StrandedStep(w, c, id);
    }
    CapacityConserved(w');
    SameSize(w.sessions.Keys, w'.sessions.Keys);
  }

  lemma SameSize(a: set<nat>, b: set<nat>)
    requires a <= b && |b| <= |a|
    ensures a == b
  {
    if exists x :: x in b && x !in a {
      var x :| x in b && x !in a;
      SubsetIsNoLarger(a, b - {x});
    }
  }

  // The server accepts connections exactly until an accept fails.
  lemma {:induction false} AcceptingUntilFailure(cfg: Config, cs: seq<Completion>)
    requires Legal(Init(cfg), cs) && Run(Init(cfg), cs).Running?
    ensures Run(Init(cfg), cs).w.armed <==> forall c | c in cs :: !c.AcceptFailed?
  {
    ArmedRun(Init(cfg), cs);
  }

  lemma ArmedRun(w: World, cs: seq<Completion>)
    requires Legal(w, cs) && Run(w, cs).Running?
    ensures Run(w, cs).w.armed <==> w.armed && forall c | c in cs :: !c.AcceptFailed?
    decreases |cs|
  {
    if cs != [] {
      ArmedStep(w, cs[0]);
      ArmedRun(Step(w, cs[0]).w, cs[1..]);
    }
  }

  lemma ArmedStep(w: World, c: Completion)
    requires Enabled(w, c) && Step(w, c).Running?
    ensures Step(w, c).w.armed <==> w.armed && !c.AcceptFailed?
  {
  }

  // After a failed accept no session is ever added.
  lemma {:induction false} DeafForever(w: World, cs: seq<Completion>)
    requires !w.armed && Legal(w, cs) && Run(w, cs).Running?
    ensures Run(w, cs).w.sessions.Keys <= w.sessions.Keys
    decreases |cs|
  {
    if cs != [] {
      ArmedStep(w, cs[0]);
      DeafForever(Step(w, cs[0]).w, cs[1..]);
    }
  }
}
