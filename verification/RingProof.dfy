/**
 The event pool and the kernel's requests: free events and events in use always
 partition the pool, each lane of each session has at most one request, and the
 event of a request names its session.
 */
module RingProof {
  import opened Socks5
  import opened SessionSpec
  import opened SessionProof
  import opened ServerSpec

  // The events of a session's requests in flight.
  datatype Tickets = Tickets(up: Option<nat>, down: Option<nat>)

  const NO_TICKETS := Tickets(None, None)

  function TicketAt(t: Tickets, lane: Lane): Option<nat> {
    if lane.Upward? then t.up else t.down
  }

  function SetTicket(t: Tickets, lane: Lane, e: Option<nat>): Tickets {
    if lane.Upward? then t.(up := e) else t.(down := e)
  }

  // Every index below total is free, pending or in hand (the event whose
  // completion is being handled), and only one of the three.
  ghost predicate PoolOk(r: Ring, hand: Option<nat>, total: nat) {
    && |r.events| == total
    && (forall i, j | 0 <= i < j < |r.free| :: r.free[i] != r.free[j])
    && (forall e | e in r.free :: e < total && e !in r.pending && hand != Some(e))
    && (forall e | e in r.pending :: e < total)
    && (hand.Some? ==> hand.value < total && hand.value !in r.pending)
    && |r.free| + |r.pending| + (if hand.Some? then 1 else 0) == total
  }

  ghost predicate TicketOk(r: Ring, id: nat, t: Option<nat>, lane: Lane)
  {
    t.Some? ==>
      && t.value in r.pending && t.value < |r.events|
      && r.events[t.value] == Event(id, r.pending[t.value].kind)
      && LaneOf(r.pending[t.value].kind) == lane
  }

  // fl holds exactly the requests in flight, by session and lane.
  ghost predicate TicketsOk(r: Ring, fl: map<nat, Tickets>) {
    && (forall id | id in fl :: TicketOk(r, id, fl[id].up, Upward) && TicketOk(r, id, fl[id].down, Downward))
    && (forall e | e in r.pending ::
          && e < |r.events| && r.events[e].client in fl
          && TicketAt(fl[r.events[e].client], LaneOf(r.pending[e].kind)) == Some(e))
  }

  ghost predicate RingOk(r: Ring, fl: map<nat, Tickets>, hand: Option<nat>, total: nat) {
    PoolOk(r, hand, total) && TicketsOk(r, fl)
  }

  function Lookup(r: Ring, t: Option<nat>): Option<Request> {
    if t.Some? && t.value in r.pending then Some(r.pending[t.value]) else None
  }

  function LanesOf(r: Ring, t: Tickets): Lanes {
    Lanes(Lookup(r, t.up), Lookup(r, t.down))
  }

  lemma TakePool(r: Ring, total: nat, e: nat)
    requires PoolOk(r, None, total) && e in r.pending
    ensures PoolOk(Taken(r, e), Some(e), total)
  {
  }

  lemma TakeTickets(r: Ring, fl: map<nat, Tickets>, e: nat)
    requires TicketsOk(r, fl) && e in r.pending
    ensures e < |r.events| && r.events[e].client in fl
    ensures var id, lane := r.events[e].client, LaneOf(r.pending[e].kind);
            && r.events[e].kind == r.pending[e].kind && TicketAt(fl[id], lane) == Some(e)
            && TicketsOk(Taken(r, e), fl[id := SetTicket(fl[id], lane, None)])
  {
    var id, lane := r.events[e].client, LaneOf(r.pending[e].kind);
    var r', fl' := Taken(r, e), fl[id := SetTicket(fl[id], lane, None)];
    forall j | j in fl'
      ensures TicketOk(r', j, fl'[j].up, Upward) && TicketOk(r', j, fl'[j].down, Downward)
    {
      assert TicketOk(r, j, fl[j].up, Upward) && TicketOk(r, j, fl[j].down, Downward);
    }
  }

  lemma TakeOk(r: Ring, fl: map<nat, Tickets>, total: nat, e: nat)
    requires RingOk(r, fl, None, total) && e in r.pending
    ensures e < |r.events| && r.events[e].client in fl
    ensures var id, lane := r.events[e].client, LaneOf(r.pending[e].kind);
            && r.events[e].kind == r.pending[e].kind
            && TicketAt(fl[id], lane) == Some(e)
            && RingOk(Taken(r, e), fl[id := SetTicket(fl[id], lane, None)], Some(e), total)
  {
    TakePool(r, total, e);
    TakeTickets(r, fl, e);
  }

  lemma ReturnOk(r: Ring, fl: map<nat, Tickets>, total: nat, e: nat)
    requires RingOk(r, fl, Some(e), total)
    ensures RingOk(Returned(r, e), fl, None, total)
    ensures forall j | j in fl :: LanesOf(Returned(r, e), fl[j]) == LanesOf(r, fl[j])
  {
    TicketsIgnoreFree(r, Returned(r, e), fl);
    ReturnPool(r, total, e);
  }

  lemma ReturnPool(r: Ring, total: nat, e: nat)
    requires PoolOk(r, Some(e), total)
    ensures PoolOk(Returned(r, e), None, total)
  {
  }

  lemma Launch1Pool(r: Ring, hand: Option<nat>, total: nat, id: nat, q: Request)
    requires PoolOk(r, hand, total) && r.free != []
    ensures Launch1(r, id, q).Some? && PoolOk(Launch1(r, id, q).value, hand, total)
  {
    var e := r.free[0];
    assert e in r.free;
    var r' := Launch1(r, id, q).value;
    forall x | x in r'.free
      ensures x in r.free && x != e
    {
    }
  }

  lemma Launch1Tickets(r: Ring, fl: map<nat, Tickets>, e: nat, id: nat, q: Request)
    requires TicketsOk(r, fl) && e < |r.events| && e !in r.pending && id in fl
    requires TicketAt(fl[id], LaneOf(q.kind)).None?
    ensures var r' := Ring(r.events[e := Event(id, q.kind)], r.free, r.pending[e := q]);
            TicketsOk(r', fl[id := SetTicket(fl[id], LaneOf(q.kind), Some(e))])
  {
    var r' := Ring(r.events[e := Event(id, q.kind)], r.free, r.pending[e := q]);
    var fl' := fl[id := SetTicket(fl[id], LaneOf(q.kind), Some(e))];
    forall j | j in fl'
      ensures TicketOk(r', j, fl'[j].up, Upward) && TicketOk(r', j, fl'[j].down, Downward)
    {
      assert TicketOk(r, j, fl[j].up, Upward) && TicketOk(r, j, fl[j].down, Downward);
    }
  }

  lemma Launch1Ok(r: Ring, fl: map<nat, Tickets>, hand: Option<nat>, total: nat, id: nat, q: Request)
    requires RingOk(r, fl, hand, total) && r.free != [] && id in fl
    requires TicketAt(fl[id], LaneOf(q.kind)).None?
    ensures Launch1(r, id, q).Some?
    ensures RingOk(Launch1(r, id, q).value, fl[id := SetTicket(fl[id], LaneOf(q.kind), Some(r.free[0]))], hand, total)
  {
    var e := r.free[0];
    assert e in r.free;
    Launch1Pool(r, hand, total, id, q);
    Launch1Tickets(r, fl, e, id, q);
    var r' := Launch1(r, id, q).value;
    TicketsIgnoreFree(Ring(r'.events, r.free, r'.pending), r', fl[id := SetTicket(fl[id], LaneOf(q.kind), Some(e))]);
  }

  lemma TicketsIgnoreFree(r: Ring, r': Ring, fl: map<nat, Tickets>)
    requires TicketsOk(r, fl) && r'.events == r.events && r'.pending == r.pending
    ensures TicketsOk(r', fl)
  {
    forall j | j in fl
      ensures TicketOk(r', j, fl[j].up, Upward) && TicketOk(r', j, fl[j].down, Downward)
    {
      assert TicketOk(r, j, fl[j].up, Upward) && TicketOk(r, j, fl[j].down, Downward);
    }
  }

  // A session that is gone, or one that is new, with nothing in flight.
  lemma ForgetOk(r: Ring, fl: map<nat, Tickets>, hand: Option<nat>, total: nat, id: nat)
    requires RingOk(r, fl, hand, total) && id in fl && fl[id] == NO_TICKETS
    ensures RingOk(r, fl - {id}, hand, total)
  {
  }

  lemma AdmitOk(r: Ring, fl: map<nat, Tickets>, hand: Option<nat>, total: nat, id: nat)
    requires RingOk(r, fl, hand, total) && id !in fl
    ensures RingOk(r, fl[id := NO_TICKETS], hand, total)
  {
  }

  // ------------------------------------------------------------------
  // The pool never runs dry
  // ------------------------------------------------------------------

  lemma {:induction false} ImageIsNoLarger(m: map<nat, nat>)
    ensures |m.Values| <= |m|
  {
    if m == map[] {
      assert m.Values == {};
    } else {
      var k :| k in m;
      var m' := m - {k};
      ImageIsNoLarger(m');
      assert m == m'[k := m[k]];
      SubsetIsNoLarger(m.Values, m'.Values + {m[k]});
    }
  }

  lemma SubsetIsNoLarger(a: set<nat>, b: set<nat>)
    requires a <= b
    ensures |a| <= |b|
  {
    assert b == a + (b - a);
  }

  function Column(fl: map<nat, Tickets>, lane: Lane): (m: map<nat, nat>)
    ensures |m| == |fl|
  {
    var m := map id | id in fl :: var t := TicketAt(fl[id], lane); if t.Some? then t.value else 0;
    assert m.Keys == fl.Keys;
    m
  }

  lemma InColumn(r: Ring, fl: map<nat, Tickets>, e: nat)
    requires TicketsOk(r, fl) && e in r.pending
    ensures e in Column(fl, LaneOf(r.pending[e].kind)).Values
  {
    var lane := LaneOf(r.pending[e].kind);
    assert Column(fl, lane)[r.events[e].client] == e;
  }

  lemma {:induction false} AtMostTwoEach(r: Ring, fl: map<nat, Tickets>)
    requires TicketsOk(r, fl)
    ensures |r.pending| <= 2 * |fl|
  {
    var ups, downs := Column(fl, Upward).Values, Column(fl, Downward).Values;
    forall e | e in r.pending.Keys
      ensures e in ups + downs
    {
      InColumn(r, fl, e);
    }
    SubsetIsNoLarger(r.pending.Keys, ups + downs);
    ImageIsNoLarger(Column(fl, Upward));
    ImageIsNoLarger(Column(fl, Downward));
  }

  lemma FreeEvent(r: Ring, fl: map<nat, Tickets>, hand: Option<nat>, connections: nat)
    requires RingOk(r, fl, hand, 4 * connections) && 1 <= |fl| <= connections
    ensures r.free != []
  {
    AtMostTwoEach(r, fl);
  }

  // ------------------------------------------------------------------
  // Submitting a handler's requests
  // ------------------------------------------------------------------

  lemma {:induction false} LaunchOk(r: Ring, fl: map<nat, Tickets>, hand: Option<nat>, connections: nat, id: nat, qs: seq<Request>)
    returns (fl': map<nat, Tickets>)
    requires RingOk(r, fl, hand, 4 * connections) && id in fl && |fl| <= connections
    requires Placeable(LanesOf(r, fl[id]), qs)
    ensures Launch(r, id, qs).Some? && fl'.Keys == fl.Keys
    ensures var r' := Launch(r, id, qs).value;
            && RingOk(r', fl', hand, 4 * connections)
            && LanesOf(r', fl'[id]) == PlaceAll(LanesOf(r, fl[id]), qs)
            && (forall j | j in fl && j != id :: fl'[j] == fl[j] && LanesOf(r', fl'[j]) == LanesOf(r, fl[j]))
    decreases |qs|
  {
    if qs == [] {
      fl' := fl;
    } else {
      var lane := LaneOf(qs[0].kind);
      FreeEvent(r, fl, hand, connections);
      Launch1Ok(r, fl, hand, 4 * connections, id, qs[0]);
      var e, r1 := r.free[0], Launch1(r, id, qs[0]).value;
      var fl1 := fl[id := SetTicket(fl[id], lane, Some(e))];
      Launch1Lanes(r, fl, hand, 4 * connections, id, qs[0]);
      assert fl1.Keys == fl.Keys;
      fl' := LaunchOk(r1, fl1, hand, connections, id, qs[1..]);
    }
  }

  lemma Launch1Lanes(r: Ring, fl: map<nat, Tickets>, hand: Option<nat>, total: nat, id: nat, q: Request)
    requires RingOk(r, fl, hand, total) && r.free != [] && id in fl
    requires TicketAt(fl[id], LaneOf(q.kind)).None?
    ensures Launch1(r, id, q).Some?
    ensures var r' := Launch1(r, id, q).value;
            && LanesOf(r', SetTicket(fl[id], LaneOf(q.kind), Some(r.free[0]))) == Place(LanesOf(r, fl[id]), q)
            && forall j | j in fl && j != id :: LanesOf(r', fl[j]) == LanesOf(r, fl[j])
  {
    assert r.free[0] in r.free;
  }

  lemma TakeLanes(r: Ring, fl: map<nat, Tickets>, total: nat, e: nat)
    requires RingOk(r, fl, None, total) && e in r.pending && r.events[e].client in fl
    ensures var id, lane := r.events[e].client, LaneOf(r.pending[e].kind);
            && At(LanesOf(r, fl[id]), lane) == Some(r.pending[e])
            && LanesOf(Taken(r, e), SetTicket(fl[id], lane, None)) == Clear(LanesOf(r, fl[id]), lane)
            && forall j | j in fl && j != id :: LanesOf(Taken(r, e), fl[j]) == LanesOf(r, fl[j])
  {
  }

  lemma AllTaken(r: Ring, fl: map<nat, Tickets>, total: nat, e: nat) returns (fl1: map<nat, Tickets>)
    requires RingOk(r, fl, None, total) && e in r.pending && e < |r.events| && r.events[e].client in fl
    ensures RingOk(Taken(r, e), fl1, Some(e), total) && fl1.Keys == fl.Keys && |fl1| == |fl|
    ensures var id, r' := r.events[e].client, Taken(r, e);
            && LanesOf(r', fl1[id]) == Clear(LanesOf(r, fl[id]), LaneOf(r.pending[e].kind))
            && forall j | j in fl && j != id :: LanesOf(r', fl1[j]) == LanesOf(r, fl[j])
  {
    TakeOk(r, fl, total, e);
    TakeLanes(r, fl, total, e);
    var id := r.events[e].client;
    fl1 := fl[id := SetTicket(fl[id], LaneOf(r.pending[e].kind), None)];
    assert fl1.Keys == fl.Keys;
    assert |fl1.Keys| == |fl.Keys|;
  }

  lemma TakenAndLaunched(r: Ring, fl: map<nat, Tickets>, connections: nat, e: nat, qs: seq<Request>)
    returns (fl': map<nat, Tickets>)
    requires RingOk(r, fl, None, 4 * connections) && |fl| <= connections
    requires e in r.pending && e < |r.events| && r.events[e].client in fl
    requires Placeable(Clear(LanesOf(r, fl[r.events[e].client]), LaneOf(r.pending[e].kind)), qs)
    ensures Launch(Taken(r, e), r.events[e].client, qs).Some? && fl'.Keys == fl.Keys
    ensures var id, r' := r.events[e].client, Launch(Taken(r, e), r.events[e].client, qs).value;
            && RingOk(r', fl', Some(e), 4 * connections)
            && LanesOf(r', fl'[id]) == PlaceAll(Clear(LanesOf(r, fl[id]), LaneOf(r.pending[e].kind)), qs)
            && (forall j | j in fl && j != id :: LanesOf(r', fl'[j]) == LanesOf(r, fl[j]))
  {
    var fl1 := AllTaken(r, fl, 4 * connections, e);
    fl' := LaunchOk(Taken(r, e), fl1, Some(e), connections, r.events[e].client, qs);
  }

  // A whole completion, on the ring: event e of session id comes back, the
  // handler submits qs, the event is returned to the pool.
  lemma {:induction false} CompletionOnRing(r: Ring, fl: map<nat, Tickets>, connections: nat, e: nat, qs: seq<Request>)
    returns (fl': map<nat, Tickets>)
    requires RingOk(r, fl, None, 4 * connections) && |fl| <= connections
    requires e in r.pending && e < |r.events| && r.events[e].client in fl
    requires Placeable(Clear(LanesOf(r, fl[r.events[e].client]), LaneOf(r.pending[e].kind)), qs)
    ensures Launch(Taken(r, e), r.events[e].client, qs).Some? && fl'.Keys == fl.Keys
    ensures var id, r' := r.events[e].client, Returned(Launch(Taken(r, e), r.events[e].client, qs).value, e);
            && RingOk(r', fl', None, 4 * connections)
            && LanesOf(r', fl'[id]) == PlaceAll(Clear(LanesOf(r, fl[id]), LaneOf(r.pending[e].kind)), qs)
            && (forall j | j in fl && j != id :: LanesOf(r', fl'[j]) == LanesOf(r, fl[j]))
  {
    fl' := TakenAndLaunched(r, fl, connections, e, qs);
    var id := r.events[e].client;
    ReturnOk(Launch(Taken(r, e), id, qs).value, fl', 4 * connections, e);
  }

  // The last completion of a session: its events are all back.
  lemma {:induction false} LastOnRing(r: Ring, fl: map<nat, Tickets>, total: nat, e: nat) returns (fl': map<nat, Tickets>)
    requires RingOk(r, fl, None, total)
    requires e in r.pending && e < |r.events| && r.events[e].client in fl
    requires Clear(LanesOf(r, fl[r.events[e].client]), LaneOf(r.pending[e].kind)) == IDLE
    ensures var id, r' := r.events[e].client, Returned(Taken(r, e), e);
            && fl'.Keys == fl.Keys - {id} && RingOk(r', fl', None, total)
            && (forall j | j in fl' :: LanesOf(r', fl'[j]) == LanesOf(r, fl[j]))
  {
    TakeOk(r, fl, total, e);
    TakeLanes(r, fl, total, e);
    var id, lane := r.events[e].client, LaneOf(r.pending[e].kind);
    var fl1 := fl[id := SetTicket(fl[id], lane, None)];
    assert TicketOk(Taken(r, e), id, fl1[id].up, Upward) && TicketOk(Taken(r, e), id, fl1[id].down, Downward);
    assert fl1[id] == NO_TICKETS;
    ForgetOk(Taken(r, e), fl1, Some(e), total, id);
    fl' := fl1 - {id};
    ReturnOk(Taken(r, e), fl', total, e);
  }

  // A new session's first request.
  lemma {:induction false} AdmissionOnRing(r: Ring, fl: map<nat, Tickets>, connections: nat, id: nat, qs: seq<Request>)
    returns (fl': map<nat, Tickets>)
    requires RingOk(r, fl, None, 4 * connections) && |fl| < connections && id !in fl && Placeable(IDLE, qs)
    ensures Launch(r, id, qs).Some? && fl'.Keys == fl.Keys + {id}
    ensures var r' := Launch(r, id, qs).value;
            && RingOk(r', fl', None, 4 * connections)
            && LanesOf(r', fl'[id]) == PlaceAll(IDLE, qs)
            && (forall j | j in fl :: LanesOf(r', fl'[j]) == LanesOf(r, fl[j]))
  {
    AdmitOk(r, fl, None, 4 * connections, id);
    var fl1 := fl[id := NO_TICKETS];
    assert fl1.Keys == fl.Keys + {id};
    assert |fl1| == |fl| + 1 by { assert |fl1.Keys| == |fl.Keys| + 1; }
    fl' := LaunchOk(r, fl1, None, connections, id, qs);
  }
}
