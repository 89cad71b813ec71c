/**
 The relay in every reachable world; and exactly when its two shortcuts, the
 write that is resumed from the start of the buffer and the client read that may
 fill the whole slot, do no harm.
 */
module RelayGuarantees {
  import opened Socks5
  import opened SessionSpec
  import opened OneShot
  import opened Wire
  import opened HandshakeProof
  import opened SessionProof
  import opened RelayProof
  import opened ServerSpec
  import opened RingProof
  import opened Safety
  import opened Guarantees
  import HandshakeGuarantees

  // The bytes a pending relay write has still to put on the wire.
  function Rest(c: Conn, q: Request): seq<byte>
    requires q.start + q.offset + q.len <= |c.slot|
  {
    c.slot[q.start + q.offset..q.start + q.offset + q.len]
  }

  // What one end has sent is what the other end has received, in order, without
  // loss or repetition, up to the chunk that is being written.
  ghost predicate Delivered(w: World, id: nat, s: Stream, read: EventType, write: EventType)
    requires id in w.sessions
  {
    && s.sent <= s.received
    && forall e | e in EventsOf(w, id) ::
         var q := w.ring.pending[e];
         && (q.kind == read ==> s.sent == s.received)
         && (q.kind == write ==> q.start + q.offset + q.len <= |w.sessions[id].slot|
                                 && s.sent + Rest(w.sessions[id], q) == s.received)
  }

  // Nothing has happened to this direction that could have changed its bytes: no
  // write of it ended part-way (or the offset of a request is its position in
  // the buffer), and no bytes of the other direction landed on unsent ones.
  predicate Undisturbed(cfg: Config, s: Stream) { (cfg.offsetMoves || !s.partial) && !s.mixed }

  lemma FlowsOf(cfg: Config, c: Conn, o: Wire, f: Lanes)
    requires SessionOk(cfg, c, o, f) && c.state.ProxyingRequests?
    ensures Flow(cfg, o.up, f.up, c.slot) && Flow(cfg, o.down, f.down, c.slot)
    ensures f.up.Some? ==> f.up.value.kind.ClientRead? || f.up.value.kind.DestinationWrite?
    ensures f.down.Some? ==> f.down.value.kind.DestinationRead? || f.down.value.kind.ClientWrite?
    ensures cfg.root ==> !o.up.mixed && !o.down.mixed
  {
  }

  lemma FlowsInReach(w: World, id: nat) returns (f: Lanes)
    requires Reachable(w) && id in w.sessions && w.sessions[id].state.ProxyingRequests?
    ensures InFlight(w, id, f)
    ensures Flow(w.cfg, WireOf(w, id).up, f.up, w.sessions[id].slot) && Flow(w.cfg, WireOf(w, id).down, f.down, w.sessions[id].slot)
    ensures f.up.Some? ==> f.up.value.kind.ClientRead? || f.up.value.kind.DestinationWrite?
    ensures f.down.Some? ==> f.down.value.kind.DestinationRead? || f.down.value.kind.ClientWrite?
  {
    f := OneSession(w, id);
    FlowsOf(w.cfg, w.sessions[id], WireOf(w, id), f);
  }

  // Relay fidelity, whatever the interleaving of the two directions, for each
  // direction by itself.
  lemma {:induction false} RelayIsFaithful(w: World, id: nat)
    requires Reachable(w) && id in w.sessions && w.sessions[id].state.ProxyingRequests?
    ensures Undisturbed(w.cfg, WireOf(w, id).up) ==> Delivered(w, id, WireOf(w, id).up, ClientRead, DestinationWrite)
    ensures Undisturbed(w.cfg, WireOf(w, id).down) ==> Delivered(w, id, WireOf(w, id).down, DestinationRead, ClientWrite)
  {
    var o := WireOf(w, id);
    var f := FlowsInReach(w, id);
    if Undisturbed(w.cfg, o.up) {
      FaithfulIsDelivered(w, id, o.up, f, Upward, ClientRead, DestinationWrite);
    }
    if Undisturbed(w.cfg, o.down) {
      FaithfulIsDelivered(w, id, o.down, f, Downward, DestinationRead, ClientWrite);
    }
  }

  lemma FaithfulIsDelivered(w: World, id: nat, s: Stream, f: Lanes, lane: Lane, read: EventType, write: EventType)
    requires id in w.sessions && InFlight(w, id, f) && Faithful(s, At(f, lane), w.sessions[id].slot)
    requires LaneOf(read) == LaneOf(write) == lane && Reads(read) && Writes(write)
    requires At(f, lane).Some? ==> At(f, lane).value.kind == read || At(f, lane).value.kind == write
    ensures Delivered(w, id, s, read, write)
  {
  }

  // Even a disturbed direction passes on as many bytes as it reads.
  lemma {:induction false} BytesAreCounted(w: World, id: nat, e: nat)
    requires Reachable(w) && id in w.sessions && w.sessions[id].state.ProxyingRequests? && e in EventsOf(w, id)
    ensures var q := w.ring.pending[e];
            var s := if LaneOf(q.kind).Upward? then WireOf(w, id).up else WireOf(w, id).down;
            |s.received| == |s.sent| + if Writes(q.kind) then q.len else 0
  {
    var f := FlowsInReach(w, id);
  }

  // With registered buffers the directions never get into each other's way.
  lemma {:induction false} RootNeverMixes(w: World, id: nat)
    requires Reachable(w) && w.cfg.root && id in w.sessions
    ensures !WireOf(w, id).up.mixed && !WireOf(w, id).down.mixed
  {
    var f := OneSession(w, id);
    if w.sessions[id].state.ProxyingRequests? {
      FlowsOf(w.cfg, w.sessions[id], WireOf(w, id), f);
    }
  }

  lemma PendingInSlot(w: World, id: nat, e: nat)
    requires Reachable(w) && id in w.sessions && e in EventsOf(w, id)
    ensures var q := w.ring.pending[e]; q.start + q.offset + q.len <= BUFFER_SIZE == |w.sessions[id].slot|
  {
    NoDanglingCompletion(w, e);
    SlotIsWhole(w, id);
  }

  lemma SlotIsWhole(w: World, id: nat)
    requires Reachable(w) && id in w.sessions
    ensures |w.sessions[id].slot| == BUFFER_SIZE
  {
    var f := OneSession(w, id);
  }

  // The bytes the client sent right behind its request, and that were read with
  // it, are not forwarded: what has been or is being passed on is what was read
  // after the switch, which is all that the client sent after its request if and
  // only if nothing was left over then.
  lemma {:induction false} EarlyBytesAreNotForwarded(w: World, id: nat, e: nat) returns (m: Message, early: seq<byte>)
    requires Reachable(w) && id in w.sessions && w.sessions[id].state.ProxyingRequests?
    requires Undisturbed(w.cfg, WireOf(w, id).up)
    requires e in EventsOf(w, id) && LaneOf(w.ring.pending[e].kind).Upward?
    ensures ValidMessage(m) && WireOf(w, id).fromClient == EncodeMessage(m) + early
    ensures var c, s, q := w.sessions[id], WireOf(w, id).up, w.ring.pending[e];
            && q.start + q.offset + q.len <= |c.slot|
            && var forwarded := s.sent + if Writes(q.kind) then Rest(c, q) else [];
               forwarded == s.received && (forwarded == early + s.received <==> early == [])
  {
    var o := WireOf(w, id);
    m := HandshakeGuarantees.ProxiedClient(w, id);
    early := w.sessions[id].readBuffer;
    var f := FlowsInReach(w, id);
    PendingInSlot(w, id, e);
    RelayIsFaithful(w, id);
    assert |early + o.up.received| == |early| + |o.up.received|;
    assert early == [] ==> early + o.up.received == o.up.received;
  }

  // ------------------------------------------------------------------
  // How a relay starts
  // ------------------------------------------------------------------

  // The success reply is all out: both directions start, the read from the
  // destination first. The client is read from if nothing of it is left over;
  // otherwise what is submitted is a write to the destination of no bytes.
  lemma {:induction false} RelayStarts(w: World, e: nat, n: nat, env: Env)
    requires Reachable(w) && Enabled(w, Op(e, Sent(n), env)) && e < |w.ring.events|
    requires var id := w.ring.events[e].client;
             && id in w.sessions && w.sessions[id].state.ConnectingToDestination? && !w.sessions[id].failed
             && w.ring.pending[e].kind.ClientWrite? && n == w.ring.pending[e].len
    ensures |w.ring.free| >= 2
    ensures var id, s, u, d := w.ring.events[e].client, Step(w, Op(e, Sent(n), env)), w.ring.free[1], w.ring.free[0];
            && s.Running? && id in s.w.sessions && s.w.sessions[id].state.ProxyingRequests?
            && s.w.sessions[id].readBuffer == w.sessions[id].readBuffer && EventsOf(s.w, id) == {u, d}
            && u in s.w.ring.pending && d in s.w.ring.pending && s.w.ring.pending[d].kind.DestinationRead?
            && if w.sessions[id].readBuffer == [] then s.w.ring.pending[u].kind.ClientRead?
               else s.w.ring.pending[u].kind.DestinationWrite? && s.w.ring.pending[u].len == s.w.ring.pending[u].offset == 0
  {
    var c', down, up := RequestedInReach(w, e, env);
    var s := StartIsSurvived(w, e, n, env, c', [down, up]);
    TwoLaunched(w.ring, e, w.ring.events[e].client, down, up);
    StepIsReachable(w, Op(e, Sent(n), env));
    TwoEvents(s, w.ring.events[e].client, w.ring.free[1], w.ring.free[0]);
  }

  lemma TwoEvents(w: World, id: nat, u: nat, d: nat)
    requires Reachable(w) && id in w.sessions && w.sessions[id].state.ProxyingRequests? && w.sessions[id].awaiting == 2
    requires u != d && u in EventsOf(w, id) && d in EventsOf(w, id)
    ensures EventsOf(w, id) == {u, d}
  {
    CounterAccounting(w, id);
    TwoElements(EventsOf(w, id), u, d);
  }

  lemma RequestedInReach(w: World, e: nat, env: Env) returns (c': Conn, down: Request, up: Request)
    requires Reachable(w) && e in w.ring.pending && e < |w.ring.events|
    requires var id := w.ring.events[e].client;
             && id in w.sessions && w.sessions[id].state.ConnectingToDestination? && !w.sessions[id].failed
             && w.ring.pending[e].kind.ClientWrite?
    ensures var c, q := w.sessions[w.ring.events[e].client], w.ring.pending[e];
            && Settle(w.cfg, c, q, q.kind, Sent(q.len), env) == Keep(c', [down, up])
            && c'.state.ProxyingRequests? && c'.readBuffer == c.readBuffer && c'.awaiting == 2
            && down.kind.DestinationRead?
            && if c.readBuffer == [] then up.kind.ClientRead? else up.kind.DestinationWrite? && up.len == up.offset == 0
  {
    var id := w.ring.events[e].client;
    PendingClient(w, e);
    var f := OneSession(w, id);
    c', down, up := RelayRequested(w.cfg, w.sessions[id], ViewOf(WireOf(w, id)), WireOf(w, id).toClient, w.ring.pending[e], env);
  }

  lemma RelayRequested(cfg: Config, c: Conn, v: View, toClient: seq<byte>, q: Request, env: Env)
    returns (c': Conn, down: Request, up: Request)
    requires Follows(cfg, c, v, toClient, Some(q)) && c.state.ConnectingToDestination? && !c.failed && q.kind.ClientWrite?
    ensures Settle(cfg, c, q, q.kind, Sent(q.len), env) == Keep(c', [down, up])
    ensures c'.state.ProxyingRequests? && c'.readBuffer == c.readBuffer && c'.awaiting == 2
    ensures down.kind.DestinationRead?
    ensures if c.readBuffer == [] then up.kind.ClientRead? else up.kind.DestinationWrite? && up.len == up.offset == 0
  {
    WriteSettles(cfg, c, q, q.len, env);
    var c1 := c.(awaiting := 0, writeBuffer := [], state := ProxyingRequests);
    down := DestinationReadRequest(cfg, c1);
    up := if c1.readBuffer == [] then ClientReadRequest(cfg, c1) else DestinationWriteRequest(cfg, c1, 0, 0);
    c' := StartProxying(cfg, c1, env).conn;
  }

  // The completion leads to a world in which the requests are launched.
  lemma StartIsSurvived(w: World, e: nat, n: nat, env: Env, c': Conn, qs: seq<Request>) returns (s: World)
    requires Reachable(w) && Enabled(w, Op(e, Sent(n), env)) && e < |w.ring.events| && w.ring.events[e].client in w.sessions
    requires Settle(w.cfg, w.sessions[w.ring.events[e].client], w.ring.pending[e], w.ring.pending[e].kind, Sent(n), env) == Keep(c', qs)
    ensures Step(w, Op(e, Sent(n), env)) == Running(s)
    ensures var id := w.ring.events[e].client;
            && id in s.sessions && s.sessions[id] == c'
            && Launch(Taken(w.ring, e), id, qs).Some? && s.ring == Returned(Launch(Taken(w.ring, e), id, qs).value, e)
            && PoolOk(w.ring, None, 4 * w.cfg.connections)
  {
    ReachableIsSane(w);
    var fl :| WorldOk(w, fl);
    var out := LocalStep(w, fl, e, Sent(n), env);
    var fl';
    s, fl' := OpKeeps(w, fl, e, Sent(n), env, c', qs);
    CompletionLaunched(w, e, n, env, c', qs, s);
  }

  lemma CompletionLaunched(w: World, e: nat, n: nat, env: Env, c': Conn, qs: seq<Request>, s: World)
    requires Enabled(w, Op(e, Sent(n), env)) && e < |w.ring.events| && w.ring.events[e].client in w.sessions
    requires w.ring.events[e].kind == w.ring.pending[e].kind && Complete(w, e, Sent(n), env) == Running(s)
    requires Settle(w.cfg, w.sessions[w.ring.events[e].client], w.ring.pending[e], w.ring.pending[e].kind, Sent(n), env) == Keep(c', qs)
    ensures var id := w.ring.events[e].client;
            && id in s.sessions && s.sessions[id] == c'
            && Launch(Taken(w.ring, e), id, qs).Some? && s.ring == Returned(Launch(Taken(w.ring, e), id, qs).value, e)
  {
  }

  lemma TwoLaunched(r: Ring, e: nat, id: nat, a: Request, b: Request)
    requires PoolOk(r, None, |r.events|) && Launch(Taken(r, e), id, [a, b]).Some?
    ensures |r.free| >= 2 && r.free[0] != r.free[1]
    ensures var s := Returned(Launch(Taken(r, e), id, [a, b]).value, e);
            && s.pending == (r.pending - {e})[r.free[0] := a][r.free[1] := b] && |s.events| == |r.events|
            && r.free[0] < |s.events| && s.events[r.free[0]].client == id
            && r.free[1] < |s.events| && s.events[r.free[1]].client == id
  {
    var t := Taken(r, e);
    assert [a, b][1..] == [b] && [b][1..] == [];
    assert Launch(t, id, [a, b]) == Launch(Launch1(t, id, a).value, id, [b]);
    assert r.free[0] in r.free && r.free[1..] != [];
    assert r.free[1..][0] == r.free[1];
  }

  // ------------------------------------------------------------------
  // Short writes
  // ------------------------------------------------------------------

  // A relay write in either direction, as the session accounts for it.
  ghost predicate RelayWrite(cfg: Config, c: Conn, q: Request) {
    && Busy(c)
    && ((&& c.toDestination.offset <= c.toDestination.size <= BUFFER_SIZE
         && q == DestinationWriteRequest(cfg, c, c.toDestination.size - c.toDestination.offset, c.toDestination.offset))
     || (&& c.toClient.offset <= c.toClient.size <= HALF_BUFFER_SIZE
         && q == ClientWriteRequest(cfg, c, c.toClient.size - c.toClient.offset, c.toClient.offset)))
  }

  // The session and its request after a piece of n bytes.
  function Resumed(c: Conn, q: Request, n: nat): (Conn, Request)
    requires n <= q.len
  {
    (if q.kind.DestinationWrite? then c.(toDestination := c.toDestination.(offset := q.offset + n))
     else c.(toClient := c.toClient.(offset := q.offset + n)),
     q.(offset := q.offset + n, len := q.len - n))
  }

  lemma ResumedIsWrite(cfg: Config, c: Conn, q: Request, n: nat)
    requires RelayWrite(cfg, c, q) && n <= q.len
    ensures q.start + q.offset + q.len <= |c.slot|
    ensures var (c', q') := Resumed(c, q, n); n < q.len ==> RelayWrite(cfg, c', q') && c'.slot == c.slot
  {
  }

  // Offsets and sizes tile the chunk: a piece of n bytes is followed by a write
  // of the remaining ones, the last piece by one read of the same lane.
  lemma {:induction false} PiecesTile(cfg: Config, c: Conn, q: Request, n: nat)
    requires RelayWrite(cfg, c, q) && n <= q.len
    ensures q.start + q.offset + q.len <= |c.slot|
    ensures var out := Settle(cfg, c, q, q.kind, Sent(n), QUIET);
            if n == q.len then
              out.Keep? && out.conn == c && |out.requests| == 1
              && Reads(out.requests[0].kind) && LaneOf(out.requests[0].kind) == LaneOf(q.kind)
            else
              out == Keep(Resumed(c, q, n).0, [Resumed(c, q, n).1])
  {
    if q.kind.DestinationWrite? {
      UpWriteSettles(cfg, c, q, n, QUIET);
    } else {
      DownWriteSettles(cfg, c, q, n, QUIET);
    }
  }

  // The requests that the handler submits while a relay write completes in the
  // given pieces.
  ghost function Submitted(cfg: Config, c: Conn, q: Request, pieces: seq<nat>): seq<Request>
    requires RelayWrite(cfg, c, q) && Pieces(pieces, q.len)
    decreases |pieces|
  {
    if pieces == [] then []
    else
      ResumedIsWrite(cfg, c, q, pieces[0]);
      PiecesTile(cfg, c, q, pieces[0]);
      var out := Settle(cfg, c, q, q.kind, Sent(pieces[0]), QUIET);
      out.requests + if pieces[0] == q.len then [] else Submitted(cfg, out.conn, out.requests[0], pieces[1..])
  }

  function Sum(pieces: seq<nat>): nat {
    if pieces == [] then 0 else pieces[0] + Sum(pieces[1..])
  }

  // Over any sequence of pieces: each request but the last asks for what the
  // pieces before it have left, from where they end; the last is one read.
  lemma {:induction false} SequenceTiles(cfg: Config, c: Conn, q: Request, pieces: seq<nat>, k: nat)
    requires RelayWrite(cfg, c, q) && Pieces(pieces, q.len) && k < |pieces|
    ensures |Submitted(cfg, c, q, pieces)| == |pieces| && Sum(pieces[..k + 1]) <= q.len
    ensures var next, done := Submitted(cfg, c, q, pieces)[k], Sum(pieces[..k + 1]);
            if k < |pieces| - 1 then next == q.(offset := q.offset + done, len := q.len - done) && next.len > 0
            else Reads(next.kind) && LaneOf(next.kind) == LaneOf(q.kind)
    decreases |pieces|
  {
    SumOfPrefix(pieces, k);
    if pieces[0] == q.len {
      SubmittedLast(cfg, c, q, pieces);
    } else {
      var (c', q') := Resumed(c, q, pieces[0]);
      SubmittedFirst(cfg, c, q, pieces);
      if k == 0 {
        OnePieceEach(cfg, c', q', pieces[1..]);
      } else {
        SequenceTiles(cfg, c', q', pieces[1..], k - 1);
        Onward(q, pieces[0], Sum(pieces[1..][..k]));
      }
    }
  }

  lemma OnePieceEach(cfg: Config, c: Conn, q: Request, pieces: seq<nat>)
    requires RelayWrite(cfg, c, q) && Pieces(pieces, q.len) && pieces != []
    ensures |Submitted(cfg, c, q, pieces)| == |pieces|
    decreases |pieces|
  {
    if pieces[0] == q.len {
      SubmittedLast(cfg, c, q, pieces);
    } else {
      SubmittedFirst(cfg, c, q, pieces);
      var (c', q') := Resumed(c, q, pieces[0]);
      OnePieceEach(cfg, c', q', pieces[1..]);
    }
  }

  lemma Onward(q: Request, n: nat, done: nat)
    requires n + done <= q.len
    ensures var q' := q.(offset := q.offset + n, len := q.len - n);
            q'.(offset := q'.offset + done, len := q'.len - done) == q.(offset := q.offset + (n + done), len := q.len - (n + done))
  {
  }

  lemma SumOfPrefix(pieces: seq<nat>, k: nat)
    requires k < |pieces|
    ensures Sum(pieces[..k + 1]) == pieces[0] + Sum(pieces[1..][..k])
  {
    assert pieces[..k + 1][0] == pieces[0] && pieces[..k + 1][1..] == pieces[1..][..k];
  }

  lemma SubmittedLast(cfg: Config, c: Conn, q: Request, pieces: seq<nat>)
    requires RelayWrite(cfg, c, q) && Pieces(pieces, q.len) && pieces != [] && pieces[0] == q.len
    ensures |pieces| == 1 && |Submitted(cfg, c, q, pieces)| == 1
    ensures var read := Submitted(cfg, c, q, pieces)[0]; Reads(read.kind) && LaneOf(read.kind) == LaneOf(q.kind)
  {
    ResumedIsWrite(cfg, c, q, pieces[0]);
    PiecesTile(cfg, c, q, pieces[0]);
    assert pieces[1..] == [];
  }

  lemma SubmittedFirst(cfg: Config, c: Conn, q: Request, pieces: seq<nat>)
    requires RelayWrite(cfg, c, q) && Pieces(pieces, q.len) && pieces != [] && pieces[0] < q.len
    ensures var (c', q') := Resumed(c, q, pieces[0]);
            && RelayWrite(cfg, c', q') && Pieces(pieces[1..], q'.len) && pieces[1..] != []
            && Submitted(cfg, c, q, pieces) == [q'] + Submitted(cfg, c', q', pieces[1..])
  {
    ResumedIsWrite(cfg, c, q, pieces[0]);
    PiecesTile(cfg, c, q, pieces[0]);
  }

  // Positive pieces that add up to len.
  predicate Pieces(pieces: seq<nat>, len: nat)
    decreases |pieces|
  {
    if pieces == [] then len == 0 else 0 < pieces[0] <= len && Pieces(pieces[1..], len - pieces[0])
  }

  // The bytes on the wire when a relay write completes in the given pieces, each
  // but the last being followed by the request that the handler then submits.
  ghost function SentInPieces(cfg: Config, c: Conn, q: Request, pieces: seq<nat>): seq<byte>
    requires RelayWrite(cfg, c, q) && Pieces(pieces, q.len)
    decreases |pieces|
  {
    if pieces == [] then []
    else
      ResumedIsWrite(cfg, c, q, pieces[0]);
      PiecesTile(cfg, c, q, pieces[0]);
      var out := Settle(cfg, c, q, q.kind, Sent(pieces[0]), QUIET);
      OnWire(cfg, c, q, pieces[0])
      + if pieces[0] == q.len then [] else SentInPieces(cfg, out.conn, out.requests[0], pieces[1..])
  }

  lemma RestSplits(cfg: Config, c: Conn, q: Request, n: nat)
    requires cfg.offsetMoves && n <= q.len && q.start + q.offset + q.len <= |c.slot|
    ensures var (c', q') := Resumed(c, q, n); Rest(c, q) == OnWire(cfg, c, q, n) + Rest(c', q')
  {
  }

  // Read as a position in the buffer, the offset makes every resumption right.
  lemma {:induction false} OffsetReadingIsFaithful(cfg: Config, c: Conn, q: Request, pieces: seq<nat>)
    requires cfg.offsetMoves && RelayWrite(cfg, c, q) && Pieces(pieces, q.len)
    ensures q.start + q.offset + q.len <= |c.slot|
    ensures SentInPieces(cfg, c, q, pieces) == Rest(c, q)
    decreases |pieces|
  {
    ResumedIsWrite(cfg, c, q, 0);
    if pieces == [] {
    } else if pieces[0] == q.len {
      assert SentInPieces(cfg, c, q, pieces) == OnWire(cfg, c, q, q.len);
    } else {
      var (c', q') := Resumed(c, q, pieces[0]);
      FirstPiece(cfg, c, q, pieces);
      OffsetReadingIsFaithful(cfg, c', q', pieces[1..]);
      RestSplits(cfg, c, q, pieces[0]);
    }
  }

  lemma FirstPiece(cfg: Config, c: Conn, q: Request, pieces: seq<nat>)
    requires RelayWrite(cfg, c, q) && Pieces(pieces, q.len) && pieces != [] && pieces[0] < q.len
    ensures var (c', q') := Resumed(c, q, pieces[0]);
            && RelayWrite(cfg, c', q') && Pieces(pieces[1..], q'.len)
            && SentInPieces(cfg, c, q, pieces) == OnWire(cfg, c, q, pieces[0]) + SentInPieces(cfg, c', q', pieces[1..])
  {
    ResumedIsWrite(cfg, c, q, pieces[0]);
    PiecesTile(cfg, c, q, pieces[0]);
  }

  // A piece starts over at the front of the buffer.
  lemma FirstByte(cfg: Config, c: Conn, q: Request, pieces: seq<nat>)
    requires !cfg.offsetMoves && RelayWrite(cfg, c, q) && Pieces(pieces, q.len) && pieces != []
    ensures var s := SentInPieces(cfg, c, q, pieces); |s| > 0 && s[0] == c.slot[q.start]
  {
    ResumedIsWrite(cfg, c, q, pieces[0]);
    assert OnWire(cfg, c, q, pieces[0])[0] == c.slot[q.start];
  }

  lemma SecondPieceStartsOver(cfg: Config, c: Conn, q: Request, pieces: seq<nat>)
    requires !cfg.offsetMoves && RelayWrite(cfg, c, q) && Pieces(pieces, q.len) && pieces != [] && pieces[0] < q.len
    ensures var s := SentInPieces(cfg, c, q, pieces); |s| > pieces[0] && s[pieces[0]] == c.slot[q.start]
  {
    FirstPiece(cfg, c, q, pieces);
    var (c', q') := Resumed(c, q, pieces[0]);
    FirstByte(cfg, c', q', pieces[1..]);
  }

  // A slot whose byte at position at differs from all others.
  function Marked(at: nat): (s: seq<byte>)
    requires at < BUFFER_SIZE
    ensures |s| == BUFFER_SIZE
  {
    seq(BUFFER_SIZE, i => if i == at then 1 else 0)
  }

  lemma OtherSlot(cfg: Config, c: Conn, q: Request, slot: seq<byte>)
    requires RelayWrite(cfg, c, q) && |slot| == BUFFER_SIZE
    ensures RelayWrite(cfg, c.(slot := slot), q)
  {
  }

  // As the code stands: a chunk is sent as it is, whatever its bytes, if and
  // only if its first completion is for all of it.
  lemma {:induction false} FaithfulIffWhole(cfg: Config, c: Conn, q: Request, pieces: seq<nat>)
    requires !cfg.offsetMoves && RelayWrite(cfg, c, q) && q.offset == 0 && q.len > 0 && Pieces(pieces, q.len)
    ensures (forall slot: seq<byte> | |slot| == BUFFER_SIZE ::
               RelayWrite(cfg, c.(slot := slot), q) &&
               SentInPieces(cfg, c.(slot := slot), q, pieces) == slot[q.start..q.start + q.len])
            <==> pieces[0] == q.len
  {
    if pieces[0] == q.len {
      forall slot: seq<byte> | |slot| == BUFFER_SIZE
        ensures RelayWrite(cfg, c.(slot := slot), q)
        ensures SentInPieces(cfg, c.(slot := slot), q, pieces) == slot[q.start..q.start + q.len]
      {
        OtherSlot(cfg, c, q, slot);
        WholeIsSent(cfg, c.(slot := slot), q, pieces);
      }
    } else {
      var slot := Marked(q.start);
      OtherSlot(cfg, c, q, slot);
      PiecesAreNotSent(cfg, c.(slot := slot), q, pieces);
    }
  }

  lemma WholeIsSent(cfg: Config, c: Conn, q: Request, pieces: seq<nat>)
    requires !cfg.offsetMoves && RelayWrite(cfg, c, q) && q.offset == 0 && q.len > 0 && Pieces(pieces, q.len)
    requires pieces[0] == q.len
    ensures SentInPieces(cfg, c, q, pieces) == c.slot[q.start..q.start + q.len]
  {
    ResumedIsWrite(cfg, c, q, pieces[0]);
    assert SentInPieces(cfg, c, q, pieces) == OnWire(cfg, c, q, pieces[0]);
  }

  lemma PiecesAreNotSent(cfg: Config, c: Conn, q: Request, pieces: seq<nat>)
    requires !cfg.offsetMoves && RelayWrite(cfg, c, q) && q.offset == 0 && q.len > 0 && Pieces(pieces, q.len)
    requires pieces[0] < q.len && c.slot == Marked(q.start)
    ensures SentInPieces(cfg, c, q, pieces) != c.slot[q.start..q.start + q.len]
  {
    SecondPieceStartsOver(cfg, c, q, pieces);
    var at := pieces[0];
    assert SentInPieces(cfg, c, q, pieces)[at] == 1 && c.slot[q.start..q.start + q.len][at] == c.slot[q.start + at] == 0;
  }

  // The smallest case: of a chunk 1, 2 written one byte at a time the
  // destination gets 1, 1.
  lemma {:induction false} ShortWriteRepeats(cfg: Config, c: Conn)
    requires !cfg.offsetMoves && Busy(c) && c.slot[..2] == [1, 2]
    requires c.toDestination == Chunk(2, 0)
    ensures var q := DestinationWriteRequest(cfg, c, 2, 0);
            Pieces([1, 1], 2) && SentInPieces(cfg, c, q, [1, 1]) == [1, 1]
  {
    var q := DestinationWriteRequest(cfg, c, 2, 0);
    assert [1, 1][1..] == [1] && [1][1..] == [];
    ResumedIsWrite(cfg, c, q, 1);
    var (c', q') := Resumed(c, q, 1);
    ResumedIsWrite(cfg, c', q', 1);
    assert c.slot[0] == c.slot[..2][0];
    assert OnWire(cfg, c, q, 1) == [1] && OnWire(cfg, c', q', 1) == [1];
  }

  // ------------------------------------------------------------------
  // One slot for both directions
  // ------------------------------------------------------------------

  // Bytes that overlap can differ.
  lemma Overlapping(from: nat, len: nat, at: nat, n: nat) returns (slot: seq<byte>, d: seq<byte>)
    requires from + len <= BUFFER_SIZE && at + n <= BUFFER_SIZE && at < from + len && from < at + n && len > 0 && n > 0
    ensures |slot| == BUFFER_SIZE && |d| == n && Splice(slot, at, d)[from..from + len] != slot[from..from + len]
  {
    var p := if from < at then at else from;
    slot, d := Marked(p), seq(n, i => 0 as byte);
    assert Splice(slot, at, d)[p] == d[p - at];
    assert Splice(slot, at, d)[from..from + len][p - from] == 0 && slot[from..from + len][p - from] == 1;
  }

  // A chunk is being written to the client when a client read of n bytes lands:
  // what the client then gets is what the destination sent, whatever all these
  // bytes are, if and only if the read ends before the unsent bytes.
  lemma {:induction false} ClientReadHarmlessIff(cfg: Config, c: Conn, q: Request, n: nat)
    requires RelayWrite(cfg, c, q) && q.kind.ClientWrite? && q.len > 0 && (cfg.offsetMoves || q.offset == 0)
    requires 0 < n <= ClientReadRequest(cfg, c).len
    ensures (forall slot: seq<byte>, d: seq<byte> | |slot| == BUFFER_SIZE && |d| == n ::
               SentAfterRead(cfg, c.(slot := slot), ClientReadRequest(cfg, c), d, q))
            <==> n <= HALF_BUFFER_SIZE + q.offset
  {
    ResumedIsWrite(cfg, c, q, 0);
    if n <= HALF_BUFFER_SIZE + q.offset {
      forall slot: seq<byte>, d: seq<byte> | |slot| == BUFFER_SIZE && |d| == n
        ensures SentAfterRead(cfg, c.(slot := slot), ClientReadRequest(cfg, c), d, q)
      {
        LandsInSlot(cfg, c, ClientReadRequest(cfg, c), q, slot, d);
        SpliceKeeps(slot, 0, d, q.start + q.offset, q.start + q.offset + q.len);
      }
    } else {
      var slot, d := ReadHarms(cfg, c, ClientReadRequest(cfg, c), q, n);
    }
  }

  // Likewise for a chunk that is being written to the destination when a read
  // from the destination lands.
  lemma {:induction false} DestinationReadHarmlessIff(cfg: Config, c: Conn, q: Request, n: nat)
    requires RelayWrite(cfg, c, q) && q.kind.DestinationWrite? && q.len > 0 && (cfg.offsetMoves || q.offset == 0)
    requires 0 < n <= HALF_BUFFER_SIZE
    ensures (forall slot: seq<byte>, d: seq<byte> | |slot| == BUFFER_SIZE && |d| == n ::
               SentAfterRead(cfg, c.(slot := slot), DestinationReadRequest(cfg, c), d, q))
            <==> q.offset + q.len <= HALF_BUFFER_SIZE || HALF_BUFFER_SIZE + n <= q.offset
  {
    ResumedIsWrite(cfg, c, q, 0);
    if q.offset + q.len <= HALF_BUFFER_SIZE || HALF_BUFFER_SIZE + n <= q.offset {
      forall slot: seq<byte>, d: seq<byte> | |slot| == BUFFER_SIZE && |d| == n
        ensures SentAfterRead(cfg, c.(slot := slot), DestinationReadRequest(cfg, c), d, q)
      {
        LandsInSlot(cfg, c, DestinationReadRequest(cfg, c), q, slot, d);
        SpliceKeeps(slot, HALF_BUFFER_SIZE, d, q.start + q.offset, q.start + q.offset + q.len);
      }
    } else {
      var slot, d := ReadHarms(cfg, c, DestinationReadRequest(cfg, c), q, n);
    }
  }

  // A read of the one direction and a pending write of the other.
  ghost predicate Crossing(cfg: Config, c: Conn, read: Request, q: Request) {
    && RelayWrite(cfg, c, q) && (cfg.offsetMoves || q.offset == 0)
    && if q.kind.ClientWrite? then read == ClientReadRequest(cfg, c) else read == DestinationReadRequest(cfg, c)
  }

  lemma ReadLands(cfg: Config, c: Conn, read: Request, q: Request, d: seq<byte>)
    requires Crossing(cfg, c, read, q) && 0 < |d| <= read.len
    ensures q.start + q.offset + q.len <= |c.slot| && read.start + |d| <= |c.slot|
    ensures var from := q.start + q.offset;
            SentAfterRead(cfg, c, read, d, q)
            <==> Splice(c.slot, read.start, d)[from..from + q.len] == c.slot[from..from + q.len]
  {
    if q.kind.ClientWrite? {
      UpReadSettles(cfg, c, read, d, QUIET);
    } else {
      DownReadSettles(cfg, c, read, d, QUIET);
    }
  }

  lemma LandsInSlot(cfg: Config, c: Conn, read: Request, q: Request, slot: seq<byte>, d: seq<byte>)
    requires Crossing(cfg, c, read, q) && 0 < |d| <= read.len && |slot| == BUFFER_SIZE
    ensures q.start + q.offset + q.len <= BUFFER_SIZE && read.start + |d| <= BUFFER_SIZE
    ensures var from := q.start + q.offset;
            SentAfterRead(cfg, c.(slot := slot), read, d, q)
            <==> Splice(slot, read.start, d)[from..from + q.len] == slot[from..from + q.len]
  {
    OtherSlot(cfg, c, q, slot);
    ReadLands(cfg, c.(slot := slot), read, q, d);
  }

  lemma CrossingFits(cfg: Config, c: Conn, read: Request, q: Request)
    requires Crossing(cfg, c, read, q)
    ensures q.start + q.offset + q.len <= BUFFER_SIZE && read.start + read.len <= BUFFER_SIZE
  {
  }

  lemma ReadHarms(cfg: Config, c: Conn, read: Request, q: Request, n: nat) returns (slot: seq<byte>, d: seq<byte>)
    requires Crossing(cfg, c, read, q) && 0 < n <= read.len && q.len > 0
    requires read.start < q.start + q.offset + q.len && q.start + q.offset < read.start + n
    ensures |slot| == BUFFER_SIZE && |d| == n && q.start + q.offset + q.len <= BUFFER_SIZE
    ensures !SentAfterRead(cfg, c.(slot := slot), read, d, q)
  {
    CrossingFits(cfg, c, read, q);
    slot, d := Overlapping(q.start + q.offset, q.len, read.start, n);
    LandsInSlot(cfg, c, read, q, slot, d);
  }

  // The flags that RelayIsFaithful asks about are raised by these reads only.
  lemma {:induction false} FlagsAreExact(cfg: Config, c: Conn, o: Wire, q: Request, d: seq<byte>)
    requires RelayWrite(cfg, c, q) && q.len > 0 && d != []
    requires q.kind.ClientWrite? ==>
               !o.down.mixed && |o.down.received| == |o.down.sent| + q.len && |d| <= ClientReadRequest(cfg, c).len
    requires q.kind.DestinationWrite? ==>
               !o.up.mixed && |o.up.received| == |o.up.sent| + q.len && |d| <= HALF_BUFFER_SIZE
    ensures q.kind.ClientWrite? ==>
              (Observe(cfg, c, o, ClientReadRequest(cfg, c), Received(d), QUIET).down.mixed <==> |d| > HALF_BUFFER_SIZE + q.offset)
    ensures q.kind.DestinationWrite? ==>
              (Observe(cfg, c, o, DestinationReadRequest(cfg, c), Received(d), QUIET).up.mixed
               <==> q.offset < HALF_BUFFER_SIZE + |d| && HALF_BUFFER_SIZE < q.offset + q.len)
  {
  }

  // The read's d lands, and then q is written whole: what goes out is the chunk
  // as it was before the read.
  ghost predicate SentAfterRead(cfg: Config, c: Conn, read: Request, d: seq<byte>, q: Request)
    requires q.start + q.offset + q.len <= |c.slot|
  {
    var out := Settle(cfg, c, read, read.kind, Received(d), QUIET);
    && out.Keep? && q.start + q.offset + q.len <= |out.conn.slot|
    && OnWire(cfg, out.conn, q, q.len) == Rest(c, q)
  }
}
