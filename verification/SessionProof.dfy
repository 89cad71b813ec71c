/**
 The invariant of a single session together with its requests in flight and its
 wire record, and the proof that every completion keeps it.
 */
module SessionProof {
  import opened Socks5
  import opened SessionSpec
  import opened OneShot
  import opened Wire
  import opened HandshakeProof

  // ------------------------------------------------------------------
  // Requests in flight: one lane from client to destination, one back
  // ------------------------------------------------------------------

  datatype Lane = Upward | Downward

  datatype Lanes = Lanes(up: Option<Request>, down: Option<Request>)

  const IDLE := Lanes(None, None)

  function LaneOf(kind: EventType): Lane {
    if kind.ClientWrite? || kind.DestinationRead? then Downward else Upward
  }

  function At(f: Lanes, lane: Lane): Option<Request> {
    if lane.Upward? then f.up else f.down
  }

  function Clear(f: Lanes, lane: Lane): Lanes {
    if lane.Upward? then f.(up := None) else f.(down := None)
  }

  function Place(f: Lanes, q: Request): Lanes {
    if LaneOf(q.kind).Upward? then f.(up := Some(q)) else f.(down := Some(q))
  }

  function PlaceAll(f: Lanes, qs: seq<Request>): Lanes
    decreases |qs|
  {
    if qs == [] then f else PlaceAll(Place(f, qs[0]), qs[1..])
  }

  // Each request finds its lane empty.
  predicate Placeable(f: Lanes, qs: seq<Request>)
    decreases |qs|
  {
    qs == [] || (At(f, LaneOf(qs[0].kind)).None? && Placeable(Place(f, qs[0]), qs[1..]))
  }

  function Count(f: Lanes): nat {
    (if f.up.Some? then 1 else 0) + (if f.down.Some? then 1 else 0)
  }

  function Only(f: Lanes): Option<Request> {
    if f.up.Some? then f.up else f.down
  }

  predicate InLane(f: Lanes) {
    && (f.up.Some? ==> LaneOf(f.up.value.kind).Upward?)
    && (f.down.Some? ==> LaneOf(f.down.value.kind).Downward?)
  }

  // ------------------------------------------------------------------
  // The invariant
  // ------------------------------------------------------------------

  function ViewOf(w: Wire): View {
    Handshake(w.fromClient, |w.toClient| >= 2, w.env, w.connected)
  }

  // The handshake's completions are bounded by the bytes it can move.
  ghost predicate Tally(w: Wire) {
    && w.readCount <= 519 && (!w.broken ==> w.readCount <= |w.fromClient|)
    && w.writeCount <= w.idleCount + |w.toClient| && |w.toClient| <= 24
    && w.connectCount == if w.connected then 1 else 0
  }

  // A session that broke off before its connect request.
  ghost predicate Lost(c: Conn) {
    |c.slot| == BUFFER_SIZE && c.failed && c.fd == -1 && c.destination.None? && PreConnect(c.state) && c.awaiting == 1
  }

  ghost predicate HandshakeOk(cfg: Config, c: Conn, w: Wire, f: Lanes) {
    && !c.state.ProxyingRequests?
    && InLane(f) && (f.up.None? || f.down.None?)
    && (PreConnect(c.state) ==> !w.connected)
    && w.up == w.down == STILL
    && Tally(w)
    && if w.broken then Lost(c) && f == IDLE && Stands(c, ViewOf(w)) && w.toClient <= Replies(ViewOf(w))
       else Follows(cfg, c, ViewOf(w), w.toClient, Only(f))
  }

  // How large a chunk can come from the client.
  function ChunkLimit(cfg: Config): nat { if cfg.root then HALF_BUFFER_SIZE else BUFFER_SIZE }

  ghost predicate UpRequest(cfg: Config, c: Conn, q: Request) {
    || q == ClientReadRequest(cfg, c)
    || (&& c.toDestination.offset <= c.toDestination.size <= ChunkLimit(cfg)
        && q == DestinationWriteRequest(cfg, c, c.toDestination.size - c.toDestination.offset, c.toDestination.offset))
  }

  ghost predicate DownRequest(cfg: Config, c: Conn, q: Request) {
    || q == DestinationReadRequest(cfg, c)
    || (&& c.toClient.offset <= c.toClient.size <= HALF_BUFFER_SIZE
        && q == ClientWriteRequest(cfg, c, c.toClient.size - c.toClient.offset, c.toClient.offset))
  }

  // Nothing lost, repeated or reordered: what was written so far, followed by
  // the part of the chunk still to be written, is what was read so far.
  ghost predicate Faithful(s: Stream, q: Option<Request>, slot: seq<byte>) {
    match q
    case None => s.sent <= s.received
    case Some(q) =>
      if Reads(q.kind) then s.sent == s.received
      else
        && q.start + q.offset + q.len <= |slot|
        && s.sent + slot[q.start + q.offset..q.start + q.offset + q.len] == s.received
  }

  // As many bytes are still to be written as have been read and not written.
  ghost predicate Accounted(s: Stream, q: Option<Request>) {
    match q
    case None => |s.sent| <= |s.received|
    case Some(q) => |s.received| == |s.sent| + if Writes(q.kind) then q.len else 0
  }

  // One direction of the relay, with request q in flight.
  ghost predicate Flow(cfg: Config, s: Stream, q: Option<Request>, slot: seq<byte>) {
    && Accounted(s, q)
    && (q.Some? && Writes(q.value.kind) && !s.partial ==> q.value.offset == 0)
    && ((cfg.offsetMoves || !s.partial) && !s.mixed ==> Faithful(s, q, slot))
  }

  // The handshake as it was when proxying began.
  ghost predicate HandshakeDone(c: Conn, w: Wire) {
    && ViewOf(w).Granted? && ViewOf(w).unread == c.readBuffer && c.asked.authMethod == 0
    && w.toClient == METHOD_REPLY + SuccessReply(ViewOf(w).to)
    && (!c.failed ==> c.destination == Some(ViewOf(w).to))
  }

  // A relay and its requests, whatever the handshake was.
  ghost predicate RelayPart(cfg: Config, c: Conn, w: Wire, f: Lanes) {
    && c.state.ProxyingRequests? && |c.slot| == BUFFER_SIZE && c.awaiting == Count(f) && (c.failed <==> w.broken)
    && (!c.failed ==> c.fd >= 0 && c.destination.Some? && Count(f) == 2)
    && (c.failed ==> c.fd == -1 && c.destination.None? && Count(f) == 1)
    && (f.up.Some? ==> UpRequest(cfg, c, f.up.value))
    && (f.down.Some? ==> DownRequest(cfg, c, f.down.value))
    && (cfg.root ==> !w.up.mixed && !w.down.mixed)
    && Flow(cfg, w.up, f.up, c.slot) && Flow(cfg, w.down, f.down, c.slot)
  }

  ghost predicate ProxyOk(cfg: Config, c: Conn, w: Wire, f: Lanes) {
    RelayPart(cfg, c, w, f) && Tally(w) && HandshakeDone(c, w)
  }

  ghost predicate SessionOk(cfg: Config, c: Conn, w: Wire, f: Lanes) {
    if c.state.ProxyingRequests? then ProxyOk(cfg, c, w, f) else HandshakeOk(cfg, c, w, f)
  }

  // ------------------------------------------------------------------
  // What a completion is proved to leave behind
  // ------------------------------------------------------------------

  // The program stops: exactly when the stream, read in one shot, now asks for
  // a socket and the world answers with an errno or a foreign address family.
  ghost predicate Wrecks(c: Conn, w': Wire) {
    !c.state.ProxyingRequests? && !w'.broken && ViewOf(w').Wrecked?
  }

  ghost predicate SettledOk(cfg: Config, c: Conn, out: Outcome, w': Wire, rest: Lanes) {
    && (out.Crash? <==> Wrecks(c, w'))
    && match out
       case Keep(c', qs) =>
         && Same(c, c')
         && |qs| <= 2 && Placeable(rest, qs) && SessionOk(cfg, c', w', PlaceAll(rest, qs))
       case Drop(c', qs) =>
         && qs == [] && rest == IDLE && c'.slotIndex == c.slotIndex && c'.fd == c.fd && !PreConnect(c.state)
         && (c.failed || w'.broken)
       case Crash(fault) => ViewOf(w').Wrecked? && fault == if ViewOf(w').nullSocket then NullSocket else AssertionFailed
  }

  lemma PlaceOne(f: Lanes, qs: seq<Request>)
    requires |qs| <= 1
    ensures PlaceAll(f, qs) == if qs == [] then f else Place(f, qs[0])
    ensures Placeable(f, qs) <==> (qs == [] || At(f, LaneOf(qs[0].kind)).None?)
  {
    if qs != [] {
      assert qs[1..] == [];
    }
  }

  lemma PlaceTwo(f: Lanes, a: Request, b: Request)
    ensures PlaceAll(f, [a, b]) == Place(Place(f, a), b)
    ensures Placeable(f, [a, b]) <==> At(f, LaneOf(a.kind)).None? && At(Place(f, a), LaneOf(b.kind)).None?
  {
    assert [a, b][1..] == [b];
    PlaceOne(Place(f, a), [b]);
  }

  lemma RepliesAreShort(r: seq<byte>, sent: bool, env: Env, connected: bool)
    ensures |Replies(Handshake(r, sent, env, connected))| <= 24
  {
    if |r| >= 3 && |r[2..]| >= r[1] as nat {
      RequestRepliesAreShort(r[2..][r[1] as nat..], env, connected);
    }
  }

  lemma RequestRepliesAreShort(q: seq<byte>, env: Env, connected: bool)
    ensures |Replies(ConnectionRequest(q, env, connected))| <= 24
  {
  }

  lemma FollowsInLane(cfg: Config, c: Conn, v: View, toClient: seq<byte>, qs: seq<Request>)
    requires |qs| <= 1 && Follows(cfg, c, v, toClient, Head(qs))
    ensures Placeable(IDLE, qs) && Only(PlaceAll(IDLE, qs)) == Head(qs) && InLane(PlaceAll(IDLE, qs))
    ensures PlaceAll(IDLE, qs).up.None? || PlaceAll(IDLE, qs).down.None?
    ensures |toClient| <= |Replies(v)|
  {
    PlaceOne(IDLE, qs);
  }

  // The record of a handshake in which nothing has failed.
  ghost predicate Sound(w: Wire) {
    && !w.broken && w.up == w.down == STILL
    && w.readCount <= 519 && w.readCount <= |w.fromClient|
    && w.writeCount <= w.idleCount + |w.toClient|
    && w.connectCount == if w.connected then 1 else 0
  }

  // What the loop body does once the count is down by one.
  ghost function Settled(out: Outcome): Outcome {
    match out
    case Keep(c', qs) => if c'.failed && c'.awaiting == 0 then Drop(c', qs) else out
    case Drop(_, _) => Crash(Dangling)
    case Crash(_) => out
  }

  // What happens to a session in the middle of a completion: its slot and
  // descriptor stay, its state does not go back.
  ghost predicate Onward(c: Conn, c': Conn) {
    c'.slotIndex == c.slotIndex && c'.fd == c.fd && Rank(c.state) <= Rank(c'.state)
  }

  // A handshake step whose outcome follows the view of the new record.
  lemma LandedIsSettled(cfg: Config, c: Conn, c': Conn, out: Outcome, w': Wire)
    requires !c.state.ProxyingRequests? && Onward(c, c') && Sound(w') && (w'.connected ==> ViewOf(w').Granted?)
    requires Landed(cfg, c', out, ViewOf(w'), w'.toClient)
    ensures SettledOk(cfg, c, Settled(out), w', IDLE)
  {
    if out.Keep? {
      var f := PlaceAll(IDLE, out.requests);
      FollowsInLane(cfg, out.conn, ViewOf(w'), w'.toClient, out.requests);
      RepliesAreShort(w'.fromClient, |w'.toClient| >= 2, w'.env, w'.connected);
      FollowsIsOk(cfg, out.conn, w', f);
    }
  }

  lemma FollowsIsOk(cfg: Config, c: Conn, w: Wire, f: Lanes)
    requires Sound(w) && |w.toClient| <= 24 && (w.connected ==> ViewOf(w).Granted?)
    requires InLane(f) && (f.up.None? || f.down.None?) && Follows(cfg, c, ViewOf(w), w.toClient, Only(f))
    ensures SessionOk(cfg, c, w, f) && (c.failed ==> c.awaiting > 0)
  {
  }

  // ------------------------------------------------------------------
  // Handshake completions
  // ------------------------------------------------------------------

  // Request q of a session that is not proxying completes.
  ghost predicate Handshaking(cfg: Config, c: Conn, w: Wire, q: Request, res: Result) {
    && !c.state.ProxyingRequests? && Sound(w)
    && (PreConnect(c.state) ==> !w.connected)
    && Follows(cfg, c, ViewOf(w), w.toClient, Some(q))
    && Answers(q, res) && q.start + q.offset + Moved(res) <= |c.slot|
  }

  ghost predicate StepOk(cfg: Config, c: Conn, w: Wire, q: Request, res: Result, env: Env, rest: Lanes)
    requires q.start + q.offset + Moved(res) <= |c.slot|
  {
    SettledOk(cfg, c, Settle(cfg, c, q, q.kind, res, env), Observe(cfg, c, w, q, res, env), rest)
  }

  lemma StepConcluded(cfg: Config, c: Conn, w: Wire, q: Request, res: Result, env: Env, out: Outcome, w': Wire)
    requires q.start + q.offset + Moved(res) <= |c.slot|
    requires Settle(cfg, c, q, q.kind, res, env) == out && Observe(cfg, c, w, q, res, env) == w'
    requires SettledOk(cfg, c, out, w', IDLE)
    ensures StepOk(cfg, c, w, q, res, env, IDLE)
  {
  }

  lemma FailureSettles(cfg: Config, c: Conn, q: Request, res: Result, env: Env)
    requires |c.slot| == BUFFER_SIZE && q.start + q.offset + Moved(res) <= |c.slot| && c.fd != -1
    requires res.Failed? || (res == Received([]) && Reads(q.kind) && !c.failed)
    requires c.awaiting == 2
    ensures Settle(cfg, c, q, q.kind, res, env)
            == Keep(Filled(c, q, res).(awaiting := 1, failed := true, destination := None, fd := -1), [])
  {
  }

  lemma HandshakeFailure(cfg: Config, c: Conn, w: Wire, q: Request, res: Result, env: Env)
    requires Handshaking(cfg, c, w, q, res)
    requires res.Failed? || res == Received([])
    ensures StepOk(cfg, c, w, q, res, env, IDLE)
  {
    if PreConnect(c.state) {
      var w' := Observe(cfg, c, w, q, res, env);
      HandshakeLost(cfg, c, w, q, res);
      FailureSettles(cfg, c, q, res, env);
      LostIsSettled(cfg, c, Filled(c, q, res).(awaiting := 1, failed := true, destination := None, fd := -1), w, w');
    } else {
      LastHandshakeRequest(cfg, c, w, q, env);
    }
  }

  lemma HandshakeLost(cfg: Config, c: Conn, w: Wire, q: Request, res: Result)
    requires Handshaking(cfg, c, w, q, res) && PreConnect(c.state)
    requires res.Failed? || res == Received([])
    ensures c.awaiting == 2 && c.fd >= 0 && |c.slot| == BUFFER_SIZE && (res.Received? ==> Reads(q.kind) && !c.failed)
    ensures Stands(c, ViewOf(w)) && w.toClient <= Replies(ViewOf(w)) && |w.toClient| <= 24
    ensures res.Received? ==> w.readCount < 519
  {
    FollowsStands(cfg, c, ViewOf(w), w.toClient, Some(q));
    RepliesAreShort(w.fromClient, |w.toClient| >= 2, w.env, w.connected);
    if res.Received? {
      StreamIsConserved(w.fromClient, |w.toClient| >= 2, w.env, w.connected);
    }
  }

  // The connect, or the write of the success reply, fails.
  lemma LastHandshakeRequest(cfg: Config, c: Conn, w: Wire, q: Request, env: Env)
    requires Handshaking(cfg, c, w, q, Failed) && !PreConnect(c.state)
    ensures StepOk(cfg, c, w, q, Failed, env, IDLE)
  {
  }

  lemma LostIsSettled(cfg: Config, c: Conn, c': Conn, w: Wire, w': Wire)
    requires Lost(c') && Same(c, c') && !c.state.ProxyingRequests?
    requires c'.state == c.state && c'.readBuffer == c.readBuffer && c'.asked == c.asked
    requires Sound(w) && !w.connected && |w.toClient| <= 24
    requires Stands(c, ViewOf(w)) && w.toClient <= Replies(ViewOf(w))
    requires w' == w.(broken := true, readCount := w'.readCount) && w'.readCount <= 519
    ensures SettledOk(cfg, c, Keep(c', []), w', IDLE)
  {
  }

  lemma ReadSettles(cfg: Config, c: Conn, q: Request, d: seq<byte>, env: Env)
    requires !c.state.ProxyingRequests? && !c.failed && |c.slot| == BUFFER_SIZE && c.awaiting == 2
    requires q == ClientReadRequest(cfg, c) && 0 < |d| <= q.len
    ensures var c' := c.(slot := Splice(c.slot, 0, d), awaiting := 1, readBuffer := c.readBuffer + d);
            Settle(cfg, c, q, q.kind, Received(d), env) == Settled(Examine(cfg, c', env))
  {
    assert Splice(c.slot, 0, d)[..|d|] == d;
  }

  lemma HandshakeRead(cfg: Config, c: Conn, w: Wire, q: Request, d: seq<byte>, env: Env)
    requires Handshaking(cfg, c, w, q, Received(d)) && d != []
    ensures StepOk(cfg, c, w, q, Received(d), env, IDLE)
  {
    var r, sent, v := w.fromClient, |w.toClient| >= 2, ViewOf(w);
    var c' := c.(slot := Splice(c.slot, 0, d), awaiting := 1, readBuffer := c.readBuffer + d);
    ReadSettles(cfg, c, q, d, env);
    ExamineResumes(cfg, c', v.wanted, v.addressType, env);
    MoreBytes(r, d, sent, w.env, env);
    StreamIsConserved(r, sent, w.env, false);
    LandedIsSettled(cfg, c, c', Examine(cfg, c', env), Observe(cfg, c, w, q, Received(d), env));
  }

  lemma ConnectSettles(cfg: Config, c: Conn, q: Request, to: Endpoint, env: Env)
    requires |c.slot| == BUFFER_SIZE && !c.failed && c.awaiting == 1 && Bound(c, to)
    requires q == ConnectRequest() && c.state.ConnectingToDestination?
    ensures Settle(cfg, c, q, q.kind, Connected, env)
            == Settled(WriteToClient(cfg, c.(awaiting := 0, writeBuffer := SuccessReply(to))))
  {
  }

  lemma DialedFollows(cfg: Config, c: Conn, v: View, toClient: seq<byte>, q: Request)
    requires Follows(cfg, c, v, toClient, Some(q)) && q.kind.DestinationConnect?
    ensures v.Dialing? && |c.slot| == BUFFER_SIZE && !c.failed && c.awaiting == 1 && Bound(c, v.to)
    ensures q == ConnectRequest() && c.state.ConnectingToDestination?
    ensures var c' := c.(awaiting := 0, writeBuffer := SuccessReply(v.to));
            Landed(cfg, c', WriteToClient(cfg, c'), Granted(v.unread, v.to), toClient)
  {
    WriteLoads(cfg, c.(awaiting := 0, writeBuffer := SuccessReply(v.to)));
  }

  lemma HandshakeConnect(cfg: Config, c: Conn, w: Wire, q: Request, env: Env)
    requires Handshaking(cfg, c, w, q, Connected)
    ensures StepOk(cfg, c, w, q, Connected, env, IDLE)
  {
    var v := ViewOf(w);
    DialedFollows(cfg, c, v, w.toClient, q);
    var c' := c.(awaiting := 0, writeBuffer := SuccessReply(v.to));
    ConnectSettles(cfg, c, q, v.to, env);
    GrantedWhenConnected(w.fromClient, |w.toClient| >= 2, w.env, w.connected);
    LandedIsSettled(cfg, c, c', WriteToClient(cfg, c'), Observe(cfg, c, w, q, Connected, env));
  }

  lemma GrantedWhenConnected(r: seq<byte>, sent: bool, env: Env, connected: bool)
    requires Handshake(r, sent, env, connected).Dialing?
    ensures !connected
    ensures var v := Handshake(r, sent, env, connected);
            Handshake(r, sent, env, true) == Granted(v.unread, v.to)
  {
  }

  // One piece of a pending handshake reply goes out.
  lemma HandshakeWrite(cfg: Config, c: Conn, w: Wire, q: Request, n: nat, env: Env)
    requires Handshaking(cfg, c, w, q, Sent(n))
    ensures StepOk(cfg, c, w, q, Sent(n), env, IDLE)
  {
    if c.failed {
      RefusalWrite(cfg, c, w, q, n, env);
    } else if n < |c.writeBuffer| {
      PartialReply(cfg, c, w, q, n, env);
    } else if c.state.ReadingAuthMethods? {
      MethodReplySent(cfg, c, w, q, n, env);
    } else {
      SuccessReplySent(cfg, c, w, q, n, env);
    }
  }

  lemma RefusalFollowsWrite(cfg: Config, c: Conn, v: View, toClient: seq<byte>, q: Request, n: nat)
    requires Follows(cfg, c, v, toClient, Some(q)) && c.failed && Answers(q, Sent(n))
    ensures v.Refused? && PreConnect(c.state) && c.awaiting == 2 && |c.slot| == BUFFER_SIZE && n <= |v.reply|
    ensures q == ClientWriteRequest(cfg, c, |v.reply|, 0) && OnWire(cfg, c, q, n) == v.reply[..n]
    ensures toClient == Before(v.state)
    ensures Landed(cfg, c, Keep(c.(awaiting := 1), []), v, Before(v.state) + v.reply[..n])
  {
    assert c.slot[HALF_BUFFER_SIZE..HALF_BUFFER_SIZE + n] == v.reply[..n];
  }

  lemma RefusalWrite(cfg: Config, c: Conn, w: Wire, q: Request, n: nat, env: Env)
    requires Handshaking(cfg, c, w, q, Sent(n)) && c.failed
    ensures StepOk(cfg, c, w, q, Sent(n), env, IDLE)
  {
    var v := ViewOf(w);
    RefusalFollowsWrite(cfg, c, v, w.toClient, q, n);
    var w' := Observe(cfg, c, w, q, Sent(n), env);
    WriteSeen(cfg, c, w, q, n, env, v.reply[..n]);
    RefusedIsFinal(w.fromClient, |w.toClient| >= 2, |w'.toClient| >= 2, w.env, w.connected);
    LandedIsSettled(cfg, c, c, Keep(c.(awaiting := 1), []), w');
  }

  lemma WriteSeen(cfg: Config, c: Conn, w: Wire, q: Request, n: nat, env: Env, d: seq<byte>)
    requires !c.state.ProxyingRequests? && Sound(w)
    requires q.start + q.offset + n <= |c.slot| && OnWire(cfg, c, q, n) == d && |d| == n
    ensures var w' := Observe(cfg, c, w, q, Sent(n), env);
            && Sound(w') && w'.toClient == w.toClient + d && w'.fromClient == w.fromClient && w'.connected == w.connected
            && w'.env == EnvAfter(c, w, env)
  {
  }

  lemma RefusedIsFinal(r: seq<byte>, sent: bool, sent': bool, env: Env, connected: bool)
    requires Handshake(r, sent, env, connected).Refused? && (sent ==> sent')
    ensures Handshake(r, sent', env, connected) == Handshake(r, sent, env, connected)
  {
  }

  // A session with a reply going out that is not a refusal.
  lemma ReplyGoesOut(cfg: Config, c: Conn, v: View, toClient: seq<byte>, q: Request, n: nat)
    requires Follows(cfg, c, v, toClient, Some(q)) && !c.failed && Answers(q, Sent(n))
    ensures v.Replying? || v.Granted?
    ensures |c.slot| == BUFFER_SIZE && c.fd >= 0 && n <= |c.writeBuffer| && 0 < |c.writeBuffer| <= 24
    ensures c.awaiting == if PreConnect(c.state) then 2 else 1
    ensures q == ClientWriteRequest(cfg, c, |c.writeBuffer|, 0) && Loaded(c, c.writeBuffer)
    ensures toClient + c.writeBuffer == Replies(v) && Stands(c, v)
    ensures if v.Replying? then c.destination.None? && |toClient| < 2 else Bound(c, v.to)
    ensures c.state == if v.Replying? then ReadingAuthMethods else ConnectingToDestination
  {
    assert |toClient + c.writeBuffer| == |toClient| + |c.writeBuffer|;
  }

  // The piece that went out is the front of the write buffer, and the handler
  // goes on with the rest.
  lemma WriteSettles(cfg: Config, c: Conn, q: Request, n: nat, env: Env)
    requires |c.slot| == BUFFER_SIZE && !c.failed && c.awaiting > 0 && n <= |c.writeBuffer| && !c.state.ProxyingRequests?
    requires q == ClientWriteRequest(cfg, c, |c.writeBuffer|, 0) && Loaded(c, c.writeBuffer)
    ensures Settle(cfg, c, q, q.kind, Sent(n), env)
            == Settled(HandleClientWrite(cfg, c.(awaiting := c.awaiting - 1), n, env))
    ensures OnWire(cfg, c, q, n) == c.writeBuffer[..n]
  {
    assert c.slot[HALF_BUFFER_SIZE..HALF_BUFFER_SIZE + n] == c.writeBuffer[..n];
  }

  lemma Recut(a: seq<byte>, b: seq<byte>, n: nat)
    requires n <= |b|
    ensures (a + b[..n]) + b[n..] == a + b
  {
  }

  lemma PartialFollows(cfg: Config, c: Conn, v: View, toClient: seq<byte>, q: Request, n: nat)
    requires Follows(cfg, c, v, toClient, Some(q)) && !c.failed && Answers(q, Sent(n)) && n < |c.writeBuffer|
    ensures var c' := c.(awaiting := c.awaiting - 1, writeBuffer := c.writeBuffer[n..]);
            Landed(cfg, c', WriteToClient(cfg, c'), v, toClient + c.writeBuffer[..n])
  {
    ReplyGoesOut(cfg, c, v, toClient, q, n);
    Recut(toClient, c.writeBuffer, n);
    AnsweringFollows(cfg, c.(awaiting := c.awaiting - 1, writeBuffer := c.writeBuffer[n..]), v, toClient + c.writeBuffer[..n]);
  }

  // A reply is sent on.
  lemma AnsweringFollows(cfg: Config, c: Conn, v: View, toClient: seq<byte>)
    requires |c.slot| == BUFFER_SIZE && c.fd >= 0 && !c.failed && 0 < |c.writeBuffer| <= 24 && Stands(c, v)
    requires c.awaiting == if PreConnect(c.state) then 1 else 0
    requires v.Replying? || v.Granted?
    requires if v.Replying? then c.destination.None? else Bound(c, v.to)
    requires toClient + c.writeBuffer == Replies(v)
    ensures Landed(cfg, c, WriteToClient(cfg, c), v, toClient)
  {
    WriteLoads(cfg, c);
  }

  lemma PartialReply(cfg: Config, c: Conn, w: Wire, q: Request, n: nat, env: Env)
    requires Handshaking(cfg, c, w, q, Sent(n)) && !c.failed && n < |c.writeBuffer|
    ensures StepOk(cfg, c, w, q, Sent(n), env, IDLE)
  {
    var v, c' := ViewOf(w), c.(awaiting := c.awaiting - 1, writeBuffer := c.writeBuffer[n..]);
    ReplyGoesOut(cfg, c, v, w.toClient, q, n);
    PartialFollows(cfg, c, v, w.toClient, q, n);
    WriteSettles(cfg, c, q, n, env);
    WriteSeen(cfg, c, w, q, n, env, c.writeBuffer[..n]);
    var w' := Observe(cfg, c, w, q, Sent(n), env);
    assert |w.toClient + c.writeBuffer[..n]| + |c.writeBuffer[n..]| == |Replies(v)|;
    EnvUnasked(w.fromClient, |w.toClient| >= 2, |w'.toClient| >= 2, w.env, w'.env, w.connected);
    LandedIsSettled(cfg, c, c', WriteToClient(cfg, c'), w');
  }

  // While the method reply is going out nothing has been asked of the world.
  lemma EnvUnasked(r: seq<byte>, sent: bool, sent': bool, e0: Env, env: Env, connected: bool)
    requires var v := Handshake(r, sent, e0, connected);
             (v.Replying? && !sent') || (v.Granted? && (sent ==> sent') && e0 == env)
    ensures Handshake(r, sent', env, connected) == Handshake(r, sent, e0, connected)
    ensures Handshake(r, sent, e0, connected).Granted? ==> connected
  {
    if |r| >= 3 && r[0] == 5 && r[1] != 0 && sent {
      GrantedUnasked(r[2..][r[1] as nat..], e0, connected);
    }
  }

  lemma GrantedUnasked(q: seq<byte>, env: Env, connected: bool)
    requires |q| >= 4 && ConnectionRequest(q, env, connected).Granted?
    ensures connected
  {
  }

  lemma MethodReplySent(cfg: Config, c: Conn, w: Wire, q: Request, n: nat, env: Env)
    requires Handshaking(cfg, c, w, q, Sent(n)) && !c.failed && n == |c.writeBuffer| && c.state.ReadingAuthMethods?
    ensures StepOk(cfg, c, w, q, Sent(n), env, IDLE)
  {
    var v, w' := ViewOf(w), Observe(cfg, c, w, q, Sent(n), env);
    var c' := c.(awaiting := 1, writeBuffer := [], state := ReadingClientConnectionRequest, threshold := 4);
    ReplyGoesOut(cfg, c, v, w.toClient, q, n);
    WriteSettles(cfg, c, q, n, env);
    WriteSeen(cfg, c, w, q, n, env, c.writeBuffer[..n]);
    ReadSomeExamines(cfg, c', 4, env);
    RequestFollows(cfg, c', env);
    RequestAfterMethodReply(w.fromClient, w.env, env, w.connected);
    LandedIsSettled(cfg, c, c', Examine(cfg, c', env), w');
  }

  lemma RequestAfterMethodReply(r: seq<byte>, e0: Env, env: Env, connected: bool)
    requires Handshake(r, false, e0, connected).Replying?
    ensures Handshake(r, true, env, connected) == ConnectionRequest(Handshake(r, false, e0, connected).unread, env, connected)
  {
  }

  lemma SuccessReplySent(cfg: Config, c: Conn, w: Wire, q: Request, n: nat, env: Env)
    requires Handshaking(cfg, c, w, q, Sent(n)) && !c.failed && n == |c.writeBuffer| && !c.state.ReadingAuthMethods?
    ensures StepOk(cfg, c, w, q, Sent(n), env, IDLE)
  {
    var c', w' := c.(awaiting := 0, writeBuffer := [], state := ProxyingRequests), Observe(cfg, c, w, q, Sent(n), env);
    SuccessReplyTold(cfg, c, w, q, n, env, c', w');
    assert Onward(c, c');
    var out := ProxyingStarts(cfg, c, c', w', env);
    StepConcluded(cfg, c, w, q, Sent(n), env, out, w');
  }

  lemma SuccessReplyTold(cfg: Config, c: Conn, w: Wire, q: Request, n: nat, env: Env, c': Conn, w': Wire)
    requires Handshaking(cfg, c, w, q, Sent(n)) && !c.failed && n == |c.writeBuffer| && !c.state.ReadingAuthMethods?
    requires c' == c.(awaiting := 0, writeBuffer := [], state := ProxyingRequests) && w' == Observe(cfg, c, w, q, Sent(n), env)
    ensures Settle(cfg, c, q, q.kind, Sent(n), env) == Settled(StartProxying(cfg, c', env))
    ensures Readied(c', w')
  {
    ReplyGoesOut(cfg, c, ViewOf(w), w.toClient, q, n);
    WriteSettles(cfg, c, q, n, env);
    WriteSeen(cfg, c, w, q, n, env, c.writeBuffer);
    EnvUnasked(w.fromClient, |w.toClient| >= 2, |w'.toClient| >= 2, w.env, w'.env, w.connected);
    RepliesAreShort(w.fromClient, |w.toClient| >= 2, w.env, w.connected);
  }

  // The handshake is over and the relay is about to start.
  ghost predicate Readied(c: Conn, w: Wire) {
    && c.state.ProxyingRequests? && |c.slot| == BUFFER_SIZE && c.awaiting == 0 && !c.failed && c.fd >= 0
    && Sound(w) && |w.toClient| <= 24 && HandshakeDone(c, w)
  }

  lemma ProxyingStarts(cfg: Config, c: Conn, c': Conn, w: Wire, env: Env) returns (out: Outcome)
    requires !c.state.ProxyingRequests? && Onward(c, c') && Readied(c', w)
    ensures out == Settled(StartProxying(cfg, c', env)) && SettledOk(cfg, c, out, w, IDLE)
  {
    var down := DestinationReadRequest(cfg, c');
    var up := if c'.readBuffer == [] then ClientReadRequest(cfg, c') else DestinationWriteRequest(cfg, c', 0, 0);
    var c1 := ProxyingRequested(cfg, c', w, env, up, down);
    out := Keep(c1, [down, up]);
    ProxyingIsOk(cfg, c1, w, Lanes(Some(up), Some(down)));
    TwoRequestsSettle(cfg, c, c1, w, up, down);
  }

  lemma TwoRequestsSettle(cfg: Config, c: Conn, c': Conn, w: Wire, up: Request, down: Request)
    requires !c.state.ProxyingRequests? && Same(c, c') && LaneOf(up.kind).Upward? && LaneOf(down.kind).Downward?
    requires ProxyOk(cfg, c', w, Lanes(Some(up), Some(down)))
    ensures SettledOk(cfg, c, Keep(c', [down, up]), w, IDLE)
  {
    PlaceTwo(IDLE, down, up);
  }

  lemma ProxyingRequested(cfg: Config, c: Conn, w: Wire, env: Env, up: Request, down: Request) returns (c': Conn)
    requires Readied(c, w) && down == DestinationReadRequest(cfg, c)
    requires up == if c.readBuffer == [] then ClientReadRequest(cfg, c) else DestinationWriteRequest(cfg, c, 0, 0)
    ensures StartProxying(cfg, c, env) == Keep(c', [down, up])
    ensures c' == c.(awaiting := 2, threshold := 1, toDestination := c'.toDestination) && UpRequest(cfg, c', up)
    ensures LaneOf(up.kind).Upward? && LaneOf(down.kind).Downward?
  {
    c' := StartProxying(cfg, c, env).conn;
  }

  lemma ProxyingIsOk(cfg: Config, c: Conn, w: Wire, f: Lanes)
    requires c.state.ProxyingRequests? && |c.slot| == BUFFER_SIZE && c.awaiting == 2 && !c.failed && c.fd >= 0
    requires Sound(w) && |w.toClient| <= 24 && HandshakeDone(c, w)
    requires f.up.Some? && UpRequest(cfg, c, f.up.value) && (Writes(f.up.value.kind) ==> f.up.value.len == f.up.value.offset == 0)
    requires f.down == Some(DestinationReadRequest(cfg, c))
    ensures ProxyOk(cfg, c, w, f)
  {
  }
}
