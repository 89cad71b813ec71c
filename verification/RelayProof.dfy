/**
 The relay: completions of a session that is proxying, and with them the step
 theorem of a single session.
 */
module RelayProof {
  import opened Socks5
  import opened SessionSpec
  import opened OneShot
  import opened Wire
  import opened HandshakeProof
  import opened SessionProof

  // The request of lane lane completes while the session is proxying.
  ghost predicate Relaying(cfg: Config, c: Conn, w: Wire, f: Lanes, lane: Lane, res: Result) {
    RelayPart(cfg, c, w, f) && At(f, lane).Some? && Answers(At(f, lane).value, res)
  }

  lemma RequestsInSlot(cfg: Config, c: Conn, w: Wire, f: Lanes, lane: Lane, res: Result)
    requires Relaying(cfg, c, w, f, lane, res)
    ensures var q := At(f, lane).value;
            LaneOf(q.kind) == lane && q.start + q.offset + q.len <= BUFFER_SIZE && Moved(res) <= q.len
  {
  }

  // What a completion makes of the session and of the record, in one lane.
  ghost predicate Exchanged(cfg: Config, c: Conn, w: Wire, f: Lanes, lane: Lane, c': Conn, w': Wire, qs: seq<Request>) {
    && Same(c, c') && c'.readBuffer == c.readBuffer && c'.asked == c.asked && (c'.failed || c'.destination == c.destination)
    && w' == w.(up := w'.up, down := w'.down, broken := w'.broken)
    && |qs| <= 1 && (forall q | q in qs :: LaneOf(q.kind) == lane)
    && RelayPart(cfg, c', w', if qs == [] then Clear(f, lane) else Place(f, qs[0]))
  }

  // One request is exchanged for the next of its lane.
  lemma ExchangedOk(cfg: Config, c: Conn, w: Wire, f: Lanes, lane: Lane, c': Conn, w': Wire, q': Request)
    requires RelayPart(cfg, c, w, f) && !c.failed && LaneOf(q'.kind) == lane
    requires c' == c.(slot := c'.slot, toClient := c'.toClient, toDestination := c'.toDestination) && |c'.slot| == BUFFER_SIZE
    requires w' == w.(up := w'.up, down := w'.down) && (cfg.root ==> !w'.up.mixed && !w'.down.mixed)
    requires lane.Upward? ==> UpRequest(cfg, c', q') && c'.toClient == c.toClient
    requires lane.Downward? ==> DownRequest(cfg, c', q') && c'.toDestination == c.toDestination
    requires Flow(cfg, w'.up, if lane.Upward? then Some(q') else f.up, c'.slot)
    requires Flow(cfg, w'.down, if lane.Downward? then Some(q') else f.down, c'.slot)
    ensures Exchanged(cfg, c, w, f, lane, c', w', [q'])
  {
  }

  lemma RelaySettled(cfg: Config, c: Conn, w: Wire, f: Lanes, lane: Lane, c': Conn, w': Wire, qs: seq<Request>)
    requires ProxyOk(cfg, c, w, f) && !c.failed && Exchanged(cfg, c, w, f, lane, c', w', qs)
    ensures SettledOk(cfg, c, Keep(c', qs), w', Clear(f, lane))
  {
    PlaceOne(Clear(f, lane), qs);
  }

  // The last request of a failed session: whatever it reports, the session goes.
  lemma LastCompletion(cfg: Config, c: Conn, w: Wire, f: Lanes, lane: Lane, res: Result, env: Env)
    requires Relaying(cfg, c, w, f, lane, res) && c.failed
    ensures var q := At(f, lane).value;
            && q.start + q.offset + Moved(res) <= |c.slot| && Clear(f, lane) == IDLE
            && Settle(cfg, c, q, q.kind, res, env) == Drop(Filled(c, q, res).(awaiting := 0), [])
  {
    RequestsInSlot(cfg, c, w, f, lane, res);
  }

  lemma FailureSettlesRelay(cfg: Config, c: Conn, q: Request, res: Result, env: Env)
    requires |c.slot| == BUFFER_SIZE && q.start + q.offset + Moved(res) <= |c.slot| && c.fd >= 0 && !c.failed
    requires res.Failed? || (res == Received([]) && Reads(q.kind))
    requires c.awaiting == 2
    ensures Settle(cfg, c, q, q.kind, res, env)
            == Keep(c.(awaiting := 1, failed := true, destination := None, fd := -1), [])
  {
    if res.Received? {
      assert Splice(c.slot, q.start, []) == c.slot;
    }
  }

  lemma RelayFailure(cfg: Config, c: Conn, w: Wire, f: Lanes, lane: Lane, res: Result, env: Env)
    returns (c': Conn, w': Wire)
    requires Relaying(cfg, c, w, f, lane, res) && !c.failed
    requires res.Failed? || res == Received([])
    ensures var q := At(f, lane).value;
            && q.start + q.offset + Moved(res) <= |c.slot|
            && Settle(cfg, c, q, q.kind, res, env) == Keep(c', []) && Observe(cfg, c, w, q, res, env) == w'
    ensures Exchanged(cfg, c, w, f, lane, c', w', [])
  {
    RequestsInSlot(cfg, c, w, f, lane, res);
    FailureSettlesRelay(cfg, c, At(f, lane).value, res, env);
    c', w' := c.(awaiting := 1, failed := true, destination := None, fd := -1), w.(broken := true);
    FlowEnds(cfg, w.up, f.up, c.slot);
    FlowEnds(cfg, w.down, f.down, c.slot);
  }

  lemma FlowEnds(cfg: Config, s: Stream, q: Option<Request>, slot: seq<byte>)
    requires Flow(cfg, s, q, slot)
    ensures Flow(cfg, s, None, slot)
  {
  }

  // What the handlers make of a completion, for a session in the middle of
  // relaying: one request is exchanged for the next one of the same lane.
  ghost predicate Busy(c: Conn) {
    c.state.ProxyingRequests? && |c.slot| == BUFFER_SIZE && c.awaiting == 2 && !c.failed && c.destination.Some?
  }

  // ------------------------------------------------------------------
  // The flow of one direction
  // ------------------------------------------------------------------

  // The direction itself has been read: the chunk lies where its write starts.
  lemma ReadFlows(cfg: Config, s: Stream, read: Request, slot: seq<byte>, d: seq<byte>, write: Request, slot': seq<byte>)
    requires Flow(cfg, s, Some(read), slot) && Reads(read.kind) && Writes(write.kind)
    requires write.offset == 0 && write.len == |d| && write.start + |d| <= |slot'|
    requires slot'[write.start..write.start + |d|] == d
    ensures Flow(cfg, s.(received := s.received + d), Some(write), slot')
  {
  }

  // One piece of a relay write is out, and what is left of it, or the next read.
  lemma PieceFlows(cfg: Config, c: Conn, s: Stream, q: Request, n: nat, next: Request)
    requires Flow(cfg, s, Some(q), c.slot) && Writes(q.kind) && n <= q.len && q.start + q.offset + q.len <= |c.slot|
    requires if n == q.len then Reads(next.kind) else next == q.(offset := q.offset + n, len := q.len - n)
    ensures Flow(cfg, Relayed(cfg, c, s, q, n), Some(next), c.slot)
  {
    var s' := Relayed(cfg, c, s, q, n);
    assert |s'.sent| == |s.sent| + n;
    if (cfg.offsetMoves || !s'.partial) && !s'.mixed {
      var from := q.start + q.offset;
      assert OnWire(cfg, c, q, n) == c.slot[from..from + n];
      PieceFaithful(s, q, n, next, c.slot, s');
    }
  }

  lemma PieceFaithful(s: Stream, q: Request, n: nat, next: Request, slot: seq<byte>, s': Stream)
    requires Faithful(s, Some(q), slot) && Writes(q.kind) && n <= q.len && q.start + q.offset + q.len <= |slot|
    requires if n == q.len then Reads(next.kind) else next == q.(offset := q.offset + n, len := q.len - n)
    requires s'.sent == s.sent + slot[q.start + q.offset..q.start + q.offset + n] && s'.received == s.received
    ensures Faithful(s', Some(next), slot)
  {
    PieceOut(s.sent, slot, q.start + q.offset, n, q.len, s.received);
  }

  lemma PieceOut(sent: seq<byte>, slot: seq<byte>, from: nat, n: nat, len: nat, received: seq<byte>)
    requires n <= len && from + len <= |slot| && sent + slot[from..from + len] == received
    ensures (sent + slot[from..from + n]) + slot[from + n..from + len] == received
    ensures n == len ==> sent + slot[from..from + n] == received
  {
    assert slot[from..from + len] == slot[from..from + n] + slot[from + n..from + len];
  }

  // The other direction has been read: its bytes land at position at.
  lemma OverrunFlows(cfg: Config, s: Stream, q: Request, slot: seq<byte>, start: nat, chunk: Chunk, at: nat, d: seq<byte>)
    requires Flow(cfg, s, Some(q), slot) && at + |d| <= |slot|
    requires Writes(q.kind) ==> q.start == start && q.offset == chunk.offset && q.offset + q.len == chunk.size
    requires Writes(q.kind) ==> start + chunk.size <= |slot|
    ensures Flow(cfg, Overrun(s, start, chunk, at, |d|), Some(q), Splice(slot, at, d))
  {
    var s' := Overrun(s, start, chunk, at, |d|);
    if (cfg.offsetMoves || !s'.partial) && !s'.mixed && Writes(q.kind) {
      var from := q.start + q.offset;
      SpliceKeeps(slot, at, d, from, from + q.len);
    }
  }

  lemma SpliceKeeps(m: seq<byte>, at: nat, d: seq<byte>, from: nat, to: nat)
    requires at + |d| <= |m| && from <= to <= |m| && (from == to || d == [] || to <= at || at + |d| <= from)
    ensures Splice(m, at, d)[from..to] == m[from..to]
  {
    var m' := Splice(m, at, d);
    forall k | from <= k < to
      ensures m'[k] == m[k]
    {
    }
  }

  // ------------------------------------------------------------------
  // Client to destination
  // ------------------------------------------------------------------

  lemma UpReadSettles(cfg: Config, c: Conn, q: Request, d: seq<byte>, env: Env)
    requires Busy(c) && q == ClientReadRequest(cfg, c) && 0 < |d| <= q.len
    ensures Settle(cfg, c, q, q.kind, Received(d), env)
            == Keep(c.(slot := Splice(c.slot, 0, d), toDestination := Chunk(|d|, 0)), [DestinationWriteRequest(cfg, c, |d|, 0)])
  {
  }

  lemma UpWriteSettles(cfg: Config, c: Conn, q: Request, n: nat, env: Env)
    requires Busy(c) && c.toDestination.offset <= c.toDestination.size <= BUFFER_SIZE
    requires q == DestinationWriteRequest(cfg, c, c.toDestination.size - c.toDestination.offset, c.toDestination.offset)
    requires n <= q.len
    ensures Settle(cfg, c, q, q.kind, Sent(n), env)
            == if n == q.len then Keep(c, [ClientReadRequest(cfg, c)])
               else Keep(c.(toDestination := c.toDestination.(offset := q.offset + n)),
                         [DestinationWriteRequest(cfg, c, q.len - n, q.offset + n)])
  {
  }

  lemma UpRead(cfg: Config, c: Conn, w: Wire, f: Lanes, d: seq<byte>, env: Env) returns (c': Conn, w': Wire, q': Request)
    requires Relaying(cfg, c, w, f, Upward, Received(d)) && !c.failed && d != []
    ensures var q := f.up.value;
            && q.start + q.offset + |d| <= |c.slot|
            && Settle(cfg, c, q, q.kind, Received(d), env) == Keep(c', [q']) && Observe(cfg, c, w, q, Received(d), env) == w'
    ensures Exchanged(cfg, c, w, f, Upward, c', w', [q'])
  {
    UpReadSettles(cfg, c, f.up.value, d, env);
    c', q' := c.(slot := Splice(c.slot, 0, d), toDestination := Chunk(|d|, 0)), DestinationWriteRequest(cfg, c, |d|, 0);
    w' := Observe(cfg, c, w, f.up.value, Received(d), env);
    assert c'.slot[..|d|] == d;
    ReadFlows(cfg, w.up, f.up.value, c.slot, d, q', c'.slot);
    OverrunFlows(cfg, w.down, f.down.value, c.slot, HALF_BUFFER_SIZE, c.toClient, 0, d);
    ExchangedOk(cfg, c, w, f, Upward, c', w', q');
  }

  lemma UpWrite(cfg: Config, c: Conn, w: Wire, f: Lanes, n: nat, env: Env) returns (c': Conn, w': Wire, q': Request)
    requires Relaying(cfg, c, w, f, Upward, Sent(n)) && !c.failed
    ensures var q := f.up.value;
            && q.start + q.offset + n <= |c.slot|
            && Settle(cfg, c, q, q.kind, Sent(n), env) == Keep(c', [q']) && Observe(cfg, c, w, q, Sent(n), env) == w'
    ensures Exchanged(cfg, c, w, f, Upward, c', w', [q'])
  {
    c', q' := UpPiece(cfg, c, w, f, n);
    UpWriteSettles(cfg, c, f.up.value, n, env);
    w' := Observe(cfg, c, w, f.up.value, Sent(n), env);
  }

  // The piece is out: what is left of the chunk is asked for, or the next read.
  lemma UpPiece(cfg: Config, c: Conn, w: Wire, f: Lanes, n: nat) returns (c': Conn, q': Request)
    requires Relaying(cfg, c, w, f, Upward, Sent(n)) && !c.failed
    ensures var q := f.up.value;
            && q.start + q.offset + n <= |c.slot|
            && (if n == q.len then c' == c && q' == ClientReadRequest(cfg, c)
                else && c' == c.(toDestination := c.toDestination.(offset := q.offset + n))
                     && q' == DestinationWriteRequest(cfg, c, q.len - n, q.offset + n))
            && Exchanged(cfg, c, w, f, Upward, c', w.(up := Relayed(cfg, c, w.up, q, n)), [q'])
  {
    var q := f.up.value;
    if n == q.len {
      c', q' := c, ClientReadRequest(cfg, c);
    } else {
      c' := c.(toDestination := c.toDestination.(offset := q.offset + n));
      q' := DestinationWriteRequest(cfg, c, q.len - n, q.offset + n);
    }
    PieceFlows(cfg, c, w.up, q, n, q');
    ExchangedOk(cfg, c, w, f, Upward, c', w.(up := Relayed(cfg, c, w.up, q, n)), q');
  }

  // ------------------------------------------------------------------
  // Destination to client
  // ------------------------------------------------------------------

  lemma DownReadSettles(cfg: Config, c: Conn, q: Request, d: seq<byte>, env: Env)
    requires Busy(c) && q == DestinationReadRequest(cfg, c) && 0 < |d| <= q.len
    ensures Settle(cfg, c, q, q.kind, Received(d), env)
            == Keep(c.(slot := Splice(c.slot, HALF_BUFFER_SIZE, d), toClient := Chunk(|d|, 0)),
                    [ClientWriteRequest(cfg, c, |d|, 0)])
  {
  }

  lemma DownWriteSettles(cfg: Config, c: Conn, q: Request, n: nat, env: Env)
    requires Busy(c) && c.toClient.offset <= c.toClient.size <= HALF_BUFFER_SIZE
    requires q == ClientWriteRequest(cfg, c, c.toClient.size - c.toClient.offset, c.toClient.offset)
    requires n <= q.len
    ensures Settle(cfg, c, q, q.kind, Sent(n), env)
            == if n == q.len then Keep(c, [DestinationReadRequest(cfg, c)])
               else Keep(c.(toClient := c.toClient.(offset := q.offset + n)),
                         [ClientWriteRequest(cfg, c, q.len - n, q.offset + n)])
  {
  }

  lemma DownRead(cfg: Config, c: Conn, w: Wire, f: Lanes, d: seq<byte>, env: Env) returns (c': Conn, w': Wire, q': Request)
    requires Relaying(cfg, c, w, f, Downward, Received(d)) && !c.failed && d != []
    ensures var q := f.down.value;
            && q.start + q.offset + |d| <= |c.slot|
            && Settle(cfg, c, q, q.kind, Received(d), env) == Keep(c', [q']) && Observe(cfg, c, w, q, Received(d), env) == w'
    ensures Exchanged(cfg, c, w, f, Downward, c', w', [q'])
  {
    DownReadSettles(cfg, c, f.down.value, d, env);
    c' := c.(slot := Splice(c.slot, HALF_BUFFER_SIZE, d), toClient := Chunk(|d|, 0));
    q' := ClientWriteRequest(cfg, c, |d|, 0);
    w' := Observe(cfg, c, w, f.down.value, Received(d), env);
    assert c'.slot[HALF_BUFFER_SIZE..HALF_BUFFER_SIZE + |d|] == d;
    ReadFlows(cfg, w.down, f.down.value, c.slot, d, q', c'.slot);
    OverrunFlows(cfg, w.up, f.up.value, c.slot, 0, c.toDestination, HALF_BUFFER_SIZE, d);
    ExchangedOk(cfg, c, w, f, Downward, c', w', q');
  }

  lemma DownWrite(cfg: Config, c: Conn, w: Wire, f: Lanes, n: nat, env: Env) returns (c': Conn, w': Wire, q': Request)
    requires Relaying(cfg, c, w, f, Downward, Sent(n)) && !c.failed
    ensures var q := f.down.value;
            && q.start + q.offset + n <= |c.slot|
            && Settle(cfg, c, q, q.kind, Sent(n), env) == Keep(c', [q']) && Observe(cfg, c, w, q, Sent(n), env) == w'
    ensures Exchanged(cfg, c, w, f, Downward, c', w', [q'])
  {
    c', q' := DownPiece(cfg, c, w, f, n);
    DownWriteSettles(cfg, c, f.down.value, n, env);
    w' := Observe(cfg, c, w, f.down.value, Sent(n), env);
  }

  lemma DownPiece(cfg: Config, c: Conn, w: Wire, f: Lanes, n: nat) returns (c': Conn, q': Request)
    requires Relaying(cfg, c, w, f, Downward, Sent(n)) && !c.failed
    ensures var q := f.down.value;
            && q.start + q.offset + n <= |c.slot|
            && (if n == q.len then c' == c && q' == DestinationReadRequest(cfg, c)
                else && c' == c.(toClient := c.toClient.(offset := q.offset + n))
                     && q' == ClientWriteRequest(cfg, c, q.len - n, q.offset + n))
            && Exchanged(cfg, c, w, f, Downward, c', w.(down := Relayed(cfg, c, w.down, q, n)), [q'])
  {
    var q := f.down.value;
    if n == q.len {
      c', q' := c, DestinationReadRequest(cfg, c);
    } else {
      c' := c.(toClient := c.toClient.(offset := q.offset + n));
      q' := ClientWriteRequest(cfg, c, q.len - n, q.offset + n);
    }
    PieceFlows(cfg, c, w.down, q, n, q');
    ExchangedOk(cfg, c, w, f, Downward, c', w.(down := Relayed(cfg, c, w.down, q, n)), q');
  }

  // What a completion of a relay comes to.
  lemma RelayStep(cfg: Config, c: Conn, w: Wire, f: Lanes, lane: Lane, res: Result, env: Env)
    returns (out: Outcome, w': Wire)
    requires ProxyOk(cfg, c, w, f) && Relaying(cfg, c, w, f, lane, res)
    ensures var q := At(f, lane).value;
            && q.start + q.offset + Moved(res) <= |c.slot|
            && Settle(cfg, c, q, q.kind, res, env) == out && Observe(cfg, c, w, q, res, env) == w'
    ensures SettledOk(cfg, c, out, w', Clear(f, lane))
  {
    RequestsInSlot(cfg, c, w, f, lane, res);
    w' := Observe(cfg, c, w, At(f, lane).value, res, env);
    if c.failed {
      LastCompletion(cfg, c, w, f, lane, res, env);
      out := Drop(Filled(c, At(f, lane).value, res).(awaiting := 0), []);
    } else {
      var c', qs := RelayExchange(cfg, c, w, f, lane, res, env, w');
      RelaySettled(cfg, c, w, f, lane, c', w', qs);
      out := Keep(c', qs);
    }
  }

  lemma RelayExchange(cfg: Config, c: Conn, w: Wire, f: Lanes, lane: Lane, res: Result, env: Env, w': Wire)
    returns (c': Conn, qs: seq<Request>)
    requires Relaying(cfg, c, w, f, lane, res) && !c.failed
    requires var q := At(f, lane).value; q.start + q.offset + Moved(res) <= |c.slot| && w' == Observe(cfg, c, w, q, res, env)
    ensures var q := At(f, lane).value; Settle(cfg, c, q, q.kind, res, env) == Keep(c', qs)
    ensures Exchanged(cfg, c, w, f, lane, c', w', qs)
  {
    if res.Failed? || res == Received([]) {
      var w1;
      c', w1 := RelayFailure(cfg, c, w, f, lane, res, env);
      qs := [];
    } else {
      var w1, q';
      if lane.Upward? {
        match res
        case Received(d) => c', w1, q' := UpRead(cfg, c, w, f, d, env);
        case Sent(n) => c', w1, q' := UpWrite(cfg, c, w, f, n, env);
      } else {
        match res
        case Received(d) => c', w1, q' := DownRead(cfg, c, w, f, d, env);
        case Sent(n) => c', w1, q' := DownWrite(cfg, c, w, f, n, env);
      }
      qs := [q'];
    }
  }

  // ------------------------------------------------------------------
  // The step theorem of a single session
  // ------------------------------------------------------------------

  ghost predicate Completes(cfg: Config, c: Conn, w: Wire, f: Lanes, lane: Lane, res: Result) {
    SessionOk(cfg, c, w, f) && At(f, lane).Some? && Answers(At(f, lane).value, res)
  }

  lemma InSlot(cfg: Config, c: Conn, w: Wire, f: Lanes, lane: Lane, res: Result)
    requires Completes(cfg, c, w, f, lane, res)
    ensures var q := At(f, lane).value;
            LaneOf(q.kind) == lane && q.start + q.offset + q.len <= BUFFER_SIZE == |c.slot| && Moved(res) <= q.len
  {
    if c.state.ProxyingRequests? {
      RequestsInSlot(cfg, c, w, f, lane, res);
    } else {
      HandshakeInSlot(cfg, c, ViewOf(w), w.toClient, At(f, lane).value);
    }
  }

  lemma HandshakeInSlot(cfg: Config, c: Conn, v: View, toClient: seq<byte>, q: Request)
    requires Follows(cfg, c, v, toClient, Some(q))
    ensures q.start + q.offset + q.len <= BUFFER_SIZE == |c.slot|
  {
  }

  lemma OnlyRequest(cfg: Config, c: Conn, w: Wire, f: Lanes, lane: Lane, res: Result)
    requires Completes(cfg, c, w, f, lane, res) && !c.state.ProxyingRequests?
    ensures Clear(f, lane) == IDLE && Handshaking(cfg, c, w, At(f, lane).value, res)
  {
  }

  // Whatever completes, and however it ends, the session's invariant holds
  // again with the requests the handler has submitted; or the session is
  // deleted, with nothing left in flight; or the program stops, for the one
  // reason Wrecks names.
  lemma {:induction false} SessionStep(cfg: Config, c: Conn, w: Wire, f: Lanes, lane: Lane, res: Result, env: Env)
    requires Completes(cfg, c, w, f, lane, res)
    ensures var q := At(f, lane).value;
            && q.start + q.offset + Moved(res) <= |c.slot|
            && SettledOk(cfg, c, Settle(cfg, c, q, q.kind, res, env), Observe(cfg, c, w, q, res, env), Clear(f, lane))
  {
    InSlot(cfg, c, w, f, lane, res);
    var q := At(f, lane).value;
    if c.state.ProxyingRequests? {
      var out, w' := RelayStep(cfg, c, w, f, lane, res, env);
    } else {
      OnlyRequest(cfg, c, w, f, lane, res);
      match res
      case Failed => HandshakeFailure(cfg, c, w, q, res, env);
      case Received(d) =>
        if d == [] { HandshakeFailure(cfg, c, w, q, res, env); } else { HandshakeRead(cfg, c, w, q, d, env); }
      case Sent(n) => HandshakeWrite(cfg, c, w, q, n, env);
      case Connected => HandshakeConnect(cfg, c, w, q, env);
    }
  }
}
