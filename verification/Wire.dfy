/**
 What an outside observer of one connection has seen. The record is kept beside
 the session and nothing in the session depends on it: theorems compare the two.
 */
module Wire {
  import opened Socks5
  import opened SessionSpec

  // One direction of the relay: bytes read at one end, bytes written at the
  // other, whether a write was ever cut short part-way through its bytes, and
  // whether bytes of the other direction ever landed on some still to be written.
  datatype Stream = Stream(received: seq<byte>, sent: seq<byte>, partial: bool, mixed: bool)

  datatype Wire = Wire(
    // before proxying: what the client sent and what it was sent
    fromClient: seq<byte>,
    toClient: seq<byte>,
    // the outside world's answers at the last step before the connect
    env: Env,
    connected: bool,
    // a request failed or a peer closed its end
    broken: bool,
    // handshake completions: reads, writes, writes that moved nothing, connects
    readCount: nat,
    writeCount: nat,
    idleCount: nat,
    connectCount: nat,
    // while proxying: from the client to the destination, and back
    up: Stream,
    down: Stream
  )

  const STILL := Stream([], [], false, false)

  const SILENCE: Wire := Wire([], [], QUIET, false, false, 0, 0, 0, 0, STILL, STILL)

  function Relayed(cfg: Config, c: Conn, s: Stream, q: Request, n: nat): Stream
    requires q.start + q.offset + n <= |c.slot|
  {
    s.(sent := s.sent + OnWire(cfg, c, q, n), partial := s.partial || 0 < n < q.len)
  }

  // n bytes land at position at of the slot: do they hit the unsent bytes of the
  // chunk that lies at position start?
  function Overrun(s: Stream, start: nat, chunk: Chunk, at: nat, n: nat): Stream {
    s.(mixed := s.mixed
                || (|s.sent| < |s.received| && start + chunk.offset < at + n && at < start + chunk.size))
  }

  function Observe(cfg: Config, c: Conn, w: Wire, q: Request, res: Result, env: Env): Wire
    requires q.start + q.offset + Moved(res) <= |c.slot|
  {
    match res
    case Failed => w.(broken := true)
    case Received(data) =>
      if !c.state.ProxyingRequests? then
        if data == [] then w.(broken := true, readCount := w.readCount + 1)
        else w.(fromClient := w.fromClient + data, readCount := w.readCount + 1, env := EnvAfter(c, w, env))
      else if data == [] then w.(broken := true)
      else if q.kind.ClientRead? then
        w.(up := w.up.(received := w.up.received + data), down := Overrun(w.down, HALF_BUFFER_SIZE, c.toClient, 0, |data|))
      else
        w.(down := w.down.(received := w.down.received + data),
           up := Overrun(w.up, 0, c.toDestination, HALF_BUFFER_SIZE, |data|))
    case Sent(n) =>
      if !c.state.ProxyingRequests? then
        w.(toClient := w.toClient + OnWire(cfg, c, q, n), writeCount := w.writeCount + 1,
           idleCount := w.idleCount + if n == 0 then 1 else 0, env := EnvAfter(c, w, env))
      else if q.kind.DestinationWrite? then w.(up := Relayed(cfg, c, w.up, q, n))
      else w.(down := Relayed(cfg, c, w.down, q, n))
    case Connected => w.(connected := true, connectCount := w.connectCount + 1)
  }

  function EnvAfter(c: Conn, w: Wire, env: Env): Env {
    if PreConnect(c.state) && !c.failed then env else w.env
  }
}
