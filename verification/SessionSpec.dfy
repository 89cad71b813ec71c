/**
 What every operation of a session does, as functions on the values of its
 fields. The class Server.Session carries out the same operations in place and
 is proved against these functions; what they achieve is proved in
 HandshakeProof, SessionProof, RelayProof and Safety, and stated for whole runs
 in the modules of guarantees.

 An operation ends in Keep (the listed requests have been submitted and the
 session lives on), Drop (they have been submitted and it is deleted) or Crash.
 A crash stands for the places where the program would stop or leave its own
 memory: a failed assertion, a null destination socket, closing descriptor -1,
 an index or an erase past the end of a vector, an unsigned subtraction below
 zero, a completion for a session that is gone.
 */
module SessionSpec {
  import opened Socks5

  datatype Config = Config(
    connections: nat,
    // registered buffers are used (the process runs as root)
    root: bool,
    // does a write start "offset" bytes into the buffer? The requests carry the
    // offset in a field that sockets ignore (false); true is the reading under
    // which the field is the position in the buffer it looks like.
    offsetMoves: bool
  )

  datatype EventType =
    | ClientAccept | ClientRead | ClientWrite
    | DestinationConnect | DestinationRead | DestinationWrite

  // A request as the kernel sees it: start and len delimit the memory it was
  // given inside the session's slot, iovec is the registered buffer it names.
  datatype Request = Request(kind: EventType, start: nat, len: nat, offset: nat, iovec: Option<nat>)

  datatype Fault =
    | AssertionFailed | NullSocket | BadDescriptor | OutOfBounds | Underflow | NoFreeEvent | Dangling

  // The fields that the readers fill from the client's messages.
  datatype Asked = Asked(
    methodsCount: nat,
    authMethod: byte,
    addressType: byte,
    domainLength: nat,
    domainName: seq<byte>,
    ipv4: Ipv4,
    ipv6: Ipv6,
    port: Port
  )

  // The write size and write offset of one direction of the relay.
  datatype Chunk = Chunk(size: nat, offset: nat)

  datatype Conn = Conn(
    fd: int,
    state: State,
    awaiting: nat,
    slotIndex: nat,
    slot: seq<byte>,
    threshold: nat,
    readBuffer: seq<byte>,
    writeBuffer: seq<byte>,
    asked: Asked,
    destination: Option<Endpoint>,
    toClient: Chunk,
    toDestination: Chunk,
    failed: bool
  )

  datatype Outcome = Keep(conn: Conn, requests: seq<Request>) | Drop(conn: Conn, requests: seq<Request>) | Crash(fault: Fault)

  const NO_IPV4: Ipv4 := [0, 0, 0, 0]
  const NO_IPV6: Ipv6 := [0, 0, 0, 0, 0, 0, 0, 0, 0, 0, 0, 0, 0, 0, 0, 0]
  const NO_PORT: Port := [0, 0]

  const NOTHING_ASKED := Asked(0, 0, 0, 0, [], NO_IPV4, NO_IPV6, NO_PORT)

  function NewConn(fd: int, slotIndex: nat, slot: seq<byte>): Conn {
    Conn(fd, ReadingClientGreeting, 0, slotIndex, slot, 0, [], [], NOTHING_ASKED, None, Chunk(0, 0), Chunk(0, 0), false)
  }

  // ------------------------------------------------------------------
  // Requests
  // ------------------------------------------------------------------

  function Fixed(cfg: Config, iovec: nat): Option<nat> {
    if cfg.root then Some(iovec) else None
  }

  function ClientReadRequest(cfg: Config, c: Conn): Request {
    Request(ClientRead, 0, if cfg.root then HALF_BUFFER_SIZE else BUFFER_SIZE, 0, Fixed(cfg, 2 * c.slotIndex))
  }

  function ClientWriteRequest(cfg: Config, c: Conn, nbytes: nat, offset: nat): Request {
    Request(ClientWrite, HALF_BUFFER_SIZE, nbytes, offset, Fixed(cfg, 2 * c.slotIndex + 1))
  }

  function ConnectRequest(): Request {
    Request(DestinationConnect, 0, 0, 0, None)
  }

  function DestinationReadRequest(cfg: Config, c: Conn): Request {
    Request(DestinationRead, HALF_BUFFER_SIZE, HALF_BUFFER_SIZE, 0, Fixed(cfg, 2 * c.slotIndex + 1))
  }

  function DestinationWriteRequest(cfg: Config, c: Conn, nbytes: nat, offset: nat): Request {
    Request(DestinationWrite, 0, nbytes, offset, Fixed(cfg, 2 * c.slotIndex))
  }

  function Counted(c: Conn): Conn { c.(awaiting := c.awaiting + 1) }

  function AddClientRead(cfg: Config, c: Conn): Outcome {
    Keep(Counted(c), [ClientReadRequest(cfg, c)])
  }

  function AddClientWrite(cfg: Config, c: Conn, nbytes: nat, offset: nat): Outcome {
    Keep(Counted(c), [ClientWriteRequest(cfg, c, nbytes, offset)])
  }

  // The one request that is not counted.
  function AddDestinationConnect(cfg: Config, c: Conn): Outcome {
    if c.destination.None? then Crash(NullSocket) else Keep(c, [ConnectRequest()])
  }

  function AddDestinationRead(cfg: Config, c: Conn): Outcome {
    if c.destination.None? then Crash(NullSocket) else Keep(Counted(c), [DestinationReadRequest(cfg, c)])
  }

  function AddDestinationWrite(cfg: Config, c: Conn, nbytes: nat, offset: nat): Outcome {
    if c.destination.None? then Crash(NullSocket)
    else Keep(Counted(c), [DestinationWriteRequest(cfg, c, nbytes, offset)])
  }

  // ------------------------------------------------------------------
  // Failing and replying
  // ------------------------------------------------------------------

  function FailDelayed(c: Conn): Conn { c.(failed := true, destination := None) }

  function FailImmediately(c: Conn): Outcome {
    if c.fd == -1 then Crash(BadDescriptor) else Keep(FailDelayed(c).(fd := -1), [])
  }

  function WriteToClient(cfg: Config, c: Conn): Outcome {
    var count := if |c.writeBuffer| < HALF_BUFFER_SIZE then |c.writeBuffer| else HALF_BUFFER_SIZE;
    if |c.slot| < HALF_BUFFER_SIZE + count then Crash(OutOfBounds)
    else AddClientWrite(cfg, c.(slot := Splice(c.slot, HALF_BUFFER_SIZE, c.writeBuffer[..count])), count, 0)
  }

  function SendFailMessage(cfg: Config, c: Conn, code: byte): Outcome {
    WriteToClient(cfg, FailDelayed(c).(writeBuffer := FailureReply(code)))
  }

  function Consume(c: Conn, n: nat): Conn
    requires n <= |c.readBuffer|
  {
    c.(readBuffer := c.readBuffer[n..])
  }

  // ------------------------------------------------------------------
  // Reading the handshake
  // ------------------------------------------------------------------

  function Rank(state: State): (r: nat)
    ensures r <= 6
  {
    match state
    case ReadingClientGreeting => 0
    case ReadingAuthMethods => 1
    case ReadingClientConnectionRequest => 2
    case ReadingDomainNameLength => 3
    case ReadingAddress => 4
    case ConnectingToDestination => 5
    case ProxyingRequests => 6
  }

  function ReadSomeFromClient(cfg: Config, c: Conn, n: nat, env: Env): Outcome
    decreases 7 - Rank(c.state), 4
  {
    var c' := c.(threshold := n);
    if |c'.readBuffer| >= n then HandleClientRead(cfg, c', 0, env) else AddClientRead(cfg, c')
  }

  function HandleClientRead(cfg: Config, c: Conn, nread: nat, env: Env): Outcome
    decreases 7 - Rank(c.state), 3
  {
    if c.state == ProxyingRequests then
      AddDestinationWrite(cfg, c.(toDestination := Chunk(nread, 0)), nread, 0)
    else if |c.slot| < nread then Crash(OutOfBounds)
    else
      var c' := c.(readBuffer := c.readBuffer + c.slot[..nread]);
      if |c'.readBuffer| < c'.threshold then AddClientRead(cfg, c') else ReadMessage(cfg, c', env)
  }

  function ReadMessage(cfg: Config, c: Conn, env: Env): Outcome
    decreases 7 - Rank(c.state), 2
  {
    match c.state
    case ReadingClientGreeting => ReadClientGreeting(cfg, c, env)
    case ReadingAuthMethods => ReadAuthMethods(cfg, c)
    case ReadingClientConnectionRequest => ReadClientConnectionRequest(cfg, c, env)
    case ReadingDomainNameLength => ReadDomainNameLength(cfg, c, env)
    case ReadingAddress => ReadAddress(cfg, c, env)
    case _ => Crash(AssertionFailed)
  }

  function ReadClientGreeting(cfg: Config, c: Conn, env: Env): Outcome
    requires c.state == ReadingClientGreeting
    decreases 7 - Rank(c.state), 1
  {
    if |c.readBuffer| < 2 then Crash(OutOfBounds)
    else if c.readBuffer[0] != 5 then FailImmediately(c)
    else
      var count := c.readBuffer[1] as nat;
      if count == 0 then FailImmediately(c.(asked := c.asked.(methodsCount := count)))
      else
        var c' := Consume(c, 2).(asked := c.asked.(methodsCount := count), state := ReadingAuthMethods);
        ReadSomeFromClient(cfg, c', count, env)
  }

  function ReadAuthMethods(cfg: Config, c: Conn): Outcome {
    var n := c.asked.methodsCount;
    if |c.readBuffer| < n then Crash(OutOfBounds)
    else WriteToClient(cfg, Consume(MethodChosen(c), n).(writeBuffer := METHOD_REPLY))
  }

  // Without an acceptable method the session fails, but the reply is the same.
  function MethodChosen(c: Conn): Conn
    requires c.asked.methodsCount <= |c.readBuffer|
  {
    if 0 !in c.readBuffer[..c.asked.methodsCount] then FailDelayed(c.(asked := c.asked.(authMethod := 0xFF)))
    else c.(asked := c.asked.(authMethod := 0))
  }

  function ReadClientConnectionRequest(cfg: Config, c: Conn, env: Env): Outcome
    requires c.state == ReadingClientConnectionRequest
    decreases 7 - Rank(c.state), 1
  {
    if |c.readBuffer| < 4 then Crash(OutOfBounds)
    else if c.readBuffer[0] != 5 then SendFailMessage(cfg, c, 7)
    else if c.readBuffer[1] != 1 then SendFailMessage(cfg, c, 7)
    else if c.readBuffer[2] != 0 then SendFailMessage(cfg, c, 7)
    else
      var addressType := c.readBuffer[3];
      var c' := Consume(c, 4);
      if addressType == ADDRESS_TYPE_IPV4 then
        ReadSomeFromClient(cfg, Awaiting(c', addressType, ReadingAddress), 6, env)
      else if addressType == ADDRESS_TYPE_DOMAIN_NAME then
        ReadSomeFromClient(cfg, Awaiting(c', addressType, ReadingDomainNameLength), 1, env)
      else if addressType == ADDRESS_TYPE_IPV6 then
        ReadSomeFromClient(cfg, Awaiting(c', addressType, ReadingAddress), 18, env)
      else SendFailMessage(cfg, c', 8)
  }

  function Awaiting(c: Conn, addressType: byte, state: State): Conn {
    c.(asked := c.asked.(addressType := addressType), state := state)
  }

  function ReadDomainNameLength(cfg: Config, c: Conn, env: Env): Outcome
    requires c.state == ReadingDomainNameLength
    decreases 7 - Rank(c.state), 1
  {
    if |c.readBuffer| < 1 then Crash(OutOfBounds)
    else
      var length := c.readBuffer[0] as nat;
      var c' := Consume(c, 1).(asked := c.asked.(domainLength := length), state := ReadingAddress);
      ReadSomeFromClient(cfg, c', length + 2, env)
  }

  // A constructed socket is connected to. When socket(2) fails with an errno
  // the failure reply is sent, but control falls through to the connect, which
  // uses the socket that fail_delayed has just reset.
  function ConnectDestination(cfg: Config, c: Conn, to: Endpoint, creation: Creation): Outcome {
    match creation
    case Created => AddDestinationConnect(cfg, c.(destination := Some(to), state := ConnectingToDestination))
    case OtherException => SendFailMessage(cfg, c, 1)
    case Errno(_) => Crash(NullSocket)
  }

  function ReadAddress(cfg: Config, c: Conn, env: Env): Outcome {
    if c.asked.addressType == ADDRESS_TYPE_IPV4 then ReadIpv4Address(cfg, c, env)
    else if c.asked.addressType == ADDRESS_TYPE_DOMAIN_NAME then ReadDomainName(cfg, c, env)
    else if c.asked.addressType == ADDRESS_TYPE_IPV6 then ReadIpv6Address(cfg, c, env)
    else Crash(AssertionFailed)
  }

  function ReadIpv4Address(cfg: Config, c: Conn, env: Env): Outcome {
    if |c.readBuffer| < 6 then Crash(OutOfBounds)
    else
      var a := c.asked.(ipv4 := c.readBuffer[..4], port := c.readBuffer[4..6]);
      ConnectDestination(cfg, Consume(c, 6).(asked := a), V4(a.ipv4, a.port), env.creation)
  }

  function ReadIpv6Address(cfg: Config, c: Conn, env: Env): Outcome {
    if |c.readBuffer| < 18 then Crash(OutOfBounds)
    else
      var a := c.asked.(ipv6 := c.readBuffer[..16], port := c.readBuffer[16..18]);
      ConnectDestination(cfg, Consume(c, 18).(asked := a), V6(a.ipv6, a.port), env.creation)
  }

  function ReadDomainName(cfg: Config, c: Conn, env: Env): Outcome {
    var n := c.asked.domainLength;
    if |c.readBuffer| < n + 2 then Crash(OutOfBounds)
    else
      var a := c.asked.(domainName := c.readBuffer[..n], port := c.readBuffer[n..n + 2]);
      ConnectByName(cfg, Consume(c, n + 2).(asked := a), env)
  }

  // The call to gethostbyname, and what follows it.
  function ConnectByName(cfg: Config, c: Conn, env: Env): Outcome {
    match env.lookup(HostName(c.asked.domainName))
    case NotFound => SendFailMessage(cfg, c, 4)
    case Inet(a) =>
      var asked := c.asked.(addressType := ADDRESS_TYPE_IPV4, ipv4 := a);
      ConnectDestination(cfg, c.(asked := asked), V4(a, asked.port), env.creation)
    case Inet6(a) =>
      var asked := c.asked.(addressType := ADDRESS_TYPE_IPV6, ipv6 := a);
      ConnectDestination(cfg, c.(asked := asked), V6(a, asked.port), env.creation)
    case OtherFamily => Crash(AssertionFailed)
  }

  // ------------------------------------------------------------------
  // Completion handlers
  // ------------------------------------------------------------------

  function HandleClientWrite(cfg: Config, c: Conn, nwrite: nat, env: Env): Outcome {
    if c.state == ProxyingRequests then ForwardedToClient(cfg, c, nwrite)
    else if |c.writeBuffer| < nwrite then Crash(OutOfBounds)
    else
      var c' := c.(writeBuffer := c.writeBuffer[nwrite..]);
      if c'.writeBuffer != [] then WriteToClient(cfg, c')
      else
        match c'.state
        case ReadingAuthMethods => ReadSomeFromClient(cfg, c'.(state := ReadingClientConnectionRequest), 4, env)
        case ConnectingToDestination => StartProxying(cfg, c'.(state := ProxyingRequests), env)
        case _ => Crash(AssertionFailed)
  }

  // The relay's half of handle_client_write.
  function ForwardedToClient(cfg: Config, c: Conn, nwrite: nat): Outcome {
    var Chunk(size, offset) := c.toClient;
    if nwrite + offset == size then AddDestinationRead(cfg, c)
    else if size < offset + nwrite then Crash(Underflow)
    else AddClientWrite(cfg, c.(toClient := Chunk(size, offset + nwrite)), size - (offset + nwrite), offset + nwrite)
  }

  function StartProxying(cfg: Config, c: Conn, env: Env): Outcome {
    var down := AddDestinationRead(cfg, c);
    if !down.Keep? then down
    else
      var up := ReadFromClient(cfg, down.conn, env);
      if !up.Keep? then up else Keep(up.conn, down.requests + up.requests)
  }

  function ReadFromClient(cfg: Config, c: Conn, env: Env): Outcome {
    var c' := c.(threshold := 1);
    if |c'.readBuffer| >= 1 then HandleClientRead(cfg, c', 0, env) else AddClientRead(cfg, c')
  }

  function HandleDestinationConnect(cfg: Config, c: Conn): Outcome {
    if c.state != ConnectingToDestination then Crash(AssertionFailed)
    else if c.asked.addressType == ADDRESS_TYPE_IPV4 then
      WriteToClient(cfg, c.(writeBuffer := [5, 0, 0, 1] + c.asked.ipv4 + c.asked.port))
    else if c.asked.addressType == ADDRESS_TYPE_IPV6 then
      WriteToClient(cfg, c.(writeBuffer := [5, 0, 0, 4] + c.asked.ipv6 + c.asked.port))
    else Crash(AssertionFailed)
  }

  function HandleDestinationRead(cfg: Config, c: Conn, nread: nat): Outcome {
    AddClientWrite(cfg, c.(toClient := Chunk(nread, 0)), nread, 0)
  }

  function HandleDestinationWrite(cfg: Config, c: Conn, nwrite: nat): Outcome {
    var Chunk(size, offset) := c.toDestination;
    if nwrite + offset == size then AddClientRead(cfg, c)
    else if size < offset + nwrite then Crash(Underflow)
    else
      AddDestinationWrite(cfg, c.(toDestination := Chunk(size, offset + nwrite)), size - (offset + nwrite), offset + nwrite)
  }

  // ------------------------------------------------------------------
  // One completion, as the event loop treats it
  // ------------------------------------------------------------------

  // What the kernel reports: an error, or the bytes that were moved.
  datatype Result = Failed | Received(data: seq<byte>) | Sent(n: nat) | Connected

  predicate Reads(kind: EventType) { kind.ClientRead? || kind.DestinationRead? }
  predicate Writes(kind: EventType) { kind.ClientWrite? || kind.DestinationWrite? }

  // The kernel answers a request in kind and moves at most what was asked for.
  predicate Answers(q: Request, res: Result) {
    match res
    case Failed => true
    case Received(data) => Reads(q.kind) && |data| <= q.len
    case Sent(n) => Writes(q.kind) && n <= q.len
    case Connected => q.kind.DestinationConnect?
  }

  // A read leaves its bytes at the start of the memory it was given.
  function Filled(c: Conn, q: Request, res: Result): Conn
    requires res.Received? ==> q.start + |res.data| <= |c.slot|
  {
    if res.Received? then c.(slot := Splice(c.slot, q.start, res.data)) else c
  }

  // The bytes a write puts on the wire.
  function OnWire(cfg: Config, c: Conn, q: Request, n: nat): seq<byte>
    requires q.start + q.offset + n <= |c.slot|
  {
    var from := q.start + if cfg.offsetMoves then q.offset else 0;
    c.slot[from..from + n]
  }

  function Moved(res: Result): nat {
    match res
    case Received(data) => |data|
    case Sent(n) => n
    case _ => 0
  }

  function Dispatch(cfg: Config, c: Conn, kind: EventType, n: nat, env: Env): Outcome {
    match kind
    case ClientAccept => Crash(AssertionFailed)
    case ClientRead => if n != 0 then HandleClientRead(cfg, c, n, env) else FailImmediately(c)
    case ClientWrite => HandleClientWrite(cfg, c, n, env)
    case DestinationConnect => HandleDestinationConnect(cfg, c)
    case DestinationRead => if n != 0 then HandleDestinationRead(cfg, c, n) else FailImmediately(c)
    case DestinationWrite => HandleDestinationWrite(cfg, c, n)
  }

  // The loop body, once the count is down by one. The event's own type decides
  // which handler runs.
  function Conclude(cfg: Config, c: Conn, kind: EventType, res: Result, env: Env): Outcome {
    if res.Failed? then
      if c.awaiting == 0 then Drop(c, []) else FailImmediately(c)
    else if c.failed then
      if c.awaiting == 0 then Drop(c, []) else Keep(c, [])
    else
      match Dispatch(cfg, c, kind, Moved(res), env)
      case Keep(c', qs) => if c'.failed && c'.awaiting == 0 then Drop(c', qs) else Keep(c', qs)
      case Drop(_, _) => Crash(Dangling)  // the loop goes on to use the session
      case Crash(fault) => Crash(fault)
  }

  // The completion of request q of the session c, from the kernel's transfer to
  // the end of the loop body.
  function Settle(cfg: Config, c: Conn, q: Request, kind: EventType, res: Result, env: Env): Outcome {
    if q.start + q.offset + Moved(res) > |c.slot| then Crash(OutOfBounds)
    else if c.awaiting == 0 then Crash(Underflow)
    else Conclude(cfg, Filled(c, q, res).(awaiting := c.awaiting - 1), kind, res, env)
  }
}
