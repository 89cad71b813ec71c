/**
 The server itself: Session and IoUring with their fields updated in place, in
 the source's own steps. Every method is proved to do what its function in
 SessionSpec or ServerSpec says; with the theorems about those functions, the
 event loop keeps every guarantee stated for reachable worlds.

 The ring stands for liburing and the kernel: pending and armed are what the
 kernel holds, open (ghost) its descriptor table, wires (ghost) the observer.
 */
module Server {
  import opened Socks5
  import opened SessionSpec
  import opened Wire
  import opened ServerSpec
  import opened Pools
  import Safety
  import Guarantees
  import HandshakeGuarantees

  class Session {
    const server: IoUring
    const address: nat
    const slotIndex: nat
    var fd: int
    var state: State
    var awaiting: nat
    var threshold: nat
    var readBuffer: seq<byte>
    var writeBuffer: seq<byte>
    var methodsCount: nat
    var authMethod: byte
    var addressType: byte
    var domainLength: nat
    var domainName: seq<byte>
    var ipv4: Ipv4
    var ipv6: Ipv6
    var port: Port
    var destination: Option<Endpoint>
    var clientWriteSize: nat
    var clientWriteOffset: nat
    var destinationWriteSize: nat
    var destinationWriteOffset: nat
    var failed: bool

    // The session's slot lies in the buffer vector.
    predicate Placed() {
      (slotIndex + 1) * BUFFER_SIZE <= server.bufferPool.buffers.Length
    }

    ghost function Value(): Conn
      requires Placed()
      reads this, server.bufferPool.buffers
    {
      Conn(fd, state, awaiting, slotIndex, Window(server.bufferPool.buffers[..], slotIndex), threshold, readBuffer,
           writeBuffer, Asked(methodsCount, authMethod, addressType, domainLength, domainName, ipv4, ipv6, port), destination,
           Chunk(clientWriteSize, clientWriteOffset), Chunk(destinationWriteSize, destinationWriteOffset), failed)
    }

    // The ring can take the outcome: it is no crash, there are events for its
    // requests, and a descriptor it closes is open.
    ghost predicate Can(o: Outcome)
      reads `fd, server`open, server`pending, server.eventPool, server.eventPool.events
    {
      && Placed() && server.eventPool.Valid() && o.Keep? && Launch(server.Ring(), address, o.requests).Some?
      && (o.conn.fd != fd ==> fd in server.open)
    }

    // Since the old state, the outcome o has come about and nothing else has. Each
    // operation is given the outcome that SessionSpec says it has, and brings it
    // about.
    twostate predicate Did(o: Outcome)
      reads this, server, server.eventPool, server.eventPool.events, server.bufferPool.buffers
    {
      && Placed() && server.eventPool.Valid() && o.Keep? && Value() == o.conn
      && Launch(old(server.Ring()), address, o.requests) == Some(server.Ring())
      && server.open == (if o.conn.fd == old(fd) then old(server.open) else old(server.open) - {old(fd)})
      && (forall k | 0 <= k < server.bufferPool.buffers.Length
                     && !(slotIndex * BUFFER_SIZE <= k < (slotIndex + 1) * BUFFER_SIZE) ::
            server.bufferPool.buffers[k] == old(server.bufferPool.buffers[k]))
    }

    // obtain_free_buffer has succeeded: the session gets that slot.
    constructor (fd: int, server: IoUring, address: nat, slotIndex: nat)
      requires (slotIndex + 1) * BUFFER_SIZE <= server.bufferPool.buffers.Length
      ensures this.server == server && this.address == address && Placed()
      ensures Value() == NewConn(fd, slotIndex, Window(server.bufferPool.buffers[..], slotIndex))
    {
      this.server, this.address, this.slotIndex := server, address, slotIndex;
      this.fd, state, awaiting, threshold := fd, ReadingClientGreeting, 0, 0;
      readBuffer, writeBuffer := [], [];
      methodsCount, authMethod, addressType, domainLength, domainName := 0, 0, 0, 0, [];
      ipv4, ipv6, port, destination := NO_IPV4, NO_IPV6, NO_PORT, None;
      clientWriteSize, clientWriteOffset, destinationWriteSize, destinationWriteOffset := 0, 0, 0, 0;
      failed := false;
    }

    // ----------------------------------------------------------------
    // Failing and replying
    // ----------------------------------------------------------------

    method FailDelayed()
      requires Placed()
      modifies `failed, `destination
      ensures Value() == SessionSpec.FailDelayed(old(Value()))
    {
      failed := true;
      destination := None;
    }

    method FailImmediately(ghost o: Outcome)
      requires Placed() && o == SessionSpec.FailImmediately(Value()) && Can(o)
      modifies this, server`open
      ensures Did(o)
    {
      FailDelayed();
      var fd := this.fd;
      this.fd := -1;
      server.Close(fd);
    }

    method WriteToClient(ghost o: Outcome)
      requires Placed() && o == SessionSpec.WriteToClient(server.Cfg(), Value()) && Can(o)
      modifies this, server`pending, server.eventPool`freeEvents, server.eventPool.events, server.bufferPool.buffers
      ensures Did(o)
    {
      var count := if |writeBuffer| < HALF_BUFFER_SIZE then |writeBuffer| else HALF_BUFFER_SIZE;
      server.CopyIn(this, HALF_BUFFER_SIZE, writeBuffer[..count]);
      server.AddClientWriteRequest(this, count, 0, o);
    }

    method SendFailMessage(code: byte, ghost o: Outcome)
      requires Placed() && o == SessionSpec.SendFailMessage(server.Cfg(), Value(), code) && Can(o)
      modifies this, server`pending, server.eventPool`freeEvents, server.eventPool.events, server.bufferPool.buffers
      ensures Did(o)
    {
      FailDelayed();
      writeBuffer := [5, code, 0, 1, 0, 0, 0, 0, 0, 0];
      WriteToClient(o);
    }

    // ----------------------------------------------------------------
    // Reading the handshake
    // ----------------------------------------------------------------

    method ReadSomeFromClient(n: nat, env: Env, ghost o: Outcome)
      requires Placed() && o == SessionSpec.ReadSomeFromClient(server.Cfg(), Value(), n, env) && Can(o)
      modifies this, server`pending, server`open, server.eventPool`freeEvents, server.eventPool.events, server.bufferPool.buffers
      ensures Did(o)
      decreases 7 - Rank(state), 4
    {
      threshold := n;
      if |readBuffer| >= n {
        HandleClientRead(0, env, o);
      } else {
        server.AddClientReadRequest(this, o);
      }
    }

    method HandleClientRead(nread: nat, env: Env, ghost o: Outcome)
      requires Placed() && o == SessionSpec.HandleClientRead(server.Cfg(), Value(), nread, env) && Can(o)
      modifies this, server`pending, server`open, server.eventPool`freeEvents, server.eventPool.events, server.bufferPool.buffers
      ensures Did(o)
      decreases 7 - Rank(state), 3
    {
      if state == ProxyingRequests {
        destinationWriteOffset := 0;
        destinationWriteSize := nread;
        server.AddDestinationWriteRequest(this, nread, 0, o);
        return;
      }
      if nread != 0 {
        var data := server.CopyOut(this, nread);
        readBuffer := readBuffer + data;
      }
      assert Value() == old(Value()).(readBuffer := old(Value()).readBuffer + old(Value()).slot[..nread]);
      if |readBuffer| < threshold {
        server.AddClientReadRequest(this, o);
      } else {
        ReadMessage(env, o);
      }
    }

    method ReadMessage(env: Env, ghost o: Outcome)
      requires Placed() && o == SessionSpec.ReadMessage(server.Cfg(), Value(), env) && Can(o)
      modifies this, server`pending, server`open, server.eventPool`freeEvents, server.eventPool.events, server.bufferPool.buffers
      ensures Did(o)
      decreases 7 - Rank(state), 2
    {
      match state
      case ReadingClientGreeting => ReadClientGreeting(env, o);
      case ReadingAuthMethods => ReadAuthMethods(o);
      case ReadingClientConnectionRequest => ReadClientConnectionRequest(env, o);
      case ReadingDomainNameLength => ReadDomainNameLength(env, o);
      case ReadingAddress => ReadAddress(env, o);
      case ConnectingToDestination => assert false;
      case ProxyingRequests => assert false;
    }

    method ReadClientGreeting(env: Env, ghost o: Outcome)
      requires state == ReadingClientGreeting
      requires Placed() && o == SessionSpec.ReadClientGreeting(server.Cfg(), Value(), env) && Can(o)
      modifies this, server`pending, server`open, server.eventPool`freeEvents, server.eventPool.events, server.bufferPool.buffers
      ensures Did(o)
      decreases 7 - Rank(state), 1
    {
      ghost var c := Value();
      if readBuffer[0] != 5 {
        FailImmediately(o);
        return;
      }
      methodsCount := readBuffer[1] as nat;
      assert Value() == c.(asked := c.asked.(methodsCount := methodsCount));
      if methodsCount == 0 {
        FailImmediately(o);
        return;
      }
      ConsumeBytesFromReadBuffer(2);
      state := ReadingAuthMethods;
      assert Value() == Consume(c, 2).(asked := c.asked.(methodsCount := methodsCount), state := ReadingAuthMethods);
      ReadSomeFromClient(methodsCount, env, o);
    }

    method ReadAuthMethods(ghost o: Outcome)
      requires Placed() && o == SessionSpec.ReadAuthMethods(server.Cfg(), Value()) && Can(o)
      modifies this, server`pending, server.eventPool`freeEvents, server.eventPool.events, server.bufferPool.buffers
      ensures Did(o)
    {
      ghost var c := Value();
      ChooseMethod();
      ConsumeBytesFromReadBuffer(methodsCount);
      writeBuffer := [5, 0];
      assert Value() == Consume(MethodChosen(c), c.asked.methodsCount).(writeBuffer := METHOD_REPLY);
      WriteToClient(o);
    }

    method ChooseMethod()
      requires Placed() && methodsCount <= |readBuffer|
      modifies `authMethod, `failed, `destination
      ensures Value() == MethodChosen(old(Value()))
    {
      ghost var c := Value();
      if 0 !in readBuffer[..methodsCount] {
        authMethod := 0xFF;
        assert Value() == c.(asked := c.asked.(authMethod := 0xFF));
        FailDelayed();
      } else {
        authMethod := 0;
      }
    }

    method ReadClientConnectionRequest(env: Env, ghost o: Outcome)
      requires state == ReadingClientConnectionRequest
      requires Placed() && o == SessionSpec.ReadClientConnectionRequest(server.Cfg(), Value(), env) && Can(o)
      modifies this, server`pending, server`open, server.eventPool`freeEvents, server.eventPool.events, server.bufferPool.buffers
      ensures Did(o)
      decreases 7 - Rank(state), 1
    {
      if readBuffer[0] != 5 || readBuffer[1] != 1 || readBuffer[2] != 0 {
        SendFailMessage(7, o);
        return;
      }
      var addressType := readBuffer[3];
      ConsumeBytesFromReadBuffer(4);
      if addressType == ADDRESS_TYPE_IPV4 {
        AwaitAddress(addressType, ReadingAddress, 6, env, o);
      } else if addressType == ADDRESS_TYPE_DOMAIN_NAME {
        AwaitAddress(addressType, ReadingDomainNameLength, 1, env, o);
      } else if addressType == ADDRESS_TYPE_IPV6 {
        AwaitAddress(addressType, ReadingAddress, 18, env, o);
      } else {
        SendFailMessage(8, o);
      }
    }

    // What the three accepted address types have in common.
    method AwaitAddress(addressType: byte, state: State, n: nat, env: Env, ghost o: Outcome)
      requires Rank(this.state) < Rank(state)
      requires Placed()
      requires o == SessionSpec.ReadSomeFromClient(server.Cfg(), Awaiting(Value(), addressType, state), n, env) && Can(o)
      modifies this, server`pending, server`open, server.eventPool`freeEvents, server.eventPool.events, server.bufferPool.buffers
      ensures Did(o)
      decreases 7 - Rank(this.state), 0
    {
      ghost var c := Value();
      this.addressType := addressType;
      this.state := state;
      assert Value() == Awaiting(c, addressType, state);
      ReadSomeFromClient(n, env, o);
    }

    method ReadDomainNameLength(env: Env, ghost o: Outcome)
      requires state == ReadingDomainNameLength
      requires Placed() && o == SessionSpec.ReadDomainNameLength(server.Cfg(), Value(), env) && Can(o)
      modifies this, server`pending, server`open, server.eventPool`freeEvents, server.eventPool.events, server.bufferPool.buffers
      ensures Did(o)
      decreases 7 - Rank(state), 1
    {
      ghost var c := Value();
      domainLength := readBuffer[0] as nat;
      ConsumeBytesFromReadBuffer(1);
      state := ReadingAddress;
      assert Value() == Consume(c, 1).(asked := c.asked.(domainLength := domainLength), state := ReadingAddress);
      ReadSomeFromClient(domainLength + 2, env, o);
    }

    method ConsumeBytesFromReadBuffer(n: nat)
      requires Placed() && n <= |readBuffer|
      modifies `readBuffer
      ensures Value() == Consume(old(Value()), n)
    {
      readBuffer := readBuffer[n..];
    }

    // connect_ipv4_destination and connect_ipv6_destination. Can rules out the
    // errno case, in which the source goes on to use a null socket.
    method ConnectDestination(to: Endpoint, creation: Creation, ghost o: Outcome)
      requires Placed() && o == SessionSpec.ConnectDestination(server.Cfg(), Value(), to, creation) && Can(o)
      modifies this, server`pending, server.eventPool`freeEvents, server.eventPool.events, server.bufferPool.buffers
      ensures Did(o)
    {
      match creation
      case Created =>
        destination := Some(to);
        state := ConnectingToDestination;
        server.AddDestinationConnectRequest(this, o);
      case OtherException => SendFailMessage(1, o);
      case Errno(_) => assert false;
    }

    method ReadAddress(env: Env, ghost o: Outcome)
      requires Placed() && o == SessionSpec.ReadAddress(server.Cfg(), Value(), env) && Can(o)
      modifies this, server`pending, server.eventPool`freeEvents, server.eventPool.events, server.bufferPool.buffers
      ensures Did(o)
    {
      if addressType == ADDRESS_TYPE_IPV4 {
        ReadIpv4Address(env, o);
      } else if addressType == ADDRESS_TYPE_DOMAIN_NAME {
        ReadDomainName(env, o);
      } else {
        ReadIpv6Address(env, o);
      }
    }

    method ReadIpv4Address(env: Env, ghost o: Outcome)
      requires Placed() && o == SessionSpec.ReadIpv4Address(server.Cfg(), Value(), env) && Can(o)
      modifies this, server`pending, server.eventPool`freeEvents, server.eventPool.events, server.bufferPool.buffers
      ensures Did(o)
    {
      TakeIpv4Address();
      ConnectDestination(V4(ipv4, port), env.creation, o);
    }

    // The address and the port behind it leave the read buffer.
    method TakeIpv4Address()
      requires Placed() && 6 <= |readBuffer|
      modifies `ipv4, `port, `readBuffer
      ensures var c := old(Value());
              Value() == Consume(c, 6).(asked := c.asked.(ipv4 := c.readBuffer[..4], port := c.readBuffer[4..6]))
    {
      ipv4, port := readBuffer[..4], readBuffer[4..6];
      ConsumeBytesFromReadBuffer(6);
    }

    method ReadIpv6Address(env: Env, ghost o: Outcome)
      requires Placed() && o == SessionSpec.ReadIpv6Address(server.Cfg(), Value(), env) && Can(o)
      modifies this, server`pending, server.eventPool`freeEvents, server.eventPool.events, server.bufferPool.buffers
      ensures Did(o)
    {
      TakeIpv6Address();
      ConnectDestination(V6(ipv6, port), env.creation, o);
    }

    method TakeIpv6Address()
      requires Placed() && 18 <= |readBuffer|
      modifies `ipv6, `port, `readBuffer
      ensures var c := old(Value());
              Value() == Consume(c, 18).(asked := c.asked.(ipv6 := c.readBuffer[..16], port := c.readBuffer[16..18]))
    {
      ipv6, port := readBuffer[..16], readBuffer[16..18];
      ConsumeBytesFromReadBuffer(18);
    }

    method ReadDomainName(env: Env, ghost o: Outcome)
      requires Placed() && o == SessionSpec.ReadDomainName(server.Cfg(), Value(), env) && Can(o)
      modifies this, server`pending, server.eventPool`freeEvents, server.eventPool.events, server.bufferPool.buffers
      ensures Did(o)
    {
      TakeDomainName();
      ConnectByName(env, o);
    }

    // The name and the port behind it leave the read buffer.
    method TakeDomainName()
      requires Placed() && domainLength + 2 <= |readBuffer|
      modifies `domainName, `port, `readBuffer
      ensures var c, n := old(Value()), domainLength;
              Value() == Consume(c, n + 2).(asked := c.asked.(domainName := c.readBuffer[..n], port := c.readBuffer[n..n + 2]))
    {
      domainName, port := readBuffer[..domainLength], readBuffer[domainLength..domainLength + 2];
      ConsumeBytesFromReadBuffer(domainLength + 2);
    }

    method ConnectByName(env: Env, ghost o: Outcome)
      requires Placed() && o == SessionSpec.ConnectByName(server.Cfg(), Value(), env) && Can(o)
      modifies this, server`pending, server.eventPool`freeEvents, server.eventPool.events, server.bufferPool.buffers
      ensures Did(o)
    {
      match env.lookup(HostName(domainName))
      case NotFound => SendFailMessage(4, o);
      case Inet(a) =>
        ResolveTo(ADDRESS_TYPE_IPV4, a, ipv6);
        ConnectDestination(V4(ipv4, port), env.creation, o);
      case Inet6(a) =>
        ResolveTo(ADDRESS_TYPE_IPV6, ipv4, a);
        ConnectDestination(V6(ipv6, port), env.creation, o);
      case OtherFamily => assert false;
    }

    // The request counts from now on as one for a numeric address.
    method ResolveTo(addressType: byte, ipv4: Ipv4, ipv6: Ipv6)
      requires Placed()
      modifies `addressType, `ipv4, `ipv6
      ensures var c := old(Value());
              Value() == c.(asked := c.asked.(addressType := addressType, ipv4 := ipv4, ipv6 := ipv6))
    {
      this.addressType, this.ipv4, this.ipv6 := addressType, ipv4, ipv6;
    }

    // ----------------------------------------------------------------
    // Completion handlers
    // ----------------------------------------------------------------

    method HandleClientWrite(nwrite: nat, env: Env, ghost o: Outcome)
      requires Placed() && o == SessionSpec.HandleClientWrite(server.Cfg(), Value(), nwrite, env) && Can(o)
      modifies this, server`pending, server`open, server.eventPool`freeEvents, server.eventPool.events, server.bufferPool.buffers
      ensures Did(o)
    {
      if state == ProxyingRequests {
        ForwardedToClient(nwrite, o);
        return;
      }
      ghost var c := Value();
      writeBuffer := writeBuffer[nwrite..];
      assert Value() == c.(writeBuffer := c.writeBuffer[nwrite..]);
      if writeBuffer != [] {
        WriteToClient(o);
        return;
      }
      match state
      case ReadingAuthMethods =>
        state := ReadingClientConnectionRequest;
        assert Value() == c.(writeBuffer := c.writeBuffer[nwrite..], state := ReadingClientConnectionRequest);
        ReadSomeFromClient(4, env, o);
      case ConnectingToDestination =>
        state := ProxyingRequests;
        assert Value() == c.(writeBuffer := c.writeBuffer[nwrite..], state := ProxyingRequests);
        StartProxying(env, o);
      case _ => assert false;
    }

    method ForwardedToClient(nwrite: nat, ghost o: Outcome)
      requires Placed() && o == SessionSpec.ForwardedToClient(server.Cfg(), Value(), nwrite) && Can(o)
      modifies this, server`pending, server.eventPool`freeEvents, server.eventPool.events, server.bufferPool.buffers
      ensures Did(o)
    {
      if nwrite + clientWriteOffset == clientWriteSize {
        server.AddDestinationReadRequest(this, o);
      } else {
        clientWriteOffset := clientWriteOffset + nwrite;
        server.AddClientWriteRequest(this, clientWriteSize - clientWriteOffset, clientWriteOffset, o);
      }
    }

    method StartProxying(env: Env, ghost o: Outcome)
      requires state == ProxyingRequests
      requires Placed() && o == SessionSpec.StartProxying(server.Cfg(), Value(), env) && Can(o)
      modifies this, server`pending, server`open, server.eventPool`freeEvents, server.eventPool.events, server.bufferPool.buffers
      ensures Did(o)
    {
      ghost var ring, c := server.Ring(), Value();
      ghost var down := SessionSpec.AddDestinationRead(server.Cfg(), c);
      ghost var up := SessionSpec.ReadFromClient(server.Cfg(), down.conn, env);
      LaunchBoth(ring, address, down.requests, up.requests);
      server.AddDestinationReadRequest(this, down);
      ReadFromClient(env, up);
    }

    method ReadFromClient(env: Env, ghost o: Outcome)
      requires state == ProxyingRequests
      requires Placed() && o == SessionSpec.ReadFromClient(server.Cfg(), Value(), env) && Can(o)
      modifies this, server`pending, server`open, server.eventPool`freeEvents, server.eventPool.events, server.bufferPool.buffers
      ensures Did(o)
    {
      threshold := 1;
      if |readBuffer| >= 1 {
        HandleClientRead(0, env, o);
      } else {
        server.AddClientReadRequest(this, o);
      }
    }

    method HandleDestinationConnect(ghost o: Outcome)
      requires Placed() && o == SessionSpec.HandleDestinationConnect(server.Cfg(), Value()) && Can(o)
      modifies this, server`pending, server.eventPool`freeEvents, server.eventPool.events, server.bufferPool.buffers
      ensures Did(o)
    {
      if addressType == ADDRESS_TYPE_IPV4 {
        writeBuffer := [5, 0, 0, 1] + ipv4 + port;
      } else {
        writeBuffer := [5, 0, 0, 4] + ipv6 + port;
      }
      WriteToClient(o);
    }

    method HandleDestinationRead(nread: nat, ghost o: Outcome)
      requires Placed() && o == SessionSpec.HandleDestinationRead(server.Cfg(), Value(), nread) && Can(o)
      modifies this, server`pending, server.eventPool`freeEvents, server.eventPool.events, server.bufferPool.buffers
      ensures Did(o)
    {
      clientWriteOffset := 0;
      clientWriteSize := nread;
      server.AddClientWriteRequest(this, nread, 0, o);
    }

    method HandleDestinationWrite(nwrite: nat, ghost o: Outcome)
      requires Placed() && o == SessionSpec.HandleDestinationWrite(server.Cfg(), Value(), nwrite) && Can(o)
      modifies this, server`pending, server.eventPool`freeEvents, server.eventPool.events, server.bufferPool.buffers
      ensures Did(o)
    {
      if nwrite + destinationWriteOffset == destinationWriteSize {
        server.AddClientReadRequest(this, o);
      } else {
        destinationWriteOffset := destinationWriteOffset + nwrite;
        server.AddDestinationWriteRequest(this, destinationWriteSize - destinationWriteOffset, destinationWriteOffset, o);
      }
    }

    // ----------------------------------------------------------------
    // One completion
    // ----------------------------------------------------------------

    method Dispatch(kind: EventType, n: nat, env: Env, ghost o: Outcome)
      requires Placed() && o == SessionSpec.Dispatch(server.Cfg(), Value(), kind, n, env) && Can(o)
      modifies this, server`pending, server`open, server.eventPool`freeEvents, server.eventPool.events, server.bufferPool.buffers
      ensures Did(o)
    {
      match kind
      case ClientAccept => assert false;
      case ClientRead =>
        if n != 0 { HandleClientRead(n, env, o); } else { FailImmediately(o); }
      case ClientWrite => HandleClientWrite(n, env, o);
      case DestinationConnect => HandleDestinationConnect(o);
      case DestinationRead =>
        if n != 0 { HandleDestinationRead(n, o); } else { FailImmediately(o); }
      case DestinationWrite => HandleDestinationWrite(n, o);
    }

    // The loop body up to the deletion: gone says whether the session is to be
    // deleted.
    method Conclude(kind: EventType, res: Result, env: Env, ghost out: Outcome) returns (gone: bool)
      requires Placed() && out == SessionSpec.Conclude(server.Cfg(), Value(), kind, res, env) && Can(Undropped(out))
      modifies this, server`pending, server`open, server.eventPool`freeEvents, server.eventPool.events, server.bufferPool.buffers
      ensures Did(Undropped(out)) && gone == out.Drop?
    {
      if res.Failed? {
        gone := awaiting == 0;
        if !gone {
          FailImmediately(out);
        }
      } else if failed {
        gone := awaiting == 0;
      } else {
        Dispatch(kind, Moved(res), env, SessionSpec.Dispatch(server.Cfg(), Value(), kind, Moved(res), env));
        gone := failed && awaiting == 0;
      }
    }
  }

  class IoUring {
    const eventPool: EventPool
    const bufferPool: BufferPool
    const root: bool
    ghost const offsetMoves: bool
    var heap: map<nat, Session>
    var next: nat
    var pending: map<nat, Request>
    var armed: bool
    ghost var open: set<int>
    ghost var wires: map<nat, Wire>

    ghost function Cfg(): Config { Config(bufferPool.totalBufferCount, root, offsetMoves) }

    ghost function Ring(): Ring
      reads `pending, eventPool, eventPool.events
    {
      ServerSpec.Ring(eventPool.events[..], eventPool.freeEvents, pending)
    }

    // close(2): the descriptor must be open.
    method Close(fd: int)
      requires fd in open
      modifies `open
      ensures open == old(open) - {fd}
    {
      open := open - {fd};
    }

    // memcpy into a session's slot.
    method CopyIn(client: Session, at: nat, data: seq<byte>)
      requires client.server == this && client.Placed() && at + |data| <= BUFFER_SIZE
      modifies bufferPool.buffers
      ensures Window(bufferPool.buffers[..], client.slotIndex)
              == Splice(old(Window(bufferPool.buffers[..], client.slotIndex)), at, data)
      ensures forall k | 0 <= k < bufferPool.buffers.Length
                && !(client.slotIndex * BUFFER_SIZE <= k < (client.slotIndex + 1) * BUFFER_SIZE) ::
                bufferPool.buffers[k] == old(bufferPool.buffers[k])
    {
      var buffers, base := bufferPool.buffers, client.slotIndex * BUFFER_SIZE + at;
      forall k | base <= k < base + |data| {
        buffers[k] := data[k - base];
      }
      ghost var was := old(Window(bufferPool.buffers[..], client.slotIndex));
      assert forall k | 0 <= k < BUFFER_SIZE ::
          Window(buffers[..], client.slotIndex)[k] == Splice(was, at, data)[k];
    }

    // The first bytes of a session's slot.
    method CopyOut(client: Session, n: nat) returns (data: seq<byte>)
      requires client.server == this && client.Placed() && n <= BUFFER_SIZE
      ensures data == Window(bufferPool.buffers[..], client.slotIndex)[..n]
    {
      var base := client.slotIndex * BUFFER_SIZE;
      data := bufferPool.buffers[base..base + n];
    }

    // The part that all add_..._request methods share.
    method Submit(client: Session, q: Request)
      requires client.server == this && eventPool.Valid() && Launch1(Ring(), client.address, q).Some?
      modifies `pending, eventPool`freeEvents, eventPool.events
      ensures eventPool.Valid() && Launch1(old(Ring()), client.address, q) == Some(Ring())
    {
      var e := eventPool.ObtainEvent();
      eventPool.events[e] := Event(client.address, q.kind);
      pending := pending[e := q];
    }

    function Fixed(iovec: nat): Option<nat> {
      if root then Some(iovec) else None
    }

    method AddClientReadRequest(client: Session, ghost o: Outcome)
      requires client.server == this && client.Placed() && o == AddClientRead(Cfg(), client.Value()) && client.Can(o)
      modifies client`awaiting, `pending, eventPool`freeEvents, eventPool.events
      ensures client.Did(o)
    {
      client.awaiting := client.awaiting + 1;
      Submit(client, Request(ClientRead, 0, if root then HALF_BUFFER_SIZE else BUFFER_SIZE, 0, Fixed(2 * client.slotIndex)));
    }

    method AddClientWriteRequest(client: Session, nbytes: nat, offset: nat, ghost o: Outcome)
      requires client.server == this && client.Placed() && o == AddClientWrite(Cfg(), client.Value(), nbytes, offset) && client.Can(o)
      modifies client`awaiting, `pending, eventPool`freeEvents, eventPool.events
      ensures client.Did(o)
    {
      client.awaiting := client.awaiting + 1;
      Submit(client, Request(ClientWrite, HALF_BUFFER_SIZE, nbytes, offset, Fixed(2 * client.slotIndex + 1)));
    }

    // Not counted: the count's initial 1 stands for this request.
    method AddDestinationConnectRequest(client: Session, ghost o: Outcome)
      requires client.server == this && client.Placed() && o == AddDestinationConnect(Cfg(), client.Value()) && client.Can(o)
      modifies `pending, eventPool`freeEvents, eventPool.events
      ensures client.Did(o)
    {
      Submit(client, Request(DestinationConnect, 0, 0, 0, None));
    }

    method AddDestinationReadRequest(client: Session, ghost o: Outcome)
      requires client.server == this && client.Placed() && o == AddDestinationRead(Cfg(), client.Value()) && client.Can(o)
      modifies client`awaiting, `pending, eventPool`freeEvents, eventPool.events
      ensures client.Did(o)
    {
      client.awaiting := client.awaiting + 1;
      Submit(client, Request(DestinationRead, HALF_BUFFER_SIZE, HALF_BUFFER_SIZE, 0, Fixed(2 * client.slotIndex + 1)));
    }

    method AddDestinationWriteRequest(client: Session, nbytes: nat, offset: nat, ghost o: Outcome)
      requires client.server == this && client.Placed() && o == AddDestinationWrite(Cfg(), client.Value(), nbytes, offset) && client.Can(o)
      modifies client`awaiting, `pending, eventPool`freeEvents, eventPool.events
      ensures client.Did(o)
    {
      client.awaiting := client.awaiting + 1;
      Submit(client, Request(DestinationWrite, 0, nbytes, offset, Fixed(2 * client.slotIndex)));
    }

    // ----------------------------------------------------------------
    // The whole server
    // ----------------------------------------------------------------

    ghost predicate Linked()
      reads `heap, eventPool, bufferPool
    {
      && eventPool.Valid() && bufferPool.Valid()
      && (forall s | s in bufferPool.freeBuffers :: s < bufferPool.totalBufferCount)
      && Housed()
    }

    ghost predicate Housed()
      reads `heap
    {
      forall a | a in heap :: heap[a].server == this && heap[a].address == a && heap[a].Placed()
    }

    ghost function Sessions(): map<nat, Conn>
      requires Housed()
      reads `heap, bufferPool.buffers, heap.Values
    {
      map a | a in heap :: heap[a].Value()
    }

    // Sessions whose fields and slots are untouched are what they were.
    twostate lemma SessionsKept()
      requires old(Housed()) && heap == old(heap) && unchanged(bufferPool.buffers)
      requires forall a | a in heap :: unchanged(heap[a])
      ensures Housed() && Sessions() == old(Sessions())
    {
      assert forall a | a in heap :: heap[a].Value() == old(heap[a].Value());
    }

    // Only client, new or not, and its slot have changed.
    twostate lemma SessionChanged(new client: Session)
      requires client.server == this && client.Placed()
      requires old(Housed()) && heap == old(heap)[client.address := client]
      requires forall a | a in old(heap) && a != client.address :: unchanged(heap[a]) && heap[a].slotIndex != client.slotIndex
      requires forall k | 0 <= k < bufferPool.buffers.Length
                 && !(client.slotIndex * BUFFER_SIZE <= k < (client.slotIndex + 1) * BUFFER_SIZE) ::
                 bufferPool.buffers[k] == old(bufferPool.buffers[k])
      ensures Housed() && Sessions() == old(Sessions())[client.address := client.Value()]
    {
      OthersKept(client);
    }

    twostate lemma OthersKept(new client: Session)
      requires client.server == this && client.Placed()
      requires old(Housed()) && heap == old(heap)[client.address := client]
      requires forall a | a in old(heap) && a != client.address :: unchanged(heap[a]) && heap[a].slotIndex != client.slotIndex
      requires forall k | 0 <= k < bufferPool.buffers.Length
                 && !(client.slotIndex * BUFFER_SIZE <= k < (client.slotIndex + 1) * BUFFER_SIZE) ::
                 bufferPool.buffers[k] == old(bufferPool.buffers[k])
      ensures forall a | a in old(heap) && a != client.address :: heap[a].Placed() && heap[a].Value() == old(heap[a].Value())
    {
      var was, now := old(bufferPool.buffers[..]), bufferPool.buffers[..];
      forall a | a in old(heap) && a != client.address
        ensures heap[a].Placed() && heap[a].Value() == old(heap[a].Value())
      {
        OtherWindows(was, now, client.slotIndex, heap[a].slotIndex);
      }
    }

    twostate lemma SessionsLeft(gone: set<nat>)
      requires old(Housed()) && heap == old(heap) - gone && unchanged(bufferPool.buffers)
      requires forall a | a in heap :: unchanged(heap[a])
      ensures Housed() && Sessions() == old(Sessions()) - gone
    {
      assert forall a | a in heap :: heap[a].Value() == old(heap[a].Value());
    }

    ghost function World(): World
      requires Linked()
      reads this, eventPool, eventPool.events, bufferPool, bufferPool.buffers, heap.Values
    {
      ServerSpec.World(Cfg(), Sessions(), wires, Ring(), bufferPool.freeBuffers, open, armed, next)
    }

    // The object graph is in order, and the server is in a state that some run
    // of ServerSpec leads to.
    ghost predicate Valid()
      reads this, eventPool, eventPool.events, bufferPool, bufferPool.buffers, heap.Values
    {
      Linked() && Safety.Reachable(World())
    }

    // With the accept request that event_loop submits before its first turn.
    // The server is in order if and only if its slots fit: see SizeFits.
    constructor (nconnections: nat, root: bool, ghost offsetMoves: bool)
      requires nconnections < 0x8000_0000
      ensures Linked() <==> nconnections < 0x2_0000
      ensures nconnections < 0x2_0000 ==> Valid() && World() == Init(Config(nconnections, root, offsetMoves))
      ensures fresh(eventPool) && fresh(eventPool.events) && fresh(bufferPool) && fresh(bufferPool.buffers)
    {
      eventPool := new EventPool(nconnections);
      bufferPool := new BufferPool(nconnections);
      this.root, this.offsetMoves := root, offsetMoves;
      heap, next, pending, armed := map[], 1, map[], true;
      open, wires := {}, map[];
      new;
      ghost var init := Init(Config(nconnections, root, offsetMoves));
      assert eventPool.events[..] == init.ring.events && eventPool.freeEvents == init.ring.free;
      assert bufferPool.freeBuffers == init.freeSlots;
      InitIsReachable(init.cfg);
      if nconnections < 0x2_0000 {
        assert World().sessions == init.sessions;
      }
    }

    method AddClientAcceptRequest()
      modifies `armed
      ensures armed
    {
      armed := true;
    }

    // The kernel completes a request: a read's bytes are in memory.
    method Deliver(client: Session, e: nat, res: Result)
      requires client.server == this && client.Placed() && e in pending
      requires pending[e].start + pending[e].offset + Moved(res) <= BUFFER_SIZE
      modifies `pending, bufferPool.buffers
      ensures pending == old(pending) - {e}
      ensures client.Value() == Filled(old(client.Value()), old(pending)[e], res)
      ensures forall k | 0 <= k < bufferPool.buffers.Length
                && !(client.slotIndex * BUFFER_SIZE <= k < (client.slotIndex + 1) * BUFFER_SIZE) ::
                bufferPool.buffers[k] == old(bufferPool.buffers[k])
    {
      if res.Received? {
        CopyIn(client, pending[e].start, res.data);
      }
      pending := pending - {e};
    }

    // The completion is in and the client's count goes down.
    method CountDown(client: Session, e: nat, res: Result)
      requires client.server == this && client.Placed() && e in pending && client.awaiting > 0
      requires pending[e].start + pending[e].offset + Moved(res) <= BUFFER_SIZE
      modifies client`awaiting, `pending, bufferPool.buffers
      ensures Ring() == Taken(old(Ring()), e)
      ensures client.Value() == var c := old(client.Value()); Filled(c, old(pending)[e], res).(awaiting := c.awaiting - 1)
      ensures forall k | 0 <= k < bufferPool.buffers.Length
                && !(client.slotIndex * BUFFER_SIZE <= k < (client.slotIndex + 1) * BUFFER_SIZE) ::
                bufferPool.buffers[k] == old(bufferPool.buffers[k])
    {
      ghost var c, q := client.Value(), pending[e];
      Deliver(client, e, res);
      client.awaiting := client.awaiting - 1;
      assert client.Value() == Filled(c, q, res).(awaiting := c.awaiting - 1);
    }

    // delete client.
    method Delete(client: Session)
      requires Linked() && client.server == this && client.Placed() && client.address in heap
      requires client.fd != -1 ==> client.fd in open
      modifies `heap, `open, `wires, bufferPool`freeBuffers
      ensures Linked() && Sessions() == old(Sessions()) - {client.address}
      ensures heap == old(heap) - {client.address} && wires == old(wires) - {client.address}
      ensures bufferPool.freeBuffers == old(bufferPool.freeBuffers) + [client.slotIndex]
      ensures open == if client.fd == -1 then old(open) else old(open) - {client.fd}
    {
      if client.fd != -1 {
        Close(client.fd);
      }
      assert client.slotIndex < bufferPool.totalBufferCount;
      bufferPool.ReturnBuffer(client.slotIndex);
      heap := heap - {client.address};
      wires := wires - {client.address};
      SessionsLeft({client.address});
    }

    // What completion e of a request of client comes to.
    ghost function Out(client: Session, e: nat, res: Result, env: Env): Outcome
      requires client.Placed() && client.server == this && e in pending && e < eventPool.events.Length
      reads client, `pending, eventPool.events, bufferPool.buffers
    {
      Settle(Cfg(), client.Value(), pending[e], eventPool.events[e].kind, res, env)
    }

    ghost function Seen(client: Session, e: nat, res: Result, env: Env): map<nat, Wire>
      requires client.Placed() && client.server == this && e in pending
      requires pending[e].start + pending[e].offset + Moved(res) <= BUFFER_SIZE
      reads client, `pending, `wires, bufferPool.buffers
    {
      var seen := if client.address in wires then wires[client.address] else SILENCE;
      wires[client.address := Observe(Cfg(), client.Value(), seen, pending[e], res, env)]
    }

    // The end of the loop body: the deletion, if it has come to that, and the
    // event's return.
    method Retire(client: Session, gone: bool, e: nat, ghost out: Outcome)
      requires Alone(client) && e < eventPool.events.Length
      requires !out.Crash? && gone == out.Drop? && out.conn == client.Value()
      requires gone && out.conn.fd != -1 ==> out.conn.fd in open
      modifies `heap, `open, `wires, eventPool`freeEvents, bufferPool`freeBuffers
      ensures Linked() && heap.Values <= old(heap.Values)
      ensures eventPool.freeEvents == old(eventPool.freeEvents) + [e]
      ensures Sessions() == if out.Keep? then old(Sessions()) else old(Sessions()) - {client.address}
      ensures wires == if out.Keep? then old(wires) else old(wires) - {client.address}
      ensures open == if out.Keep? || out.conn.fd == -1 then old(open) else old(open) - {out.conn.fd}
      ensures bufferPool.freeBuffers == old(bufferPool.freeBuffers) + if out.Keep? then [] else [out.conn.slotIndex]
    {
      if gone {
        Delete(client);
      }
      label handled:
      eventPool.ReturnEvent(e);
      SessionsKept@handled();
    }

    // From the kernel's transfer to the end of the handler.
    method Handle(client: Session, e: nat, res: Result, env: Env, ghost out: Outcome, ghost seen: map<nat, Wire>)
        returns (gone: bool)
      requires client.server == this && client.Placed() && eventPool.Valid()
      requires e in pending && e < eventPool.events.Length
      requires pending[e].start + pending[e].offset + Moved(res) <= BUFFER_SIZE
      requires out == Out(client, e, res, env) && seen == Seen(client, e, res, env)
      requires !out.Crash? && Launch(Taken(Ring(), e), client.address, out.requests).Some?
      requires out.conn.fd != client.fd ==> client.fd in open
      modifies client, `pending, `open, `wires, eventPool`freeEvents, eventPool.events, bufferPool.buffers
      ensures client.Placed() && eventPool.Valid()
      ensures gone == out.Drop? && client.Value() == out.conn
      ensures Launch(Taken(old(Ring()), e), client.address, out.requests) == Some(Ring())
      ensures open == (if out.conn.fd == old(client.fd) then old(open) else old(open) - {old(client.fd)})
      ensures wires == seen
      ensures forall k | 0 <= k < bufferPool.buffers.Length
                && !(client.slotIndex * BUFFER_SIZE <= k < (client.slotIndex + 1) * BUFFER_SIZE) ::
                bufferPool.buffers[k] == old(bufferPool.buffers[k])
    {
      var kind := eventPool.events[e].kind;
      wires := seen;
      CountDown(client, e, res);
      assert out == SessionSpec.Conclude(Cfg(), client.Value(), kind, res, env);
      gone := client.Conclude(kind, res, env, out);
    }

    // The server can take completion e of client, which comes to out and is seen
    // as seen.
    ghost predicate Ready(client: Session, e: nat, res: Result, env: Env, out: Outcome, seen: map<nat, Wire>)
      reads this, client, eventPool, eventPool.events, bufferPool, bufferPool.buffers
    {
      && Alone(client) && e in pending && e < eventPool.events.Length
      && pending[e].start + pending[e].offset + Moved(res) <= BUFFER_SIZE
      && out == Out(client, e, res, env) && seen == Seen(client, e, res, env)
      && !out.Crash? && Launch(Taken(Ring(), e), client.address, out.requests).Some?
      && (out.conn.fd != client.fd ==> client.fd in open)
      && (out.Drop? && out.conn.fd != -1 ==> out.conn.fd in if out.conn.fd == client.fd then open else open - {client.fd})
    }

    // No other session has the slot of client.
    ghost predicate Alone(client: Session)
      reads `heap, eventPool, bufferPool
    {
      && Linked() && client.address in heap && heap[client.address] == client
      && (forall a | a in heap && a != client.address :: heap[a].slotIndex != client.slotIndex)
      && client.slotIndex < bufferPool.totalBufferCount
    }

    lemma AloneInReach(w: World, id: nat)
      requires Linked() && w == World() && id in w.sessions
      requires forall a | a in w.sessions && a != id :: w.sessions[a].slotIndex != w.sessions[id].slotIndex
      requires w.sessions[id].slotIndex < w.cfg.connections
      ensures id in heap && Alone(heap[id]) && heap[id].address == id && heap[id].Value() == w.sessions[id]
    {
      assert forall a | a in heap :: heap[a].slotIndex == w.sessions[a].slotIndex;
    }

    lemma ReadyInReach(w: World, id: nat, e: nat, res: Result, env: Env, out: Outcome, seen: map<nat, Wire>)
      requires Linked() && w == World() && Takes(w, e, res, env, out, seen) && id == w.ring.events[e].client
      requires id in heap && Alone(heap[id]) && heap[id].address == id && heap[id].Value() == w.sessions[id]
      ensures e < eventPool.events.Length && eventPool.events[e].client == id
      ensures Ready(heap[id], e, res, env, out, seen)
    {
    }

    // The same, seen from the whole server: the other sessions are what they
    // were, slots included.
    method HandleAmongOthers(client: Session, e: nat, res: Result, env: Env, ghost out: Outcome, ghost seen: map<nat, Wire>)
        returns (gone: bool)
      requires Ready(client, e, res, env, out, seen)
      modifies client, `pending, `open, `wires, eventPool`freeEvents, eventPool.events, bufferPool.buffers
      ensures Alone(client) && gone == out.Drop? && client.Value() == out.conn
      ensures Launch(Taken(old(Ring()), e), client.address, out.requests) == Some(Ring())
      ensures open == (if out.conn.fd == old(client.fd) then old(open) else old(open) - {old(client.fd)})
      ensures wires == seen
      ensures Sessions() == old(Sessions())[client.address := out.conn]
    {
      gone := Handle(client, e, res, env, out, seen);
      assert heap == old(heap)[client.address := client];
      SessionChanged(client);
    }

    // Handling, then deletion if it has come to that, then the event's return.
    method HandleAndRetire(client: Session, e: nat, res: Result, env: Env, ghost out: Outcome, ghost seen: map<nat, Wire>)
      requires Ready(client, e, res, env, out, seen)
      modifies client, `heap, `pending, `open, `wires, eventPool`freeEvents, eventPool.events
      modifies bufferPool`freeBuffers, bufferPool.buffers
      ensures Linked() && heap.Values <= old(heap.Values)
      ensures Ring() == Returned(Launch(Taken(old(Ring()), e), client.address, out.requests).value, e)
      ensures Sessions() == if out.Keep? then old(Sessions())[client.address := out.conn] else old(Sessions()) - {client.address}
      ensures wires == if out.Keep? then seen else seen - {client.address}
      ensures var closed := if out.conn.fd == old(client.fd) then old(open) else old(open) - {old(client.fd)};
              open == if out.Keep? || out.conn.fd == -1 then closed else closed - {out.conn.fd}
      ensures bufferPool.freeBuffers == old(bufferPool.freeBuffers) + if out.Keep? then [] else [out.conn.slotIndex]
    {
      ghost var before, id := Sessions(), client.address;
      var gone := HandleAmongOthers(client, e, res, env, out, seen);
      UpdatedThenRemoved(before, id, out.conn);
      Retire(client, gone, e, out);
    }

    // The part of the loop body that deals with an event of a session.
    method Complete(e: nat, res: Result, env: Env, ghost s: World)
      requires Valid() && e in pending && ServerSpec.Complete(World(), e, res, env) == Running(s)
      modifies this, eventPool, eventPool.events, bufferPool`freeBuffers, bufferPool.buffers, heap.Values
      ensures Linked() && World() == s
      ensures heap.Values <= old(heap.Values)
    {
      ghost var w := World();
      ghost var out, seen := CompleteInFields(w, e, res, env, s);
      SlotsDiffer(w, w.ring.events[e].client);
      AloneInReach(w, w.ring.events[e].client);
      ReadyInReach(w, w.ring.events[e].client, e, res, env, out, seen);
      HandleAndRetire(heap[eventPool.events[e].client], e, res, env, out, seen);
      assert World() == s;
    }

    // slot is what the next slot to be handed out happens to contain.
    ghost predicate NextSlotHolds(slot: seq<byte>)
      reads bufferPool`freeBuffers, bufferPool.buffers
    {
      bufferPool.freeBuffers == [] ||
      (&& (bufferPool.freeBuffers[0] + 1) * BUFFER_SIZE <= bufferPool.buffers.Length
       && slot == Window(bufferPool.buffers[..], bufferPool.freeBuffers[0]))
    }

    // The kernel has accepted a connection: fd is open.
    method HandleAccept(fd: int, ghost slot: seq<byte>)
      requires Valid() && Enabled(World(), Accepted(fd, slot)) && NextSlotHolds(slot)
      modifies this, eventPool`freeEvents, eventPool.events, bufferPool`freeBuffers, bufferPool.buffers
      ensures Linked() && ServerSpec.HandleAccept(old(World()), fd, slot) == Running(World())
      ensures forall a | a in heap :: heap[a] in old(heap.Values) || fresh(heap[a])
    {
      ghost var w := World();
      ghost var s := AcceptInFields(w, fd, slot);
      ReceptiveInReach(w, fd, slot, s);
      Accept(fd, slot);
      assert World() == s;
    }

    // The server can take a new connection.
    ghost predicate Receptive(fd: int, slot: seq<byte>)
      reads this, eventPool, eventPool.events, bufferPool, bufferPool.buffers
    {
      && Linked() && fd >= 0 && fd !in open && |slot| == BUFFER_SIZE && NextSlotHolds(slot)
      && (bufferPool.freeBuffers != [] ==>
            && next !in heap && (forall a | a in heap :: heap[a].slotIndex != bufferPool.freeBuffers[0])
            && Launch(Ring(), next, [ClientReadRequest(Cfg(), NewConn(fd, bufferPool.freeBuffers[0], slot))]).Some?)
    }

    lemma ReceptiveInReach(w: World, fd: int, slot: seq<byte>, s: World)
      requires Linked() && w == World() && Enabled(w, Accepted(fd, slot)) && NextSlotHolds(slot)
      requires w.freeSlots != [] ==> AdmittedInFields(w, fd, slot, s)
      ensures Receptive(fd, slot)
    {
      assert forall a | a in heap :: heap[a].slotIndex == w.sessions[a].slotIndex;
    }

    // The handler itself.
    method Accept(fd: int, ghost slot: seq<byte>)
      requires Receptive(fd, slot)
      modifies this, eventPool`freeEvents, eventPool.events, bufferPool`freeBuffers, bufferPool.buffers
      ensures Linked() && armed
      ensures old(bufferPool.freeBuffers) == [] ==>
                && Sessions() == old(Sessions()) && wires == old(wires) && Ring() == old(Ring())
                && bufferPool.freeBuffers == [] && open == old(open) && next == old(next)
      ensures old(bufferPool.freeBuffers) != [] ==>
                var slotIndex := old(bufferPool.freeBuffers)[0];
                && Sessions() == old(Sessions())[old(next) := Safety.Newcomer(Cfg(), fd, slotIndex, slot)]
                && wires == old(wires)[old(next) := SILENCE]
                && Launch(old(Ring()), old(next), [ClientReadRequest(Cfg(), NewConn(fd, slotIndex, slot))]) == Some(Ring())
                && bufferPool.freeBuffers == old(bufferPool.freeBuffers)[1..]
                && open == old(open) + {fd} && next == old(next) + 1
      ensures forall a | a in heap :: heap[a] in old(heap.Values) || fresh(heap[a])
    {
      AddClientAcceptRequest();
      open := open + {fd};
      var slotIndex := bufferPool.ObtainFreeBuffer();
      assert forall x | x in bufferPool.freeBuffers :: x in old(bufferPool.freeBuffers);
      SessionsKept();
      if slotIndex.None? {
        Close(fd);
        SessionsKept();
        return;
      }
      assert slotIndex.value in old(bufferPool.freeBuffers);
      Welcome(fd, slotIndex.value, slot);
    }

    method NewClient(fd: int, slotIndex: nat, ghost slot: seq<byte>) returns (client: Session)
      requires eventPool.Valid() && fd >= 0 && |slot| == BUFFER_SIZE
      requires (slotIndex + 1) * BUFFER_SIZE <= bufferPool.buffers.Length && slot == Window(bufferPool.buffers[..], slotIndex)
      requires Launch(Ring(), next, [ClientReadRequest(Cfg(), NewConn(fd, slotIndex, slot))]).Some?
      modifies `pending, `open, eventPool`freeEvents, eventPool.events, bufferPool.buffers
      ensures eventPool.Valid() && open == old(open)
      ensures fresh(client) && client.server == this && client.address == next && client.slotIndex == slotIndex
      ensures client.Placed() && client.Value() == Safety.Newcomer(Cfg(), fd, slotIndex, slot)
      ensures Launch(old(Ring()), next, [ClientReadRequest(Cfg(), NewConn(fd, slotIndex, slot))]) == Some(Ring())
      ensures forall k | 0 <= k < bufferPool.buffers.Length
                && !(slotIndex * BUFFER_SIZE <= k < (slotIndex + 1) * BUFFER_SIZE) ::
                bufferPool.buffers[k] == old(bufferPool.buffers[k])
    {
      client := new Session(fd, this, next, slotIndex);
      client.awaiting := 1;
      assert client.Value() == NewConn(fd, slotIndex, slot).(awaiting := 1);
      NewcomerReads(Cfg(), fd, slotIndex, slot);
      ghost var q := ClientReadRequest(Cfg(), NewConn(fd, slotIndex, slot));
      client.ReadSomeFromClient(3, QUIET, Keep(Safety.Newcomer(Cfg(), fd, slotIndex, slot), [q]));
    }

    method Welcome(fd: int, slotIndex: nat, ghost slot: seq<byte>)
      requires Linked() && next !in heap && slotIndex < bufferPool.totalBufferCount && fd >= 0 && |slot| == BUFFER_SIZE
      requires (slotIndex + 1) * BUFFER_SIZE <= bufferPool.buffers.Length && slot == Window(bufferPool.buffers[..], slotIndex)
      requires forall a | a in heap :: heap[a].slotIndex != slotIndex
      requires Launch(Ring(), next, [ClientReadRequest(Cfg(), NewConn(fd, slotIndex, slot))]).Some?
      modifies `heap, `next, `wires, `pending, `open, eventPool`freeEvents, eventPool.events, bufferPool.buffers
      ensures Linked() && next == old(next) + 1 && wires == old(wires)[old(next) := SILENCE] && open == old(open)
      ensures Launch(old(Ring()), old(next), [ClientReadRequest(Cfg(), NewConn(fd, slotIndex, slot))]) == Some(Ring())
      ensures Sessions() == old(Sessions())[old(next) := Safety.Newcomer(Cfg(), fd, slotIndex, slot)]
      ensures forall a | a in heap :: heap[a] in old(heap.Values) || fresh(heap[a])
    {
      var client := NewClient(fd, slotIndex, slot);
      heap := heap[next := client];
      wires := wires[next := SILENCE];
      next := next + 1;
      SessionChanged(client);
    }

    // The accept has failed, and no other is submitted.
    method GiveUpAccepting()
      requires Linked()
      modifies `armed
      ensures Linked() && World() == old(World()).(armed := false)
    {
      armed := false;
      SessionsKept();
    }

    // One turn of the event loop: the kernel reports c, the loop deals with it.
    // If c is a completion the program survives (StopsExactlyOnBadAnswer says
    // which are not), the server is again in a state that a run leads to, and it
    // is the state s that ServerSpec.Step says.
    method Step(c: Completion, ghost slot: seq<byte>, ghost s: World)
      requires Valid() && NextSlotHolds(slot)
      requires Enabled(World(), Holding(c, slot)) && ServerSpec.Step(World(), Holding(c, slot)) == Running(s)
      modifies this, eventPool, eventPool.events, bufferPool`freeBuffers, bufferPool.buffers, heap.Values
      ensures Valid() && World() == s
      ensures forall a | a in heap :: heap[a] in old(heap.Values) || fresh(heap[a])
    {
      Guarantees.StepIsReachable(World(), Holding(c, slot));
      DealWith(c, slot, s);
    }

    method DealWith(c: Completion, ghost slot: seq<byte>, ghost s: World)
      requires Valid() && NextSlotHolds(slot)
      requires Enabled(World(), Holding(c, slot)) && ServerSpec.Step(World(), Holding(c, slot)) == Running(s)
      modifies this, eventPool, eventPool.events, bufferPool`freeBuffers, bufferPool.buffers, heap.Values
      ensures Linked() && World() == s
      ensures forall a | a in heap :: heap[a] in old(heap.Values) || fresh(heap[a])
    {
      match c
      case AcceptFailed => GiveUpAccepting();
      case Accepted(fd, _) => HandleAccept(fd, slot);
      case Op(e, res, env) => Complete(e, res, env, s);
    }

    // What the next slot to be handed out contains.
    ghost function NextSlot(): (slot: seq<byte>)
      requires Linked()
      reads `heap, eventPool, bufferPool, bufferPool.buffers
      ensures |slot| == BUFFER_SIZE && NextSlotHolds(slot)
    {
      if bufferPool.freeBuffers == [] then seq(BUFFER_SIZE, _ => 0)
      else
        assert bufferPool.freeBuffers[0] in bufferPool.freeBuffers;
        Window(bufferPool.buffers[..], bufferPool.freeBuffers[0])
    }

    // The event loop, for as long as the kernel reports the given completions:
    // what it does is a run of ServerSpec over exactly those.
    method EventLoop(reports: seq<Completion>) returns (ghost run: seq<Completion>)
      requires Valid() && Survivable(World(), reports)
      modifies this, eventPool, eventPool.events, bufferPool`freeBuffers, bufferPool.buffers, heap.Values
      ensures Valid() && Legal(old(World()), run) && Run(old(World()), run) == Running(World())
      ensures |run| == |reports| && forall i | 0 <= i < |run| :: run[i] == Holding(reports[i], SlotOf(run[i]))
    {
      ghost var start := World();
      run := [];
      for i := 0 to |reports|
        invariant Valid() && Tracks(start, reports, run, World()) && |run| == i
        invariant forall a | a in heap :: heap[a] in old(heap.Values) || fresh(heap[a])
      {
        run := Turn(reports, i, start, run);
      }
    }

    method Turn(reports: seq<Completion>, i: nat, ghost start: World, ghost run: seq<Completion>)
        returns (ghost after: seq<Completion>)
      requires Valid() && Tracks(start, reports, run, World()) && |run| == i < |reports|
      modifies this, eventPool, eventPool.events, bufferPool`freeBuffers, bufferPool.buffers, heap.Values
      ensures Valid() && Tracks(start, reports, after, World()) && |after| == i + 1
      ensures forall a | a in heap :: heap[a] in old(heap.Values) || fresh(heap[a])
    {
      ghost var slot := NextSlot();
      Survives(World(), reports[i..], slot);
      TracksOn(start, reports, run, World(), slot);
      Step(reports[i], slot, ServerSpec.Step(World(), Holding(reports[i], slot)).w);
      after := run + [Holding(reports[i], slot)];
    }
  }

  // The completion, with what the slot really contains.
  function Holding(c: Completion, slot: seq<byte>): Completion {
    if c.Accepted? then c.(slot := slot) else c
  }

  function SlotOf(c: Completion): seq<byte> {
    if c.Accepted? then c.slot else []
  }

  // Whatever the free slots contain, the kernel may report these completions,
  // one after the other, and none of them is one the program does not survive.
  ghost predicate Survivable(w: World, reports: seq<Completion>)
    decreases |reports|
  {
    reports == [] ||
    forall slot: seq<byte> | |slot| == BUFFER_SIZE ::
      var c := Holding(reports[0], slot);
      Enabled(w, c) && !HandshakeGuarantees.MeetsBadAnswer(w, c)
      && (ServerSpec.Step(w, c).Running? ==> Survivable(ServerSpec.Step(w, c).w, reports[1..]))
  }

  // run deals with the first of the reports and leads from w to w', which the
  // others can follow.
  ghost predicate Tracks(w: World, reports: seq<Completion>, run: seq<Completion>, w': World) {
    && Legal(w, run) && Run(w, run) == Running(w')
    && |run| <= |reports| && (forall j | 0 <= j < |run| :: run[j] == Holding(reports[j], SlotOf(run[j])))
    && Survivable(w', reports[|run|..])
  }

  lemma TracksOn(w: World, reports: seq<Completion>, run: seq<Completion>, w': World, slot: seq<byte>)
    requires Tracks(w, reports, run, w') && |run| < |reports|
    requires var c := Holding(reports[|run|], slot);
             && Enabled(w', c) && ServerSpec.Step(w', c).Running?
             && Survivable(ServerSpec.Step(w', c).w, reports[|run|..][1..])
    ensures var c := Holding(reports[|run|], slot);
            Tracks(w, reports, run + [c], ServerSpec.Step(w', c).w)
  {
    assert reports[|run|..][1..] == reports[|run| + 1..];
    Guarantees.RunExtends(w, run, Holding(reports[|run|], slot));
  }

  lemma Survives(w: World, reports: seq<Completion>, slot: seq<byte>)
    requires Safety.Reachable(w) && reports != [] && Survivable(w, reports) && |slot| == BUFFER_SIZE
    ensures var c := Holding(reports[0], slot);
            && Enabled(w, c) && ServerSpec.Step(w, c).Running?
            && Survivable(ServerSpec.Step(w, c).w, reports[1..])
  {
    HandshakeGuarantees.StopsExactlyOnBadAnswer(w, Holding(reports[0], slot));
  }

  // In the world s the connection of the world w has got a session.
  ghost predicate AdmittedInFields(w: World, fd: int, slot: seq<byte>, s: World)
    requires w.freeSlots != []
  {
    var c, id := NewConn(fd, w.freeSlots[0], slot), w.next;
    && id !in w.sessions && (forall a | a in w.sessions :: w.sessions[a].slotIndex != w.freeSlots[0])
    && Launch(w.ring, id, [ClientReadRequest(w.cfg, c)]).Some?
    && s == w.(sessions := w.sessions[id := Safety.Newcomer(w.cfg, fd, w.freeSlots[0], slot)],
               ring := Launch(w.ring, id, [ClientReadRequest(w.cfg, c)]).value, wires := w.wires[id := SILENCE],
               freeSlots := w.freeSlots[1..], open := w.open + {fd}, next := id + 1)
  }

  // ServerSpec.HandleAccept, field by field.
  lemma AcceptInFields(w: World, fd: int, slot: seq<byte>) returns (s: World)
    requires Safety.Reachable(w) && Enabled(w, Accepted(fd, slot))
    ensures ServerSpec.HandleAccept(w, fd, slot) == Running(s)
    ensures w.freeSlots == [] ==> s == w
    ensures w.freeSlots != [] ==> AdmittedInFields(w, fd, slot, s)
  {
    Guarantees.SaneAccept(w, fd, slot);
    Guarantees.NewcomerIsFresh(w);
    s := ServerSpec.HandleAccept(w, fd, slot).w;
    if w.freeSlots != [] {
      Safety.NewcomerOk(w.cfg, fd, w.freeSlots[0], slot);
      forall a | a in w.sessions
        ensures w.sessions[a].slotIndex != w.freeSlots[0]
      {
        Guarantees.SlotInUse(w, a);
      }
    }
  }

  lemma SlotsDiffer(w: World, id: nat)
    requires Safety.Reachable(w) && id in w.sessions
    ensures forall a | a in w.sessions && a != id :: w.sessions[a].slotIndex != w.sessions[id].slotIndex
    ensures w.sessions[id].slotIndex < w.cfg.connections
  {
    Guarantees.CapacityConserved(w);
    Guarantees.SlotInUse(w, id);
  }

  // The world w can take completion e, which comes to out and is seen as seen.
  ghost predicate Takes(w: World, e: nat, res: Result, env: Env, out: Outcome, seen: map<nat, Wire>) {
    && e in w.ring.pending && e < |w.ring.events|
    && var id, q := w.ring.events[e].client, w.ring.pending[e];
       && id in w.sessions
       && var c := w.sessions[id];
          && q.start + q.offset + Moved(res) <= |c.slot|
          && out == Settle(w.cfg, c, q, w.ring.events[e].kind, res, env)
          && seen == w.wires[id := Observe(w.cfg, c, WireOf(w, id), q, res, env)]
          && !out.Crash? && Launch(Taken(w.ring, e), id, out.requests).Some?
          && (out.conn.fd != c.fd ==> c.fd in w.open)
          && (out.Drop? && out.conn.fd != -1 ==> out.conn.fd in if out.conn.fd == c.fd then w.open else w.open - {c.fd})
  }

  // The world s after completion e of the world w has come to out and been seen.
  ghost predicate InFields(w: World, e: nat, s: World, out: Outcome, seen: map<nat, Wire>) {
    && !out.Crash? && e < |w.ring.events|
    && var id := w.ring.events[e].client;
       var launched := Launch(Taken(w.ring, e), id, out.requests);
       && launched.Some? && id in w.sessions
       && var open := if out.conn.fd == w.sessions[id].fd then w.open else w.open - {w.sessions[id].fd};
          s == w.(ring := Returned(launched.value, e),
                  freeSlots := w.freeSlots + if out.Keep? then [] else [out.conn.slotIndex],
                  open := if out.Keep? || out.conn.fd == -1 then open else open - {out.conn.fd},
                  sessions := if out.Keep? then w.sessions[id := out.conn] else w.sessions - {id},
                  wires := if out.Keep? then seen else seen - {id})
  }

  // ServerSpec.Complete, field by field.
  lemma CompleteInFields(w: World, e: nat, res: Result, env: Env, s: World) returns (out: Outcome, seen: map<nat, Wire>)
    requires e in w.ring.pending && ServerSpec.Complete(w, e, res, env) == Running(s)
    ensures Takes(w, e, res, env, out, seen) && InFields(w, e, s, out, seen)
  {
    var id, q := w.ring.events[e].client, w.ring.pending[e];
    out := Settle(w.cfg, w.sessions[id], q, w.ring.events[e].kind, res, env);
    seen := w.wires[id := Observe(w.cfg, w.sessions[id], WireOf(w, id), q, res, env)];
    if out.Drop? {
      UpdatedThenRemoved(w.sessions, id, out.conn);
    } else {
      assert w.freeSlots + [] == w.freeSlots;
    }
  }

  lemma NewcomerReads(cfg: Config, fd: int, slotIndex: nat, slot: seq<byte>)
    requires fd >= 0 && |slot| == BUFFER_SIZE
    ensures ReadSomeFromClient(cfg, NewConn(fd, slotIndex, slot).(awaiting := 1), 3, QUIET)
            == Keep(Safety.Newcomer(cfg, fd, slotIndex, slot), [ClientReadRequest(cfg, NewConn(fd, slotIndex, slot))])
  {
    Safety.NewcomerOk(cfg, fd, slotIndex, slot);
  }

  lemma UpdatedThenRemoved(sessions: map<nat, Conn>, id: nat, c: Conn)
    ensures sessions[id := c] - {id} == sessions - {id}
  {
  }

  function Undropped(o: Outcome): Outcome {
    if o.Drop? then Keep(o.conn, o.requests) else o
  }

  lemma InitIsReachable(cfg: Config)
    ensures Safety.Reachable(Init(cfg))
  {
    assert Legal(Init(cfg), []) && Run(Init(cfg), []) == Running(Init(cfg));
  }

  lemma LaunchBoth(r: Ring, id: nat, a: seq<Request>, b: seq<Request>)
    requires Launch(r, id, a + b).Some?
    ensures Launch(r, id, a).Some?
    ensures Launch(r, id, a + b) == Launch(Launch(r, id, a).value, id, b)
    decreases |a|
  {
    if a == [] {
      assert [] + b == b;
    } else {
      assert (a + b)[1..] == a[1..] + b;
      LaunchBoth(Launch1(r, id, a[0]).value, id, a[1..], b);
    }
  }
}
