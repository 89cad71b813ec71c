/**
 The session of SessionSpec follows the one-shot reading of OneShot, however
 the client's bytes are cut into reads and the replies into writes.
 */
module HandshakeProof {
  import opened Socks5
  import opened SessionSpec
  import opened OneShot

  function Head(qs: seq<Request>): Option<Request> {
    if qs == [] then None else Some(qs[0])
  }

  // The bytes of a pending handshake reply are where the kernel will look.
  ghost predicate Loaded(c: Conn, reply: seq<byte>) {
    HALF_BUFFER_SIZE + |reply| <= |c.slot| && c.slot[HALF_BUFFER_SIZE..HALF_BUFFER_SIZE + |reply|] == reply
  }

  // A session before proxying, with q in flight, is what the view v says, given
  // that the client has been sent toClient.
  ghost predicate Follows(cfg: Config, c: Conn, v: View, toClient: seq<byte>, q: Option<Request>) {
    && |c.slot| == BUFFER_SIZE && !v.Wrecked?
    && c.awaiting == (if q.Some? then 1 else 0) + (if PreConnect(c.state) then 1 else 0)
    && Chosen(c, v)
    && match v
       case Reading(state, unread, wanted, addressType) =>
         && Open(c, state, unread) && c.destination.None? && c.writeBuffer == []
         && |unread| < wanted == c.threshold && toClient == Before(state)
         && q == Some(ClientReadRequest(cfg, c)) && Expecting(c, wanted, addressType)
       case Replying(unread) =>
         && Open(c, ReadingAuthMethods, unread) && c.destination.None?
         && Answering(cfg, c, METHOD_REPLY, toClient, q)
       case Refused(state, unread, reply) =>
         && c.failed && c.destination.None? && c.state == state && PreConnect(state) && c.readBuffer == unread
         && Dismissed(cfg, c, Before(state), reply, toClient, q)
       case Dialing(unread, to) =>
         && Open(c, ConnectingToDestination, unread) && Bound(c, to) && c.writeBuffer == []
         && toClient == METHOD_REPLY && q == Some(ConnectRequest())
       case Granted(unread, to) =>
         && Open(c, ConnectingToDestination, unread) && Bound(c, to)
         && Answering(cfg, c, METHOD_REPLY + SuccessReply(to), toClient, q)
  }

  // Once the methods have been looked at, the method that was chosen.
  ghost predicate Chosen(c: Conn, v: View)
    requires !v.Wrecked?
  {
    if v.Refused? && v.state.ReadingAuthMethods? then c.asked.authMethod == 0xFF
    else v.Replying? || Rank(StateOf(v)) >= 2 ==> c.asked.authMethod == 0
  }

  ghost predicate Open(c: Conn, state: State, unread: seq<byte>) {
    !c.failed && c.fd >= 0 && c.state == state && c.readBuffer == unread
  }

  // The parameters that the next reader will use are those of the view.
  ghost predicate Expecting(c: Conn, wanted: nat, addressType: byte) {
    match c.state
    case ReadingClientGreeting => wanted == 3
    case ReadingAuthMethods => c.asked.methodsCount == wanted > 0
    case ReadingClientConnectionRequest => wanted == 4
    case ReadingDomainNameLength => wanted == 1 && c.asked.addressType == addressType == ADDRESS_TYPE_DOMAIN_NAME
    case ReadingAddress =>
      c.asked.addressType == addressType &&
      ((addressType == ADDRESS_TYPE_IPV4 && wanted == 6) ||
       (addressType == ADDRESS_TYPE_IPV6 && wanted == 18) ||
       (addressType == ADDRESS_TYPE_DOMAIN_NAME && wanted == c.asked.domainLength + 2))
    case _ => false
  }

  ghost predicate Answering(cfg: Config, c: Conn, reply: seq<byte>, toClient: seq<byte>, q: Option<Request>) {
    && c.writeBuffer != [] && toClient + c.writeBuffer == reply
    && q == Some(ClientWriteRequest(cfg, c, |c.writeBuffer|, 0)) && Loaded(c, c.writeBuffer)
  }

  // Refused: the client is closed without a word, or its failure reply is
  // pending, or the one write of that reply is over.
  ghost predicate Dismissed(cfg: Config, c: Conn, before: seq<byte>, reply: seq<byte>, toClient: seq<byte>, q: Option<Request>) {
    if reply == [] then c.fd == -1 && q.None? && toClient == before
    else
      && c.fd >= 0
      && match q
         case Some(q) => q == ClientWriteRequest(cfg, c, |reply|, 0) && Loaded(c, reply) && toClient == before
         case None => toClient <= before + reply && before <= toClient
  }

  ghost predicate Bound(c: Conn, to: Endpoint) {
    && c.destination == Some(to)
    && Names(c.asked, to)
  }

  ghost predicate Names(asked: Asked, to: Endpoint) {
    match to
    case V4(a, p) => asked.addressType == ADDRESS_TYPE_IPV4 && asked.ipv4 == a && asked.port == p
    case V6(a, p) => asked.addressType == ADDRESS_TYPE_IPV6 && asked.ipv6 == a && asked.port == p
  }

  // Where the session stands and what it has not looked at are as in the view.
  ghost predicate Stands(c: Conn, v: View) {
    !v.Wrecked? && c.state == StateOf(v) && c.readBuffer == Unread(v) && Chosen(c, v)
  }

  lemma FollowsStands(cfg: Config, c: Conn, v: View, toClient: seq<byte>, q: Option<Request>)
    requires Follows(cfg, c, v, toClient, q)
    ensures Stands(c, v) && toClient <= Replies(v)
  {
  }

  // c keeps its slot and, unless it is closed, its descriptor; its state does
  // not go back.
  ghost predicate Same(c: Conn, c': Conn) {
    c'.slotIndex == c.slotIndex && (c'.fd == c.fd || c'.fd == -1) && Rank(c.state) <= Rank(c'.state)
  }

  ghost predicate Landed(cfg: Config, c: Conn, out: Outcome, v: View, toClient: seq<byte>) {
    if v.Wrecked? then out == Crash(if v.nullSocket then NullSocket else AssertionFailed)
    else out.Keep? && Same(c, out.conn) && |out.requests| <= 1 && Follows(cfg, out.conn, v, toClient, Head(out.requests))
  }

  // A session in the middle of a completion: nothing in flight, nothing to say.
  ghost predicate AtWork(c: Conn, state: State) {
    && |c.slot| == BUFFER_SIZE && c.awaiting == 1 && !c.failed && c.fd >= 0
    && c.destination.None? && c.writeBuffer == [] && c.state == state
    && (Rank(state) >= 2 ==> c.asked.authMethod == 0)
  }

  // ------------------------------------------------------------------
  // The readers, last to first
  // ------------------------------------------------------------------

  // What both ways into the readers come down to.
  ghost function Examine(cfg: Config, c: Conn, env: Env): Outcome {
    if |c.readBuffer| < c.threshold then AddClientRead(cfg, c) else ReadMessage(cfg, c, env)
  }

  lemma ReadSomeExamines(cfg: Config, c: Conn, n: nat, env: Env)
    requires !c.state.ProxyingRequests? && |c.slot| == BUFFER_SIZE
    ensures ReadSomeFromClient(cfg, c, n, env) == Examine(cfg, c.(threshold := n), env)
  {
    var c' := c.(threshold := n);
    assert c'.readBuffer + c'.slot[..0] == c'.readBuffer;
  }

  lemma WriteLoads(cfg: Config, c: Conn)
    requires |c.slot| == BUFFER_SIZE && 0 < |c.writeBuffer| <= 24
    ensures var out := WriteToClient(cfg, c);
            && out.Keep? && out.conn == c.(slot := out.conn.slot, awaiting := c.awaiting + 1)
            && out.requests == [ClientWriteRequest(cfg, c, |c.writeBuffer|, 0)]
            && |out.conn.slot| == BUFFER_SIZE && Loaded(out.conn, c.writeBuffer)
  {
    assert c.writeBuffer[..|c.writeBuffer|] == c.writeBuffer;
  }

  lemma RefusalFollows(cfg: Config, c: Conn, code: byte)
    requires AtWork(c, c.state) && PreConnect(c.state) && Rank(c.state) >= 2
    ensures Landed(cfg, c, SendFailMessage(cfg, c, code), Refused(c.state, c.readBuffer, FailureReply(code)), Before(c.state))
  {
    WriteLoads(cfg, FailDelayed(c).(writeBuffer := FailureReply(code)));
  }

  lemma ConnectFollows(cfg: Config, c: Conn, to: Endpoint, creation: Creation)
    requires AtWork(c, ReadingAddress) && Names(c.asked, to)
    ensures Landed(cfg, c, ConnectDestination(cfg, c, to, creation), Dial(to, c.readBuffer, creation, false), METHOD_REPLY)
  {
    if creation.OtherException? {
      RefusalFollows(cfg, c, 1);
    }
  }

  lemma NameFollows(cfg: Config, c: Conn, env: Env)
    requires AtWork(c, ReadingAddress)
    requires c.asked.addressType == ADDRESS_TYPE_DOMAIN_NAME && c.threshold == c.asked.domainLength + 2
    ensures Landed(cfg, c, Examine(cfg, c, env), Name(c.asked.domainLength, c.readBuffer, env, false), METHOD_REPLY)
  {
    var n := c.asked.domainLength;
    if |c.readBuffer| >= n + 2 {
      var a := c.asked.(domainName := c.readBuffer[..n], port := c.readBuffer[n..n + 2]);
      var c' := Consume(c, n + 2).(asked := a);
      assert ReadMessage(cfg, c, env) == ReadDomainName(cfg, c, env) == ConnectByName(cfg, c', env);
      assert Name(n, c.readBuffer, env, false) == DialName(a.domainName, a.port, c'.readBuffer, env, false);
      ResolvedFollows(cfg, c', env);
    }
  }

  lemma ResolvedFollows(cfg: Config, c: Conn, env: Env)
    requires AtWork(c, ReadingAddress)
    ensures Landed(cfg, c, ConnectByName(cfg, c, env), DialName(c.asked.domainName, c.asked.port, c.readBuffer, env, false), METHOD_REPLY)
  {
    match env.lookup(HostName(c.asked.domainName))
    case NotFound => RefusalFollows(cfg, c, 4);
    case Inet(a) =>
      var asked := c.asked.(addressType := ADDRESS_TYPE_IPV4, ipv4 := a);
      ConnectFollows(cfg, c.(asked := asked), V4(a, asked.port), env.creation);
    case Inet6(a) =>
      var asked := c.asked.(addressType := ADDRESS_TYPE_IPV6, ipv6 := a);
      ConnectFollows(cfg, c.(asked := asked), V6(a, asked.port), env.creation);
    case OtherFamily =>
  }

  lemma NumericFollows(cfg: Config, c: Conn, env: Env)
    requires AtWork(c, ReadingAddress)
    requires var t := c.asked.addressType;
             (t == ADDRESS_TYPE_IPV4 && c.threshold == 6) || (t == ADDRESS_TYPE_IPV6 && c.threshold == 18)
    ensures Landed(cfg, c, Examine(cfg, c, env), Address(c.asked.addressType, c.readBuffer, env, false), METHOD_REPLY)
  {
    if |c.readBuffer| >= c.threshold {
      if c.asked.addressType == ADDRESS_TYPE_IPV4 {
        var a := c.asked.(ipv4 := c.readBuffer[..4], port := c.readBuffer[4..6]);
        ConnectFollows(cfg, Consume(c, 6).(asked := a), V4(a.ipv4, a.port), env.creation);
      } else {
        var a := c.asked.(ipv6 := c.readBuffer[..16], port := c.readBuffer[16..18]);
        ConnectFollows(cfg, Consume(c, 18).(asked := a), V6(a.ipv6, a.port), env.creation);
      }
    }
  }

  lemma LengthFollows(cfg: Config, c: Conn, env: Env)
    requires AtWork(c, ReadingDomainNameLength)
    requires c.asked.addressType == ADDRESS_TYPE_DOMAIN_NAME && c.threshold == 1
    ensures Landed(cfg, c, Examine(cfg, c, env), Address(ADDRESS_TYPE_DOMAIN_NAME, c.readBuffer, env, false), METHOD_REPLY)
  {
    if |c.readBuffer| >= 1 {
      var length := c.readBuffer[0] as nat;
      var c' := Consume(c, 1).(asked := c.asked.(domainLength := length), state := ReadingAddress);
      assert ReadMessage(cfg, c, env) == ReadDomainNameLength(cfg, c, env);
      ReadSomeExamines(cfg, c', length + 2, env);
      NameFollows(cfg, c'.(threshold := length + 2), env);
    }
  }

  lemma RequestFollows(cfg: Config, c: Conn, env: Env)
    requires AtWork(c, ReadingClientConnectionRequest) && c.threshold == 4
    ensures Landed(cfg, c, Examine(cfg, c, env), ConnectionRequest(c.readBuffer, env, false), METHOD_REPLY)
  {
    var q := c.readBuffer;
    if |q| >= 4 {
      assert ReadMessage(cfg, c, env) == ReadClientConnectionRequest(cfg, c, env);
      assert q[..3] == [q[0], q[1], q[2]];
      if q[..3] == [5, 1, 0] {
        AddressTypeFollows(cfg, c, env);
      } else {
        RefusalFollows(cfg, c, 7);
      }
    }
  }

  lemma AddressTypeFollows(cfg: Config, c: Conn, env: Env)
    requires AtWork(c, ReadingClientConnectionRequest) && |c.readBuffer| >= 4
    requires c.readBuffer[0] == 5 && c.readBuffer[1] == 1 && c.readBuffer[2] == 0
    ensures Landed(cfg, c, ReadClientConnectionRequest(cfg, c, env),
                   Address(c.readBuffer[3], c.readBuffer[4..], env, false), METHOD_REPLY)
  {
    var t := c.readBuffer[3];
    var c' := Consume(c, 4);
    if t == ADDRESS_TYPE_IPV4 || t == ADDRESS_TYPE_IPV6 {
      NumericAwaited(cfg, c', t, env);
    } else if t == ADDRESS_TYPE_DOMAIN_NAME {
      LengthAwaited(cfg, c', env);
    } else {
      RefusalFollows(cfg, c', 8);
    }
  }

  lemma NumericAwaited(cfg: Config, c: Conn, t: byte, env: Env)
    requires AtWork(c, ReadingClientConnectionRequest) && (t == ADDRESS_TYPE_IPV4 || t == ADDRESS_TYPE_IPV6)
    ensures Landed(cfg, c, ReadSomeFromClient(cfg, Awaiting(c, t, ReadingAddress), if t == ADDRESS_TYPE_IPV4 then 6 else 18, env),
                   Address(t, c.readBuffer, env, false), METHOD_REPLY)
  {
    var a, n := Awaiting(c, t, ReadingAddress), if t == ADDRESS_TYPE_IPV4 then 6 else 18;
    ReadSomeExamines(cfg, a, n, env);
    NumericFollows(cfg, a.(threshold := n), env);
  }

  lemma LengthAwaited(cfg: Config, c: Conn, env: Env)
    requires AtWork(c, ReadingClientConnectionRequest)
    ensures Landed(cfg, c, ReadSomeFromClient(cfg, Awaiting(c, ADDRESS_TYPE_DOMAIN_NAME, ReadingDomainNameLength), 1, env),
                   Address(ADDRESS_TYPE_DOMAIN_NAME, c.readBuffer, env, false), METHOD_REPLY)
  {
    var a := Awaiting(c, ADDRESS_TYPE_DOMAIN_NAME, ReadingDomainNameLength);
    ReadSomeExamines(cfg, a, 1, env);
    LengthFollows(cfg, a.(threshold := 1), env);
  }

  lemma MethodsFollow(cfg: Config, c: Conn, env: Env)
    requires AtWork(c, ReadingAuthMethods) && c.threshold == c.asked.methodsCount > 0
    ensures Landed(cfg, c, Examine(cfg, c, env), Methods(c.asked.methodsCount, c.readBuffer, false, env, false), [])
  {
    var n := c.asked.methodsCount;
    if |c.readBuffer| >= n {
      var c' := Consume(MethodChosen(c), n).(writeBuffer := METHOD_REPLY);
      assert ReadMessage(cfg, c, env) == WriteToClient(cfg, c');
      WriteLoads(cfg, c');
    }
  }

  lemma GreetingFollows(cfg: Config, c: Conn, env: Env)
    requires AtWork(c, ReadingClientGreeting) && c.threshold == 3
    ensures Landed(cfg, c, Examine(cfg, c, env), Handshake(c.readBuffer, false, env, false), [])
  {
    var r := c.readBuffer;
    if |r| >= 3 {
      assert ReadMessage(cfg, c, env) == ReadClientGreeting(cfg, c, env);
    }
    if |r| >= 3 && r[0] == 5 && r[1] != 0 {
      var n := r[1] as nat;
      var c' := Consume(c, 2).(asked := c.asked.(methodsCount := n), state := ReadingAuthMethods);
      ReadSomeExamines(cfg, c', n, env);
      MethodsFollow(cfg, c'.(threshold := n), env);
    }
  }

  // ------------------------------------------------------------------
  // The one-shot reading can be taken up where it stopped
  // ------------------------------------------------------------------

  ghost function Resume(state: State, wanted: nat, addressType: byte, u: seq<byte>, env: Env): View {
    match state
    case ReadingClientGreeting => Handshake(u, false, env, false)
    case ReadingAuthMethods => Methods(wanted, u, false, env, false)
    case ReadingClientConnectionRequest => ConnectionRequest(u, env, false)
    case ReadingDomainNameLength => Address(ADDRESS_TYPE_DOMAIN_NAME, u, env, false)
    case _ =>
      if addressType == ADDRESS_TYPE_DOMAIN_NAME && wanted >= 2 then Name(wanted - 2, u, env, false)
      else Address(addressType, u, env, false)
  }

  lemma {:induction false} MoreBytes(r: seq<byte>, d: seq<byte>, sent: bool, e0: Env, env: Env)
    requires var v := Handshake(r, sent, e0, false);
             v.Reading? && (sent <==> Before(v.state) == METHOD_REPLY)
    ensures var v := Handshake(r, sent, e0, false);
            Handshake(r + d, sent, env, false) == Resume(v.state, v.wanted, v.addressType, v.unread + d, env)
  {
    if |r| >= 3 {
      var n, m := r[1] as nat, r[2..];
      assert (r + d)[2..] == m + d;
      if |m| >= n {
        assert (m + d)[..n] == m[..n] && (m + d)[n..] == m[n..] + d;
        MoreRequestBytes(m[n..], d, e0, env);
      }
    }
  }

  lemma MoreRequestBytes(q: seq<byte>, d: seq<byte>, e0: Env, env: Env)
    requires ConnectionRequest(q, e0, false).Reading?
    ensures var v := ConnectionRequest(q, e0, false);
            ConnectionRequest(q + d, env, false) == Resume(v.state, v.wanted, v.addressType, v.unread + d, env)
  {
    if |q| >= 4 {
      var a := q[4..];
      assert (q + d)[..3] == q[..3] && (q + d)[4..] == a + d && (q + d)[3] == q[3];
      MoreAddressBytes(q[3], a, d, e0, env);
    }
  }

  lemma MoreAddressBytes(t: byte, a: seq<byte>, d: seq<byte>, e0: Env, env: Env)
    requires Address(t, a, e0, false).Reading?
    ensures var v := Address(t, a, e0, false);
            Address(t, a + d, env, false) == Resume(v.state, v.wanted, v.addressType, v.unread + d, env)
  {
    if t == ADDRESS_TYPE_DOMAIN_NAME && |a| >= 1 {
      assert (a + d)[1..] == a[1..] + d && (a + d)[0] == a[0];
    }
  }

  lemma ExamineResumes(cfg: Config, c: Conn, wanted: nat, addressType: byte, env: Env)
    requires AtWork(c, c.state) && c.threshold == wanted && Expecting(c, wanted, addressType)
    ensures Landed(cfg, c, Examine(cfg, c, env), Resume(c.state, wanted, addressType, c.readBuffer, env), Before(c.state))
  {
    match c.state
    case ReadingClientGreeting => GreetingFollows(cfg, c, env);
    case ReadingAuthMethods => MethodsFollow(cfg, c, env);
    case ReadingClientConnectionRequest => RequestFollows(cfg, c, env);
    case ReadingDomainNameLength => LengthFollows(cfg, c, env);
    case ReadingAddress =>
      if addressType == ADDRESS_TYPE_DOMAIN_NAME { NameFollows(cfg, c, env); } else { NumericFollows(cfg, c, env); }
  }
}
