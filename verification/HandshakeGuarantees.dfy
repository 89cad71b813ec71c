/**
 The handshake in every reachable world: chunk independence, round trips,
 conservation of the client's bytes, bounds, and when the program stops.
 */
module HandshakeGuarantees {
  import opened Socks5
  import opened SessionSpec
  import opened OneShot
  import opened Wire
  import opened HandshakeProof
  import opened SessionProof
  import opened ServerSpec
  import opened RingProof
  import opened Safety
  import opened Guarantees

  // The part of a session that its peers can tell: where it stands, what it has
  // not looked at, whom it calls, what it has still to say.
  datatype Standing =
    Standing(state: State, unread: seq<byte>, failed: bool, destination: Option<Endpoint>, toSay: seq<byte>)

  function StandingOf(c: Conn): Standing {
    Standing(c.state, c.readBuffer, c.failed, c.destination, if c.failed then [] else c.writeBuffer)
  }

  // The standing the one-shot reading asks for, given how much has been said and
  // whether something has broken.
  function Expected(v: View, said: nat, broken: bool): Standing
    requires !v.Wrecked?
  {
    if broken || v.Refused? then Standing(StateOf(v), Unread(v), true, None, [])
    else
      var toSay := if said <= |Replies(v)| then Replies(v)[said..] else [];
      Standing(StateOf(v), Unread(v), false, if v.Dialing? || v.Granted? then Some(v.to) else None, toSay)
  }

  lemma FollowsIsExpected(cfg: Config, c: Conn, v: View, toClient: seq<byte>, q: Option<Request>)
    requires Follows(cfg, c, v, toClient, q)
    ensures !v.Wrecked? && toClient <= Replies(v) && StandingOf(c) == Expected(v, |toClient|, false)
  {
  }

  lemma HandshakeIsExpected(cfg: Config, c: Conn, w: Wire, f: Lanes)
    requires HandshakeOk(cfg, c, w, f)
    ensures var v := ViewOf(w);
            !v.Wrecked? && w.toClient <= Replies(v) && StandingOf(c) == Expected(v, |w.toClient|, w.broken)
  {
    if !w.broken {
      FollowsIsExpected(cfg, c, ViewOf(w), w.toClient, Only(f));
    }
  }

  // Before proxying: whatever the reads and writes were, and whether or not the
  // connection has since broken, the session stands where the one-shot reading
  // of everything it has received puts it, and the client has been sent a prefix
  // of exactly the replies that reading calls for.
  lemma {:induction false} SessionFollowsOneShot(w: World, id: nat)
    requires Reachable(w) && id in w.sessions && !w.sessions[id].state.ProxyingRequests?
    ensures var o := WireOf(w, id);
            var v := Handshake(o.fromClient, |o.toClient| >= 2, o.env, o.connected);
            && !v.Wrecked? && o.toClient <= Replies(v)
            && StandingOf(w.sessions[id]) == Expected(v, |o.toClient|, o.broken)
  {
    var f := OneSession(w, id);
    HandshakeIsExpected(w.cfg, w.sessions[id], WireOf(w, id), f);
  }

  // The outside world has given both the answers that these bytes ask for alike.
  // A socket is not created when the name is not resolved.
  predicate SameAnswers(r: seq<byte>, methodReplySent: bool, e1: Env, e2: Env) {
    AsksForSocket(r, methodReplySent) ==>
      SameAnswer(NameAsked(r, methodReplySent), e1, e2)
  }

  predicate SameAnswer(asked: Option<seq<byte>>, e1: Env, e2: Env) {
    match asked
    case None => e1.creation == e2.creation
    case Some(name) =>
      && e1.lookup(name) == e2.lookup(name)
      && (e1.lookup(name).NotFound? || e1.lookup(name).OtherFamily? || e1.creation == e2.creation)
  }

  lemma OnlyAnswersMatter(r: seq<byte>, sent: bool, e1: Env, e2: Env, connected: bool)
    requires SameAnswers(r, sent, e1, e2)
    ensures Handshake(r, sent, e1, connected) == Handshake(r, sent, e2, connected)
  {
    if |r| >= 3 && r[0] == 5 && r[1] != 0 && sent {
      var n, m := r[1] as nat, r[2..];
      if |m| >= n && 0 in m[..n] && |m[n..]| >= 4 && m[n..][..3] == [5, 1, 0] {
        OnlyAddressAnswersMatter(m[n..][3], m[n..][4..], e1, e2, connected);
      }
    }
  }

  lemma OnlyAddressAnswersMatter(t: byte, a: seq<byte>, e1: Env, e2: Env, connected: bool)
    requires Address(t, a, ANY_ADDRESS, false).Dialing? ==> SameAnswer(AddressName(t, a), e1, e2)
    ensures Address(t, a, e1, connected) == Address(t, a, e2, connected)
  {
  }

  // Chunk independence: two sessions, of one run or of two, of the same server
  // configuration or not, that have received the same bytes and been given the
  // same answers stand alike and have been told the same, up to how far the
  // replies have got; however differently those bytes were cut into reads.
  lemma {:induction false} ChunkIndependence(w1: World, id1: nat, w2: World, id2: nat)
    requires Reachable(w1) && id1 in w1.sessions && !w1.sessions[id1].state.ProxyingRequests?
    requires Reachable(w2) && id2 in w2.sessions && !w2.sessions[id2].state.ProxyingRequests?
    requires var o1, o2 := WireOf(w1, id1), WireOf(w2, id2);
             && o1.fromClient == o2.fromClient && |o1.toClient| == |o2.toClient| && o1.connected == o2.connected
             && SameAnswers(o1.fromClient, |o1.toClient| >= 2, o1.env, o2.env)
    ensures WireOf(w1, id1).toClient == WireOf(w2, id2).toClient
    ensures w1.sessions[id1].state == w2.sessions[id2].state && w1.sessions[id1].readBuffer == w2.sessions[id2].readBuffer
    ensures WireOf(w1, id1).broken == WireOf(w2, id2).broken ==> StandingOf(w1.sessions[id1]) == StandingOf(w2.sessions[id2])
  {
    SessionFollowsOneShot(w1, id1);
    SessionFollowsOneShot(w2, id2);
    var o1, o2 := WireOf(w1, id1), WireOf(w2, id2);
    OnlyAnswersMatter(o1.fromClient, |o1.toClient| >= 2, o1.env, o2.env, o1.connected);
    var v := Handshake(o1.fromClient, |o1.toClient| >= 2, o1.env, o1.connected);
    assert o1.toClient == Replies(v)[..|o1.toClient|] && o2.toClient == Replies(v)[..|o1.toClient|];
  }

  // Proxying starts only for a client whose bytes were a greeting offering "no
  // authentication" and a CONNECT request, with what follows still unread; and
  // the client was told 05 00 and then a success reply that decodes to the very
  // endpoint its request resolved to, which is the one connected to.
  lemma {:induction false} ProxiedClient(w: World, id: nat) returns (m: Message)
    requires Reachable(w) && id in w.sessions && w.sessions[id].state.ProxyingRequests?
    ensures ValidMessage(m)
    ensures var c, o := w.sessions[id], WireOf(w, id);
            && o.fromClient == EncodeMessage(m) + c.readBuffer
            && |o.toClient| >= 2 && o.toClient[..2] == METHOD_REPLY
            && Resolve(m.target, o.env).Some?
            && DecodeReply(o.toClient[2..]) == Resolve(m.target, o.env)
            && (!c.failed ==> c.destination == Resolve(m.target, o.env))
  {
    var f := OneSession(w, id);
    var o := WireOf(w, id);
    DoneHandshake(w.cfg, w.sessions[id], o, f);
    var to := ViewOf(o).to;
    GrantedSent(o.fromClient, |o.toClient| >= 2, o.env, o.connected);
    m := ServedClientIsEncoded(o.fromClient, o.env, o.connected);
    assert o.toClient[..2] == METHOD_REPLY && o.toClient[2..] == SuccessReply(to);
    ReplyRoundTrip(to);
  }

  lemma DoneHandshake(cfg: Config, c: Conn, o: Wire, f: Lanes)
    requires SessionOk(cfg, c, o, f) && c.state.ProxyingRequests?
    ensures HandshakeDone(c, o)
  {
  }

  lemma GrantedSent(r: seq<byte>, sent: bool, env: Env, connected: bool)
    requires Handshake(r, sent, env, connected).Granted?
    ensures sent && Handshake(r, true, env, connected) == Handshake(r, sent, env, connected)
  {
  }

  // What has been taken out of the read buffer is a prefix of what was received
  // before proxying.
  lemma {:induction false} InputIsConserved(w: World, id: nat)
    requires Reachable(w) && id in w.sessions
    ensures var u, r := w.sessions[id].readBuffer, WireOf(w, id).fromClient;
            |u| <= |r| && u == r[|r| - |u|..]
  {
    var o := WireOf(w, id);
    StandsInReach(w, id);
    StreamIsConserved(o.fromClient, |o.toClient| >= 2, o.env, o.connected);
  }

  // At all times, proxying or not.
  lemma StandsInReach(w: World, id: nat)
    requires Reachable(w) && id in w.sessions
    ensures var v := ViewOf(WireOf(w, id));
            !v.Wrecked? && w.sessions[id].readBuffer == Unread(v) && WireOf(w, id).toClient <= Replies(v)
  {
    var f := OneSession(w, id);
    if w.sessions[id].state.ProxyingRequests? {
      DoneHandshake(w.cfg, w.sessions[id], WireOf(w, id), f);
    } else {
      HandshakeIsExpected(w.cfg, w.sessions[id], WireOf(w, id), f);
    }
  }

  // A handshake takes at most 519 reads, 24 writes that move anything and one
  // connect; and until it is over, exactly one request is in flight. So it ends.
  lemma {:induction false} BoundedHandshake(w: World, id: nat)
    requires Reachable(w) && id in w.sessions
    ensures var o := WireOf(w, id);
            o.readCount <= 519 && o.writeCount - o.idleCount <= 24 && o.connectCount <= 1
    ensures !w.sessions[id].failed && !w.sessions[id].state.ProxyingRequests? ==>
              var o := WireOf(w, id);
              |EventsOf(w, id)| == 1 && o.readCount + (o.writeCount - o.idleCount) + o.connectCount < 519 + 24 + 1
  {
    var f := OneSession(w, id);
    var c, o := w.sessions[id], WireOf(w, id);
    if !c.failed && !c.state.ProxyingRequests? {
      Unfinished(w.cfg, c, o, f);
      Tokens(w, id);
    }
  }

  lemma Unfinished(cfg: Config, c: Conn, o: Wire, f: Lanes)
    requires SessionOk(cfg, c, o, f) && !c.failed && !c.state.ProxyingRequests?
    ensures |o.toClient| < 24
  {
    RepliesAreShort(o.fromClient, |o.toClient| >= 2, o.env, o.connected);
  }

  // ------------------------------------------------------------------
  // When the program stops
  // ------------------------------------------------------------------

  const ANY_ADDRESS := Env(_ => Inet([0, 0, 0, 0]), Created)

  // The bytes received make a request that the server acts on.
  predicate AsksForSocket(r: seq<byte>, methodReplySent: bool) {
    Handshake(r, methodReplySent, ANY_ADDRESS, false).Dialing?
  }

  // The name that the request makes the server look up, if it has one.
  function NameAsked(r: seq<byte>, methodReplySent: bool): Option<seq<byte>>
    requires AsksForSocket(r, methodReplySent)
  {
    var q := r[2..][r[1] as nat..];
    AddressName(q[3], q[4..])
  }

  // Section 5 of RFC 1928: type 3 is a length byte and a name.
  function AddressName(addressType: byte, a: seq<byte>): Option<seq<byte>> {
    if addressType == 3 && |a| >= 1 && |a[1..]| >= a[0] as nat then Some(HostName(a[1..][..a[0] as nat])) else None
  }

  // The answers the code does not get over.
  predicate BadAnswer(asked: Option<seq<byte>>, env: Env) {
    match asked
    case None => env.creation.Errno?
    case Some(name) => env.lookup(name).OtherFamily? || (!env.lookup(name).NotFound? && env.creation.Errno?)
  }

  lemma WreckedByAnswer(r: seq<byte>, sent: bool, env: Env, connected: bool)
    ensures Handshake(r, sent, env, connected).Wrecked? <==>
              AsksForSocket(r, sent) && BadAnswer(NameAsked(r, sent), env)
  {
    if |r| >= 3 {
      var n, m := r[1] as nat, r[2..];
      if |m| >= n && |m[n..]| >= 4 {
        WreckedAddress(m[n..][3], m[n..][4..], env, connected);
      }
    }
  }

  // An encoded request asks for the host that its client named.
  lemma {:induction false} HostIsAsked(m: Message, rest: seq<byte>)
    requires ValidMessage(m)
    ensures AsksForSocket(EncodeMessage(m) + rest, true)
    ensures NameAsked(EncodeMessage(m) + rest, true) == HostOf(m.target)
  {
    EncodedClientIsServed(m, rest, ANY_ADDRESS, false);
    GreetingCutOff(m, rest);
    AddressAsked(m.target, rest);
  }

  lemma GreetingCutOff(m: Message, rest: seq<byte>)
    requires ValidMessage(m)
    ensures var r := EncodeMessage(m) + rest;
            |r| >= 2 && |r| >= 2 + r[1] as nat && r[2..][r[1] as nat..] == EncodeRequest(m.target) + rest
  {
    var r, q := EncodeMessage(m) + rest, EncodeRequest(m.target) + rest;
    assert r == EncodeGreeting(m.methods) + q;
    assert r[1] as nat == |m.methods| && r[2..] == m.methods + q;
    assert (m.methods + q)[|m.methods|..] == q;
  }

  lemma AddressAsked(t: Target, rest: seq<byte>)
    requires ValidTarget(t)
    ensures var q := EncodeRequest(t) + rest; AddressName(q[3], q[4..]) == HostOf(t)
  {
    var q := EncodeRequest(t) + rest;
    assert q[4..] == EncodeTarget(t) + rest;
    if t.Named? {
      assert q[4..][1..] == t.name + t.port + rest;
      Parts(t.name, t.port, rest);
    }
  }

  lemma WreckedAddress(t: byte, a: seq<byte>, env: Env, connected: bool)
    ensures Address(t, a, env, connected).Wrecked? <==>
              Address(t, a, ANY_ADDRESS, false).Dialing? && BadAnswer(AddressName(t, a), env)
  {
  }

  // With this completion the client's bytes come to ask for a socket, and the
  // answer that comes with it is a bad one.
  ghost predicate MeetsBadAnswer(w: World, c: Completion) {
    && c.Op? && c.event in w.ring.pending && c.event < |w.ring.events|
    && var id, q := w.ring.events[c.event].client, w.ring.pending[c.event];
       && id in w.sessions && q.start + q.offset + Moved(c.result) <= |w.sessions[id].slot|
       && !w.sessions[id].state.ProxyingRequests?
       && var o := Observe(w.cfg, w.sessions[id], WireOf(w, id), q, c.result, c.env);
          && !o.broken && AsksForSocket(o.fromClient, |o.toClient| >= 2)
          && BadAnswer(NameAsked(o.fromClient, |o.toClient| >= 2), o.env)
  }

  // Every assertion holds, the destination socket is never null when it is
  // used, no index or erase leaves its vector, no descriptor is closed twice, no
  // event or session is missing: the program stops at a completion only when
  // that completion makes the client's bytes ask for a socket and socket(2)
  // fails with an errno, or the resolver answers with a foreign family. Then it
  // does stop.
  lemma {:induction false} StopsExactlyOnBadAnswer(w: World, c: Completion)
    requires Reachable(w) && Enabled(w, c)
    ensures Step(w, c).Crashed? <==> MeetsBadAnswer(w, c)
    ensures Step(w, c).Crashed? ==> Step(w, c).fault == NullSocket || Step(w, c).fault == AssertionFailed
  {
    SaneInReach(w, c);
    if StopsAt(w, c) || MeetsBadAnswer(w, c) {
      var id, q := w.ring.events[c.event].client, w.ring.pending[c.event];
      var o := Observe(w.cfg, w.sessions[id], WireOf(w, id), q, c.result, c.env);
      WreckedByAnswer(o.fromClient, |o.toClient| >= 2, o.env, o.connected);
      var fl, out := OpInReach(w, c.event, c.result, c.env);
      FaultOfOp(w, fl, c.event, c.result, c.env, out);
    }
  }

  lemma SaneInReach(w: World, c: Completion)
    requires Reachable(w) && Enabled(w, c)
    ensures Step(w, c).Crashed? <==> StopsAt(w, c)
  {
    ReachableIsSane(w);
    SaneStep(w, c);
  }

  lemma FaultOfOp(w: World, fl: map<nat, Tickets>, e: nat, res: Result, env: Env, out: Outcome)
    requires Local(w, fl, e, res, env, out) && out.Crash?
    ensures Complete(w, e, res, env) == Crashed(out.fault) && (out.fault == NullSocket || out.fault == AssertionFailed)
  {
  }

  // Over whole runs: a run that stops early has met a bad answer where it stops.
  lemma {:induction false} RunStopsOnBadAnswer(w: World, cs: seq<Completion>) returns (k: nat)
    requires Reachable(w) && Legal(w, cs) && Run(w, cs).Crashed?
    ensures k < |cs| && Run(w, cs[..k]).Running? && MeetsBadAnswer(Run(w, cs[..k]).w, cs[k])
    decreases |cs|
  {
    StopsExactlyOnBadAnswer(w, cs[0]);
    if Step(w, cs[0]).Crashed? {
      k := 0;
    } else {
      StepIsReachable(w, cs[0]);
      k := RunStopsOnBadAnswer(Step(w, cs[0]).w, cs[1..]);
      RunFromSecond(w, cs, k);
      k := k + 1;
    }
  }

  lemma RunFromSecond(w: World, cs: seq<Completion>, k: nat)
    requires cs != [] && k < |cs[1..]| && Step(w, cs[0]).Running?
    ensures Run(w, cs[..k + 1]) == Run(Step(w, cs[0]).w, cs[1..][..k])
  {
    assert cs[..k + 1][0] == cs[0] && cs[..k + 1][1..] == cs[1..][..k];
  }

  // ------------------------------------------------------------------
  // Replies that fall short
  // ------------------------------------------------------------------

  // The methods that a client's first bytes offer.
  function Offered(r: seq<byte>): (methods: seq<byte>)
    requires |r| >= 2 && |r| >= 2 + r[1] as nat
  {
    r[2..2 + r[1] as nat]
  }

  // Section 3 of RFC 1928: FF when no offered method is acceptable.
  function DueMethodReply(methods: seq<byte>): seq<byte> {
    [5, if 0 in methods then 0 else 0xFF]
  }

  // Once a client's methods are in, the server has chosen "no authentication"
  // if it is among them, and otherwise noted that none will do.
  lemma {:induction false} MethodIsChosen(w: World, id: nat)
    requires Reachable(w) && id in w.sessions
    requires var r := WireOf(w, id).fromClient; |r| >= 3 && r[0] == 5 && r[1] != 0 && |r| >= 2 + r[1] as nat
    ensures w.sessions[id].asked.authMethod == if 0 in Offered(WireOf(w, id).fromClient) then 0 else 0xFF
  {
    var f := OneSession(w, id);
    MethodOfSession(w.cfg, w.sessions[id], WireOf(w, id), f);
  }

  lemma MethodOfSession(cfg: Config, c: Conn, o: Wire, f: Lanes)
    requires SessionOk(cfg, c, o, f)
    requires var r := o.fromClient; |r| >= 3 && r[0] == 5 && r[1] != 0 && |r| >= 2 + r[1] as nat
    ensures c.asked.authMethod == if 0 in Offered(o.fromClient) then 0 else 0xFF
  {
    ViewIsChosen(cfg, c, o, f);
    MethodsViewed(o.fromClient, |o.toClient| >= 2, o.env, o.connected);
  }

  lemma ViewIsChosen(cfg: Config, c: Conn, o: Wire, f: Lanes)
    requires SessionOk(cfg, c, o, f)
    ensures !ViewOf(o).Wrecked? && Chosen(c, ViewOf(o))
  {
  }

  lemma MethodsViewed(r: seq<byte>, sent: bool, env: Env, connected: bool)
    requires |r| >= 3 && r[0] == 5 && r[1] != 0 && |r| >= 2 + r[1] as nat
    ensures var v := Handshake(r, sent, env, connected);
            if 0 !in Offered(r) then v.Refused? && v.state == ReadingAuthMethods
            else if sent then v.Wrecked? || Rank(StateOf(v)) >= 2
            else v.Replying?
  {
    var m, n := r[2..], r[1] as nat;
    assert Offered(r) == m[..n];
    assert Handshake(r, sent, env, connected) == Methods(n, m, sent, env, connected);
    LateStates(m[n..], env, connected);
  }

  lemma LateStates(q: seq<byte>, env: Env, connected: bool)
    ensures var v := ConnectionRequest(q, env, connected); v.Wrecked? || Rank(StateOf(v)) >= 2
  {
  }

  // A client is told about its methods what section 3 calls for if and only if
  // it offered "no authentication": it is always told 05 00. Without that
  // method it is dropped all the same.
  lemma {:induction false} MethodReplyIsDueIffOffered(w: World, id: nat)
    requires Reachable(w) && id in w.sessions && |WireOf(w, id).toClient| >= 2
    ensures var c, r, told := w.sessions[id], WireOf(w, id).fromClient, WireOf(w, id).toClient;
            && |r| >= 2 && |r| >= 2 + r[1] as nat
            && (told[..2] == DueMethodReply(Offered(r)) <==> 0 in Offered(r))
            && (0 !in Offered(r) ==> c.failed && c.state == ReadingAuthMethods && |told| == 2)
  {
    var o := WireOf(w, id);
    StandsInReach(w, id);
    ToldOfMethods(o.fromClient, o.toClient, o.env, o.connected);
    if 0 !in Offered(o.fromClient) {
      RefusedInReach(w, id);
    }
  }

  lemma RefusedInReach(w: World, id: nat)
    requires Reachable(w) && id in w.sessions && ViewOf(WireOf(w, id)).Refused?
    ensures w.sessions[id].failed && w.sessions[id].state == ViewOf(WireOf(w, id)).state
  {
    var f := OneSession(w, id);
    if w.sessions[id].state.ProxyingRequests? {
      DoneHandshake(w.cfg, w.sessions[id], WireOf(w, id), f);
    } else {
      HandshakeIsExpected(w.cfg, w.sessions[id], WireOf(w, id), f);
    }
  }

  lemma ToldOfMethods(r: seq<byte>, told: seq<byte>, env: Env, connected: bool)
    requires |told| >= 2
    requires var v := Handshake(r, true, env, connected); !v.Wrecked? && told <= Replies(v)
    ensures |r| >= 2 && |r| >= 2 + r[1] as nat && told[..2] == METHOD_REPLY
    ensures 0 !in Offered(r) ==>
              var v := Handshake(r, true, env, connected); v.Refused? && v.state == ReadingAuthMethods && |told| == 2
    ensures METHOD_REPLY == DueMethodReply(Offered(r)) <==> 0 in Offered(r)
  {
    var v := Handshake(r, true, env, connected);
    RepliesStart(r, env, connected);
    assert told[..2] == Replies(v)[..2];
    assert Offered(r) == r[2..][..r[1] as nat];
    assert METHOD_REPLY[1] == 0 && DueMethodReply(Offered(r))[1] == if 0 in Offered(r) then 0 else 0xFF;
  }

  lemma RepliesStart(r: seq<byte>, env: Env, connected: bool)
    requires |Replies(Handshake(r, true, env, connected))| >= 2
    ensures |r| >= 3 && |r| >= 2 + r[1] as nat && Replies(Handshake(r, true, env, connected))[..2] == METHOD_REPLY
  {
    if |r| >= 3 && r[0] == 5 && r[1] != 0 && |r[2..]| >= r[1] as nat && 0 in r[2..][..r[1] as nat] {
      RequestRepliesStart(r[2..][r[1] as nat..], env, connected);
    }
  }

  lemma RequestRepliesStart(q: seq<byte>, env: Env, connected: bool)
    ensures METHOD_REPLY <= Replies(ConnectionRequest(q, env, connected))
  {
    LateReplies(ConnectionRequest(q, env, connected));
  }

  lemma LateReplies(v: View)
    requires v.Wrecked? || Before(StateOf(v)) == METHOD_REPLY
    ensures METHOD_REPLY <= Replies(v)
  {
  }

  // ------------------------------------------------------------------
  // Who is refused, and what is said
  // ------------------------------------------------------------------

  // The code with which the server refuses a request, in the bytes of sections
  // 4 to 6 of RFC 1928: 7 for a version, command or reserved byte it does not
  // take, 8 for an address type it does not know, 4 for a name that is not
  // found, 1 when no socket can be made.
  function RefusalCode(q: seq<byte>, env: Env): Option<byte> {
    if |q| < 4 then None
    else if q[0] != 5 || q[1] != 1 || q[2] != 0 then Some(7)
    else if q[3] == 1 then if |q| >= 10 && env.creation.OtherException? then Some(1) else None
    else if q[3] == 4 then if |q| >= 22 && env.creation.OtherException? then Some(1) else None
    else if q[3] == 3 then
      if |q| < 5 || |q| < 5 + q[4] as nat + 2 then None
      else
        var answer := env.lookup(HostName(q[5..5 + q[4] as nat]));
        if answer.NotFound? then Some(4)
        else if !answer.OtherFamily? && env.creation.OtherException? then Some(1)
        else None
    else Some(8)
  }

  // All that a client is told whose request is refused.
  function Refusal(code: byte): seq<byte> { [5, 0, 5, code, 0, 1, 0, 0, 0, 0, 0, 0] }

  lemma CodeIsDue(q: seq<byte>, env: Env, connected: bool)
    ensures var v := ConnectionRequest(q, env, connected);
            match RefusalCode(q, env)
            case Some(code) => v.Refused? && Before(v.state) == METHOD_REPLY && v.reply == FailureReply(code)
            case None => !v.Refused?
  {
    if |q| >= 4 {
      assert q[..3] == [q[0], q[1], q[2]];
      if q[..3] == [5, 1, 0] && q[3] == 3 {
        CodeIsDueForName(q, env, connected);
      }
    }
  }

  lemma RefusalInBytes(v: View, code: byte)
    requires v.Refused? && Before(v.state) == METHOD_REPLY && v.reply == FailureReply(code)
    ensures Replies(v) == Refusal(code)
  {
  }

  lemma CodeIsDueForName(q: seq<byte>, env: Env, connected: bool)
    requires |q| >= 4 && q[..4] == [5, 1, 0, 3]
    ensures var v := Address(3, q[4..], env, connected);
            match RefusalCode(q, env)
            case Some(code) => v.Refused? && v.state == ReadingAddress && v.reply == FailureReply(code)
            case None => !v.Refused?
  {
    assert q[0] == 5 && q[1] == 1 && q[2] == 0 && q[3] == 3;
    if |q| >= 5 {
      var n := q[4] as nat;
      assert q[4..][0] == q[4] && q[4..][1..] == q[5..];
      if |q| >= 5 + n + 2 {
        assert q[5..][..n] == q[5..5 + n];
      }
    }
  }

  lemma FailedAtWork(cfg: Config, c: Conn, o: Wire, f: Lanes)
    requires SessionOk(cfg, c, o, f) && c.failed && !o.broken
    ensures !c.state.ProxyingRequests? && ViewOf(o).Refused? && (c.fd == -1 <==> ViewOf(o).reply == [])
  {
  }

  lemma RefusedHasFailed(cfg: Config, c: Conn, o: Wire, f: Lanes)
    requires SessionOk(cfg, c, o, f) && ViewOf(o).Refused?
    ensures c.failed && c.state == ViewOf(o).state && PreConnect(c.state) && o.toClient <= Replies(ViewOf(o))
    ensures ViewOf(o).reply == [] || o.broken ==> c.fd == -1
  {
  }

  // A client whose greeting was accepted is refused if and only if its request
  // has such a code, and it is told that code and nothing else; its descriptor
  // stays open for that unless the connection breaks.
  lemma {:induction false} RefusedWithCode(w: World, id: nat, methods: seq<byte>, q: seq<byte>)
    requires Reachable(w) && id in w.sessions && ValidMethods(methods)
    requires WireOf(w, id).fromClient == EncodeGreeting(methods) + q && |WireOf(w, id).toClient| >= 2
    ensures var c, o := w.sessions[id], WireOf(w, id);
            match RefusalCode(q, o.env)
            case Some(code) =>
              && c.failed && PreConnect(c.state) && (c.fd == -1 <==> o.broken)
              && o.toClient <= Refusal(code) && Replies(ViewOf(o)) == Refusal(code)
            case None => c.failed ==> o.broken
  {
    var c, o := w.sessions[id], WireOf(w, id);
    var f := OneSession(w, id);
    MethodsOfEncoding(methods, q, o.env, o.connected);
    CodeIsDue(q, o.env, o.connected);
    if ViewOf(o).Refused? {
      RefusedHasFailed(w.cfg, c, o, f);
      RefusalInBytes(ViewOf(o), RefusalCode(q, o.env).value);
    }
    if c.failed && !o.broken {
      FailedAtWork(w.cfg, c, o, f);
    }
  }

  // Nothing is decided on fewer than three bytes. A client of another version,
  // or without methods, is closed without a word. One that has not been told
  // about its methods yet has failed, if its connection stands, for that or for
  // want of "no authentication".
  lemma {:induction false} GreetingIsJudged(w: World, id: nat)
    requires Reachable(w) && id in w.sessions
    ensures var c, o := w.sessions[id], WireOf(w, id);
            var r := o.fromClient;
            && (|r| < 3 ==> c.state == ReadingClientGreeting && o.toClient == [] && (c.failed ==> o.broken))
            && (|r| >= 3 && (r[0] != 5 || r[1] == 0) ==> c.failed && c.fd == -1 && o.toClient == [] && EventsOf(w, id) == {})
            && (|o.toClient| < 2 && !o.broken ==>
                  (c.failed <==> |r| >= 3 && (r[0] != 5 || r[1] == 0 || (|r| >= 2 + r[1] as nat && 0 !in Offered(r)))))
  {
    var c, o := w.sessions[id], WireOf(w, id);
    var f := OneSession(w, id);
    StandsInReach(w, id);
    if ViewOf(o).Refused? {
      RefusedHasFailed(w.cfg, c, o, f);
      if c.fd == -1 {
        FailedSessions(w, id);
      }
    }
    if c.failed && !o.broken {
      FailedAtWork(w.cfg, c, o, f);
    }
    GreetingViewed(o.fromClient, |o.toClient| >= 2, o.env, o.connected);
  }

  lemma GreetingViewed(r: seq<byte>, sent: bool, env: Env, connected: bool)
    ensures var v := Handshake(r, sent, env, connected);
            && (|r| < 3 ==> v == Reading(ReadingClientGreeting, r, 3, 0))
            && (|r| >= 3 && (r[0] != 5 || r[1] == 0) ==> v == Refused(ReadingClientGreeting, r, []))
            && (!sent ==>
                  (v.Refused? <==> |r| >= 3 && (r[0] != 5 || r[1] == 0 || (|r| >= 2 + r[1] as nat && 0 !in Offered(r)))))
  {
    if |r| >= 3 && |r| >= 2 + r[1] as nat {
      assert Offered(r) == r[2..][..r[1] as nat];
    }
  }

  // The bytes of a pending handshake reply, where the kernel will look for them,
  // are all that the client is still to be told.
  lemma {:induction false} ReplyIsOnItsWay(w: World, id: nat, e: nat)
    requires Reachable(w) && id in w.sessions && !w.sessions[id].state.ProxyingRequests?
    requires e in EventsOf(w, id) && w.ring.pending[e].kind.ClientWrite?
    ensures var c, o, q := w.sessions[id], WireOf(w, id), w.ring.pending[e];
            && q.offset == 0 && q.len > 0 && q.start + q.len <= |c.slot|
            && o.toClient + c.slot[q.start..q.start + q.len] == Replies(ViewOf(o))
  {
    var f := OneSession(w, id);
    ReplyLoaded(w.cfg, w.sessions[id], ViewOf(WireOf(w, id)), WireOf(w, id).toClient, w.ring.pending[e]);
  }

  lemma ReplyLoaded(cfg: Config, c: Conn, v: View, toClient: seq<byte>, q: Request)
    requires Follows(cfg, c, v, toClient, Some(q)) && q.kind.ClientWrite?
    ensures q.offset == 0 && q.len > 0 && q.start + q.len <= |c.slot|
    ensures toClient + c.slot[q.start..q.start + q.len] == Replies(v)
  {
  }

  // The one write of a failure reply is not resumed: the client is told all of
  // it if and only if that write is whole, and nothing more is ever sent.
  lemma {:induction false} RefusalToldIffWhole(w: World, e: nat, n: nat, env: Env)
    requires Reachable(w) && Enabled(w, Op(e, Sent(n), env)) && e < |w.ring.events|
    requires var id := w.ring.events[e].client;
             id in w.sessions && w.sessions[id].failed && !w.sessions[id].state.ProxyingRequests?
    ensures var id, s := w.ring.events[e].client, Step(w, Op(e, Sent(n), env));
            && s.Running? && id in s.w.sessions && EventsOf(s.w, id) == {}
            && (WireOf(s.w, id).toClient == Replies(ViewOf(WireOf(w, id))) <==> n == w.ring.pending[e].len)
  {
    var id := w.ring.events[e].client;
    RefusalInReach(w, e, n, env);
    SaneInReach(w, Op(e, Sent(n), env));
    var fl, out := OpInReach(w, e, Sent(n), env);
    RefusedOp(w, fl, e, n, env, out);
    StepIsReachable(w, Op(e, Sent(n), env));
    NothingPends(Step(w, Op(e, Sent(n), env)).w, id);
  }

  lemma RefusalInReach(w: World, e: nat, n: nat, env: Env)
    requires Reachable(w) && Enabled(w, Op(e, Sent(n), env)) && e < |w.ring.events|
    requires var id := w.ring.events[e].client;
             id in w.sessions && w.sessions[id].failed && !w.sessions[id].state.ProxyingRequests?
    ensures var id, q := w.ring.events[e].client, w.ring.pending[e];
            && PreConnect(w.sessions[id].state) && w.sessions[id].awaiting == 2
            && q.start + q.offset + n <= |w.sessions[id].slot|
            && var o := Observe(w.cfg, w.sessions[id], WireOf(w, id), q, Sent(n), env);
               (o.toClient == Replies(ViewOf(WireOf(w, id))) <==> n == q.len) && !Wrecks(w.sessions[id], o)
  {
    var id := w.ring.events[e].client;
    var f := OneSession(w, id);
    PendingClient(w, e);
    RefusalPiece(w.cfg, w.sessions[id], WireOf(w, id), f, n, env);
  }

  lemma NothingPends(w: World, id: nat)
    requires Reachable(w) && id in w.sessions && w.sessions[id].awaiting == 1 && PreConnect(w.sessions[id].state)
    ensures EventsOf(w, id) == {}
  {
    CounterAccounting(w, id);
    assert |EventsOf(w, id)| == 0;
  }

  lemma RefusalPiece(cfg: Config, c: Conn, o: Wire, f: Lanes, n: nat, env: Env)
    requires HandshakeOk(cfg, c, o, f) && c.failed
    requires f.down.Some? && Answers(f.down.value, Sent(n))
    ensures var q := f.down.value;
            && q.start + q.offset + n <= |c.slot| && PreConnect(c.state) && c.awaiting == 2
            && (Observe(cfg, c, o, q, Sent(n), env).toClient == Replies(ViewOf(o)) <==> n == q.len)
            && !Wrecks(c, Observe(cfg, c, o, q, Sent(n), env))
  {
    var v, q := ViewOf(o), f.down.value;
    assert c.slot[HALF_BUFFER_SIZE..HALF_BUFFER_SIZE + n] == v.reply[..n];
    assert |Before(v.state) + v.reply[..n]| == |Before(v.state)| + n;
    assert n == |v.reply| ==> v.reply[..n] == v.reply;
    RefusedIsFinal(o.fromClient, |o.toClient| >= 2, |Before(v.state) + v.reply[..n]| >= 2, o.env, o.connected);
  }

  lemma RefusedOp(w: World, fl: map<nat, Tickets>, e: nat, n: nat, env: Env, out: Outcome)
    requires Local(w, fl, e, Sent(n), env, out)
    requires var id := w.ring.events[e].client;
             w.sessions[id].failed && w.sessions[id].awaiting == 2 && PreConnect(w.sessions[id].state)
    requires Complete(w, e, Sent(n), env).Running?
    ensures var id, w' := w.ring.events[e].client, Complete(w, e, Sent(n), env).w;
            && id in w'.sessions && w'.sessions[id].awaiting == 1 && PreConnect(w'.sessions[id].state)
            && WireOf(w', id) == Observe(w.cfg, w.sessions[id], WireOf(w, id), w.ring.pending[e], Sent(n), env)
  {
  }
}
