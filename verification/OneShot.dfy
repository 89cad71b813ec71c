/**
 The handshake read in one shot: what the server has to answer, and whom it has
 to call, as a function of the whole byte stream the client has sent so far.
 Nothing here is incremental: there is no buffer, no state carried from one read
 to the next and no record of how the stream was cut into reads. The session of
 SessionSpec is proved to follow this definition whatever the cuts were.

 The layout is that of sections 3 to 6 of RFC 1928; the points at which more
 bytes are awaited, the reply 05 00 and the error codes are the server's own.
 */
module OneShot {
  import opened Socks5

  datatype View =
    // wanted bytes are needed, |unread| < wanted are there
    | Reading(state: State, unread: seq<byte>, wanted: nat, addressType: byte)
    // the method-selection reply is on its way
    | Replying(unread: seq<byte>)
    // given up; reply is what the client is told ([]: closed without a word)
    | Refused(state: State, unread: seq<byte>, reply: seq<byte>)
    | Dialing(unread: seq<byte>, to: Endpoint)
    | Granted(unread: seq<byte>, to: Endpoint)
    // an assertion fails, or the null destination socket is dereferenced
    | Wrecked(nullSocket: bool)

  function Handshake(r: seq<byte>, methodReplySent: bool, env: Env, connected: bool): View {
    if |r| < 3 then Reading(ReadingClientGreeting, r, 3, 0)
    else if r[0] != 5 || r[1] == 0 then Refused(ReadingClientGreeting, r, [])
    else Methods(r[1] as nat, r[2..], methodReplySent, env, connected)
  }

  function Methods(n: nat, m: seq<byte>, methodReplySent: bool, env: Env, connected: bool): View {
    if |m| < n then Reading(ReadingAuthMethods, m, n, 0)
    else if 0 !in m[..n] then Refused(ReadingAuthMethods, m[n..], METHOD_REPLY)
    else if !methodReplySent then Replying(m[n..])
    else ConnectionRequest(m[n..], env, connected)
  }

  function ConnectionRequest(q: seq<byte>, env: Env, connected: bool): View {
    if |q| < 4 then Reading(ReadingClientConnectionRequest, q, 4, 0)
    else if q[..3] != [5, 1, 0] then Refused(ReadingClientConnectionRequest, q, FailureReply(7))
    else Address(q[3], q[4..], env, connected)
  }

  function Address(addressType: byte, a: seq<byte>, env: Env, connected: bool): View {
    if addressType == ADDRESS_TYPE_IPV4 then
      if |a| < 6 then Reading(ReadingAddress, a, 6, addressType)
      else Dial(V4(a[..4], a[4..6]), a[6..], env.creation, connected)
    else if addressType == ADDRESS_TYPE_IPV6 then
      if |a| < 18 then Reading(ReadingAddress, a, 18, addressType)
      else Dial(V6(a[..16], a[16..18]), a[18..], env.creation, connected)
    else if addressType == ADDRESS_TYPE_DOMAIN_NAME then
      if |a| < 1 then Reading(ReadingDomainNameLength, a, 1, addressType)
      else Name(a[0] as nat, a[1..], env, connected)
    else Refused(ReadingClientConnectionRequest, a, FailureReply(8))
  }

  function Name(length: nat, a: seq<byte>, env: Env, connected: bool): View {
    if |a| < length + 2 then Reading(ReadingAddress, a, length + 2, ADDRESS_TYPE_DOMAIN_NAME)
    else DialName(a[..length], a[length..length + 2], a[length + 2..], env, connected)
  }

  function DialName(name: seq<byte>, port: Port, rest: seq<byte>, env: Env, connected: bool): View {
    match env.lookup(HostName(name))
    case NotFound => Refused(ReadingAddress, rest, FailureReply(4))
    case Inet(a) => Dial(V4(a, port), rest, env.creation, connected)
    case Inet6(a) => Dial(V6(a, port), rest, env.creation, connected)
    case OtherFamily => Wrecked(false)
  }

  function Dial(to: Endpoint, rest: seq<byte>, creation: Creation, connected: bool): View {
    match creation
    case Created => if connected then Granted(rest, to) else Dialing(rest, to)
    case OtherException => Refused(ReadingAddress, rest, FailureReply(1))
    case Errno(_) => Wrecked(true)
  }

  // What the client has been told before the reply that is going out, if any.
  function Before(state: State): seq<byte> {
    if state.ReadingClientGreeting? || state.ReadingAuthMethods? then [] else METHOD_REPLY
  }

  // Everything the client is to be told, once it is all told.
  function Replies(v: View): seq<byte> {
    match v
    case Reading(state, _, _, _) => Before(state)
    case Replying(_) => METHOD_REPLY
    case Refused(state, _, reply) => Before(state) + reply
    case Dialing(_, _) => METHOD_REPLY
    case Granted(_, to) => METHOD_REPLY + SuccessReply(to)
    case Wrecked(_) => METHOD_REPLY
  }

  // ------------------------------------------------------------------
  // The client's side: messages, and what the one-shot reading makes of them
  // ------------------------------------------------------------------

  datatype Target = Numeric(to: Endpoint) | Named(name: seq<byte>, port: Port)

  predicate ValidMethods(methods: seq<byte>) { 1 <= |methods| <= 255 && 0 in methods }

  predicate ValidTarget(t: Target) { t.Named? ==> |t.name| <= 255 }

  // Section 3 of RFC 1928.
  function EncodeGreeting(methods: seq<byte>): seq<byte>
    requires |methods| <= 255
  {
    [5, |methods| as byte] + methods
  }

  // Section 4 of RFC 1928, with the CONNECT command.
  function EncodeRequest(t: Target): seq<byte>
    requires ValidTarget(t)
  {
    [5, 1, 0, TypeOf(t)] + EncodeTarget(t)
  }

  function TypeOf(t: Target): byte {
    match t
    case Numeric(V4(_, _)) => 1
    case Numeric(V6(_, _)) => 4
    case Named(_, _) => 3
  }

  function EncodeTarget(t: Target): seq<byte>
    requires ValidTarget(t)
  {
    match t
    case Numeric(V4(a, p)) => a + p
    case Numeric(V6(a, p)) => a + p
    case Named(name, p) => [|name| as byte] + name + p
  }

  // The encoder writes the bytes of section 4, for the three types of address.
  lemma {:induction false} RequestIsSection4(t: Target)
    requires ValidTarget(t)
    ensures EncodeRequest(t) ==
            match t
            case Numeric(V4(a, p)) => [5, 1, 0, 1] + a + p
            case Numeric(V6(a, p)) => [5, 1, 0, 4] + a + p
            case Named(name, p) => [5, 1, 0, 3, |name| as byte] + name + p
  {
    match t
    case Numeric(V4(a, p)) => Joined([5, 1, 0, 1], a, p);
    case Numeric(V6(a, p)) => Joined([5, 1, 0, 4], a, p);
    case Named(name, p) => assert [5, 1, 0, 3, |name| as byte] == [5, 1, 0, 3] + [|name| as byte];
  }

  lemma Joined(x: seq<byte>, y: seq<byte>, z: seq<byte>)
    ensures x + (y + z) == x + y + z
  {
  }

  // The name that a request makes the server look up.
  function HostOf(t: Target): Option<seq<byte>> {
    match t
    case Numeric(_) => None
    case Named(name, _) => Some(HostName(name))
  }

  // A client's messages as the server takes them apart.
  datatype Message = Message(methods: seq<byte>, target: Target)

  predicate ValidMessage(m: Message) { ValidMethods(m.methods) && ValidTarget(m.target) }

  function EncodeMessage(m: Message): seq<byte>
    requires ValidMessage(m)
  {
    EncodeGreeting(m.methods) + EncodeRequest(m.target)
  }

  function Resolve(t: Target, env: Env): Option<Endpoint> {
    match t
    case Numeric(to) => Some(to)
    case Named(name, p) =>
      match env.lookup(HostName(name))
      case Inet(a) => Some(V4(a, p))
      case Inet6(a) => Some(V6(a, p))
      case _ => None
  }

  // Section 6 of RFC 1928: what a client reads out of a success reply.
  function DecodeReply(r: seq<byte>): Option<Endpoint> {
    if |r| == 10 && r[..4] == [5, 0, 0, 1] then Some(V4(r[4..8], r[8..10]))
    else if |r| == 22 && r[..4] == [5, 0, 0, 4] then Some(V6(r[4..20], r[20..22]))
    else None
  }

  lemma {:induction false} ReplyRoundTrip(to: Endpoint)
    ensures DecodeReply(SuccessReply(to)) == Some(to)
  {
    var r := SuccessReply(to);
    match to
    case V4(a, p) =>
      assert r[..4] == [5, 0, 0, 1] && r[4..8] == a && r[8..10] == p;
    case V6(a, p) =>
      assert r[..4] == [5, 0, 0, 4] && r[4..20] == a && r[20..22] == p;
  }

  lemma {:induction false} DecodedRepliesAreSuccessReplies(r: seq<byte>)
    requires DecodeReply(r).Some?
    ensures r == SuccessReply(DecodeReply(r).value)
  {
    var to := DecodeReply(r).value;
    match to
    case V4(a, p) => assert r == r[..4] + r[4..8] + r[8..10];
    case V6(a, p) => assert r == r[..4] + r[4..20] + r[20..22];
  }

  // Section 6 of RFC 1928: the code of a reply, and the address it carries.
  datatype Answer = Answer(code: byte, bound: Endpoint)

  function ParseReply(r: seq<byte>): Option<Answer> {
    if |r| == 10 && r[0] == 5 && r[2..4] == [0, 1] then Some(Answer(r[1], V4(r[4..8], r[8..10])))
    else if |r| == 22 && r[0] == 5 && r[2..4] == [0, 4] then Some(Answer(r[1], V6(r[4..20], r[20..22])))
    else None
  }

  // Code 0 is success, and nothing else is.
  lemma {:induction false} SuccessIsCodeZero(r: seq<byte>)
    ensures DecodeReply(r) == if ParseReply(r).Some? && ParseReply(r).value.code == 0 then Some(ParseReply(r).value.bound) else None
  {
    if |r| >= 10 {
      assert r[..4] == [r[0], r[1], r[2], r[3]] && r[2..4] == [r[2], r[3]];
    }
  }

  // A failure reply tells its code and an all-zero address; the client takes it
  // for a success only if the code is 0.
  lemma {:induction false} FailureRoundTrip(code: byte)
    ensures ParseReply(FailureReply(code)) == Some(Answer(code, V4([0, 0, 0, 0], [0, 0])))
    ensures DecodeReply(FailureReply(code)) == None <==> code != 0
  {
    var r := FailureReply(code);
    assert r[2..4] == [0, 1] && r[4..8] == [0, 0, 0, 0] && r[8..10] == [0, 0];
    SuccessIsCodeZero(r);
  }

  lemma Parts(x: seq<byte>, y: seq<byte>, z: seq<byte>)
    ensures var s := x + y + z;
            s[..|x|] == x && s[|x|..|x| + |y|] == y && s[|x| + |y|..] == z
  {
  }

  lemma AddressOfEncoding(t: Target, rest: seq<byte>, env: Env, connected: bool)
    requires ValidTarget(t)
    ensures Address(TypeOf(t), EncodeTarget(t) + rest, env, connected) ==
            match t
            case Numeric(to) => Dial(to, rest, env.creation, connected)
            case Named(name, p) => DialName(name, p, rest, env, connected)
  {
    match t
    case Numeric(V4(b, p)) => Parts(b, p, rest);
    case Numeric(V6(b, p)) => Parts(b, p, rest);
    case Named(name, p) =>
      Parts(name, p, rest);
      assert (EncodeTarget(t) + rest)[1..] == name + p + rest;
  }

  lemma RequestOfEncoding(t: Target, rest: seq<byte>, env: Env, connected: bool)
    requires ValidTarget(t)
    ensures ConnectionRequest(EncodeRequest(t) + rest, env, connected) ==
            match t
            case Numeric(to) => Dial(to, rest, env.creation, connected)
            case Named(name, p) => DialName(name, p, rest, env, connected)
  {
    var q := EncodeRequest(t) + rest;
    assert q[..3] == [5, 1, 0] && q[4..] == EncodeTarget(t) + rest;
    AddressOfEncoding(t, rest, env, connected);
  }

  lemma MethodsOfEncoding(methods: seq<byte>, q: seq<byte>, env: Env, connected: bool)
    requires ValidMethods(methods)
    ensures Handshake(EncodeGreeting(methods) + q, true, env, connected) ==
            ConnectionRequest(q, env, connected)
  {
    var r, m := EncodeGreeting(methods) + q, methods + q;
    assert r[2..] == m && r[0] == 5 && r[1] as nat == |methods|;
    assert m[..|methods|] == methods && m[|methods|..] == q;
  }

  // A well-formed client that offers "no authentication" gets through to the
  // destination it named, and the bytes it sent after its request stay unread.
  lemma {:induction false} EncodedClientIsServed(m: Message, rest: seq<byte>, env: Env, connected: bool)
    requires ValidMessage(m) && env.creation.Created? && Resolve(m.target, env).Some?
    ensures Handshake(EncodeMessage(m) + rest, true, env, connected) ==
            var to := Resolve(m.target, env).value;
            if connected then Granted(rest, to) else Dialing(rest, to)
  {
    var q := EncodeRequest(m.target) + rest;
    assert EncodeMessage(m) + rest == EncodeGreeting(m.methods) + q;
    MethodsOfEncoding(m.methods, q, env, connected);
    RequestOfEncoding(m.target, rest, env, connected);
  }

  predicate Calls(v: View) { v.Dialing? || v.Granted? }

  lemma AddressIsEncoding(addressType: byte, a: seq<byte>, env: Env, connected: bool) returns (t: Target)
    requires Calls(Address(addressType, a, env, connected))
    ensures ValidTarget(t) && TypeOf(t) == addressType
    ensures var v := Address(addressType, a, env, connected);
            a == EncodeTarget(t) + v.unread && Resolve(t, env) == Some(v.to)
  {
    if addressType == ADDRESS_TYPE_DOMAIN_NAME {
      t := NameIsEncoding(a[0] as nat, a[1..], env, connected);
    } else if addressType == ADDRESS_TYPE_IPV4 {
      t := V4IsEncoding(a, env, connected);
    } else {
      t := V6IsEncoding(a, env, connected);
    }
  }

  lemma V4IsEncoding(a: seq<byte>, env: Env, connected: bool) returns (t: Target)
    requires Calls(Address(ADDRESS_TYPE_IPV4, a, env, connected))
    ensures t.Numeric? && t.to.V4?
    ensures var v := Address(ADDRESS_TYPE_IPV4, a, env, connected);
            a == EncodeTarget(t) + v.unread && Resolve(t, env) == Some(v.to)
  {
    t := Numeric(V4(a[..4], a[4..6]));
    Cut(a, 4, 6);
  }

  lemma V6IsEncoding(a: seq<byte>, env: Env, connected: bool) returns (t: Target)
    requires Calls(Address(ADDRESS_TYPE_IPV6, a, env, connected))
    ensures t.Numeric? && t.to.V6?
    ensures var v := Address(ADDRESS_TYPE_IPV6, a, env, connected);
            a == EncodeTarget(t) + v.unread && Resolve(t, env) == Some(v.to)
  {
    t := Numeric(V6(a[..16], a[16..18]));
    Cut(a, 16, 18);
  }

  lemma Cut(s: seq<byte>, i: nat, j: nat)
    requires i <= j <= |s|
    ensures s == s[..i] + s[i..j] + s[j..]
  {
  }

  lemma NameIsEncoding(length: nat, a: seq<byte>, env: Env, connected: bool) returns (t: Target)
    requires length <= 255 && Calls(Name(length, a, env, connected))
    ensures t.Named? && ValidTarget(t) && |t.name| == length
    ensures var v := Name(length, a, env, connected);
            a == t.name + t.port + v.unread && Resolve(t, env) == Some(v.to)
  {
    t := Named(a[..length], a[length..length + 2]);
    Cut(a, length, length + 2);
  }

  lemma RequestAssembled(q: seq<byte>, t: Target, unread: seq<byte>)
    requires ValidTarget(t) && |q| >= 4 && q[..3] == [5, 1, 0] && q[3] == TypeOf(t) && q[4..] == EncodeTarget(t) + unread
    ensures q == EncodeRequest(t) + unread
  {
    assert q[..4] == q[..3] + [q[3]];
    assert q == q[..4] + q[4..];
  }

  lemma RequestIsEncoding(q: seq<byte>, env: Env, connected: bool) returns (t: Target)
    requires Calls(ConnectionRequest(q, env, connected))
    ensures ValidTarget(t)
    ensures var v := ConnectionRequest(q, env, connected);
            q == EncodeRequest(t) + v.unread && Resolve(t, env) == Some(v.to)
  {
    t := AddressIsEncoding(q[3], q[4..], env, connected);
    RequestAssembled(q, t, Address(q[3], q[4..], env, connected).unread);
  }

  lemma GreetingAssembled(r: seq<byte>, methods: seq<byte>, q: seq<byte>)
    requires |r| >= 2 && r[0] == 5 && r[1] as nat == |methods| && r[2..] == methods + q
    ensures r == EncodeGreeting(methods) + q
  {
    assert r == [r[0], r[1]] + r[2..];
  }

  lemma GreetingIsEncoding(r: seq<byte>, env: Env, connected: bool) returns (methods: seq<byte>, q: seq<byte>)
    requires Calls(Handshake(r, true, env, connected))
    ensures ValidMethods(methods) && r == EncodeGreeting(methods) + q
    ensures Handshake(r, true, env, connected) == ConnectionRequest(q, env, connected)
  {
    var n, m := r[1] as nat, r[2..];
    methods, q := m[..n], m[n..];
    GreetingAssembled(r, methods, q);
  }

  // The converse: the server dials only for a stream that is the encoding of a
  // greeting and a CONNECT request, and it dials what that request names.
  lemma {:induction false} ServedClientIsEncoded(r: seq<byte>, env: Env, connected: bool) returns (m: Message)
    requires Calls(Handshake(r, true, env, connected))
    ensures ValidMessage(m)
    ensures var v := Handshake(r, true, env, connected);
            r == EncodeMessage(m) + v.unread && Resolve(m.target, env) == Some(v.to)
  {
    var methods, q := GreetingIsEncoding(r, env, connected);
    var t := RequestIsEncoding(q, env, connected);
    m := Message(methods, t);
    var unread := ConnectionRequest(q, env, connected).unread;
    assert EncodeGreeting(methods) + (EncodeRequest(t) + unread) == EncodeMessage(m) + unread;
  }

  function StateOf(v: View): State
    requires !v.Wrecked?
  {
    match v
    case Reading(state, _, _, _) => state
    case Replying(_) => ReadingAuthMethods
    case Refused(state, _, _) => state
    case Dialing(_, _) => ConnectingToDestination
    case Granted(_, _) => ConnectingToDestination
  }

  function Unread(v: View): seq<byte>
    requires !v.Wrecked?
  {
    match v
    case Reading(_, u, _, _) => u
    case Replying(u) => u
    case Refused(_, u, _) => u
    case Dialing(u, _) => u
    case Granted(u, _) => u
  }

  // Bytes are used up from the front only: what is unread is a suffix of the
  // stream. At most 519 bytes are ever looked at: as long as the server wants
  // more it has fewer than that, and it never keeps more than it wants.
  lemma {:induction false} StreamIsConserved(r: seq<byte>, sent: bool, env: Env, connected: bool)
    requires !Handshake(r, sent, env, connected).Wrecked?
    ensures var v := Handshake(r, sent, env, connected);
            IsSuffix(Unread(v), r) && (v.Reading? ==> |Unread(v)| < v.wanted && |r| - |Unread(v)| + v.wanted <= 519)
  {
    if |r| >= 3 && r[0] == 5 && r[1] != 0 {
      var n, m := r[1] as nat, r[2..];
      if |m| >= n && 0 in m[..n] && sent {
        RequestIsConserved(m[n..], env, connected);
        SuffixOfDrop(Unread(ConnectionRequest(m[n..], env, connected)), m, n);
      }
      SuffixOfDrop(Unread(Methods(n, m, sent, env, connected)), r, 2);
    }
  }

  ghost predicate IsSuffix(u: seq<byte>, r: seq<byte>) { |u| <= |r| && u == r[|r| - |u|..] }

  lemma SuffixOfDrop(u: seq<byte>, r: seq<byte>, k: nat)
    requires k <= |r| && IsSuffix(u, r[k..])
    ensures IsSuffix(u, r)
  {
  }

  lemma AddressIsConserved(addressType: byte, a: seq<byte>, env: Env, connected: bool)
    requires !Address(addressType, a, env, connected).Wrecked?
    ensures var v := Address(addressType, a, env, connected);
            IsSuffix(Unread(v), a) && (v.Reading? ==> |Unread(v)| < v.wanted && |a| - |Unread(v)| + v.wanted <= 258)
  {
    if addressType == ADDRESS_TYPE_DOMAIN_NAME && |a| >= 1 {
      NameIsConserved(a[0] as nat, a[1..], env, connected);
      SuffixOfDrop(Unread(Name(a[0] as nat, a[1..], env, connected)), a, 1);
    }
  }

  lemma NameIsConserved(length: nat, a: seq<byte>, env: Env, connected: bool)
    requires length <= 255 && !Name(length, a, env, connected).Wrecked?
    ensures var v := Name(length, a, env, connected);
            IsSuffix(Unread(v), a) && (v.Reading? ==> |Unread(v)| < v.wanted && |a| - |Unread(v)| + v.wanted <= 257)
  {
  }

  lemma RequestIsConserved(q: seq<byte>, env: Env, connected: bool)
    requires !ConnectionRequest(q, env, connected).Wrecked?
    ensures var v := ConnectionRequest(q, env, connected);
            IsSuffix(Unread(v), q) && (v.Reading? ==> |Unread(v)| < v.wanted && |q| - |Unread(v)| + v.wanted <= 262)
  {
    if |q| >= 4 && q[..3] == [5, 1, 0] {
      AddressIsConserved(q[3], q[4..], env, connected);
      SuffixOfDrop(Unread(Address(q[3], q[4..], env, connected)), q, 4);
    }
  }
}
