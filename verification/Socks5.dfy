/**
 Vocabulary shared by the whole model: bytes, the connection states and the
 constants of the server, and the answers of the outside world (name lookup
 and socket creation) that the server's own code does not compute.
 */
module Socks5 {

  newtype byte = n: int | 0 <= n < 256

  type Ipv4 = a: seq<byte> | |a| == 4 witness [0, 0, 0, 0]
  type Ipv6 = a: seq<byte> | |a| == 16 witness [0, 0, 0, 0, 0, 0, 0, 0, 0, 0, 0, 0, 0, 0, 0, 0]
  type Port = p: seq<byte> | |p| == 2 witness [0, 0]

  datatype Option<+T> = None | Some(value: T)

  const HALF_BUFFER_SIZE: nat := 16384
  const BUFFER_SIZE: nat := 2 * HALF_BUFFER_SIZE

  const ADDRESS_TYPE_IPV4: byte := 1
  const ADDRESS_TYPE_DOMAIN_NAME: byte := 3
  const ADDRESS_TYPE_IPV6: byte := 4

  datatype State =
    | ReadingClientGreeting
    | ReadingAuthMethods
    | ReadingClientConnectionRequest
    | ReadingDomainNameLength
    | ReadingAddress
    | ConnectingToDestination
    | ProxyingRequests

  // The states before the connect request is submitted.
  predicate PreConnect(state: State) {
    !state.ConnectingToDestination? && !state.ProxyingRequests?
  }

  // Where a destination socket points: 4 or 16 address bytes and 2 port bytes,
  // both in network order, exactly as the client (or the resolver) gave them.
  datatype Endpoint = V4(ipv4: Ipv4, port: Port) | V6(ipv6: Ipv6, port: Port)

  // What gethostbyname answers for one name.
  datatype Lookup = NotFound | Inet(ipv4: Ipv4) | Inet6(ipv6: Ipv6) | OtherFamily

  // How constructing the destination socket ends: it exists, socket(2) failed
  // with an errno, or some other exception was thrown.
  datatype Creation = Created | Errno(code: int) | OtherException

  // What the outside world would answer at one step: about any name, and to the
  // construction of a socket.
  datatype Env = Env(lookup: seq<byte> -> Lookup, creation: Creation)

  // No name is known and no socket to be had.
  const QUIET := Env(_ => NotFound, OtherException)

  // The name gethostbyname is given, as a C string: it ends at a zero byte.
  function HostName(name: seq<byte>): (host: seq<byte>)
    ensures host <= name && 0 !in host
    ensures |host| < |name| ==> name[|host|] == 0
  {
    if name == [] || name[0] == 0 then [] else [name[0]] + HostName(name[1..])
  }

  // Only a name that contains a zero byte is cut short.
  lemma {:induction false} HostNameIsWhole(name: seq<byte>)
    ensures HostName(name) == name <==> 0 !in name
  {
    var host := HostName(name);
    if |host| == |name| {
      assert host == host[..|name|] == name;
    }
  }

  const METHOD_REPLY: seq<byte> := [5, 0]

  // Section 6 of RFC 1928: a failure reply carries an all-zero IPv4 address.
  function FailureReply(code: byte): (r: seq<byte>)
    ensures |r| == 10
  {
    [5, code, 0, 1, 0, 0, 0, 0, 0, 0]
  }

  function SuccessReply(to: Endpoint): (r: seq<byte>)
    ensures |r| == if to.V4? then 10 else 22
  {
    match to
    case V4(a, p) => [5, 0, 0, 1] + a + p
    case V6(a, p) => [5, 0, 0, 4] + a + p
  }

  // Memory m with d written over it from position at.
  function Splice(m: seq<byte>, at: nat, d: seq<byte>): (r: seq<byte>)
    requires at + |d| <= |m|
    ensures |r| == |m|
  {
    m[..at] + d + m[at + |d|..]
  }
}
