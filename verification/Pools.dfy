/**
 The two allocators of the server: a pool of events and a pool of buffer slots,
 each with a queue of free indices; and the layout of the slots in the one
 vector that holds them, computed in 32 bits.
 */
module Pools {
  import opened Socks5
  import opened SessionSpec
  import opened ServerSpec

  class EventPool {
    const totalEventsCount: nat
    const events: array<Event>
    var freeEvents: seq<nat>

    ghost predicate Valid()
      reads this
    {
      events.Length == totalEventsCount && forall e | e in freeEvents :: e < totalEventsCount
    }

    constructor (nconnections: nat)
      ensures Valid() && fresh(events) && totalEventsCount == 4 * nconnections
      ensures events[..] == seq(4 * nconnections, _ => Event(NULL, ClientAccept))
      ensures freeEvents == seq(4 * nconnections, i => i)
    {
      var total := 4 * nconnections;
      totalEventsCount := total;
      events := new Event[total](_ => Event(NULL, ClientAccept));
      freeEvents := [];
      new;
      for i := 0 to total
        invariant freeEvents == seq(i, k => k)
        invariant forall k | 0 <= k < total :: events[k] == Event(NULL, ClientAccept)
        modifies `freeEvents
      {
        freeEvents := freeEvents + [i];
      }
    }

    method ObtainEvent() returns (e: nat)
      requires Valid() && freeEvents != []
      modifies `freeEvents
      ensures Valid() && e == old(freeEvents)[0] && freeEvents == old(freeEvents)[1..] && e < events.Length
    {
      e := freeEvents[0];
      assert e in freeEvents && forall x | x in freeEvents[1..] :: x in freeEvents;
      freeEvents := freeEvents[1..];
    }

    method ReturnEvent(e: nat)
      requires Valid() && e < totalEventsCount
      modifies `freeEvents
      ensures Valid() && freeEvents == old(freeEvents) + [e]
    {
      freeEvents := freeEvents + [e];
    }
  }

  // ------------------------------------------------------------------
  // Slots
  // ------------------------------------------------------------------

  // Unsigned 32-bit arithmetic.
  function Wrap32(x: nat): nat { x % 0x1_0000_0000 }

  // A stretch of the buffer vector: iovecs and spans alike.
  datatype Span = Span(base: nat, len: nat)

  class BufferPool {
    const totalBufferCount: nat
    const buffers: array<byte>
    var freeBuffers: seq<nat>
    const iovecs: seq<Span>

    ghost predicate Valid() {
      && totalBufferCount < 0x2_0000 && buffers.Length == totalBufferCount * BUFFER_SIZE
      && |iovecs| == 2 * totalBufferCount && forall k | 0 <= k < |iovecs| :: iovecs[k] == Iovec(k)
    }

    // With 2^17 slots or more the vector's size wraps around: see SizeFits.
    constructor (nconnections: nat)
      requires nconnections < 0x8000_0000
      ensures fresh(buffers) && totalBufferCount == nconnections && buffers.Length == Wrap32(nconnections * BUFFER_SIZE)
      ensures freeBuffers == seq(nconnections, i => i)
      ensures |iovecs| == 2 * nconnections && forall k | 0 <= k < |iovecs| :: iovecs[k] == Iovec(k)
      ensures Valid() <==> nconnections < 0x2_0000
    {
      totalBufferCount := nconnections;
      buffers := new byte[Wrap32(nconnections * BUFFER_SIZE)];
      var indices, spans := [], [];
      for i := 0 to nconnections
        invariant indices == seq(i, k => k)
        invariant |spans| == 2 * i && forall k | 0 <= k < |spans| :: spans[k] == Iovec(k)
      {
        indices := indices + [i];
        spans := spans + [Span(Wrap32(2 * i * HALF_BUFFER_SIZE), HALF_BUFFER_SIZE)];
        spans := spans + [Span(Wrap32((2 * i + 1) * HALF_BUFFER_SIZE), HALF_BUFFER_SIZE)];
      }
      freeBuffers, iovecs := indices, spans;
    }

    // None stands for the exception InsufficientBuffersException.
    method ObtainFreeBuffer() returns (r: Option<nat>)
      modifies `freeBuffers
      ensures r == if old(freeBuffers) == [] then None else Some(old(freeBuffers)[0])
      ensures freeBuffers == if old(freeBuffers) == [] then [] else old(freeBuffers)[1..]
    {
      if freeBuffers == [] {
        return None;
      }
      r := Some(freeBuffers[0]);
      freeBuffers := freeBuffers[1..];
    }

    method ReturnBuffer(index: nat)
      modifies `freeBuffers
      ensures freeBuffers == old(freeBuffers) + [index]
    {
      freeBuffers := freeBuffers + [index];
    }
  }

  // The k-th registered buffer.
  function Iovec(k: nat): Span { Span(Wrap32(k * HALF_BUFFER_SIZE), HALF_BUFFER_SIZE) }

  function BufferHalf0(index: nat): Span {
    Span(Wrap32(index * BUFFER_SIZE), HALF_BUFFER_SIZE)
  }

  function BufferHalf1(index: nat): Span {
    var base := Wrap32(index * BUFFER_SIZE) + HALF_BUFFER_SIZE;
    var end := Wrap32(Wrap32(index + 1) * BUFFER_SIZE);
    Span(base, if base <= end then end - base else 0)
  }

  // The buffer vector has room for all slots if and only if there are fewer than
  // 2^17 of them.
  lemma {:induction false} SizeFits(n: nat)
    ensures Wrap32(n * BUFFER_SIZE) == n * BUFFER_SIZE <==> n < 0x2_0000
  {
  }

  predicate Disjoint(a: Span, b: Span) { a.base + a.len <= b.base || b.base + b.len <= a.base }

  lemma NoWrap(n: nat, k: nat)
    requires k < 2 * n && n < 0x2_0000
    ensures Iovec(k) == Span(k * HALF_BUFFER_SIZE, HALF_BUFFER_SIZE)
  {
  }

  // The halves of a slot are the registered buffers whose indices its session
  // uses, and they fill the vector from its first byte to its last.
  // (With one slot more the end of the last half would wrap to 0.)
  lemma {:induction false} SlotGeometry(n: nat, i: nat)
    requires i < n < 0x2_0000
    ensures BufferHalf0(i) == Iovec(2 * i) == Span(i * BUFFER_SIZE, HALF_BUFFER_SIZE)
    ensures BufferHalf1(i) == Iovec(2 * i + 1) == Span(i * BUFFER_SIZE + HALF_BUFFER_SIZE, HALF_BUFFER_SIZE)
    ensures Iovec(0).base == 0 && Iovec(2 * n - 1).base + HALF_BUFFER_SIZE == n * BUFFER_SIZE
  {
    NoWrap(n, 2 * i);
    NoWrap(n, 2 * i + 1);
    NoWrap(n, 0);
    NoWrap(n, 2 * n - 1);
  }

  lemma {:induction false} IovecsDisjoint(n: nat, k: nat, l: nat)
    requires k < l < 2 * n && n < 0x2_0000
    ensures Disjoint(Iovec(k), Iovec(l))
  {
    NoWrap(n, k);
    NoWrap(n, l);
  }

  // Each registered buffer starts where the one before it ends.
  lemma {:induction false} IovecsTile(n: nat, k: nat)
    requires k + 1 < 2 * n && n < 0x2_0000
    ensures Iovec(k + 1).base == Iovec(k).base + Iovec(k).len
  {
    NoWrap(n, k);
    NoWrap(n, k + 1);
  }

  // The bytes of slot i.
  function Window(m: seq<byte>, i: nat): (w: seq<byte>)
    requires (i + 1) * BUFFER_SIZE <= |m|
    ensures |w| == BUFFER_SIZE
  {
    m[i * BUFFER_SIZE..(i + 1) * BUFFER_SIZE]
  }

  // Two memories that agree outside slot i agree on every other slot.
  lemma {:induction false} OtherWindows(m: seq<byte>, m': seq<byte>, i: nat, j: nat)
    requires |m| == |m'| && i != j && (j + 1) * BUFFER_SIZE <= |m|
    requires forall k | 0 <= k < |m| && !(i * BUFFER_SIZE <= k < (i + 1) * BUFFER_SIZE) :: m'[k] == m[k]
    ensures Window(m', j) == Window(m, j)
  {
    forall k | 0 <= k < BUFFER_SIZE
      ensures Window(m', j)[k] == Window(m, j)[k]
    {
      assert Window(m', j)[k] == m'[j * BUFFER_SIZE + k] && Window(m, j)[k] == m[j * BUFFER_SIZE + k];
    }
  }
}
