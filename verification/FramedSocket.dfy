/** encode, send_all, recv_all, send_message and recv_message over a socket. */
module FramedSocket {
  import opened Protocol

  /** A socket: the bytes that the kernel took for sending so far, and the bytes that the peer sent and
      that were not received yet, after which the stream ends. `answers(i)` says how the kernel answers
      the i-th call: an error if it is not positive, and otherwise the most bytes that the call moves.
      `receives` records whether the last call was a receive. */
  class Socket {
    const answers: nat -> int
    var turn: nat
    var sent: seq<Byte>
    var incoming: seq<Byte>
    ghost var receives: bool

    constructor (answers: nat -> int, incoming: seq<Byte>)
      ensures this.answers == answers && turn == 0 && sent == [] && this.incoming == incoming
    {
      this.answers, turn, sent, this.incoming := answers, 0, [], incoming;
      receives := false;
    }

    /** No call fails from now on. */
    ghost predicate Healthy()
      reads this
    {
      forall i: nat :: turn <= i ==> answers(i) > 0
    }

    /** The last call of the kernel was a receive, and it failed. */
    ghost predicate FailedReceive()
      reads this
    {
      turn > 0 && receives && answers(turn - 1) <= 0
    }

    /** send(): takes some of the bytes, or fails. */
    method Send(buf: array<Byte>, from: nat, size: nat) returns (n: int)
      requires from + size <= buf.Length && size > 0
      modifies this
      ensures turn == old(turn) + 1 && incoming == old(incoming) && !receives
      ensures n > 0 <==> answers(old(turn)) > 0
      ensures n > 0 ==> n <= size && sent == old(sent) + buf[from..from + n]
      ensures n <= 0 ==> sent == old(sent)
    {
      n := answers(turn);
      turn, receives := turn + 1, false;
      if n > size { n := size; }
      if n > 0 { sent := sent + buf[from..from + n]; }
    }

    /** recv(): gives some bytes, or 0 at the end of the stream, or fails. */
    method Recv(buf: array<Byte>, from: nat, size: nat) returns (n: int)
      requires from + size <= buf.Length && size > 0
      modifies this, buf
      ensures turn == old(turn) + 1 && sent == old(sent) && receives
      ensures n > 0 <==> answers(old(turn)) > 0 && old(incoming) != []
      ensures n > 0 ==> n <= size && n <= |old(incoming)| && incoming == old(incoming)[n..]
      ensures n > 0 ==> buf[from..from + n] == old(incoming)[..n]
      ensures n <= 0 ==> incoming == old(incoming)
      ensures forall i :: 0 <= i < buf.Length && !(from <= i < from + n) ==> buf[i] == old(buf[i])
    {
      n := answers(turn);
      turn, receives := turn + 1, true;
      if n > size { n := size; }
      if n > |incoming| { n := |incoming|; }
      if n > 0 {
        forall i | 0 <= i < n { buf[from + i] := incoming[i]; }
        assert buf[from..from + n] == incoming[..n];
        incoming := incoming[n..];
      }
    }
  }

  /** send_all: everything is sent unless a call fails, and then a part of it. */
  method SendAll(fd: Socket, buf: array<Byte>) returns (ok: bool)
    modifies fd
    ensures fd.incoming == old(fd.incoming)
    ensures ok ==> fd.sent == old(fd.sent) + buf[..]
    ensures !ok ==> exists n :: 0 <= n < buf.Length && fd.sent == old(fd.sent) + buf[..n]
    ensures old(fd.Healthy()) ==> ok && fd.Healthy()
    ensures buf.Length > 0 ==> !fd.receives
  {
    var sent := 0;
    assert buf[..0] == [];
    while sent < buf.Length
      invariant 0 <= sent <= buf.Length
      invariant fd.sent == old(fd.sent) + buf[..sent] && fd.incoming == old(fd.incoming)
      invariant old(fd.turn) <= fd.turn
      invariant sent > 0 ==> !fd.receives
    {
      var n := fd.Send(buf, sent, buf.Length - sent);
      if n <= 0 {
        assert fd.sent == old(fd.sent) + buf[..sent];
        return false;
      }
      assert buf[..sent] + buf[sent..sent + n] == buf[..sent + n];
      sent := sent + n;
    }
    assert buf[..sent] == buf[..];
    return true;
  }

  /** recv_all: the buffer is filled from the stream, or the stream ended before that, or a call failed. */
  method RecvAll(fd: Socket, buf: array<Byte>) returns (ok: bool)
    modifies fd, buf
    ensures fd.sent == old(fd.sent)
    ensures exists n :: 0 <= n <= buf.Length && n <= |old(fd.incoming)| && fd.incoming == old(fd.incoming)[n..]
                        && buf[..] == old(fd.incoming)[..n] + old(buf[..])[n..] && (ok <==> n == buf.Length)
    ensures old(fd.Healthy()) ==>
        && fd.Healthy() && (ok <==> buf.Length <= |old(fd.incoming)|)
        && (!ok ==> fd.incoming == [])
    ensures buf.Length > 0 ==> fd.receives
    ensures !ok ==> fd.FailedReceive() || |old(fd.incoming)| < buf.Length
  {
    var recvd := 0;
    while recvd < buf.Length
      invariant 0 <= recvd <= buf.Length && recvd <= |old(fd.incoming)|
      invariant fd.incoming == old(fd.incoming)[recvd..] && fd.sent == old(fd.sent)
      invariant buf[..recvd] == old(fd.incoming)[..recvd] && buf[recvd..] == old(buf[..])[recvd..]
      invariant old(fd.turn) <= fd.turn
      invariant recvd > 0 ==> fd.receives
    {
      label before:
      var n := fd.Recv(buf, recvd, buf.Length - recvd);
      if n <= 0 {
        assert buf[..] == buf[..recvd] + buf[recvd..];
        return false;
      }
      assert buf[..recvd] == old@before(buf[..recvd]);
      assert buf[..recvd + n] == buf[..recvd] + buf[recvd..recvd + n];
      assert old(fd.incoming)[recvd..][..n] == old(fd.incoming)[recvd..recvd + n];
      assert buf[recvd + n..] == old@before(buf[recvd..])[n..];
      recvd := recvd + n;
    }
    assert buf[..] == buf[..recvd] + buf[recvd..];
    return true;
  }

  /** encode: fills a buffer with the frame of the message. */
  method Encode(m: Message) returns (buf: array<Byte>)
    ensures fresh(buf) && buf[..] == Frame(m)
  {
    var length := LengthField(m);
    buf := new Byte[HEADER_SIZE + length as nat];
    buf[0] := m.kind;
    Copy(BigEndian(m.id), buf, 1);
    Copy(BigEndian(length), buf, 5);
    Copy(m.payload[..length as nat], buf, HEADER_SIZE);
    assert buf[..] == buf[..1] + buf[1..5] + buf[5..9] + buf[9..];
    assert buf[..1] == [m.kind];
    assert buf[9..] == buf[9..9 + length as nat];
  }

  /** memcpy */
  method Copy(data: seq<Byte>, buf: array<Byte>, at: nat)
    requires at + |data| <= buf.Length
    modifies buf
    ensures buf[..] == old(buf[..at]) + data + old(buf[at + |data|..])
  {
    forall i | 0 <= i < |data| { buf[at + i] := data[i]; }
  }

  /** send_message */
  method SendMessage(fd: Socket, m: Message) returns (ok: bool)
    modifies fd
    ensures fd.incoming == old(fd.incoming)
    ensures ok ==> fd.sent == old(fd.sent) + Frame(m)
    ensures !ok ==> exists n :: 0 <= n < |Frame(m)| && fd.sent == old(fd.sent) + Frame(m)[..n]
    ensures old(fd.Healthy()) ==> ok && fd.Healthy()
    ensures !fd.receives
  {
    var buf := Encode(m);
    ok := SendAll(fd, buf);
  }

  /** The message that recv_message fills in. */
  class Packet {
    var kind: Byte
    var id: Word32
    var payload: array<Byte>

    constructor ()
      ensures Value() == Message(REQUEST, 0, []) && fresh(payload)
    {
      kind, id, payload := REQUEST, 0, new Byte[0];
    }

    function Value(): Message
      reads this, payload
    {
      Message(kind, id, payload[..])
    }

    /** payload.resize(size) */
    method Resize(size: nat)
      modifies this
      ensures fresh(payload) && kind == old(kind) && id == old(id)
      ensures payload[..] == Resized(old(payload[..]), size) && payload.Length == size
      ensures forall i :: 0 <= i < size ==> payload[i] == if i < |old(payload[..])| then old(payload[..])[i] else 0
    {
      var was := payload[..];
      payload := new Byte[size](i requires 0 <= i => if i < |was| then was[i] else 0);
    }
  }

  function Resized(data: seq<Byte>, size: nat): (r: seq<Byte>)
    ensures |r| == size
  {
    seq(size, i requires 0 <= i => if i < |data| then data[i] else 0)
  }

  /** What a failed recv_message leaves behind when no call of the kernel failed: the header's fields are
      overwritten as soon as the header is there, the payload only up to where the stream ends. */
  ghost predicate LeftBehind(input: seq<Byte>, before: Message, after: Message, rest: seq<Byte>) {
    match Parse(input)
    case Received(m, r) => false
    case NoHeader => after == before && rest == []
    case TooLarge(r) => after == Message(input[0], FromBigEndian(input[1..5]), before.payload) && rest == r
    case NoPayload =>
      var got := input[HEADER_SIZE..];
      && rest == []
      && after == Message(input[0], FromBigEndian(input[1..5]), got + Resized(before.payload, Length(input))[|got|..])
  }

  /** recv_message: succeeds exactly when the rest of the stream begins with a frame within the limit, and
      then takes exactly that frame from it. */
  method RecvMessage(fd: Socket, out: Packet) returns (ok: bool)
    modifies fd, out
    ensures fd.sent == old(fd.sent)
    ensures ok ==> Parse(old(fd.incoming)) == Received(out.Value(), fd.incoming)
    ensures exists n :: 0 <= n <= |old(fd.incoming)| && fd.incoming == old(fd.incoming)[n..]
    ensures old(fd.Healthy()) ==> fd.Healthy() && (ok <==> Parse(old(fd.incoming)).Received?)
    ensures old(fd.Healthy()) && !ok ==> LeftBehind(old(fd.incoming), old(out.Value()), out.Value(), fd.incoming)
    ensures out.payload == old(out.payload) || fresh(out.payload)
    ensures !ok && Parse(old(fd.incoming)).Received? ==> fd.FailedReceive()
  {
    var header := new Byte[HEADER_SIZE];
    var input := fd.incoming;
    ok := RecvAll(fd, header);
    if !ok { return; }
    assert header[..] == input[..HEADER_SIZE] && fd.incoming == input[HEADER_SIZE..];
    out.kind := header[0];
    out.id := FromBigEndian(header[1..5]);
    var length := FromBigEndian(header[5..9]) as nat;
    assert header[1..5] == input[1..5] && header[5..9] == input[5..9];
    if length > MAX_PAYLOAD { return false; }
    out.Resize(length);
    if length > 0 {
      ok := RecvAll(fd, out.payload);
      if ok {
        assert out.payload[..] == input[HEADER_SIZE..][..length] == input[HEADER_SIZE..HEADER_SIZE + length];
      }
    }
  }

  /** Sends the messages one after the other, and then receives until nothing is left: every list within
      the limit arrives as it was, however the kernel cuts the stream on either side. */
  method Exchange(ms: seq<Message>, tx: Socket, cuts: nat -> int) returns (got: seq<Message>)
    requires Within(ms) && tx.Healthy() && tx.sent == [] && forall i: nat :: cuts(i) > 0
    modifies tx
    ensures got == ms
  {
    assert ms[..0] == [];
    for i := 0 to |ms|
      invariant tx.Healthy() && tx.sent == Frames(ms[..i])
    {
      var ok := SendMessage(tx, ms[i]);
      assert ms[..i + 1] == ms[..i] + [ms[i]];
      FramesAppend(ms[..i], ms[i]);
    }
    assert ms[..|ms|] == ms;
    StreamRoundTrip(ms);
    var rx := new Socket(cuts, tx.sent);
    var more := true;
    got := [];
    while more
      invariant fresh(rx) && rx.Healthy()
      invariant if more then got + Messages(rx.incoming) == ms else got == ms
      decreases more, |rx.incoming|
    {
      var out := new Packet();
      var input := rx.incoming;
      more := RecvMessage(rx, out);
      if more {
        got := got + [out.Value()];
      }
    }
  }
}
