/** The client's side of a connection. */
module TaskClients {
  import opened Protocol
  import opened FramedSocket

  /** How a call of submit ends: with one of its own exceptions, or with a future that holds a value or
      the error text of the server. */
  datatype Result = NotConnected | SendFailed | RecvFailed | Value(text: seq<Byte>) | Failure(text: seq<Byte>)

  /** fetch_add on the 32-bit counter wraps around. */
  function NextId(id: Word32): Word32 {
    if id as int + 1 == WORD_VALUES then 0 else id + 1
  }

  /** The id of the `k`-th call after one with the given id. */
  function NthId(id: Word32, k: nat): Word32 {
    if k == 0 then id else NextId(NthId(id, k - 1))
  }

  /** The ids count up modulo 2^32. */
  lemma {:induction false} IdsCount(id: Word32, k: nat)
    ensures NthId(id, k) as nat == (id as nat + k) % 4294967296
  {
    if k > 0 {
      IdsCount(id, k - 1);
    }
  }

  /** So fewer than 2^32 calls in a row have different ids, and the one after them starts over. */
  lemma IdsAreFresh(id: Word32, j: nat, k: nat)
    requires j < k
    ensures k - j < 4294967296 ==> NthId(id, j) != NthId(id, k)
    ensures k - j == 4294967296 ==> NthId(id, j) == NthId(id, k)
  {
    IdsCount(id, j);
    IdsCount(id, k);
  }

  /** What submit makes of the reply; it looks at the type only, not at the id. */
  function ResultOf(reply: Message): Result {
    if reply.kind == ERROR then Failure(reply.payload) else Value(reply.payload)
  }

  class TaskClient {
    var fd: Socket
    var nextId: Word32
    var connected: bool

    /** The client after connect(). */
    constructor (fd: Socket)
      ensures this.fd == fd && nextId == 1 && connected
    {
      this.fd, nextId, connected := fd, 1, true;
    }

    /** submit: one request with a fresh id goes out, and the next frame of the stream is the answer. */
    method Submit(payload: seq<Byte>) returns (r: Result)
      modifies this`nextId, fd
      ensures !connected ==>
          && r == NotConnected && nextId == old(nextId) && fd.sent == old(fd.sent)
          && fd.incoming == old(fd.incoming)
      ensures connected ==> nextId as nat == (old(nextId) as nat + 1) % 4294967296 && r != NotConnected
      ensures r == SendFailed ==>
                && fd.incoming == old(fd.incoming)
                && exists n :: 0 <= n < |Frame(Message(1, old(nextId), payload))|
                               && fd.sent == old(fd.sent) + Frame(Message(1, old(nextId), payload))[..n]
      ensures r == RecvFailed ==>
                && fd.sent == old(fd.sent) + Frame(Message(1, old(nextId), payload))
                && exists n :: 0 <= n <= |old(fd.incoming)| && fd.incoming == old(fd.incoming)[n..]
      ensures r.Value? || r.Failure? ==>
                && fd.sent == old(fd.sent) + Frame(Message(1, old(nextId), payload))
                && Parse(old(fd.incoming)).Received? && fd.incoming == Parse(old(fd.incoming)).rest
                && var reply := Parse(old(fd.incoming)).m;
                   r == if reply.kind == 3 then Failure(reply.payload) else Value(reply.payload)
      ensures connected && old(fd.Healthy()) ==>
          && fd.Healthy()
          && (r == RecvFailed <==> !Parse(old(fd.incoming)).Received?) && r != SendFailed
    {
      if !connected { return NotConnected; }
      var id := nextId;
      nextId := NextId(nextId);
      var ok := SendMessage(fd, Message(REQUEST, id, payload));
      if !ok { return SendFailed; }
      var resp := new Packet();
      ok := RecvMessage(fd, resp);
      if !ok { return RecvFailed; }
      r := ResultOf(resp.Value());
    }

    /** ping: true exactly if everything went well and the next frame of the stream is a PONG. */
    method Ping() returns (alive: bool)
      modifies this`nextId, fd
      ensures nextId as nat == if connected then (old(nextId) as nat + 1) % 4294967296 else old(nextId) as nat
      ensures !connected ==> !alive && fd.sent == old(fd.sent) && fd.incoming == old(fd.incoming)
      ensures alive ==>
                && fd.sent == old(fd.sent) + Frame(Message(4, old(nextId), []))
                && Parse(old(fd.incoming)).Received? && fd.incoming == Parse(old(fd.incoming)).rest
                && Parse(old(fd.incoming)).m.kind == 5
      ensures connected ==>
                && (exists n :: 0 <= n <= |Frame(Message(4, old(nextId), []))|
                                && fd.sent == old(fd.sent) + Frame(Message(4, old(nextId), []))[..n])
                && (exists n :: 0 <= n <= |old(fd.incoming)| && fd.incoming == old(fd.incoming)[n..])
      ensures connected && old(fd.Healthy()) ==>
                && fd.sent == old(fd.sent) + Frame(Message(4, old(nextId), []))
                && (alive <==> Parse(old(fd.incoming)).Received? && Parse(old(fd.incoming)).m.kind == 5)
    {
      if !connected { return false; }
      var id := nextId;
      nextId := NextId(nextId);
      ghost var frame := Frame(Message(PING, id, []));
      assert fd.incoming == fd.incoming[0..];
      var ok := SendMessage(fd, Message(PING, id, []));
      if !ok { return false; }
      assert fd.sent == old(fd.sent) + frame[..|frame|];
      var resp := new Packet();
      ok := RecvMessage(fd, resp);
      if !ok { return false; }
      alive := resp.kind == PONG;
    }
  }
}
