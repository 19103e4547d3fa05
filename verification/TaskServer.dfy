/** The server's loop for one connection. */
module TaskServers {
  import opened Protocol
  import opened FramedSocket

  /** How a call of the handler ends. */
  datatype Outcome = Returns(text: seq<Byte>) | Throws(what: seq<Byte>) | ThrowsOther

  function Ascii(text: string): (b: seq<Byte>)
    ensures |b| == |text|
  {
    seq(|text|, i requires 0 <= i < |text| => (text[i] as int % 0x100) as Byte)
  }

  /** The reply to a message that does not end the connection. */
  function Reply(m: Message, outcome: Outcome): (reply: Message)
    ensures reply.id == m.id
  {
    if m.kind == PING then Message(PONG, m.id, [])
    else
      match outcome
      case Returns(text) => Message(RESPONSE, m.id, text)
      case Throws(what) => Message(ERROR, m.id, Ascii("ERROR: ") + what)
      case ThrowsOther => Message(ERROR, m.id, Ascii("ERROR: unknown exception"))
  }

  /** What goes back, with the message types as they are on the wire: 5 answers a ping (4), 2 carries the text that
      the handler returned, 3 "ERROR: " and what it threw, or "ERROR: unknown exception". */
  lemma ReplyIs(m: Message, outcome: Outcome)
    ensures m.kind == 4 ==> Reply(m, outcome) == Message(5, m.id, [])
    ensures m.kind != 4 ==>
              Reply(m, outcome) ==
                match outcome
                case Returns(text) => Message(2, m.id, text)
                case Throws(what) => Message(3, m.id, [69, 82, 82, 79, 82, 58, 32] + what)
                case ThrowsOther =>
                  Message(3, m.id, [69, 82, 82, 79, 82, 58, 32, 117, 110, 107, 110, 111, 119, 110, 32,
                                    101, 120, 99, 101, 112, 116, 105, 111, 110])
  {
    assert Ascii("ERROR: ") == [69, 82, 82, 79, 82, 58, 32];
    assert Ascii("ERROR: unknown exception")
        == [69, 82, 82, 79, 82, 58, 32, 117, 110, 107, 110, 111, 119, 110, 32,
            101, 120, 99, 101, 112, 116, 105, 111, 110];
  }

  /** The replies to what a stream holds. `running(i)` is what the `i`-th load of `running_` finds;
      `handler(n, payload)` how the `n`-th call of the handler ends. */
  function Replies(input: seq<Byte>, running: nat -> bool, handler: (nat, seq<Byte>) -> Outcome,
                   i: nat, n: nat): seq<Message>
    decreases |input|
  {
    var p := Parse(input);
    if !running(i) || !p.Received? then []
    else if p.m.kind == PING then [Reply(p.m, ThrowsOther)] + Replies(p.rest, running, handler, i + 1, n)
    else if p.m.kind != REQUEST then []
    else [Reply(p.m, handler(n, p.m.payload))] + Replies(p.rest, running, handler, i + 1, n + 1)
  }

  /** How many of the messages are of the kind. */
  function OfKind(ms: seq<Message>, kind: Byte): nat {
    if ms == [] then 0 else OfKind(ms[..|ms| - 1], kind) + if ms[|ms| - 1].kind == kind then 1 else 0
  }

  predicate Asks(ms: seq<Message>) {
    forall i :: 0 <= i < |ms| ==> (ms[i].kind == REQUEST || ms[i].kind == PING) && |ms[i].payload| <= MAX_PAYLOAD
  }

  lemma RepliesUnfold(m: Message, rest: seq<Byte>, running: nat -> bool, handler: (nat, seq<Byte>) -> Outcome,
      i: nat, n: nat)
    requires (m.kind == REQUEST || m.kind == PING) && |m.payload| <= MAX_PAYLOAD && running(i)
    ensures Replies(Frame(m) + rest, running, handler, i, n)
            == [Reply(m, handler(n, m.payload))]
               + Replies(rest, running, handler, i + 1, if m.kind == PING then n else n + 1)
  {
    hide Parse, Frame;
    RoundTrip(m, rest);
  }

  /** The replies to messages that do not end the connection, from handler call `n` on. */
  function Answers(ms: seq<Message>, handler: (nat, seq<Byte>) -> Outcome, n: nat): (replies: seq<Message>)
    ensures |replies| == |ms|
  {
    if ms == [] then []
    else [Reply(ms[0], handler(n, ms[0].payload))] + Answers(ms[1..], handler, if ms[0].kind == PING then n else n + 1)
  }

  /** The handler is called once for every request, in order and with its payload. */
  lemma {:induction false} AnswerAt(ms: seq<Message>, handler: (nat, seq<Byte>) -> Outcome, n: nat, k: nat)
    requires Asks(ms) && k < |ms|
    ensures Answers(ms, handler, n)[k] == Reply(ms[k], handler(n + OfKind(ms[..k], REQUEST), ms[k].payload))
  {
    hide Reply, OfKind;
    OfKindShift(ms, k, REQUEST);
    if k > 0 {
      AnswerAt(ms[1..], handler, if ms[0].kind == PING then n else n + 1, k - 1);
    }
  }

  lemma {:induction false} RepliesAreAnswers(ms: seq<Message>, rest: seq<Byte>, running: nat -> bool,
                                             handler: (nat, seq<Byte>) -> Outcome, i: nat, n: nat)
    requires Asks(ms) && forall j: nat :: i <= j < i + |ms| ==> running(j)
    ensures Replies(Frames(ms) + rest, running, handler, i, n)
            == Answers(ms, handler, n) + Replies(rest, running, handler, i + |ms|, n + OfKind(ms, REQUEST))
  {
    hide Reply, Replies, Frame, OfKind;
    if ms == [] {
      assert Frames(ms) + rest == rest;
      NothingYet();
    } else {
      assert Frames(ms) + rest == Frame(ms[0]) + (Frames(ms[1..]) + rest);
      RepliesUnfold(ms[0], Frames(ms[1..]) + rest, running, handler, i, n);
      RepliesAreAnswers(ms[1..], rest, running, handler, i + 1, if ms[0].kind == PING then n else n + 1);
      FirstOfKind(ms, REQUEST);
    }
  }

  /** While the server runs, every ping and request within the limit gets one reply, in order and with its own
      id, and the handler is called once for every request, in order and with its payload; whatever follows
      in the stream is answered after that. */
  lemma EveryRequestIsAnswered(ms: seq<Message>, rest: seq<Byte>, running: nat -> bool,
                               handler: (nat, seq<Byte>) -> Outcome, i: nat, n: nat)
    requires Asks(ms) && forall j: nat :: i <= j < i + |ms| ==> running(j)
    ensures var replies := Replies(Frames(ms) + rest, running, handler, i, n);
            && |replies| >= |ms|
            && replies[|ms|..] == Replies(rest, running, handler, i + |ms|, n + OfKind(ms, REQUEST))
            && forall k :: 0 <= k < |ms| ==>
                 replies[k] == Reply(ms[k], handler(n + OfKind(ms[..k], REQUEST), ms[k].payload))
  {
    hide Reply, Replies, Frames, OfKind, Answers;
    RepliesAreAnswers(ms, rest, running, handler, i, n);
    forall k: nat | k < |ms| {
      AnswerAt(ms, handler, n, k);
    }
  }

  /** A message of any other type ends the connection, and so does what is no message within the limit: there is a
      reply to each message before it, and to nothing after it. */
  lemma OtherMessageEndsIt(ms: seq<Message>, rest: seq<Byte>, running: nat -> bool,
                           handler: (nat, seq<Byte>) -> Outcome, i: nat, n: nat)
    requires Asks(ms) && forall j: nat :: i <= j <= i + |ms| ==> running(j)
    ensures var replies := Replies(Frames(ms) + rest, running, handler, i, n);
            |replies| == |ms| <==> Parse(rest).Received? ==> Parse(rest).m.kind != 1 && Parse(rest).m.kind != 4
  {
    hide Reply, Frames, OfKind, Answers, Parse;
    RepliesAreAnswers(ms, rest, running, handler, i, n);
  }

  lemma FirstOfKind(ms: seq<Message>, kind: Byte)
    requires ms != []
    ensures OfKind(ms, kind) == OfKind(ms[1..], kind) + if ms[0].kind == kind then 1 else 0
  {
    assert ms == [ms[0]] + ms[1..];
    OfKindCons(ms[0], ms[1..], kind);
  }

  /** If the server is stopped before its load of `running_` number `i + done`, exactly the first `done`
      messages are answered, as if nothing had come after them. */
  lemma StoppedServerAnswersPrefix(ms: seq<Message>, done: nat, running: nat -> bool,
                                   handler: (nat, seq<Byte>) -> Outcome, i: nat, n: nat)
    requires Asks(ms) && done <= |ms| && (forall j: nat :: i <= j < i + done ==> running(j)) && !running(i + done)
    ensures var replies := Replies(Frames(ms), running, handler, i, n);
            && |replies| == done
            && forall k :: 0 <= k < done ==>
                 replies[k] == Reply(ms[k], handler(n + OfKind(ms[..k], REQUEST), ms[k].payload))
  {
    hide Reply, OfKind, Parse, Frame;
    FramesSplit(ms, done);
    EveryRequestIsAnswered(ms[..done], Frames(ms[done..]), running, handler, i, n);
    assert forall k :: 0 <= k <= done ==> ms[..done][..k] == ms[..k];
  }

  lemma {:induction false} FramesSplit(ms: seq<Message>, k: nat)
    requires k <= |ms|
    ensures Frames(ms) == Frames(ms[..k]) + Frames(ms[k..])
  {
    hide Frame;
    if k == 0 {
      assert ms[..0] == [] && ms[0..] == ms;
    } else {
      FramesSplit(ms[1..], k - 1);
      assert ms[..k][1..] == ms[1..][..k - 1] && ms[k..] == ms[1..][k - 1..];
    }
  }

  lemma OfKindShift(ms: seq<Message>, k: nat, kind: Byte)
    requires k < |ms|
    ensures OfKind(ms[..k], kind)
            == if k == 0 then 0 else OfKind(ms[1..][..k - 1], kind) + if ms[0].kind == kind then 1 else 0
  {
    if k > 0 {
      assert ms[..k] == [ms[0]] + ms[1..][..k - 1];
      OfKindCons(ms[0], ms[1..][..k - 1], kind);
    }
  }

  lemma {:induction false} OfKindCons(m: Message, ms: seq<Message>, kind: Byte)
    ensures OfKind([m] + ms, kind) == OfKind(ms, kind) + if m.kind == kind then 1 else 0
  {
    if ms == [] {
      assert [m] + ms == [m] && [m][..0] == [];
    } else {
      var last := |ms| - 1;
      assert ([m] + ms)[..|ms|] == [m] + ms[..last];
      OfKindCons(m, ms[..last], kind);
    }
  }

  /** What one pass of the loop contributes to the replies. */
  lemma OnePass(before: seq<Message>, input: seq<Byte>, running: nat -> bool, handler: (nat, seq<Byte>) -> Outcome,
      i: nat, n: nat)
    ensures var p, all := Parse(input), before + Replies(input, running, handler, i, n);
            if !running(i) || !p.Received? || (p.m.kind != PING && p.m.kind != REQUEST) then all == before
            else if p.m.kind == PING
            then all == (before + [Reply(p.m, ThrowsOther)]) + Replies(p.rest, running, handler, i + 1, n)
            else
              all == (before + [Reply(p.m, handler(n, p.m.payload))])
                     + Replies(p.rest, running, handler, i + 1, n + 1)
  {
    hide Parse, Reply;
  }

  /** The bytes of all the pieces. */
  function Joined(pieces: seq<seq<Byte>>): seq<Byte> {
    if pieces == [] then [] else Joined(pieces[..|pieces| - 1]) + pieces[|pieces| - 1]
  }

  /** Each reply was sent in full, or it is a PONG of which a part was sent. */
  ghost predicate Whole(replies: seq<Message>, pieces: seq<seq<Byte>>) {
    && |pieces| == |replies|
    && forall k :: 0 <= k < |replies| ==>
         pieces[k] <= Frame(replies[k]) && (pieces[k] == Frame(replies[k]) || replies[k].kind == PONG)
  }

  /** That, but for the last reply, of which a part may have been sent whatever it is. */
  ghost predicate Partly(replies: seq<Message>, pieces: seq<seq<Byte>>) {
    && |pieces| == |replies|
    && forall k :: 0 <= k < |replies| ==>
         pieces[k] <= Frame(replies[k])
         && (pieces[k] == Frame(replies[k]) || replies[k].kind == PONG || k == |replies| - 1)
  }

  /** The last reply is no PONG, and only a part of it was sent. */
  ghost predicate CutShort(replies: seq<Message>, pieces: seq<seq<Byte>>) {
    && |pieces| == |replies| > 0
    && var k := |replies| - 1; replies[k].kind != PONG && |pieces[k]| < |Frame(replies[k])|
  }

  lemma NothingYet()
    ensures Frames([]) == [] == Joined([]) && Whole([], []) && Partly([], [])
    ensures forall kind :: OfKind([], kind) == 0
  {
  }

  lemma OneMore(replies: seq<Message>, pieces: seq<seq<Byte>>, reply: Message, piece: seq<Byte>)
    requires Whole(replies, pieces) && piece <= Frame(reply)
    ensures Joined(pieces + [piece]) == Joined(pieces) + piece
    ensures Partly(replies + [reply], pieces + [piece])
    ensures piece == Frame(reply) || reply.kind == PONG ==> Whole(replies + [reply], pieces + [piece])
    ensures piece == Frame(reply) || reply.kind == PONG || CutShort(replies + [reply], pieces + [piece])
    ensures forall kind ::
              OfKind(replies + [reply], kind) == OfKind(replies, kind) + if reply.kind == kind then 1 else 0
  {
    hide Frame;
    assert (replies + [reply])[..|replies|] == replies;
    assert (pieces + [piece])[..|pieces|] == pieces;
  }

  class TaskServer {
    const handler: (nat, seq<Byte>) -> Outcome
    const running: nat -> bool
    var requestsTotal: nat
    var requestErrors: nat

    constructor (handler: (nat, seq<Byte>) -> Outcome, running: nat -> bool)
      ensures this.handler == handler && this.running == running && requestsTotal == 0 && requestErrors == 0
    {
      this.handler, this.running, requestsTotal, requestErrors := handler, running, 0, 0;
    }

    /** handle_connection: sends the replies to what the stream holds, as `pieces`. If no call of the kernel
        fails, these are all the replies in full. Otherwise a failed receive or a reply that cannot be sent
        ends the connection, but a PONG that cannot be sent does not: a piece of it is followed by the next
        reply, and if replies are missing, the last call of the kernel was a failed receive or left a reply that
        is no PONG cut short. The counters grow by the requests handled and by the handlers that threw. */
    method HandleConnection(fd: Socket) returns (ghost replies: seq<Message>, ghost pieces: seq<seq<Byte>>)
      modifies this, fd
      ensures replies <= Replies(old(fd.incoming), running, handler, 0, old(requestsTotal))
      ensures fd.sent == old(fd.sent) + Joined(pieces) && Partly(replies, pieces)
      ensures old(fd.Healthy()) ==>
                && replies == Replies(old(fd.incoming), running, handler, 0, old(requestsTotal))
                && Joined(pieces) == Frames(replies)
      ensures || replies == Replies(old(fd.incoming), running, handler, 0, old(requestsTotal))
              || fd.FailedReceive() || CutShort(replies, pieces)
      ensures requestsTotal == old(requestsTotal) + OfKind(replies, 2) + OfKind(replies, 3)
      ensures requestErrors == old(requestErrors) + OfKind(replies, 3)
    {
      hide Parse, Frame, Frames, OfKind, Replies, Joined, Partly, Whole, CutShort, LeftBehind;
      replies, pieces := [], [];
      NothingYet();
      ghost var all := Replies(fd.incoming, running, handler, 0, requestsTotal);
      var loads := 0;
      var open := true;
      while open && running(loads)
        invariant fd.sent == old(fd.sent) + Joined(pieces) && Partly(replies, pieces)
        invariant old(fd.Healthy()) ==> fd.Healthy() && Joined(pieces) == Frames(replies)
        invariant open ==> Whole(replies, pieces)
        invariant open ==> replies + Replies(fd.incoming, running, handler, loads, requestsTotal) == all
        invariant !open ==> replies <= all && (old(fd.Healthy()) ==> replies == all)
        invariant !open ==> replies == all || fd.FailedReceive() || CutShort(replies, pieces)
        invariant requestsTotal == old(requestsTotal) + OfKind(replies, RESPONSE) + OfKind(replies, ERROR)
        invariant requestErrors == old(requestErrors) + OfKind(replies, ERROR)
        decreases open, |fd.incoming|
      {
        OnePass(replies, fd.incoming, running, handler, loads, requestsTotal);
        var req := new Packet();
        open := RecvMessage(fd, req);
        if open {
          if req.kind == PING {
            var _, piece := SendReply(fd, Reply(req.Value(), ThrowsOther), old(fd.sent), replies, pieces);
            replies, pieces := replies + [Reply(req.Value(), ThrowsOther)], pieces + [piece];
          } else if req.kind != REQUEST {
            open := false;
          } else {
            var resp := CallHandler(req);
            ghost var piece;
            open, piece := SendReply(fd, resp, old(fd.sent), replies, pieces);
            replies, pieces := replies + [resp], pieces + [piece];
          }
        }
        loads := loads + 1;
      }
      OnePass(replies, fd.incoming, running, handler, loads, requestsTotal);
    }

    /** Calls the handler and counts the request, and the exception if there is one. */
    method CallHandler(req: Packet) returns (resp: Message)
      requires req.kind == REQUEST
      modifies this
      ensures resp == Reply(req.Value(), handler(old(requestsTotal), req.Value().payload))
      ensures match handler(old(requestsTotal), req.Value().payload)
              case Returns(text) => resp == Message(2, req.id, text)
              case Throws(what) => resp == Message(3, req.id, [69, 82, 82, 79, 82, 58, 32] + what)
              case ThrowsOther =>
                resp == Message(3, req.id, [69, 82, 82, 79, 82, 58, 32, 117, 110, 107, 110, 111, 119, 110, 32,
                                            101, 120, 99, 101, 112, 116, 105, 111, 110])
      ensures requestsTotal == old(requestsTotal) + 1
      ensures requestErrors == old(requestErrors) + if resp.kind == 3 then 1 else 0
    {
      var outcome := handler(requestsTotal, req.payload[..]);
      requestsTotal := requestsTotal + 1;
      if !outcome.Returns? { requestErrors := requestErrors + 1; }
      resp := Reply(req.Value(), outcome);
      ReplyIs(req.Value(), outcome);
    }

    method SendReply(fd: Socket, reply: Message, ghost before: seq<Byte>, ghost replies: seq<Message>,
        ghost pieces: seq<seq<Byte>>)
      returns (ok: bool, ghost piece: seq<Byte>)
      requires Whole(replies, pieces) && fd.sent == before + Joined(pieces)
      modifies fd
      ensures fd.incoming == old(fd.incoming)
      ensures fd.sent == before + Joined(pieces + [piece]) && Joined(pieces + [piece]) == Joined(pieces) + piece
      ensures Partly(replies + [reply], pieces + [piece])
      ensures ok || reply.kind == PONG ==> Whole(replies + [reply], pieces + [piece])
      ensures ok || reply.kind == PONG || CutShort(replies + [reply], pieces + [piece])
      ensures old(fd.Healthy()) ==> ok && fd.Healthy() && piece == Frame(reply)
      ensures Frames(replies + [reply]) == Frames(replies) + Frame(reply)
      ensures forall kind ::
                OfKind(replies + [reply], kind) == OfKind(replies, kind) + if reply.kind == kind then 1 else 0
    {
      hide Frame, Frames, Joined, Whole, Partly, CutShort, OfKind;
      ok := SendMessage(fd, reply);
      piece := Frame(reply);
      if !ok {
        ghost var n :| 0 <= n < |Frame(reply)| && fd.sent == old(fd.sent) + Frame(reply)[..n];
        piece := Frame(reply)[..n];
      }
      FramesAppend(replies, reply);
      OneMore(replies, pieces, reply, piece);
      assert before + Joined(pieces) + piece == before + Joined(pieces + [piece]);
    }
  }
}
