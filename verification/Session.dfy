/** A client and the server's loop for its connection as one step machine over two byte streams: every
    send and receive moves as many bytes as the kernel likes, and may fail. */
module Session {
  import opened Protocol
  import opened TaskServers
  import opened TaskClients

  datatype Op = Submit(payload: seq<Byte>) | Ping

  /** `left` is what send_all still has to send of the request, `got` what was received of the reply. */
  datatype Client = Idle | Sending(op: Op, req: Message, left: seq<Byte>)
      | Receiving(op: Op, req: Message, got: seq<Byte>)

  datatype Server = Checking | Reading(got: seq<Byte>) | Handling(req: Message)
      | Replying(reply: Message, left: seq<Byte>) | Closed

  /** A call of submit or ping that came to its end: with the reply that was received, and what the
      caller gets. */
  datatype Return = Submitted(payload: seq<Byte>, id: Word32, reply: Message, result: Result)
      | Pinged(id: Word32, reply: Message, alive: bool)

  datatype Call = Call(payload: seq<Byte>, outcome: Outcome)

  datatype Answer = None | Some(reply: Message)

  /** `answer` is the reply that the server made for the current request, `handled` the calls of the
      handler, `log` the calls of the client that returned, `failed` that one of them threw on the way.
      The code has none of these four. */
  datatype State = State(c2s: seq<Byte>, s2c: seq<Byte>, client: Client, server: Server, running: bool, nextId: Word32,
                         answer: Answer, handled: seq<Call>, log: seq<Return>, failed: bool)

  datatype Move = Start(op: Op) | ClientMoves(n: nat) | ClientFails | ServerMoves(n: nat) | ServerFails
      | Handle(outcome: Outcome) | Stop

  function Init(): State {
    State([], [], Idle, Checking, true, 1, None, [], [], false)
  }

  function Request(op: Op, id: Word32): Message {
    match op
    case Submit(payload) => Message(REQUEST, id, payload)
    case Ping => Message(PING, id, [])
  }

  /** How many bytes recv_message asks for next: first the header, then the payload. */
  function Wanted(got: seq<Byte>): nat {
    if |got| < HEADER_SIZE then HEADER_SIZE - |got|
    else if Length(got) > MAX_PAYLOAD || |got| > HEADER_SIZE + Length(got) then 0
    else HEADER_SIZE + Length(got) - |got|
  }

  function Ended(op: Op, id: Word32, reply: Message): Return {
    match op
    case Submit(payload) => Submitted(payload, id, reply, ResultOf(reply))
    case Ping => Pinged(id, reply, reply.kind == PONG)
  }

  function ClientStep(s: State, n: nat): State {
    match s.client
    case Idle => s
    case Sending(op, req, left) =>
      if n == 0 || n > |left| then s
      else s.(c2s := s.c2s + left[..n],
              client := if n == |left| then Receiving(op, req, []) else Sending(op, req, left[n..]))
    case Receiving(op, req, got) =>
      if Wanted(got) > 0 then
        if n == 0 || n > Wanted(got) || n > |s.s2c| then s
        else s.(s2c := s.s2c[n..], client := Receiving(op, req, got + s.s2c[..n]))
      else if Parse(got).Received?
      then s.(client := Idle, answer := None, log := s.log + [Ended(op, req.id, Parse(got).m)])
      else s.(client := Idle, answer := None, failed := true)
  }

  function ServerStep(s: State, n: nat): State {
    match s.server
    case Checking => s.(server := if s.running then Reading([]) else Closed)
    case Reading(got) =>
      if Wanted(got) > 0 then
        if n == 0 || n > Wanted(got) || n > |s.c2s| then s
        else s.(c2s := s.c2s[n..], server := Reading(got + s.c2s[..n]))
      else if !Parse(got).Received? then s.(server := Closed)
      else
        var req := Parse(got).m;
        if req.kind == PING then ToReply(s, Reply(req, ThrowsOther))
        else if req.kind == REQUEST then s.(server := Handling(req))
        else s.(server := Closed)
    case Replying(reply, left) =>
      if n == 0 || n > |left| then s
      else s.(s2c := s.s2c + left[..n], server := if n == |left| then Checking else Replying(reply, left[n..]))
    case _ => s
  }

  function ToReply(s: State, reply: Message): State {
    s.(server := Replying(reply, Frame(reply)), answer := Some(reply))
  }

  /** One step; a move that nobody can make leaves the state as it is. */
  function Step(s: State, mv: Move): State {
    match mv
    case Start(op) =>
      if s.client.Idle?
      then s.(client := Sending(op, Request(op, s.nextId), Frame(Request(op, s.nextId))), nextId := NextId(s.nextId))
      else s
    case ClientMoves(n) => ClientStep(s, n)
    case ClientFails => if s.client.Idle? then s else s.(client := Idle, answer := None, failed := true)
    case ServerMoves(n) => ServerStep(s, n)
    case ServerFails =>
      // handle_connection goes on after a PONG that could not be sent
      if s.server.Reading? then s.(server := Closed)
      else if s.server.Replying? then s.(server := if s.server.reply.kind == PONG then Checking else Closed)
      else s
    case Handle(outcome) =>
      if s.server.Handling?
      then ToReply(s, Reply(s.server.req, outcome)).(handled := s.handled + [Call(s.server.req.payload, outcome)])
      else s
    case Stop => s.(running := false)
  }

  function Run(s: State, moves: seq<Move>): State {
    if moves == [] then s else Step(Run(s, moves[..|moves| - 1]), moves[|moves| - 1])
  }

  // ---------------------------------------------------------------- the invariant

  /** What a frame can carry of a payload. */
  function Cut(payload: seq<Byte>): (c: seq<Byte>)
    ensures |payload| < WORD_VALUES ==> c == payload
  {
    payload[..|payload| % WORD_VALUES]
  }

  /** The result of a submit whose handler call ended with `outcome`. */
  function Promised(outcome: Outcome): Result {
    match outcome
    case Returns(text) => Value(Cut(text))
    case Throws(what) => Failure(Cut(Ascii("ERROR: ") + what))
    case ThrowsOther => Failure(Ascii("ERROR: unknown exception"))
  }

  /** The calls of the client that returned, against the calls of the handler: one handler call for each
      submit, in order and with its payload, whose outcome is what the submit returns; every ping is
      answered; and every reply has the id of its request. */
  ghost predicate Matches(log: seq<Return>, handled: seq<Call>) {
    if log == [] then handled == []
    else
      var front, last := log[..|log| - 1], log[|log| - 1];
      match last
      case Pinged(id, reply, alive) => reply.id == id && alive && Matches(front, handled)
      case Submitted(payload, id, reply, result) =>
        && handled != [] && reply.id == id && Matches(front, handled[..|handled| - 1])
        && var call := handled[|handled| - 1];
           call.payload == Cut(payload) && result == Promised(call.outcome)
  }

  /** The reply belongs to the client's current request, and `handled` to the log and that request. */
  ghost predicate Answered(s: State) {
    if s.client.Idle? || s.answer.None? then Matches(s.log, s.handled)
    else if s.client.op.Ping? then s.answer.reply == Message(PONG, s.client.req.id, []) && Matches(s.log, s.handled)
    else
      && s.handled != [] && Matches(s.log, s.handled[..|s.handled| - 1])
      && var call := s.handled[|s.handled| - 1];
         s.answer.reply == Reply(Truncated(s.client.req), call.outcome) && call.payload == Cut(s.client.op.payload)
  }

  function Unsent(client: Client): seq<Byte> {
    if client.Sending? then client.left else []
  }

  function Arrived(client: Client): seq<Byte> {
    if client.Receiving? then client.got else []
  }

  /** Where the bytes of the current frame are. */
  ghost predicate Bytes(s: State) {
    match s.server
    case Handling(req) =>
      && s.client.Receiving? && s.client.op.Submit? && s.answer.None? && req == Truncated(s.client.req)
      && s.c2s == [] && s.s2c == [] && s.client.got == []
    case Replying(reply, left) =>
      s.client.Receiving? && s.c2s == [] && s.answer == Some(reply) && left != []
          && s.client.got + s.s2c + left == Frame(reply)
    case Closed => s.s2c == [] || s.answer.Some?
    case _ =>
      var got := if s.server.Reading? then s.server.got else [];
      if s.client.Idle? then got == [] && s.c2s == [] && s.s2c == []
      else if s.answer.None? then got + s.c2s + Unsent(s.client) == Frame(s.client.req) && s.s2c == []
      else got == [] && s.c2s == []
  }

  ghost predicate Downstream(s: State) {
    if s.answer.None? then s.s2c == [] && Arrived(s.client) == []
    else s.client.Receiving? && s.client.got + s.s2c <= Frame(s.answer.reply)
  }

  ghost predicate Inv(s: State) {
    && (!s.client.Idle? ==> s.client.req == Request(s.client.op, s.client.req.id))
    && (s.client.Sending? ==> s.client.left != [])
    && Answered(s) && Bytes(s) && Downstream(s)
  }

  // ---------------------------------------------------------------- receiving

  /** A receiver whose bytes are the beginning of a frame stops exactly at its end, or after the header
      of one that is over the limit. */
  lemma StopsAtEnd(got: seq<Byte>, m: Message)
    requires got <= Frame(m) && Wanted(got) == 0
    ensures Parse(got).Received? ==> got == Frame(m) && Parse(got).m == Truncated(m)
  {
    FrameFields(m, []);
    assert Frame(m) + [] == Frame(m);
    assert got[5..9] == Frame(m)[5..9];
    if Parse(got).Received? {
      ParseFrame(m, []);
    }
  }

  lemma ClientSends(s: State, n: nat)
    requires Inv(s) && s.client.Sending?
    ensures Inv(ClientStep(s, n))
  {
    hide Frame, Parse, Matches;
    var left := s.client.left;
    if 0 < n <= |left| {
      assert left[..n] + left[n..] == left;
      var got := if s.server.Reading? then s.server.got else [];
      assert got + (s.c2s + left[..n]) + left[n..] == got + s.c2s + left;
    }
  }

  lemma ClientReceives(s: State, n: nat)
    requires Inv(s) && s.client.Receiving? && Wanted(s.client.got) > 0
    ensures Inv(ClientStep(s, n))
  {
    hide Frame, Parse, Matches, Wanted;
    if 0 < n <= |s.s2c| {
      var got := s.client.got;
      assert s.s2c[..n] + s.s2c[n..] == s.s2c;
      assert (got + s.s2c[..n]) + s.s2c[n..] == got + s.s2c;
    }
  }

  /** The reply is complete, and nothing of it is left behind. */
  lemma ClientReturns(s: State, n: nat)
    requires Inv(s) && s.client.Receiving? && Wanted(s.client.got) == 0 && !ClientStep(s, n).failed
    ensures Inv(ClientStep(s, n))
  {
    hide Frame, Parse, Wanted, Matches;
    var got := s.client.got;
    assert s.answer.Some? by { NothingIsIncomplete(got); }
    StopsAtEnd(got, s.answer.reply);
    assert got == Frame(s.answer.reply) && s.s2c == [];
    ReturnsMatch(s, n);
  }

  lemma NothingIsIncomplete(got: seq<Byte>)
    requires Wanted(got) == 0
    ensures got != []
  {
  }

  lemma ReturnsMatch(s: State, n: nat)
    requires Answered(s) && s.client.Receiving? && s.client.req == Request(s.client.op, s.client.req.id)
    requires s.answer.Some? && Parse(s.client.got).Received? && Parse(s.client.got).m == Truncated(s.answer.reply)
    ensures Matches(s.log + [Ended(s.client.op, s.client.req.id, Parse(s.client.got).m)], s.handled)
  {
    hide Frame, Parse;
    var entry := Ended(s.client.op, s.client.req.id, Parse(s.client.got).m);
    var log := s.log + [entry];
    assert log[..|log| - 1] == s.log && log[|log| - 1] == entry;
  }

  lemma ServerReceives(s: State, n: nat)
    requires Inv(s) && s.server.Reading? && Wanted(s.server.got) > 0
    ensures Inv(ServerStep(s, n))
  {
    hide Frame, Parse, Matches, Wanted;
    if 0 < n <= |s.c2s| {
      var got := s.server.got;
      assert s.c2s[..n] + s.c2s[n..] == s.c2s;
      assert (got + s.c2s[..n]) + s.c2s[n..] + Unsent(s.client) == got + s.c2s + Unsent(s.client);
    }
  }

  /** The request is complete, and the client has nothing left to send. */
  lemma ServerTakes(s: State, n: nat)
    requires Inv(s) && s.server.Reading? && Wanted(s.server.got) == 0
    ensures Inv(ServerStep(s, n))
  {
    hide Frame, Parse, Wanted, Matches;
    var got := s.server.got;
    NothingIsIncomplete(got);
    assert !s.client.Idle? && s.answer.None?;
    assert got <= Frame(s.client.req);
    StopsAtEnd(got, s.client.req);
    if Parse(got).Received? {
      assert s.c2s == [] && Unsent(s.client) == [];
      FrameNotEmpty(Parse(got).m);
      if Parse(got).m.kind == PING {
        FrameNotEmpty(Reply(Parse(got).m, ThrowsOther));
        Pongs(s.client.req);
      }
    }
  }

  lemma FrameNotEmpty(m: Message)
    ensures Frame(m) != []
  {
  }

  lemma Pongs(req: Message)
    requires Truncated(req).kind == PING
    ensures Reply(Truncated(req), ThrowsOther) == Message(PONG, req.id, [])
  {
  }

  lemma ServerSends(s: State, n: nat)
    requires Inv(s) && s.server.Replying?
    ensures Inv(ServerStep(s, n))
  {
    hide Frame, Parse, Matches;
    var left := s.server.left;
    if 0 < n <= |left| {
      assert left[..n] + left[n..] == left;
      assert s.client.got + (s.s2c + left[..n]) + left[n..] == s.client.got + s.s2c + left;
    }
  }

  lemma HandlerAnswers(s: State, outcome: Outcome)
    requires Inv(s) && s.server.Handling?
    ensures Inv(Step(s, Handle(outcome)))
  {
    hide Frame, Parse, Matches;
    FrameNotEmpty(Reply(s.server.req, outcome));
    var handled := s.handled + [Call(s.server.req.payload, outcome)];
    assert handled[..|handled| - 1] == s.handled;
  }

  /** The server's side fails or ends: nothing more is added to what the client receives. */
  lemma ServerGivesUp(s: State)
    requires Inv(s) && (s.server.Reading? || s.server.Replying?)
    ensures Inv(Step(s, ServerFails))
  {
    hide Frame, Parse, Matches;
  }

  lemma StepKeepsInv(s: State, mv: Move)
    requires Inv(s) && !Step(s, mv).failed
    ensures Inv(Step(s, mv))
  {
    hide Frame, Parse, Matches, Wanted, Answered, Bytes, Downstream, ClientStep, ServerStep;
    match mv
    case Start(op) => StartKeepsInv(s, op);
    case ClientMoves(n) =>
      if s.client.Sending? { ClientSends(s, n); }
      else if s.client.Receiving? && Wanted(s.client.got) > 0 { ClientReceives(s, n); }
      else if s.client.Receiving? { ClientReturns(s, n); }
      else { StandsStill(s, n); }
    case ClientFails =>
    case ServerMoves(n) =>
      if s.server.Reading? && Wanted(s.server.got) > 0 { ServerReceives(s, n); }
      else if s.server.Reading? { ServerTakes(s, n); }
      else if s.server.Replying? { ServerSends(s, n); }
      else { StandsStill(s, n); }
    case ServerFails => if s.server.Reading? || s.server.Replying? { ServerGivesUp(s); }
    case Handle(outcome) => if s.server.Handling? { HandlerAnswers(s, outcome); }
    case Stop => Stops(s);
  }

  lemma StartKeepsInv(s: State, op: Op)
    requires Inv(s)
    ensures Inv(Step(s, Start(op)))
  {
    hide Frame, Parse, Matches;
    FrameNotEmpty(Request(op, s.nextId));
  }

  lemma StandsStill(s: State, n: nat)
    requires Inv(s)
    ensures s.client.Idle? ==> ClientStep(s, n) == s
    ensures s.server.Checking? || s.server.Handling? || s.server.Closed? ==> Inv(ServerStep(s, n))
  {
    hide Frame, Parse, Matches;
  }

  lemma Stops(s: State)
    requires Inv(s)
    ensures Inv(s.(running := false))
  {
    hide Frame, Parse, Matches;
  }

  lemma FailedStays(s: State, mv: Move)
    ensures s.failed ==> Step(s, mv).failed
  {
    hide Frame, Parse;
  }

  lemma {:induction false} RunKeepsInv(moves: seq<Move>)
    requires !Run(Init(), moves).failed
    ensures Inv(Run(Init(), moves))
  {
    hide Step, Answered, Bytes, Downstream;
    if moves == [] {
      InitInv();
    } else {
      var last := |moves| - 1;
      FailedStays(Run(Init(), moves[..last]), moves[last]);
      RunKeepsInv(moves[..last]);
      StepKeepsInv(Run(Init(), moves[..last]), moves[last]);
    }
  }

  lemma InitInv()
    ensures Inv(Init())
  {
  }

  // ---------------------------------------------------------------- what a session guarantees

  /** As long as no call of the client failed: every submit that returned had its handler call, in order
      and with its payload, and returns that call's outcome, every ping that returned is alive, and every
      reply had the id of its request; however the streams were cut and whatever the server did. */
  lemma SubmitsReturnOutcomes(moves: seq<Move>)
    requires !Run(Init(), moves).failed
    ensures var s := Run(Init(), moves);
            Matches(s.log, if s.client.Idle? || s.answer.None? || s.client.op.Ping? || s.handled == []
                           then s.handled else s.handled[..|s.handled| - 1])
  {
    hide Matches, Bytes, Downstream, Step;
    RunKeepsInv(moves);
  }

  function Submits(log: seq<Return>): nat {
    if log == [] then 0 else Submits(log[..|log| - 1]) + if log[|log| - 1].Submitted? then 1 else 0
  }

  /** Call by call: the submit at place `k` of the log returned the outcome of the handler call that has
      as many calls before it as there were submits before that one. */
  lemma {:induction false} NthReturn(log: seq<Return>, handled: seq<Call>, k: nat)
    requires Matches(log, handled) && k < |log|
    ensures |handled| == Submits(log)
    ensures log[k].reply.id == log[k].id
    ensures var n := Submits(log[..k]);
            if log[k].Pinged? then log[k].alive
            else
              && n < |handled| && handled[n].payload == Cut(log[k].payload)
              && log[k].result == Promised(handled[n].outcome)
  {
    var last := |log| - 1;
    var before := if log[last].Pinged? then handled else handled[..|handled| - 1];
    if last > 0 {
      NthReturn(log[..last], before, if k < last then k else 0);
      assert k < last ==> log[..last][..k] == log[..k];
    } else {
      assert log[..last] == [];
    }
  }

  lemma PromisedIs()
    ensures Ascii("ERROR: ") == [69, 82, 82, 79, 82, 58, 32]
    ensures Ascii("ERROR: unknown exception")
            == [69, 82, 82, 79, 82, 58, 32, 117, 110, 107, 110, 111, 119, 110, 32,
                101, 120, 99, 101, 112, 116, 105, 111, 110]
  {
    ReplyIs(Message(REQUEST, 0, []), Throws([]));
    ReplyIs(Message(REQUEST, 0, []), ThrowsOther);
  }

  /** In every run without a failed call: the `k`-th call that returned had a reply with its own id, a ping
      found the server alive, and a submit returned the outcome of the handler call that belongs to it. */
  lemma ReturnedOutcome(moves: seq<Move>, k: nat)
    requires !Run(Init(), moves).failed && k < |Run(Init(), moves).log|
    ensures var log, handled := Run(Init(), moves).log, Run(Init(), moves).handled;
            var n := Submits(log[..k]);
            && log[k].reply.id == log[k].id
            && if log[k].Pinged? then log[k].alive
               else
                 && n < |handled|
                 && handled[n].payload == log[k].payload[..|log[k].payload| % 4294967296]
                 && match handled[n].outcome
                    case Returns(text) => log[k].result == Value(text[..|text| % 4294967296])
                    case Throws(what) =>
                      log[k].result
                      == Failure(([69, 82, 82, 79, 82, 58, 32] + what)[..(7 + |what|) % 4294967296])
                    case ThrowsOther =>
                      log[k].result
                      == Failure([69, 82, 82, 79, 82, 58, 32, 117, 110, 107, 110, 111, 119, 110, 32,
                                  101, 120, 99, 101, 112, 116, 105, 111, 110])
  {
    hide Run, Matches;
    PromisedIs();
    SubmitsReturnOutcomes(moves);
    var s := Run(Init(), moves);
    var handled := if s.client.Idle? || s.answer.None? || s.client.op.Ping? || s.handled == []
                   then s.handled else s.handled[..|s.handled| - 1];
    NthReturn(s.log, handled, k);
  }

  /** How many calls the client began. */
  function Starts(moves: seq<Move>): nat {
    if moves == [] then 0
    else
      var last := |moves| - 1;
      Starts(moves[..last]) + if moves[last].Start? && Run(Init(), moves[..last]).client.Idle? then 1 else 0
  }

  /** For each entry of the log, how many calls were begun before that one. */
  function StartsBefore(moves: seq<Move>): seq<int> {
    if moves == [] then []
    else
      var front := moves[..|moves| - 1];
      StartsBefore(front) + if |Run(Init(), moves).log| > |Run(Init(), front).log| then [Starts(front) - 1] else []
  }

  ghost predicate Numbered(s: State, n: nat, before: seq<int>) {
    && |before| == |s.log| && s.nextId == NthId(1, n)
    && (!s.client.Idle? ==> n > 0 && s.client.req.id == NthId(1, n - 1))
    && (forall k :: 0 <= k < |before| ==>
          0 <= before[k] < (if s.client.Idle? then n else n - 1) && s.log[k].id == NthId(1, before[k]))
    && (forall j, k :: 0 <= j < k < |before| ==> before[j] < before[k])
    && (!s.failed ==> n == |s.log| + if s.client.Idle? then 0 else 1)
    && (!s.failed ==> forall k :: 0 <= k < |before| ==> before[k] == k)
  }

  lemma ClientNumbered(s: State, n: nat, before: seq<int>, mv: Move)
    requires Numbered(s, n, before)
    ensures var s' := Step(s, mv);
            Numbered(s', n + (if mv.Start? && s.client.Idle? then 1 else 0),
                     before + if |s'.log| > |s.log| then [n - 1] else [])
  {
    hide Frame, Parse, Wanted, Reply, ResultOf;
  }

  lemma {:induction false} RunIsNumbered(moves: seq<Move>)
    ensures Numbered(Run(Init(), moves), Starts(moves), StartsBefore(moves))
  {
    hide Step, Numbered;
    if moves == [] {
      NothingNumbered();
    } else {
      var last := |moves| - 1;
      RunIsNumbered(moves[..last]);
      ClientNumbered(Run(Init(), moves[..last]), Starts(moves[..last]), StartsBefore(moves[..last]), moves[last]);
    }
  }

  lemma NothingNumbered()
    ensures Numbered(Init(), 0, [])
  {
  }

  /** In every run, also after failed calls: the calls that returned have pairwise different ids, as long as the
      client began no more than 2^32 calls. Without a failed call the `k`-th one has the id 1 + k, modulo 2^32. */
  lemma IdsAreDistinct(moves: seq<Move>)
    ensures var s := Run(Init(), moves);
            && (Starts(moves) <= 4294967296 ==>
                  forall j, k :: 0 <= j < k < |s.log| ==> s.log[j].id != s.log[k].id)
            && (!s.failed ==> forall k :: 0 <= k < |s.log| ==> s.log[k].id as nat == (1 + k) % 4294967296)
  {
    hide Run, Step, NthId;
    RunIsNumbered(moves);
    var s, before := Run(Init(), moves), StartsBefore(moves);
    forall j, k | 0 <= j < k < |s.log|
      ensures Starts(moves) <= 4294967296 ==> s.log[j].id != s.log[k].id
    {
      IdsAreFresh(1, before[j], before[k]);
    }
    forall k | 0 <= k < |s.log|
      ensures s.log[k].id as nat == (1 + before[k]) % 4294967296
    {
      IdsCount(1, before[k]);
    }
  }

  /** At most one frame is under way: a part of the current request towards the server, or a part of its
      reply towards the client, and never both. */
  lemma OneFrameInFlight(moves: seq<Move>)
    requires !Run(Init(), moves).failed
    ensures var s := Run(Init(), moves);
            && (s.c2s == [] || s.s2c == [] || s.server.Closed?)
            && (s.client.Idle? ==> s.s2c == [] && (s.c2s == [] || s.server.Closed?))
            && (s.s2c != [] ==> s.client.Receiving? && s.answer.Some? && s.answer.reply.id == s.client.req.id
                                && s.client.got + s.s2c <= Frame(s.answer.reply))
            && (s.c2s != [] && !s.server.Closed? ==>
                  && !s.client.Idle? && s.answer.None?
                  && (if s.server.Reading? then s.server.got else []) + s.c2s + Unsent(s.client) == Frame(s.client.req))
  {
    hide Matches, Step, Frame;
    RunKeepsInv(moves);
  }

  // ---------------------------------------------------------------- calls that nothing disturbs

  ghost predicate Leads(s: State, s': State) {
    exists moves :: Run(s, moves) == s'
  }

  lemma LeadsStep(s: State, s': State, mv: Move, next: State)
    requires Leads(s, s') && Step(s', mv) == next
    ensures Leads(s, next)
  {
    hide Step;
    var moves :| Run(s, moves) == s';
    assert (moves + [mv])[..|moves|] == moves;
    assert Run(s, moves + [mv]) == next;
  }

  lemma LeadsThere(s: State)
    ensures Leads(s, s)
  {
    assert Run(s, []) == s;
  }

  /** Nothing is under way, and the server runs. */
  predicate Quiet(s: State) {
    s.client.Idle? && s.server.Checking? && s.running && s.answer.None? && s.c2s == [] && s.s2c == []
  }

  /** The server receives a whole frame. */
  lemma ServerReads(s0: State, s: State, m: Message) returns (s': State)
    requires Leads(s0, s) && s.server == Reading([]) && s.c2s == Frame(m) && |m.payload| <= MAX_PAYLOAD
    ensures s' == s.(server := Reading(Frame(m)), c2s := []) && Leads(s0, s')
  {
    hide Leads, Frame, Wanted;
    WantedOfFrame(m);
    var f := Frame(m);
    var s1 := s.(server := Reading(f[..9]), c2s := f[9..]);
    assert [] + f[..9] == f[..9];
    LeadsStep(s0, s, ServerMoves(9), s1);
    s' := s.(server := Reading(f), c2s := []);
    if m.payload == [] {
      assert f[..9] == f && f[9..] == [];
    } else {
      assert f[..9] + f[9..][..|m.payload|] == f && f[9..][|m.payload|..] == [];
      LeadsStep(s0, s1, ServerMoves(|m.payload|), s');
    }
  }

  /** The client receives a whole frame, and its call returns. */
  lemma ClientReads(s0: State, s: State, op: Op, req: Message, m: Message) returns (s': State)
    requires Leads(s0, s) && s.client == Receiving(op, req, []) && s.s2c == Frame(m) && |m.payload| <= MAX_PAYLOAD
    ensures s' == s.(client := Idle, answer := None, s2c := [], log := s.log + [Ended(op, req.id, m)]) && Leads(s0, s')
  {
    hide Leads, Frame, Wanted;
    WantedOfFrame(m);
    RoundTrip(m, []);
    var f := Frame(m);
    assert f + [] == f;
    var s1 := s.(client := Receiving(op, req, f[..9]), s2c := f[9..]);
    assert [] + f[..9] == f[..9];
    LeadsStep(s0, s, ClientMoves(9), s1);
    var s2 := s.(client := Receiving(op, req, f), s2c := []);
    if m.payload == [] {
      assert f[..9] == f && f[9..] == [];
    } else {
      assert f[..9] + f[9..][..|m.payload|] == f && f[9..][|m.payload|..] == [];
      LeadsStep(s0, s1, ClientMoves(|m.payload|), s2);
    }
    s' := s.(client := Idle, answer := None, s2c := [], log := s.log + [Ended(op, req.id, m)]);
    LeadsStep(s0, s2, ClientMoves(0), s');
  }

  /** The request of a call arrives. */
  lemma Requests(s0: State, s: State, op: Op) returns (s': State)
    requires Leads(s0, s) && Quiet(s) && |Request(op, s.nextId).payload| <= MAX_PAYLOAD
    ensures var req := Request(op, s.nextId);
            s' == s.(client := Receiving(op, req, []), server := Reading(Frame(req)), nextId := NextId(s.nextId))
    ensures Leads(s0, s')
  {
    hide Leads, Frame, Wanted, Parse;
    var req := Request(op, s.nextId);
    var frame := Frame(req);
    FrameNotEmpty(req);
    var s1 := s.(client := Sending(op, req, frame), nextId := NextId(s.nextId));
    LeadsStep(s0, s, Start(op), s1);
    var s2 := s1.(client := Receiving(op, req, []), c2s := frame);
    assert [] + frame[..|frame|] == frame;
    LeadsStep(s0, s1, ClientMoves(|frame|), s2);
    var s3 := s2.(server := Reading([]));
    LeadsStep(s0, s2, ServerMoves(0), s3);
    s' := ServerReads(s0, s3, req);
  }

  /** The server sends its whole reply. */
  lemma Sends(s0: State, s: State, reply: Message) returns (s': State)
    requires Leads(s0, s) && s.server == Replying(reply, Frame(reply)) && s.s2c == []
    ensures s' == s.(server := Checking, s2c := Frame(reply)) && Leads(s0, s')
  {
    hide Leads, Frame;
    FrameNotEmpty(reply);
    s' := s.(server := Checking, s2c := Frame(reply));
    assert [] + Frame(reply)[..|Frame(reply)|] == Frame(reply);
    LeadsStep(s0, s, ServerMoves(|Frame(reply)|), s');
  }

  /** From every state in which nothing is under way, a ping finds the server alive: there is a run to its end. */
  lemma PingCompletes(s: State) returns (s': State)
    requires Quiet(s)
    ensures Leads(s, s') && Quiet(s')
    ensures s' == s.(nextId := s'.nextId, log := s.log + [Pinged(s.nextId, Message(5, s.nextId, []), true)])
  {
    hide Leads, Frame, Parse, Wanted;
    LeadsThere(s);
    var s1 := Requests(s, s, Ping);
    var s2 := PingTaken(s, s1);
    var s3 := Sends(s, s2, Message(PONG, s.nextId, []));
    s' := ClientReads(s, s3, Ping, Message(PING, s.nextId, []), Message(PONG, s.nextId, []));
  }

  lemma PingTaken(s0: State, s: State) returns (s': State)
    requires Leads(s0, s) && s.client.Receiving? && s.client.req.kind == PING && s.client.req.payload == []
    requires s.server == Reading(Frame(s.client.req))
    ensures var pong := Message(PONG, s.client.req.id, []);
            s' == s.(server := Replying(pong, Frame(pong)), answer := Some(pong)) && Leads(s0, s')
  {
    hide Leads, Frame, Wanted;
    var pong := Message(PONG, s.client.req.id, []);
    WantedOfFrame(s.client.req);
    RoundTrip(s.client.req, []);
    assert Frame(s.client.req) + [] == Frame(s.client.req);
    s' := s.(server := Replying(pong, Frame(pong)), answer := Some(pong));
    LeadsStep(s0, s, ServerMoves(0), s');
  }

  /** From every such state a submit within the limit returns the outcome of its own handler call, whatever that
      is: there is a run to its end. */
  lemma SubmitCompletes(s: State, payload: seq<Byte>, outcome: Outcome) returns (s': State)
    requires Quiet(s) && |payload| <= 67108864
    requires match outcome
             case Returns(text) => |text| <= 67108864
             case Throws(what) => 7 + |what| <= 67108864
             case ThrowsOther => true
    ensures Leads(s, s') && Quiet(s')
    ensures |s'.log| == |s.log| + 1 && |s'.handled| == |s.handled| + 1
    ensures s' == s.(nextId := s'.nextId, handled := s.handled + [Call(payload, outcome)],
                     log := s.log + [s'.log[|s.log|]])
    ensures var last := s'.log[|s.log|];
            && last.Submitted? && last.payload == payload && last.id == last.reply.id == s.nextId
            && last.result == match outcome
                              case Returns(text) => Value(text)
                              case Throws(what) => Failure([69, 82, 82, 79, 82, 58, 32] + what)
                              case ThrowsOther =>
                                Failure([69, 82, 82, 79, 82, 58, 32, 117, 110, 107, 110, 111, 119, 110, 32,
                                         101, 120, 99, 101, 112, 116, 105, 111, 110])
  {
    hide Leads, Frame, Parse, Wanted, Reply;
    LeadsThere(s);
    var req := Message(REQUEST, s.nextId, payload);
    var reply := Reply(req, outcome);
    ReplyIs(req, outcome);
    var s1 := Requests(s, s, Submit(payload));
    var s2 := s1.(server := Handling(req));
    RequestTaken(s, s1);
    var s3 := s2.(server := Replying(reply, Frame(reply)), answer := Some(reply),
                  handled := s.handled + [Call(payload, outcome)]);
    LeadsStep(s, s2, Handle(outcome), s3);
    var s4 := Sends(s, s3, reply);
    s' := ClientReads(s, s4, Submit(payload), req, reply);
  }

  lemma RequestTaken(s0: State, s: State)
    requires Leads(s0, s) && s.client.Receiving? && s.client.req.kind == REQUEST
    requires |s.client.req.payload| <= MAX_PAYLOAD && s.server == Reading(Frame(s.client.req))
    ensures Leads(s0, s.(server := Handling(s.client.req)))
  {
    hide Leads, Frame, Wanted;
    WantedOfFrame(s.client.req);
    RoundTrip(s.client.req, []);
    assert Frame(s.client.req) + [] == Frame(s.client.req);
    LeadsStep(s0, s, ServerMoves(0), s.(server := Handling(s.client.req)));
  }

  /** A PONG that cannot be sent does not end the connection: there is a run in which nothing of it is sent, the
      client gives up its ping, and a submit after that is answered. */
  lemma PongFailureGoesOn(payload: seq<Byte>, text: seq<Byte>) returns (s: State)
    requires |payload| <= 67108864 && |text| <= 67108864
    ensures Leads(Init(), s) && Quiet(s) && s.failed && s.handled == [Call(payload, Returns(text))]
    ensures |s.log| == 1 && s.log[0].Submitted? && s.log[0].payload == payload && s.log[0].result == Value(text)
  {
    hide Leads, Frame, Parse, Wanted;
    var s0 := Init();
    LeadsThere(s0);
    var s1 := Requests(s0, s0, Ping);
    var s2 := PingTaken(s0, s1);
    var s3 := s2.(server := Checking);
    LeadsStep(s0, s2, ServerFails, s3);
    var s4 := s3.(client := Idle, answer := None, failed := true);
    LeadsStep(s0, s3, ClientFails, s4);
    s := SubmitCompletes(s4, payload, Returns(text));
    LeadsOn(s0, s4, s);
  }

  lemma LeadsOn(s0: State, s: State, s': State)
    requires Leads(s0, s) && Leads(s, s')
    ensures Leads(s0, s')
  {
    hide Step;
    var a :| Run(s0, a) == s;
    var b :| Run(s, b) == s';
    RunAppend(s0, a, b);
  }

  lemma {:induction false} RunAppend(s: State, a: seq<Move>, b: seq<Move>)
    ensures Run(s, a + b) == Run(Run(s, a), b)
  {
    hide Step;
    if b == [] {
      assert a + b == a;
    } else {
      var last := |b| - 1;
      assert (a + b)[..|a + b| - 1] == a + b[..last];
      RunAppend(s, a, b[..last]);
    }
  }

  /** A message of another type ends the connection, and so does what is none; a ping and a request do not. */
  lemma OtherMessageCloses(s: State, n: nat)
    requires s.server.Reading? && Wanted(s.server.got) == 0
    ensures ServerStep(s, n).server.Closed?
            <==> Parse(s.server.got).Received? ==> Parse(s.server.got).m.kind != 1 && Parse(s.server.got).m.kind != 4
  {
    hide Parse, Frame;
  }

  /** A stopped server that has come to the test of its loop takes no further request and sends nothing more. */
  lemma {:induction false} StoppedServerIsSilent(s: State, moves: seq<Move>)
    requires !s.running && (s.server.Checking? || s.server.Closed?)
    ensures var s' := Run(s, moves);
            && !s'.running && (s'.server.Checking? || s'.server.Closed?)
            && s'.handled == s.handled && |s'.s2c| <= |s.s2c|
  {
    hide Step;
    if moves != [] {
      StoppedServerIsSilent(s, moves[..|moves| - 1]);
      StaysSilent(Run(s, moves[..|moves| - 1]), moves[|moves| - 1]);
    }
  }

  lemma StaysSilent(s: State, mv: Move)
    requires !s.running && (s.server.Checking? || s.server.Closed?)
    ensures var s' := Step(s, mv);
            && !s'.running && (s'.server.Checking? || s'.server.Closed?)
            && s'.handled == s.handled && |s'.s2c| <= |s.s2c|
  {
    hide ClientStep;
    if mv.ClientMoves? {
      ClientAlone(s, mv.n);
    }
  }

  lemma ClientAlone(s: State, n: nat)
    ensures var s' := ClientStep(s, n);
            s'.server == s.server && s'.running == s.running && s'.handled == s.handled && |s'.s2c| <= |s.s2c|
  {
    hide Parse, Wanted;
  }

  // ---------------------------------------------------------------- after a failed call

  ghost predicate Reachable(s: State) {
    Leads(Init(), s)
  }

  lemma ReachesStep(s: State, mv: Move, next: State)
    requires Reachable(s) && Step(s, mv) == next
    ensures Reachable(next)
  {
    hide Step, Leads;
    LeadsStep(Init(), s, mv, next);
  }

  /** The server has sent its whole reply to request 1, and nobody has received any of it. */
  lemma ReplyOnTheWay(text: seq<Byte>) returns (s: State)
    requires |text| <= MAX_PAYLOAD
    ensures Reachable(s) && s.client == Receiving(Submit([]), Message(REQUEST, 1, []), []) && s.server == Checking
    ensures s.c2s == [] && s.s2c == Frame(Message(RESPONSE, 1, text)) && s.nextId == 2 && s.log == [] && s.running
    ensures s.handled == [Call([], Returns(text))]
  {
    hide Leads, Frame, Parse;
    var s0, reply := Init(), Message(RESPONSE, 1, text);
    LeadsThere(s0);
    var s1 := Requests(s0, s0, Submit([]));
    RequestTaken(s0, s1);
    var s2 := s1.(server := Handling(s1.client.req));
    var s3 := s2.(server := Replying(reply, Frame(reply)), answer := Some(reply), handled := [Call([], Returns(text))]);
    LeadsStep(s0, s2, Handle(Returns(text)), s3);
    s := Sends(s0, s3, reply);
  }

  lemma WantedOfFrame(m: Message)
    requires |m.payload| <= MAX_PAYLOAD
    ensures |Frame(m)| == 9 + |m.payload| && Wanted([]) == 9 && Wanted(Frame(m)[..9]) == |m.payload|
            && Wanted(Frame(m)) == 0
  {
    FrameFields(m, []);
    assert Frame(m) + [] == Frame(m);
    assert Frame(m)[..9][5..9] == Frame(m)[5..9];
  }

  /** The client does not compare ids. If a call fails with its reply still to come and the client is used
      again, the next submit returns the outcome of the failed one. */
  lemma StaleReply(text: seq<Byte>, payload: seq<Byte>) returns (s: State)
    requires 0 < |text| <= MAX_PAYLOAD
    ensures Reachable(s) && s.failed && s.handled == [Call([], Returns(text))]
    ensures s.log == [Submitted(payload, 2, Message(RESPONSE, 1, text), Value(text))]
  {
    hide Reachable, Frame, Parse, Wanted;
    var s0 := ReplyOnTheWay(text);
    var req, reply := Message(REQUEST, 2, payload), Message(RESPONSE, 1, text);
    var frame, f := Frame(req), Frame(reply);
    WantedOfFrame(reply);
    FrameNotEmpty(req);
    RoundTrip(reply, []);
    assert f + [] == f;
    var s1 := s0.(client := Idle, answer := None, failed := true);
    ReachesStep(s0, ClientFails, s1);
    var s2 := s1.(client := Sending(Submit(payload), req, frame), nextId := 3);
    ReachesStep(s1, Start(Submit(payload)), s2);
    var s3 := s2.(client := Receiving(Submit(payload), req, []), c2s := frame);
    assert [] + frame[..|frame|] == frame;
    ReachesStep(s2, ClientMoves(|frame|), s3);
    var s4 := s3.(client := Receiving(Submit(payload), req, f[..9]), s2c := f[9..]);
    assert [] + f[..9] == f[..9];
    ReachesStep(s3, ClientMoves(9), s4);
    var s5 := s4.(client := Receiving(Submit(payload), req, f), s2c := []);
    assert f[..9] + f[9..][..|text|] == f && f[9..][|text|..] == [];
    ReachesStep(s4, ClientMoves(|text|), s5);
    s := s5.(client := Idle, answer := None, log := [Submitted(payload, 2, reply, Value(text))]);
    ReachesStep(s5, ClientMoves(0), s);
  }
}
