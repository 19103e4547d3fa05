/** The wire protocol: length-prefixed frames, and sending and receiving them over a byte stream that
    the kernel cuts into pieces as it likes. */
module Protocol {
  newtype Byte = x: int | 0 <= x < 0x100

  newtype Word32 = x: int | 0 <= x < 0x1_0000_0000

  /** `kind` is any byte: recv_message does not check that it is one of the five message types. */
  datatype Message = Message(kind: Byte, id: Word32, payload: seq<Byte>)

  const REQUEST: Byte := 1
  const RESPONSE: Byte := 2
  const ERROR: Byte := 3
  const PING: Byte := 4
  const PONG: Byte := 5

  const HEADER_SIZE: nat := 9
  const MAX_PAYLOAD: nat := 64 * 1024 * 1024
  const WORD_VALUES: nat := 0x1_0000_0000

  // ---------------------------------------------------------------- integers on the wire

  /** Network byte order: the most significant byte first. */
  function BigEndian(x: Word32): (b: seq<Byte>)
    ensures |b| == 4
  {
    var n := x as int;
    [(n / 0x100_0000) as Byte, (n / 0x1_0000 % 0x100) as Byte, (n / 0x100 % 0x100) as Byte, (n % 0x100) as Byte]
  }

  /** The number that a sequence of digits to base 256 stands for. */
  function Digits(b: seq<Byte>): nat {
    if b == [] then 0 else 0x100 * Digits(b[..|b| - 1]) + b[|b| - 1] as nat
  }

  lemma DigitsOfFour(b: seq<Byte>)
    requires |b| == 4
    ensures Digits(b) == 0x100_0000 * b[0] as nat + 0x1_0000 * b[1] as nat + 0x100 * b[2] as nat + b[3] as nat
    ensures Digits(b) < WORD_VALUES
  {
    assert b[..3][..2] == b[..2] && b[..2][..1] == b[..1] && b[..1][..0] == [];
    assert Digits(b[..1]) == b[0] as nat;
    assert Digits(b[..2]) == 0x100 * Digits(b[..1]) + b[1] as nat;
    assert Digits(b[..3]) == 0x100 * Digits(b[..2]) + b[2] as nat;
  }

  /** ntohl of four bytes */
  function FromBigEndian(b: seq<Byte>): (x: Word32)
    requires |b| == 4
    ensures x as nat == Digits(b)
  {
    DigitsOfFour(b);
    Digits(b) as Word32
  }

  lemma BigEndianInverse(x: Word32)
    ensures FromBigEndian(BigEndian(x)) == x
  {
    DigitsOfFour(BigEndian(x));
  }

  lemma {:induction false} DigitsInjective(a: seq<Byte>, b: seq<Byte>)
    requires |a| == |b| && Digits(a) == Digits(b)
    ensures a == b
  {
    if a != [] {
      var n := |a| - 1;
      assert Digits(a[..n]) == Digits(b[..n]) && a[n] == b[n];
      DigitsInjective(a[..n], b[..n]);
      assert a == a[..n] + [a[n]] && b == b[..n] + [b[n]];
    }
  }

  lemma BigEndianOnto(b: seq<Byte>)
    requires |b| == 4
    ensures BigEndian(FromBigEndian(b)) == b
  {
    var x := FromBigEndian(b);
    BigEndianInverse(x);
    DigitsInjective(BigEndian(x), b);
  }

  // ---------------------------------------------------------------- frames

  /** The length field of a frame: the size of the payload as a 32-bit number. */
  function LengthField(m: Message): Word32 {
    (|m.payload| % WORD_VALUES) as Word32
  }

  /** What a frame can carry of a message. */
  function Truncated(m: Message): (t: Message)
    ensures |m.payload| < WORD_VALUES ==> t == m
  {
    m.(payload := m.payload[..LengthField(m) as nat])
  }

  function Frame(m: Message): (f: seq<Byte>)
    ensures |f| == HEADER_SIZE + LengthField(m) as nat
  {
    [m.kind] + BigEndian(m.id) + BigEndian(LengthField(m)) + m.payload[..LengthField(m) as nat]
  }

  /** The wire format, byte by byte: the type, the id and the length with the most significant byte first, and as
      much of the payload as the length says. */
  lemma FrameLayout(m: Message)
    ensures var id, n := m.id as nat, |m.payload| % 4294967296;
            && n <= |m.payload|
            && Frame(m)
               == [m.kind,
                   (id / 16777216) as Byte, (id / 65536 % 256) as Byte, (id / 256 % 256) as Byte, (id % 256) as Byte,
                   (n / 16777216) as Byte, (n / 65536 % 256) as Byte, (n / 256 % 256) as Byte, (n % 256) as Byte]
                  + m.payload[..n]
  {
    var n := |m.payload| % 4294967296;
    assert n == LengthField(m) as nat;
    assert [m.kind] + BigEndian(m.id) + BigEndian(LengthField(m)) + m.payload[..n] == Frame(m);
  }

  /** What recv_message makes of a stream that ends after `input`. */
  datatype Parsed = Received(m: Message, rest: seq<Byte>) | NoHeader | TooLarge(rest: seq<Byte>) | NoPayload

  function Length(header: seq<Byte>): nat
    requires |header| >= HEADER_SIZE
  {
    FromBigEndian(header[5..9]) as nat
  }

  function Parse(input: seq<Byte>): (p: Parsed)
    ensures p.Received? ==> |p.rest| + HEADER_SIZE <= |input| && |p.m.payload| <= MAX_PAYLOAD
  {
    if |input| < HEADER_SIZE then NoHeader
    else
      var length := Length(input);
      if length > MAX_PAYLOAD then TooLarge(input[HEADER_SIZE..])
      else if |input| < HEADER_SIZE + length then NoPayload
      else Received(Message(input[0], FromBigEndian(input[1..5]), input[HEADER_SIZE..HEADER_SIZE + length]),
                    input[HEADER_SIZE + length..])
  }

  /** The fields of a frame that is followed by other bytes. */
  lemma FrameFields(m: Message, rest: seq<Byte>)
    ensures var input := Frame(m) + rest;
            && |input| >= HEADER_SIZE && input[0] == m.kind && FromBigEndian(input[1..5]) == m.id
            && Length(input) == LengthField(m) as nat
            && input[HEADER_SIZE..] == Truncated(m).payload + rest
  {
    var input := Frame(m) + rest;
    assert input[1..5] == BigEndian(m.id);
    assert input[5..9] == BigEndian(LengthField(m));
    BigEndianInverse(m.id);
    BigEndianInverse(LengthField(m));
  }

  /** What is received of a message: what its frame can carry, unless that is over the limit. */
  lemma ParseFrame(m: Message, rest: seq<Byte>)
    ensures Parse(Frame(m) + rest)
            == if LengthField(m) as nat <= MAX_PAYLOAD then Received(Truncated(m), rest)
                else TooLarge(Truncated(m).payload + rest)
  {
    FrameFields(m, rest);
  }

  /** Decoding inverts encoding exactly for the payloads up to 64 MiB. */
  lemma RoundTrip(m: Message, rest: seq<Byte>)
    ensures Parse(Frame(m) + rest) == Received(m, rest) <==> |m.payload| <= 67108864
  {
    ParseFrame(m, rest);
  }

  /** Encoding inverts decoding. */
  lemma ParsedIsFrame(input: seq<Byte>)
    requires Parse(input).Received?
    ensures var p := Parse(input); input == Frame(p.m) + p.rest && |p.m.payload| <= MAX_PAYLOAD
  {
    var p := Parse(input);
    BigEndianOnto(input[1..5]);
    BigEndianOnto(input[5..9]);
    assert input == [input[0]] + input[1..5] + input[5..9] + p.m.payload + p.rest;
  }

  /** recv_message succeeds exactly on the streams that begin with the frame of a message within the limit. */
  lemma ParserIsExact(input: seq<Byte>)
    ensures Parse(input).Received?
            <==> exists m: Message, rest :: |m.payload| <= 67108864 && input == Frame(m) + rest
  {
    if Parse(input).Received? {
      ParsedIsFrame(input);
      var m, rest := Parse(input).m, Parse(input).rest;
      assert |m.payload| <= 67108864 && input == Frame(m) + rest;
    }
    if m: Message, rest :| |m.payload| <= 67108864 && input == Frame(m) + rest {
      ParseFrame(m, rest);
    }
  }

  /** No frame is a prefix of another, so a stream has at most one reading as a frame and a rest. */
  lemma PrefixFree(m: Message, rest: seq<Byte>, m': Message, rest': seq<Byte>)
    requires Frame(m) + rest == Frame(m') + rest'
    ensures Truncated(m) == Truncated(m') && rest == rest'
  {
    FrameFields(m, rest);
    FrameFields(m', rest');
    var input := Frame(m) + rest;
    assert rest == input[HEADER_SIZE + Length(input)..] == rest';
    assert Truncated(m).payload == input[HEADER_SIZE..HEADER_SIZE + Length(input)] == Truncated(m').payload;
  }

  /** A proper prefix of a frame is never received. */
  lemma CutFrameFails(m: Message, n: nat)
    requires n < |Frame(m)|
    ensures !Parse(Frame(m)[..n]).Received?
  {
    var cut := Frame(m)[..n];
    if Parse(cut).Received? {
      ParsedIsFrame(cut);
      var p := Parse(cut);
      assert Frame(m) + [] == Frame(p.m) + (p.rest + Frame(m)[n..]);
      PrefixFree(m, [], p.m, p.rest + Frame(m)[n..]);
      assert false;
    }
  }

  // ---------------------------------------------------------------- streams of frames

  function Frames(ms: seq<Message>): seq<Byte> {
    if ms == [] then [] else Frame(ms[0]) + Frames(ms[1..])
  }

  /** The messages that repeated calls of recv_message get until one fails. */
  function Messages(input: seq<Byte>): seq<Message>
    decreases |input|
  {
    var p := Parse(input);
    if p.Received? then [p.m] + Messages(p.rest) else []
  }

  predicate Within(ms: seq<Message>) {
    forall i :: 0 <= i < |ms| ==> |ms[i].payload| <= MAX_PAYLOAD
  }

  /** Any list of messages within the limit comes back as it was sent. */
  lemma {:induction false} StreamRoundTrip(ms: seq<Message>)
    requires Within(ms)
    ensures Messages(Frames(ms)) == ms
  {
    if ms != [] {
      RoundTrip(ms[0], Frames(ms[1..]));
      StreamRoundTrip(ms[1..]);
      assert [ms[0]] + ms[1..] == ms;
    }
  }

  lemma {:induction false} FramesAppend(ms: seq<Message>, m: Message)
    ensures Frames(ms + [m]) == Frames(ms) + Frame(m)
  {
    if ms == [] {
      assert ms + [m] == [m];
      assert Frames([m]) == Frame(m) + Frames([]);
    } else {
      assert (ms + [m])[1..] == ms[1..] + [m];
      FramesAppend(ms[1..], m);
    }
  }
}
