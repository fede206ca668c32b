/** Length-prefixed messages on an encrypted byte stream whose two directions share one keystream
    position per end. */
module ControlStream {
  import opened Bytes
  import opened Channels
  import Ciphers = StreamCipher

  const LENGTH_SIZE := 4

  function Frame(message: seq<Byte>): seq<Byte> {
    ToBE(|message|, LENGTH_SIZE) + message
  }

  /** Four bytes of length, the most significant first, and then the message. */
  lemma FrameLayout(message: seq<Byte>, i: nat)
    ensures |Frame(message)| == 4 + |message| && Frame(message)[4..] == message
    ensures i < 4 ==> Frame(message)[i] == |message| / Pow256(3 - i) % 256
  {
    if i < 4 {
      BigEndian(|message|, 4, i);
    }
  }

  // ---- one end ----

  /** An end of the stream: its keystream position, the length of the message it is in the middle of
      reading, and the bytes that have arrived but were not read. */
  datatype Endpoint = Endpoint(pos: nat, need: Option<nat>, inbox: seq<Byte>)

  predicate LengthReady(e: Endpoint) {
    e.need.None? && |e.inbox| >= LENGTH_SIZE
  }

  function ReadLength(e: Endpoint, ks: Keystream): Endpoint
    requires LengthReady(e)
  {
    Endpoint(e.pos + LENGTH_SIZE, Some(FromBE(Crypt(e.inbox[..LENGTH_SIZE], e.pos, ks))), e.inbox[LENGTH_SIZE..])
  }

  predicate BodyReady(e: Endpoint) {
    e.need.Some? && |e.inbox| >= e.need.value
  }

  function BodyOf(e: Endpoint, ks: Keystream): seq<Byte>
    requires BodyReady(e)
  {
    Crypt(e.inbox[..e.need.value], e.pos, ks)
  }

  function ReadBody(e: Endpoint): Endpoint
    requires BodyReady(e)
  {
    Endpoint(e.pos + e.need.value, None, e.inbox[e.need.value..])
  }

  // ---- both ends ----

  /** `ab` and `ba` are the bytes on the wire in the two directions. */
  datatype Link = Link(a: Endpoint, b: Endpoint, ab: seq<Byte>, ba: seq<Byte>) {
    function Flip(): Link { Link(b, a, ba, ab) }
  }

  const OPENED := Link(Endpoint(0, None, []), Endpoint(0, None, []), [], [])

  function Write(l: Link, message: seq<Byte>, ks: Keystream): Link {
    l.(ab := l.ab + Crypt(Frame(message), l.a.pos, ks), a := l.a.(pos := l.a.pos + LENGTH_SIZE + |message|))
  }

  /** The network brings the next `n` bytes, as many as it likes. */
  function Arrive(l: Link, n: nat): Link
    requires n <= |l.ab|
  {
    l.(b := l.b.(inbox := l.b.inbox + l.ab[..n]), ab := l.ab[n..])
  }

  /** Nothing is on its way and both ends stand at the same position. */
  ghost predicate Quiet(l: Link) {
    && l.ab == [] && l.ba == [] && l.a.inbox == [] && l.b.inbox == []
    && l.a.need.None? && l.b.need.None? && l.a.pos == l.b.pos
  }

  /** Exactly the rest of `message` is on its way from `a` to `b`, encrypted from the position `b` stands at. */
  ghost predicate Carrying(l: Link, message: seq<Byte>, ks: Keystream) {
    && l.ba == [] && l.a.inbox == [] && l.a.need.None?
    && l.a.pos == l.b.pos + |l.b.inbox| + |l.ab|
    && match l.b.need
       case None => l.b.inbox + l.ab == Crypt(Frame(message), l.b.pos, ks)
       case Some(n) => n == |message| && l.b.inbox + l.ab == Crypt(message, l.b.pos, ks)
  }

  lemma WriteCarries(l: Link, message: seq<Byte>, ks: Keystream)
    requires Quiet(l)
    ensures Carrying(Write(l, message, ks), message, ks)
  {
    assert [] + Crypt(Frame(message), l.a.pos, ks) == Crypt(Frame(message), l.a.pos, ks);
  }

  lemma ArriveCarries(l: Link, n: nat, message: seq<Byte>, ks: Keystream)
    requires Carrying(l, message, ks) && n <= |l.ab|
    ensures Carrying(Arrive(l, n), message, ks)
  {
    assert l.ab == l.ab[..n] + l.ab[n..];
    assert l.b.inbox + l.ab == (l.b.inbox + l.ab[..n]) + l.ab[n..];
  }

  /** An encrypted frame is its encrypted length and then, from four bytes on, its encrypted message. */
  lemma FrameParts(message: seq<Byte>, pos: nat, ks: Keystream)
    requires |message| < U32_LIMIT
    ensures var whole := Crypt(Frame(message), pos, ks);
            && |whole| == LENGTH_SIZE + |message|
            && FromBE(Crypt(whole[..LENGTH_SIZE], pos, ks)) == |message|
            && whole[LENGTH_SIZE..] == Crypt(message, pos + LENGTH_SIZE, ks)
  {
    hide Crypt, ToBE, FromBE;
    var prefix := ToBE(|message|, LENGTH_SIZE);
    CryptConcat(prefix, message, pos, ks);
    var whole := Crypt(Frame(message), pos, ks);
    assert whole[..LENGTH_SIZE] == Crypt(prefix, pos, ks);
    assert whole[LENGTH_SIZE..] == Crypt(message, pos + LENGTH_SIZE, ks);
    CryptTwice(prefix, pos, ks);
    Pow256Widths();
    FromToBE(|message|, LENGTH_SIZE);
  }

  /** The length is decrypted at the position where it was encrypted. */
  lemma LengthCarries(l: Link, message: seq<Byte>, ks: Keystream)
    requires Carrying(l, message, ks) && LengthReady(l.b) && |message| < U32_LIMIT
    ensures ReadLength(l.b, ks).need == Some(|message|)
    ensures Carrying(l.(b := ReadLength(l.b, ks)), message, ks)
  {
    hide Crypt, Frame, FromBE;
    FrameParts(message, l.b.pos, ks);
    var all := l.b.inbox + l.ab;
    assert l.b.inbox[..LENGTH_SIZE] == all[..LENGTH_SIZE];
    assert l.b.inbox[LENGTH_SIZE..] + l.ab == all[LENGTH_SIZE..];
  }

  /** The message is read back unchanged, and the stream is quiet again. */
  lemma BodyCarries(l: Link, message: seq<Byte>, ks: Keystream)
    requires Carrying(l, message, ks) && BodyReady(l.b)
    ensures BodyOf(l.b, ks) == message
    ensures Quiet(l.(b := ReadBody(l.b)))
  {
    var e := l.b;
    assert |e.inbox + l.ab| == |message|;
    assert l.ab == [] && e.inbox == Crypt(message, e.pos, ks);
    assert e.inbox[..|message|] == e.inbox;
    CryptTwice(message, e.pos, ks);
  }

  /** Once all of a message has arrived, what its reader waits for is there. */
  lemma ArrivedReady(l: Link, message: seq<Byte>, ks: Keystream)
    requires Carrying(l, message, ks) && l.ab == []
    ensures LengthReady(l.b) || BodyReady(l.b)
  {
    assert l.b.inbox + [] == l.b.inbox;
  }

  /** A message written at position `p` and read at position `q` comes back, whatever it is, exactly when
      the keystream cannot tell the two stretches apart: the ends have to be in step. */
  lemma FrameNeedsStep(n: nat, p: nat, q: nat, ks: Keystream)
    requires n < U32_LIMIT
    ensures (forall message: seq<Byte> | |message| == n ::
               Crypt(Crypt(Frame(message), p, ks), q, ks) == Frame(message))
       <==> SameKeys(ks, p, q, LENGTH_SIZE + n)
  {
    if SameKeys(ks, p, q, LENGTH_SIZE + n) {
      forall message: seq<Byte> | |message| == n
        ensures Crypt(Crypt(Frame(message), p, ks), q, ks) == Frame(message)
      {
        CryptTwiceSameKeys(Frame(message), p, q, ks);
      }
    }
    if forall message: seq<Byte> | |message| == n :: Crypt(Crypt(Frame(message), p, ks), q, ks) == Frame(message) {
      var message: seq<Byte> := seq(n, _ => 0);
      var frame := Frame(message);
      assert Crypt(Crypt(frame, p, ks), q, ks) == frame;
      TextRevealsKeys(frame, p, q, ks);
    }
  }

  // ---- the stream object ----

  /** One end as the object it is: one cipher for both directions, and the socket's two directions. */
  class CipherStream {
    const cipher: Ciphers.StreamCipher
    var incoming: seq<Byte>
    var outgoing: seq<Byte>

    constructor (ks: Keystream)
      ensures cipher.ks == ks && cipher.pos == 0 && incoming == [] && outgoing == []
      ensures fresh(cipher)
      ensures Endpoint(cipher.pos, None, incoming) == OPENED.a == OPENED.b && outgoing == OPENED.ab == OPENED.ba
    {
      cipher := new Ciphers.StreamCipher(ks);
      incoming, outgoing := [], [];
    }

    method WriteAll(buffer: array<Byte>)
      modifies this`outgoing, cipher, buffer
      ensures outgoing == old(outgoing) + Crypt(old(buffer[..]), old(cipher.pos), cipher.ks)
      ensures cipher.pos == old(cipher.pos) + buffer.Length
    {
      assert buffer[..] == buffer[0..buffer.Length];
      cipher.ApplyKeystream(buffer, 0, buffer.Length);
      assert buffer[..] == buffer[0..buffer.Length];
      outgoing := outgoing + buffer[..];
    }

    method ReadExact(n: nat) returns (buffer: array<Byte>)
      requires n <= |incoming|
      modifies this`incoming, cipher
      ensures fresh(buffer) && buffer[..] == Crypt(old(incoming)[..n], old(cipher.pos), cipher.ks)
      ensures incoming == old(incoming)[n..] && cipher.pos == old(cipher.pos) + n
    {
      buffer := new Byte[n](i requires 0 <= i < n <= |incoming| reads this => incoming[i]);
      incoming := incoming[n..];
      assert buffer[..] == buffer[0..n] == old(incoming)[..n];
      cipher.ApplyKeystream(buffer, 0, n);
      assert buffer[..] == buffer[0..n];
    }

    /** The length and the message leave as one encrypted frame. */
    method WriteMessage(message: seq<Byte>)
      requires |message| < U32_LIMIT
      modifies this`outgoing, cipher
      ensures outgoing == old(outgoing) + Crypt(Frame(message), old(cipher.pos), cipher.ks)
      ensures cipher.pos == old(cipher.pos) + LENGTH_SIZE + |message|
    {
      hide Crypt, ToBE;
      var prefix := ToBE(|message|, LENGTH_SIZE);
      CryptConcat(prefix, message, cipher.pos, cipher.ks);
      var length := new Byte[LENGTH_SIZE](i requires 0 <= i < LENGTH_SIZE => prefix[i]);
      assert length[..] == prefix;
      WriteAll(length);
      var buffer := new Byte[|message|](i requires 0 <= i < |message| => message[i]);
      assert buffer[..] == message;
      WriteAll(buffer);
    }

    /** Reads a message, or as much of it as has arrived: `pending` and `waiting` are the length of a
        message whose body is still to come. */
    method ReadMessage(pending: Option<nat>) returns (waiting: Option<nat>, message: Option<seq<Byte>>)
      modifies this`incoming, cipher
      ensures var e := Endpoint(old(cipher.pos), pending, old(incoming));
              var l := if LengthReady(e) then ReadLength(e, cipher.ks) else e;
              if BodyReady(l) then message == Some(BodyOf(l, cipher.ks))
                                   && Endpoint(cipher.pos, waiting, incoming) == ReadBody(l)
              else message.None? && Endpoint(cipher.pos, waiting, incoming) == l
    {
      waiting, message := pending, None;
      if waiting.None? && |incoming| >= LENGTH_SIZE {
        var length := ReadExact(LENGTH_SIZE);
        waiting := Some(FromBE(length[..]));
      }
      if waiting.Some? && |incoming| >= waiting.value {
        var buffer := ReadExact(waiting.value);
        waiting, message := None, Some(buffer[..]);
      }
    }
  }

  /** A stream that holds the start of an encrypted frame yields the message exactly when all of the frame
      has arrived, wherever the network cut it; what follows the frame is left alone. */
  lemma FrameReadBack(message: seq<Byte>, pos: nat, ks: Keystream, arrived: seq<Byte>)
    requires |message| < U32_LIMIT
    requires arrived <= Crypt(Frame(message), pos, ks) || Crypt(Frame(message), pos, ks) <= arrived
    ensures var e := Endpoint(pos, None, arrived);
            var l := if LengthReady(e) then ReadLength(e, ks) else e;
            && (BodyReady(l) <==> |arrived| >= |Frame(message)|)
            && (BodyReady(l) ==> BodyOf(l, ks) == message
                                 && ReadBody(l) == Endpoint(pos + |Frame(message)|, None, arrived[|Frame(message)|..]))
  {
    hide Crypt, Frame, FromBE;
    FrameParts(message, pos, ks);
    var e, whole := Endpoint(pos, None, arrived), Crypt(Frame(message), pos, ks);
    if LengthReady(e) {
      assert arrived[..LENGTH_SIZE] == whole[..LENGTH_SIZE];
      var l := ReadLength(e, ks);
      if BodyReady(l) {
        assert whole <= arrived;
        assert l.inbox[..|message|] == whole[LENGTH_SIZE..];
        CryptTwice(message, pos + LENGTH_SIZE, ks);
        assert arrived[LENGTH_SIZE..][|message|..] == arrived[LENGTH_SIZE + |message|..];
      }
    }
  }
}
