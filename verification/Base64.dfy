/** Unpadded base64, sections 3.2, 3.5 and 4 of RFC 4648: the last symbol must not carry stray bits. */
module Base64 {
  import opened Bytes
  import opened Channels

  function Symbol(n: nat): char
    requires n < 64
  {
    if n < 26 then (n + 65) as char
    else if n < 52 then (n + 71) as char
    else if n < 62 then (n - 4) as char
    else if n == 62 then '+'
    else '/'
  }

  function Value(ch: char): Option<nat> {
    if 'A' <= ch <= 'Z' then Some(ch as int - 65)
    else if 'a' <= ch <= 'z' then Some(ch as int - 71)
    else if '0' <= ch <= '9' then Some(ch as int + 4)
    else if ch == '+' then Some(62)
    else if ch == '/' then Some(63)
    else None
  }

  lemma SymbolIff(ch: char, n: nat)
    requires n < 64
    ensures Value(ch) == Some(n) <==> ch == Symbol(n)
  {
    if Value(ch) == Some(n) {
      assert ch as int == Symbol(n) as int;
    }
  }

  function EncodeOne(a: Byte): string {
    [Symbol(a / 4), Symbol(a % 4 * 16)]
  }

  function EncodeTwo(a: Byte, b: Byte): string {
    [Symbol(a / 4), Symbol(a % 4 * 16 + b / 16), Symbol(b % 16 * 4)]
  }

  function EncodeThree(a: Byte, b: Byte, c: Byte): string {
    [Symbol(a / 4), Symbol(a % 4 * 16 + b / 16), Symbol(b % 16 * 4 + c / 64), Symbol(c % 64)]
  }

  function Encode(data: seq<Byte>): string {
    if |data| == 0 then ""
    else if |data| == 1 then EncodeOne(data[0])
    else if |data| == 2 then EncodeTwo(data[0], data[1])
    else EncodeThree(data[0], data[1], data[2]) + Encode(data[3..])
  }

  function DecodeOne(v: Option<nat>, w: Option<nat>): Option<seq<Byte>> {
    if v.Some? && w.Some? && v.value < 64 && w.value < 64 && w.value % 16 == 0 then
      Some([v.value * 4 + w.value / 16])
    else None
  }

  function DecodeTwo(v: Option<nat>, w: Option<nat>, x: Option<nat>): Option<seq<Byte>> {
    if v.Some? && w.Some? && x.Some? && v.value < 64 && w.value < 64 && x.value < 64 && x.value % 4 == 0 then
      Some([v.value * 4 + w.value / 16, w.value % 16 * 16 + x.value / 4])
    else None
  }

  function DecodeThree(v: Option<nat>, w: Option<nat>, x: Option<nat>, y: Option<nat>): Option<seq<Byte>> {
    if v.Some? && w.Some? && x.Some? && y.Some? && v.value < 64 && w.value < 64 && x.value < 64 && y.value < 64 then
      Some([v.value * 4 + w.value / 16, w.value % 16 * 16 + x.value / 4, x.value % 4 * 64 + y.value])
    else None
  }

  function Decode(text: string): Option<seq<Byte>> {
    if |text| == 0 then Some([])
    else if |text| == 1 then None
    else if |text| == 2 then DecodeOne(Value(text[0]), Value(text[1]))
    else if |text| == 3 then DecodeTwo(Value(text[0]), Value(text[1]), Value(text[2]))
    else
      match DecodeThree(Value(text[0]), Value(text[1]), Value(text[2]), Value(text[3]))
      case None => None
      case Some(head) =>
        match Decode(text[4..])
        case None => None
        case Some(tail) => Some(head + tail)
  }

  lemma OneIff(t: string, a: Byte)
    requires |t| == 2
    ensures DecodeOne(Value(t[0]), Value(t[1])) == Some([a]) <==> t == EncodeOne(a)
  {
    hide Symbol, Value;
    SymbolIff(t[0], a / 4);
    SymbolIff(t[1], a % 4 * 16);
  }

  lemma TwoIff(t: string, a: Byte, b: Byte)
    requires |t| == 3
    ensures DecodeTwo(Value(t[0]), Value(t[1]), Value(t[2])) == Some([a, b]) <==> t == EncodeTwo(a, b)
  {
    hide Symbol, Value;
    SymbolIff(t[0], a / 4);
    SymbolIff(t[1], a % 4 * 16 + b / 16);
    SymbolIff(t[2], b % 16 * 4);
  }

  lemma By4(high: nat, low: nat, n: nat)
    requires low < 4
    ensures high * 4 + low == n <==> high == n / 4 && low == n % 4
  {
  }

  lemma By16(high: nat, low: nat, n: nat)
    requires low < 16
    ensures high * 16 + low == n <==> high == n / 16 && low == n % 16
  {
  }

  lemma By64(high: nat, low: nat, n: nat)
    requires low < 64
    ensures high * 64 + low == n <==> high == n / 64 && low == n % 64
  {
  }

  /** Four six-bit groups hold three bytes. */
  lemma Groups(v: nat, w: nat, x: nat, y: nat, a: Byte, b: Byte, c: Byte)
    requires v < 64 && w < 64 && x < 64 && y < 64
    ensures (v * 4 + w / 16 == a && w % 16 * 16 + x / 4 == b && x % 4 * 64 + y == c)
       <==> (v == a / 4 && w == a % 4 * 16 + b / 16 && x == b % 16 * 4 + c / 64 && y == c % 64)
  {
    By4(v, w / 16, a);
    By16(w % 16, x / 4, b);
    By64(x % 4, y, c);
    By16(a % 4, b / 16, w);
    By4(b % 16, c / 64, x);
  }

  lemma ThreeIff(t: string, a: Byte, b: Byte, c: Byte)
    requires |t| == 4
    ensures DecodeThree(Value(t[0]), Value(t[1]), Value(t[2]), Value(t[3])) == Some([a, b, c])
       <==> t == EncodeThree(a, b, c)
  {
    hide Symbol, Value;
    var v, w, x, y := Value(t[0]), Value(t[1]), Value(t[2]), Value(t[3]);
    SymbolIff(t[0], a / 4);
    SymbolIff(t[1], a % 4 * 16 + b / 16);
    SymbolIff(t[2], b % 16 * 4 + c / 64);
    SymbolIff(t[3], c % 64);
    assert t == [t[0], t[1], t[2], t[3]];
    if DecodeThree(v, w, x, y).Some? {
      Groups(v.value, w.value, x.value, y.value, a, b, c);
    }
  }

  lemma SplitAt<T>(head: seq<T>, tail: seq<T>, all: seq<T>)
    requires |head| <= |all|
    ensures head + tail == all <==> head == all[..|head|] && tail == all[|head|..]
  {
    assert all == all[..|head|] + all[|head|..];
    if head + tail == all {
      assert (head + tail)[..|head|] == head && (head + tail)[|head|..] == tail;
    }
  }

  lemma ThreeSizes(v: Option<nat>, w: Option<nat>, x: Option<nat>, y: Option<nat>, a: Byte, b: Byte, c: Byte)
    ensures DecodeThree(v, w, x, y).Some? ==> |DecodeThree(v, w, x, y).value| == 3
    ensures |EncodeThree(a, b, c)| == 4
  {
  }

  /** Decoding gives `data` for exactly one text, its encoding. */
  lemma {:induction false} DecodeIff(text: string, data: seq<Byte>)
    ensures Decode(text) == Some(data) <==> text == Encode(data)
  {
    hide EncodeOne, EncodeTwo, EncodeThree, DecodeOne, DecodeTwo, DecodeThree, Value;
    EncodedSize(data);
    DecodedSize(text);
    if |text| == 2 && |data| == 1 {
      assert data == [data[0]];
      OneIff(text, data[0]);
    } else if |text| == 3 && |data| == 2 {
      assert data == [data[0], data[1]];
      TwoIff(text, data[0], data[1]);
    } else if |text| >= 4 && |data| >= 3 {
      var three := DecodeThree(Value(text[0]), Value(text[1]), Value(text[2]), Value(text[3]));
      ThreeSizes(Value(text[0]), Value(text[1]), Value(text[2]), Value(text[3]), data[0], data[1], data[2]);
      SplitAt(EncodeThree(data[0], data[1], data[2]), Encode(data[3..]), text);
      assert data[..3] == [data[0], data[1], data[2]];
      if three.Some? && Decode(text[4..]).Some? {
        SplitAt(three.value, Decode(text[4..]).value, data);
      }
      ThreeIff(text[..4], data[0], data[1], data[2]);
      DecodeIff(text[4..], data[3..]);
    }
  }

  /** Four symbols for three bytes, and no padding. */
  lemma {:induction false} EncodedSize(data: seq<Byte>)
    ensures |Encode(data)| == (4 * |data| + 2) / 3
  {
    if |data| >= 3 {
      EncodedSize(data[3..]);
    }
  }

  lemma {:induction false} DecodedSize(text: string)
    ensures Decode(text).Some? ==> |Decode(text).value| == 3 * |text| / 4
  {
    if |text| >= 4 {
      DecodedSize(text[4..]);
    }
  }

  /** The alphabet has no colon. */
  lemma {:induction false} EncodedHasNoColon(data: seq<Byte>)
    ensures ':' !in Encode(data)
  {
    if |data| >= 3 {
      EncodedHasNoColon(data[3..]);
    }
  }

  /** The vectors of section 10 of RFC 4648 without their padding, and one with the last two symbols. */
  lemma Rfc4648Vectors()
    ensures Encode([102]) == "Zg" && Encode([102, 111]) == "Zm8" && Encode([102, 111, 111]) == "Zm9v"
    ensures Encode([102, 111, 111, 98]) == "Zm9vYg" && Encode([102, 111, 111, 98, 97]) == "Zm9vYmE"
    ensures Encode([102, 111, 111, 98, 97, 114]) == "Zm9vYmFy" && Encode([251, 255, 191]) == "+/+/"
  {
    hide Encode, EncodeThree;
    ShortVectors();
    var foo, bar, high: seq<Byte> := [102, 111, 111], [98, 97, 114], [251, 255, 191];
    EncodeFront(foo, []);
    EncodeFront(bar, []);
    EncodeFront(high, []);
    assert foo + [] == foo && bar + [] == bar && high + [] == high;
    EncodeFront(foo, [98]);
    EncodeFront(foo, [98, 97]);
    EncodeFront(foo, bar);
    assert foo + [98] == [102, 111, 111, 98] && foo + [98, 97] == [102, 111, 111, 98, 97];
    assert foo + bar == [102, 111, 111, 98, 97, 114];
  }

  lemma ShortVectors()
    ensures Encode([]) == "" && Encode([102]) == "Zg" && Encode([102, 111]) == "Zm8"
    ensures Encode([98]) == "Yg" && Encode([98, 97]) == "YmE"
    ensures EncodeThree(102, 111, 111) == "Zm9v" && EncodeThree(98, 97, 114) == "YmFy"
    ensures EncodeThree(251, 255, 191) == "+/+/"
  {
  }

  /** The symbols are those of table 1 of RFC 4648: the capital letters, the small ones, the digits, `+` and `/`. */
  lemma SymbolTable(n: nat)
    ensures n < 26 ==> 'A' <= Symbol(n) <= 'Z' && Symbol(n) as int == 'A' as int + n
    ensures n < 26 ==> 'a' <= Symbol(26 + n) <= 'z' && Symbol(26 + n) as int == 'a' as int + n
    ensures n < 10 ==> '0' <= Symbol(52 + n) <= '9' && Symbol(52 + n) as int == '0' as int + n
    ensures Symbol(62) == '+' && Symbol(63) == '/'
  {
  }

  lemma EncodeFront(front: seq<Byte>, rest: seq<Byte>)
    requires |front| == 3
    ensures Encode(front + rest) == EncodeThree(front[0], front[1], front[2]) + Encode(rest)
  {
    assert (front + rest)[3..] == rest;
  }
}
