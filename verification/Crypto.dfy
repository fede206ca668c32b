/** The text form of encryption parameters, and the ciphers both hosts derive from it. */
module Crypto {
  import opened Bytes
  import opened Channels
  import opened Base64

  datatype Cipher = Plain | Chacha8 | Aes128 | Aes192 | Chacha20 | Aes256

  const CIPHERS := [Plain, Chacha8, Aes128, Aes192, Chacha20, Aes256]

  function Name(c: Cipher): string {
    match c
    case Plain => "NONE"
    case Chacha8 => "CHACHA8"
    case Aes128 => "AES128"
    case Aes192 => "AES192"
    case Chacha20 => "CHACHA20"
    case Aes256 => "AES256"
  }

  function CipherNamed(name: string): Option<Cipher> {
    if name == "NONE" then Some(Plain)
    else if name == "CHACHA8" then Some(Chacha8)
    else if name == "AES128" then Some(Aes128)
    else if name == "AES192" then Some(Aes192)
    else if name == "CHACHA20" then Some(Chacha20)
    else if name == "AES256" then Some(Aes256)
    else None
  }

  function KeyLength(c: Cipher): nat {
    match c
    case Plain => 0
    case Aes128 => 16
    case Aes192 => 24
    case _ => 32
  }

  function IvLength(c: Cipher): nat {
    match c
    case Plain => 0
    case Chacha8 => 12
    case Chacha20 => 12
    case _ => 16
  }

  /** The cipher is kept as its number in the message format. */
  datatype Crypto = Crypto(cipher: int, key: seq<Byte>, iv: seq<Byte>)

  function CipherOf(n: int): Option<Cipher> {
    if 0 <= n < |CIPHERS| then Some(CIPHERS[n]) else None
  }

  function Number(c: Cipher): (n: int)
    ensures CipherOf(n) == Some(c)
  {
    match c
    case Plain => 0
    case Chacha8 => 1
    case Aes128 => 2
    case Aes192 => 3
    case Chacha20 => 4
    case Aes256 => 5
  }

  /** The ciphers by the name they have in text, the number they have in messages, and their lengths in bytes. */
  lemma CipherTable()
    ensures CipherNamed("NONE") == CipherOf(0) == Some(Plain)
    ensures CipherNamed("CHACHA8") == CipherOf(1) == Some(Chacha8)
    ensures CipherNamed("AES128") == CipherOf(2) == Some(Aes128)
    ensures CipherNamed("AES192") == CipherOf(3) == Some(Aes192)
    ensures CipherNamed("CHACHA20") == CipherOf(4) == Some(Chacha20)
    ensures CipherNamed("AES256") == CipherOf(5) == Some(Aes256)
    ensures KeyLength(Plain) == 0 && KeyLength(Aes128) == 16 && KeyLength(Aes192) == 24
    ensures KeyLength(Chacha8) == KeyLength(Chacha20) == KeyLength(Aes256) == 32
    ensures IvLength(Plain) == 0 && IvLength(Chacha8) == IvLength(Chacha20) == 12
    ensures IvLength(Aes128) == IvLength(Aes192) == IvLength(Aes256) == 16
  {
  }

  predicate RightLengths(c: Crypto) {
    match CipherOf(c.cipher)
    case None => false
    case Some(cipher) => |c.key| == KeyLength(cipher) && |c.iv| == IvLength(cipher)
  }

  // ---- text ----

  datatype Error = InvalidCipher | InvalidBase64 | InvalidKey | InvalidIv

  datatype Result = Ok(value: Crypto) | Err(error: Error)

  /** The parts of a text between the separators. */
  function Split(text: string, separator: char): (parts: seq<string>)
    ensures |parts| >= 1
  {
    if |text| == 0 then [""]
    else
      var rest := Split(text[1..], separator);
      if text[0] == separator then [""] + rest else [[text[0]] + rest[0]] + rest[1..]
  }

  /** What the parser takes from its surroundings: the upper-case form of a text, and two draws of random
      bytes, one for a missing key and one for a missing iv. */
  datatype World = World(upper: string -> string, key: nat -> seq<Byte>, iv: nat -> seq<Byte>) {
    ghost predicate Valid() {
      && (forall c: Cipher :: upper(Name(c)) == Name(c))
      && forall n :: |key(n)| == n && |iv(n)| == n
    }
  }

  function PartOrRandom(parts: seq<string>, i: nat, length: nat, draw: nat -> seq<Byte>): Option<seq<Byte>> {
    if i < |parts| then Decode(parts[i]) else Some(draw(length))
  }

  function Parse(text: string, w: World): Result {
    var parts := Split(text, ':');
    match CipherNamed(w.upper(parts[0]))
    case None => Err(InvalidCipher)
    case Some(cipher) =>
      match PartOrRandom(parts, 1, KeyLength(cipher), w.key)
      case None => Err(InvalidBase64)
      case Some(key) =>
        match PartOrRandom(parts, 2, IvLength(cipher), w.iv)
        case None => Err(InvalidBase64)
        case Some(iv) =>
          if |key| != KeyLength(cipher) then Err(InvalidKey)
          else if |iv| != IvLength(cipher) then Err(InvalidIv)
          else Ok(Crypto(Number(cipher), key, iv))
  }

  function Print(c: Crypto): Option<string> {
    match CipherOf(c.cipher)
    case None => None
    case Some(cipher) => Some(Name(cipher) + ":" + Encode(c.key) + ":" + Encode(c.iv))
  }

  lemma {:induction false} SplitFirst(first: string, rest: string, separator: char)
    requires separator !in first
    ensures Split(first + [separator] + rest, separator) == [first] + Split(rest, separator)
  {
    var text := first + [separator] + rest;
    if |first| == 0 {
      assert text[1..] == rest;
    } else {
      assert text[1..] == first[1..] + [separator] + rest;
      SplitFirst(first[1..], rest, separator);
      assert [first[0]] + first[1..] == first;
    }
  }

  lemma {:induction false} SplitNone(text: string, separator: char)
    requires separator !in text
    ensures Split(text, separator) == [text]
  {
    if |text| > 0 {
      SplitNone(text[1..], separator);
      assert [text[0]] + text[1..] == text;
    }
  }

  function Join(parts: seq<string>, separator: char): string
    requires |parts| >= 1
  {
    if |parts| == 1 then parts[0] else parts[0] + [separator] + Join(parts[1..], separator)
  }

  lemma {:induction false} JoinSplit(text: string, separator: char)
    ensures Join(Split(text, separator), separator) == text
  {
    if |text| == 0 {
      assert Split(text, separator) == [""];
    } else {
      var rest := Split(text[1..], separator);
      JoinSplit(text[1..], separator);
      hide Join;
      assert text == [text[0]] + text[1..];
      if text[0] == separator {
        JoinEmpty(rest, separator);
      } else {
        JoinLonger(rest, text[0], separator);
      }
    }
  }

  lemma JoinEmpty(rest: seq<string>, separator: char)
    requires |rest| >= 1
    ensures Join([""] + rest, separator) == [separator] + Join(rest, separator)
  {
    assert ([""] + rest)[1..] == rest;
  }

  lemma JoinLonger(rest: seq<string>, first: char, separator: char)
    requires |rest| >= 1
    ensures Join([[first] + rest[0]] + rest[1..], separator) == [first] + Join(rest, separator)
  {
    var parts := [[first] + rest[0]] + rest[1..];
    assert parts[1..] == rest[1..];
    if |rest| > 1 {
      var tail := Join(rest[1..], separator);
      assert [first] + (rest[0] + [separator] + tail) == ([first] + rest[0]) + [separator] + tail;
    }
  }

  lemma NameHasNoColon(c: Cipher)
    ensures ':' !in Name(c) && CipherNamed(Name(c)) == Some(c)
  {
  }

  lemma NamedIs(name: string)
    requires CipherNamed(name).Some?
    ensures Name(CipherNamed(name).value) == name
  {
  }

  lemma PrintedParts(c: Crypto)
    requires CipherOf(c.cipher).Some?
    ensures Split(Print(c).value, ':') == [Name(CipherOf(c.cipher).value), Encode(c.key), Encode(c.iv)]
  {
    hide Encode, Name, Split;
    var name, key, iv := Name(CipherOf(c.cipher).value), Encode(c.key), Encode(c.iv);
    NameHasNoColon(CipherOf(c.cipher).value);
    EncodedHasNoColon(c.key);
    EncodedHasNoColon(c.iv);
    assert Print(c).value == name + [':'] + (key + [':'] + iv);
    SplitFirst(name, key + [':'] + iv, ':');
    SplitFirst(key, iv, ':');
    SplitNone(iv, ':');
  }

  /** Part `i` of a text stands for `data`: it is its encoding, or it is missing and `data` was drawn. */
  predicate StandsFor(parts: seq<string>, i: nat, data: seq<Byte>, draw: nat -> seq<Byte>) {
    if i < |parts| then parts[i] == Encode(data) else data == draw(|data|)
  }

  lemma PartIff(parts: seq<string>, i: nat, data: seq<Byte>, draw: nat -> seq<Byte>)
    ensures PartOrRandom(parts, i, |data|, draw) == Some(data) <==> StandsFor(parts, i, data, draw)
    ensures i < |parts| ==> forall n :: PartOrRandom(parts, i, n, draw) == PartOrRandom(parts, i, |data|, draw)
  {
    if i < |parts| {
      DecodeIff(parts[i], data);
    }
  }

  /** A text is read as `c` exactly when its first part names the cipher, in whatever case, and the next two
      stand for a key and an iv of the right lengths; what follows a third colon is ignored. */
  lemma ParsesTo(text: string, c: Crypto, w: World)
    requires w.Valid()
    ensures var parts := Split(text, ':');
            Parse(text, w) == Ok(c) <==>
              && RightLengths(c) && w.upper(parts[0]) == Name(CipherOf(c.cipher).value)
              && StandsFor(parts, 1, c.key, w.key) && StandsFor(parts, 2, c.iv, w.iv)
  {
    hide StandsFor, Split, Name, CipherNamed, PartOrRandom;
    var parts := Split(text, ':');
    PartIff(parts, 1, c.key, w.key);
    PartIff(parts, 2, c.iv, w.iv);
    if CipherNamed(w.upper(parts[0])).Some? {
      NamedIs(w.upper(parts[0]));
    }
    if RightLengths(c) {
      NameHasNoColon(CipherOf(c.cipher).value);
      NumberOf(c.cipher);
    }
  }

  lemma NumberOf(n: int)
    requires CipherOf(n).Some?
    ensures Number(CipherOf(n).value) == n
  {
  }

  /** Printing and then parsing returns every well-formed value, for every cipher; nothing else comes back. */
  lemma PrintThenParse(c: Crypto, w: World)
    requires w.Valid()
    ensures Print(c).Some? && Parse(Print(c).value, w) == Ok(c) <==> RightLengths(c)
  {
    hide Encode, Decode, Split, Name, Parse;
    if Print(c).Some? {
      PrintedParts(c);
      ParsesTo(Print(c).value, c, w);
    }
  }

  /** What is parsed has the right lengths, whether or not the key and the iv were given. */
  lemma ParsedLengths(text: string, w: World)
    requires w.Valid() && Parse(text, w).Ok?
    ensures RightLengths(Parse(text, w).value)
  {
    hide Decode, Split, Name, CipherNamed;
  }

  /** Parsing and then printing returns the text exactly when it had three parts and a capital name. */
  lemma ParseThenPrint(text: string, w: World)
    requires w.Valid() && Parse(text, w).Ok?
    ensures var parts, c := Split(text, ':'), Parse(text, w).value;
            Print(c) == Some(text) <==> |parts| == 3 && parts[0] == Name(CipherOf(c.cipher).value)
  {
    hide Encode, Decode, Split, Name, Parse, Join;
    var parts, c := Split(text, ':'), Parse(text, w).value;
    ParsedLengths(text, w);
    PrintedParts(c);
    if |parts| == 3 && parts[0] == Name(CipherOf(c.cipher).value) {
      ParsesTo(text, c, w);
      assert parts == [parts[0], parts[1], parts[2]];
      JoinSplit(text, ':');
      JoinSplit(Print(c).value, ':');
    }
  }

  /** Part `i` of a text is given and no encoding. */
  ghost predicate Garbled(parts: seq<string>, i: nat) {
    i < |parts| && forall data :: parts[i] != Encode(data)
  }

  /** Part `i` of a text is given and the encoding of bytes that are not `n`. */
  ghost predicate Misfits(parts: seq<string>, i: nat, n: nat) {
    i < |parts| && exists data :: parts[i] == Encode(data) && |data| != n
  }

  lemma PartFails(parts: seq<string>, i: nat, n: nat, draw: nat -> seq<Byte>)
    requires |draw(n)| == n
    ensures var part := PartOrRandom(parts, i, n, draw);
            && (part.None? <==> Garbled(parts, i))
            && (part.Some? ==> (|part.value| != n <==> Misfits(parts, i, n)))
  {
    hide Encode, Decode;
    if i < |parts| {
      forall data
        ensures Decode(parts[i]) == Some(data) <==> parts[i] == Encode(data)
      {
        DecodeIff(parts[i], data);
      }
      if Decode(parts[i]).Some? {
        assert parts[i] == Encode(Decode(parts[i]).value);
      }
    }
  }

  /** What is wrong with a text that is not read: first comes an unknown name, then a part that is no encoding,
      then a key of the wrong length, and last an iv of the wrong length. */
  lemma ErrorsIff(text: string, w: World)
    requires w.Valid()
    ensures var parts := Split(text, ':');
            match CipherNamed(w.upper(parts[0]))
            case None => Parse(text, w) == Err(InvalidCipher)
            case Some(cipher) =>
              var garbled := Garbled(parts, 1) || Garbled(parts, 2);
              var badKey, badIv := Misfits(parts, 1, KeyLength(cipher)), Misfits(parts, 2, IvLength(cipher));
              && (Parse(text, w) == Err(InvalidBase64) <==> garbled)
              && (Parse(text, w) == Err(InvalidKey) <==> !garbled && badKey)
              && (Parse(text, w) == Err(InvalidIv) <==> !garbled && !badKey && badIv)
              && (Parse(text, w).Ok? <==> !garbled && !badKey && !badIv)
  {
    hide Split, CipherNamed, PartOrRandom, Garbled, Misfits;
    var parts := Split(text, ':');
    match CipherNamed(w.upper(parts[0]))
    case None =>
    case Some(cipher) =>
      PartFails(parts, 1, KeyLength(cipher), w.key);
      PartFails(parts, 2, IvLength(cipher), w.iv);
  }

  // ---- ciphers ----

  /** The cipher algorithms and the seedable generator, as the functions they are. */
  datatype Library = Library(keystream: (Cipher, seq<Byte>, seq<Byte>) -> Keystream, rng: (nat, nat) -> seq<Byte>) {
    ghost predicate Valid() {
      forall seed, n :: |rng(seed, n)| == n
    }
  }

  const SEED_SIZE := 8

  function NoKeystream(): Keystream {
    _ => 0
  }

  function MakeCipher(c: Crypto, lib: Library): Keystream
    requires RightLengths(c)
  {
    var cipher := CipherOf(c.cipher).value;
    if cipher.Plain? then NoKeystream()
    else lib.keystream(cipher, c.key[..KeyLength(cipher)], c.iv[..IvLength(cipher)])
  }

  /** Every cipher but the plain one gets the keystream of its algorithm under the whole key and the whole iv. */
  lemma CipherIs(c: Crypto, lib: Library, cipher: Cipher)
    requires RightLengths(c) && CipherOf(c.cipher) == Some(cipher)
    ensures !cipher.Plain? ==> MakeCipher(c, lib) == lib.keystream(cipher, c.key, c.iv)
    ensures cipher.Plain? ==> forall p :: MakeCipher(c, lib)(p) == 0
  {
    assert c.key[..|c.key|] == c.key && c.iv[..|c.iv|] == c.iv;
  }

  function NextIv(c: Crypto, lib: Library): Crypto
    requires RightLengths(c)
  {
    if c.cipher == Number(Plain) then c else c.(iv := lib.rng(FromBE(c.iv[..SEED_SIZE]), |c.iv|))
  }

  lemma NextLengths(c: Crypto, lib: Library)
    requires RightLengths(c) && lib.Valid()
    ensures RightLengths(NextIv(c, lib))
  {
  }

  /** The parameters of a host after it has opened `k` control streams. */
  ghost function Nth(c: Crypto, lib: Library, k: nat): (r: Crypto)
    requires RightLengths(c) && lib.Valid()
    ensures RightLengths(r)
  {
    if k == 0 then c
    else
      NextLengths(Nth(c, lib, k - 1), lib);
      NextIv(Nth(c, lib, k - 1), lib)
  }

  /** The iv of stream `k`: each is what the generator draws when it is seeded with the first eight bytes of the one
      before. */
  ghost function IvAt(iv: seq<Byte>, lib: Library, k: nat): seq<Byte>
    requires |iv| >= 8 && lib.Valid()
    ensures |IvAt(iv, lib, k)| == |iv|
  {
    if k == 0 then iv else lib.rng(FromBE(IvAt(iv, lib, k - 1)[..8]), |iv|)
  }

  /** Stream `k` of a host is encrypted by its cipher under its key and the iv of stream `k`; with the plain cipher
      nothing is. */
  lemma {:induction false} StreamIs(c: Crypto, lib: Library, k: nat, cipher: Cipher)
    requires RightLengths(c) && lib.Valid() && CipherOf(c.cipher) == Some(cipher)
    ensures Nth(c, lib, k).cipher == c.cipher && Nth(c, lib, k).key == c.key
    ensures !cipher.Plain? ==>
              |c.iv| >= 8 && MakeCipher(Nth(c, lib, k), lib) == lib.keystream(cipher, c.key, IvAt(c.iv, lib, k))
    ensures !cipher.Plain? ==> Nth(c, lib, k).iv == IvAt(c.iv, lib, k)
    ensures cipher.Plain? ==> forall p :: MakeCipher(Nth(c, lib, k), lib)(p) == 0
  {
    hide MakeCipher;
    if k > 0 {
      StreamIs(c, lib, k - 1, cipher);
    }
    CipherIs(Nth(c, lib, k), lib, cipher);
  }

  /** Two hosts encrypt stream `k` alike exactly when their algorithms do under their keys and ivs of that stream. */
  lemma SameStreamIff(c: Crypto, d: Crypto, lib: Library, k: nat)
    requires RightLengths(c) && RightLengths(d) && lib.Valid()
    requires c.cipher != Number(Plain) && d.cipher != Number(Plain)
    ensures |c.iv| >= 8 && |d.iv| >= 8
    ensures MakeCipher(Nth(c, lib, k), lib) == MakeCipher(Nth(d, lib, k), lib)
       <==> lib.keystream(CipherOf(c.cipher).value, c.key, IvAt(c.iv, lib, k))
            == lib.keystream(CipherOf(d.cipher).value, d.key, IvAt(d.iv, lib, k))
  {
    hide MakeCipher, IvAt, Nth;
    StreamIs(c, lib, k, CipherOf(c.cipher).value);
    StreamIs(d, lib, k, CipherOf(d.cipher).value);
  }

  /** A host that opens its control streams one after the other, on consecutive ports, either by
      connecting or by listening. */
  class Host {
    var crypto: Crypto
    var port: nat

    constructor (crypto: Crypto, port: nat)
      ensures this.crypto == crypto && this.port == port
    {
      this.crypto, this.port := crypto, port;
    }

    method OpenStream(lib: Library) returns (ks: Keystream, on: nat)
      requires RightLengths(crypto) && lib.Valid()
      modifies this
      ensures RightLengths(crypto) && crypto == NextIv(old(crypto), lib) && port == old(port) + 1
      ensures ks == MakeCipher(old(crypto), lib) && on == old(port)
      ensures crypto.cipher == old(crypto.cipher) && crypto.key == old(crypto.key)
      ensures var cipher := CipherOf(old(crypto.cipher)).value;
              if cipher.Plain? then crypto.iv == old(crypto.iv) && forall p :: ks(p) == 0
              else && |old(crypto.iv)| >= 8 && ks == lib.keystream(cipher, old(crypto.key), old(crypto.iv))
                   && crypto.iv == lib.rng(FromBE(old(crypto.iv)[..8]), |old(crypto.iv)|)
    {
      CipherIs(crypto, lib, CipherOf(crypto.cipher).value);
      ks, on := MakeCipher(crypto, lib), port;
      NextLengths(crypto, lib);
      if crypto.cipher != Number(Plain) {
        var seed := FromBE(crypto.iv[..SEED_SIZE]);
        crypto := crypto.(iv := lib.rng(seed, |crypto.iv|));
      }
      port := port + 1;
    }

    /** The receiver-to-sender stream and then the sender-to-receiver stream. */
    method OpenStreams(lib: Library) returns (rts: Keystream, str: Keystream, ports: (nat, nat))
      requires RightLengths(crypto) && lib.Valid()
      modifies this
      ensures rts == MakeCipher(old(crypto), lib) && str == MakeCipher(Nth(old(crypto), lib, 1), lib)
      ensures RightLengths(crypto) && crypto == Nth(old(crypto), lib, 2)
      ensures ports == (old(port), old(port) + 1) && port == old(port) + 2
      ensures var cipher, key, iv := CipherOf(old(crypto.cipher)).value, old(crypto.key), old(crypto.iv);
              if cipher.Plain? then forall p :: rts(p) == 0 && str(p) == 0
              else && |iv| >= 8 && rts == lib.keystream(cipher, key, iv)
                   && str == lib.keystream(cipher, key, lib.rng(FromBE(iv[..8]), |iv|))
    {
      var first, second;
      rts, first := OpenStream(lib);
      assert Nth(old(crypto), lib, 1) == NextIv(Nth(old(crypto), lib, 0), lib);
      str, second := OpenStream(lib);
      ports := (first, second);
    }
  }

  /** A host that got its parameters as text opens every control stream with the same keystream as the
      host that printed them, and the plain cipher has the same, zero, keystream on all of them. */
  lemma {:induction false} StreamsAgree(c: Crypto, w: World, lib: Library, k: nat)
    requires RightLengths(c) && w.Valid() && lib.Valid()
    ensures Print(c).Some? && Parse(Print(c).value, w).Ok?
    ensures var d := Parse(Print(c).value, w).value;
            && RightLengths(d) && MakeCipher(Nth(d, lib, k), lib) == MakeCipher(Nth(c, lib, k), lib)
            && Nth(c, lib, k).cipher == c.cipher && Nth(c, lib, k).key == c.key
            && (c.cipher == Number(Plain) ==>
                  Nth(c, lib, k) == c && forall p :: MakeCipher(Nth(d, lib, k), lib)(p) == 0)
            && (c.cipher != Number(Plain) ==>
                  && |c.iv| >= 8
                  && MakeCipher(Nth(d, lib, k), lib)
                     == lib.keystream(CipherOf(c.cipher).value, c.key, IvAt(c.iv, lib, k)))
  {
    hide Parse, Print, MakeCipher;
    PrintThenParse(c, w);
    StreamIs(c, lib, k, CipherOf(c.cipher).value);
    if k > 0 {
      StreamsAgree(c, w, lib, k - 1);
    }
  }
}
