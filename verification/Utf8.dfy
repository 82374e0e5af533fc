/** Strings as UTF-8 bytes, and back. */
module Utf8 {
  import opened Outcomes

  type Byte = x: nat | x < 256

  function EncodeChar(c: char): (bytes: seq<Byte>)
    ensures 1 <= |bytes| <= 4
  {
    var n := c as int;
    if n < 0x80 then [n]
    else if n < 0x800 then [0xC0 + n / 0x40, 0x80 + n % 0x40]
    else if n < 0x10000 then [0xE0 + n / 0x1000, 0x80 + n / 0x40 % 0x40, 0x80 + n % 0x40]
    else [0xF0 + n / 0x40000, 0x80 + n / 0x1000 % 0x40, 0x80 + n / 0x40 % 0x40, 0x80 + n % 0x40]
  }

  function Encode(s: string): seq<Byte> {
    if s == [] then [] else EncodeChar(s[0]) + Encode(s[1..])
  }

  predicate Continues(bytes: seq<Byte>, k: nat) {
    k < |bytes| && 0x80 <= bytes[k] < 0xC0
  }

  /** The six bits a continuation byte carries. */
  function Tail(bytes: seq<Byte>, k: nat): int
    requires k < |bytes|
  {
    var x: int := bytes[k];
    x - 0x80
  }

  function Lead(bytes: seq<Byte>): int
    requires bytes != []
  {
    bytes[0]
  }

  predicate IsScalar(n: int) {
    0 <= n < 0xD800 || 0xE000 <= n < 0x11_0000
  }

  /** The first character and how many bytes it took; overlong forms, surrogates and values past
      the last scalar are refused. */
  function DecodeChar(bytes: seq<Byte>): (r: Option<(char, nat)>)
    requires bytes != []
    ensures r.Some? ==> 1 <= r.value.1 <= |bytes|
  {
    var x: int := bytes[0];
    if x < 0x80 then Some((x as char, 1))
    else if 0xC0 <= x < 0xE0 && Continues(bytes, 1) then
      var n: int := (x - 0xC0) * 0x40 + Tail(bytes, 1);
      if n < 0x80 then None else Some((n as char, 2))
    else if 0xE0 <= x < 0xF0 && Continues(bytes, 1) && Continues(bytes, 2) then
      var n: int := (x - 0xE0) * 0x1000 + Tail(bytes, 1) * 0x40 + Tail(bytes, 2);
      if n < 0x800 || !IsScalar(n) then None else Some((n as char, 3))
    else if 0xF0 <= x < 0xF8 && Continues(bytes, 1) && Continues(bytes, 2) && Continues(bytes, 3) then
      var n: int :=
        (x - 0xF0) * 0x40000 + Tail(bytes, 1) * 0x1000 + Tail(bytes, 2) * 0x40 + Tail(bytes, 3);
      if n < 0x10000 || !IsScalar(n) then None else Some((n as char, 4))
    else None
  }

  function Decode(bytes: seq<Byte>): Option<string> {
    if bytes == [] then Some([])
    else
      match DecodeChar(bytes)
      case None => None
      case Some((c, n)) =>
        match Decode(bytes[n..])
        case None => None
        case Some(rest) => Some([c] + rest)
  }

  lemma SixBits(n: nat)
    ensures n == n / 0x40 * 0x40 + n % 0x40 && 0 <= n % 0x40 < 0x40
    ensures n / 0x1000 == n / 0x40 / 0x40 && n / 0x40000 == n / 0x1000 / 0x40
  {
  }

  lemma Reassemble(n: nat)
    ensures n / 0x40 * 0x40 + n % 0x40 == n
    ensures n / 0x1000 * 0x1000 + n / 0x40 % 0x40 * 0x40 + n % 0x40 == n
    ensures n / 0x40000 * 0x40000 + n / 0x1000 % 0x40 * 0x1000 + n / 0x40 % 0x40 * 0x40 + n % 0x40 == n
  {
    SixBits(n);
    SixBits(n / 0x40);
    SixBits(n / 0x1000);
  }

  lemma ScalarOf(c: char)
    ensures IsScalar(c as int) && (c as int) as char == c
  {
  }

  lemma PrefixBytes(c: char, rest: seq<Byte>)
    ensures forall i :: 0 <= i < |EncodeChar(c)| ==> (EncodeChar(c) + rest)[i] == EncodeChar(c)[i]
    ensures |EncodeChar(c) + rest| >= |EncodeChar(c)|
  {
  }

  /** The bytes of a character, and the number they carry. */
  lemma ByteForms(c: char)
    ensures var n, x := c as int, EncodeChar(c);
            && (|x| == 1 ==> n < 0x80 && x[0] == n)
            && (|x| == 2 ==>
                  && 0xC0 <= x[0] < 0xE0 && 0x80 <= x[1] < 0xC0
                  && n >= 0x80 && n == (Lead(x) - 0xC0) * 0x40 + Tail(x, 1))
            && (|x| == 3 ==>
                  && 0xE0 <= x[0] < 0xF0 && 0x80 <= x[1] < 0xC0 && 0x80 <= x[2] < 0xC0
                  && n >= 0x800 && n == (Lead(x) - 0xE0) * 0x1000 + Tail(x, 1) * 0x40 + Tail(x, 2))
            && (|x| == 4 ==>
                  && 0xF0 <= x[0] < 0xF8 && 0x80 <= x[1] < 0xC0 && 0x80 <= x[2] < 0xC0 && 0x80 <= x[3] < 0xC0
                  && n >= 0x10000
                  && n == (Lead(x) - 0xF0) * 0x40000 + Tail(x, 1) * 0x1000 + Tail(x, 2) * 0x40 + Tail(x, 3))
  {
    Reassemble(c as int);
    SixBits(c as int);
    SixBits(c as int / 0x40);
    SixBits(c as int / 0x1000);
  }

  lemma CharRoundTrip(c: char, rest: seq<Byte>)
    ensures DecodeChar(EncodeChar(c) + rest) == Some((c, |EncodeChar(c)|))
  {
    hide EncodeChar;
    ScalarOf(c);
    ByteForms(c);
    PrefixBytes(c, rest);
  }

  lemma {:induction false} RoundTrip(s: string)
    ensures Decode(Encode(s)) == Some(s)
  {
    if s != [] {
      CharRoundTrip(s[0], Encode(s[1..]));
      RoundTrip(s[1..]);
      assert (EncodeChar(s[0]) + Encode(s[1..]))[|EncodeChar(s[0])|..] == Encode(s[1..]);
      assert s == [s[0]] + s[1..];
    }
  }

  /** Different strings have different bytes. */
  lemma Injective(s: string, t: string)
    requires Encode(s) == Encode(t)
    ensures s == t
  {
    RoundTrip(s);
    RoundTrip(t);
  }

  lemma {:induction false} EncodeConcat(s: string, t: string)
    ensures Encode(s + t) == Encode(s) + Encode(t)
  {
    if s == [] {
      assert s + t == t;
    } else {
      assert (s + t)[0] == s[0] && (s + t)[1..] == s[1..] + t;
      EncodeConcat(s[1..], t);
    }
  }

  lemma Digit(a: nat, b: nat)
    requires b < 0x40
    ensures (a * 0x40 + b) / 0x40 == a && (a * 0x40 + b) % 0x40 == b
  {
  }

  lemma ThreeDigits(a: nat, b: nat, c: nat)
    requires b < 0x40 && c < 0x40
    ensures var n := a * 0x1000 + b * 0x40 + c;
            n / 0x1000 == a && n / 0x40 % 0x40 == b && n % 0x40 == c && n / 0x40 == a * 0x40 + b
  {
    Digit(a * 0x40 + b, c);
    Digit(a, b);
    SixBits(a * 0x1000 + b * 0x40 + c);
  }

  lemma FourDigits(a: nat, b: nat, c: nat, d: nat)
    requires b < 0x40 && c < 0x40 && d < 0x40
    ensures var n := a * 0x40000 + b * 0x1000 + c * 0x40 + d;
            n / 0x40000 == a && n / 0x1000 % 0x40 == b && n / 0x40 % 0x40 == c && n % 0x40 == d
  {
    Digit((a * 0x40 + b) * 0x40 + c, d);
    ThreeDigits(a, b, c);
    SixBits(a * 0x40000 + b * 0x1000 + c * 0x40 + d);
  }

  lemma TwoStrict(bytes: seq<Byte>)
    requires bytes != [] && DecodeChar(bytes).Some? && DecodeChar(bytes).value.1 == 2
    ensures bytes[..2] == EncodeChar(DecodeChar(bytes).value.0)
  {
    Digit(bytes[0] - 0xC0, bytes[1] - 0x80);
    assert bytes[..2] == [bytes[0], bytes[1]];
  }

  lemma ThreeStrict(bytes: seq<Byte>)
    requires bytes != [] && DecodeChar(bytes).Some? && DecodeChar(bytes).value.1 == 3
    ensures bytes[..3] == EncodeChar(DecodeChar(bytes).value.0)
  {
    ThreeDigits(bytes[0] - 0xE0, bytes[1] - 0x80, bytes[2] - 0x80);
    assert bytes[..3] == [bytes[0], bytes[1], bytes[2]];
  }

  lemma FourStrict(bytes: seq<Byte>)
    requires bytes != [] && DecodeChar(bytes).Some? && DecodeChar(bytes).value.1 == 4
    ensures bytes[..4] == EncodeChar(DecodeChar(bytes).value.0)
  {
    FourDigits(bytes[0] - 0xF0, bytes[1] - 0x80, bytes[2] - 0x80, bytes[3] - 0x80);
    assert bytes[..4] == [bytes[0], bytes[1], bytes[2], bytes[3]];
  }

  lemma CharStrict(bytes: seq<Byte>)
    requires bytes != [] && DecodeChar(bytes).Some?
    ensures var (c, n) := DecodeChar(bytes).value; bytes[..n] == EncodeChar(c)
  {
    var n := DecodeChar(bytes).value.1;
    if n == 2 {
      TwoStrict(bytes);
    } else if n == 3 {
      ThreeStrict(bytes);
    } else if n == 4 {
      FourStrict(bytes);
    } else {
      assert bytes[..1] == [bytes[0]];
    }
  }

  /** Only what encoding gives decodes: no overlong form, no surrogate, nothing past the last scalar. */
  lemma {:induction false} DecodeStrict(bytes: seq<Byte>)
    ensures Decode(bytes).Some? ==> Encode(Decode(bytes).value) == bytes
  {
    hide DecodeChar, EncodeChar;
    if bytes != [] && Decode(bytes).Some? {
      CharStrict(bytes);
      var (c, n) := DecodeChar(bytes).value;
      DecodeStrict(bytes[n..]);
      var s := Decode(bytes).value;
      assert s[0] == c && s[1..] == Decode(bytes[n..]).value;
      assert bytes == bytes[..n] + bytes[n..];
    }
  }
}
