/** Key strings such as `SK1-9F8K2-7HJX4`: a tag, a version, and the payload with its Fletcher-16
    checksum in grouped base32. */
module KeyFormat {
  import opened Outcomes
  import opened Crockford
  import Decimal
  import Utf8

  // ---------- the checksum ----------

  function Sum(data: seq<Byte>): nat {
    if data == [] then 0 else Sum(data[..|data| - 1]) + data[|data| - 1]
  }

  /** Every byte times its distance from the end, the last counting once. */
  function WeightedSum(data: seq<Byte>): nat {
    if data == [] then 0 else WeightedSum(data[..|data| - 1]) + Sum(data)
  }

  function Fletcher(data: seq<Byte>): (check: seq<Byte>)
    ensures |check| == 2
  {
    [Sum(data) % 255, WeightedSum(data) % 255]
  }

  lemma SumStep(data: seq<Byte>, x: Byte)
    ensures Sum(data + [x]) == Sum(data) + x
    ensures WeightedSum(data + [x]) == WeightedSum(data) + Sum(data) + x
  {
  }

  lemma {:induction false} SumConcat(u: seq<Byte>, v: seq<Byte>)
    ensures Sum(u + v) == Sum(u) + Sum(v)
    ensures WeightedSum(u + v) == WeightedSum(u) + |v| * Sum(u) + WeightedSum(v)
  {
    if v == [] {
      assert u + v == u;
    } else {
      var init, x := v[..|v| - 1], v[|v| - 1];
      SumConcat(u, init);
      SumStep(u + init, x);
      SumStep(init, x);
      assert u + v == (u + init) + [x] && v == init + [x];
      OneMore(|init|, Sum(u));
    }
  }

  lemma OneMore(n: nat, x: nat)
    ensures (n + 1) * x == n * x + x
  {
  }

  lemma FletcherStep(a: nat, b: nat, x: nat)
    ensures (a % 255 + x) % 255 == (a + x) % 255
    ensures (b % 255 + (a + x) % 255) % 255 == (b + a + x) % 255
  {
  }

  /** The two running sums, each kept below 255. */
  method Fletcher16(data: seq<Byte>) returns (check: seq<Byte>)
    ensures check == Fletcher(data)
  {
    var a: nat, b: nat := 0, 0;
    for k := 0 to |data|
      invariant a == Sum(data[..k]) % 255
      invariant b == WeightedSum(data[..k]) % 255
    {
      assert data[..k + 1] == data[..k] + [data[k]];
      SumStep(data[..k], data[k]);
      FletcherStep(Sum(data[..k]), WeightedSum(data[..k]), data[k]);
      a := (a + data[k]) % 255;
      b := (b + a) % 255;
    }
    assert data[..|data|] == data;
    check := [a, b];
  }

  // ---------- keys ----------

  /** What the checksum is taken over. */
  function Tagged(prefix: string, version: Byte, payload: seq<Byte>): seq<Byte> {
    Utf8.Encode(prefix) + [version] + payload
  }

  function Head(prefix: string, version: Byte): string {
    prefix + Decimal.Decimal(version) + "-"
  }

  function Body(prefix: string, version: Byte, payload: seq<Byte>): seq<Byte> {
    payload + Fletcher(Tagged(prefix, version, payload))
  }

  function Key(prefix: string, version: Byte, payload: seq<Byte>): string {
    Head(prefix, version) + Group(Encode(Body(prefix, version, payload)))
  }

  /** The payload of a decoded body whose last two bytes are its checksum. */
  function Verified(prefix: string, version: Byte, body: seq<Byte>): Result<seq<Byte>, FormatError> {
    if |body| < 2 then Err(TooShort)
    else
      var payload := body[..|body| - 2];
      if Fletcher(Tagged(prefix, version, payload)) != body[|body| - 2..] then Err(FormatError.Checksum)
      else Ok(payload)
  }

  function Opened(prefix: string, version: Byte, s: string): Result<seq<Byte>, FormatError> {
    var head := Head(prefix, version);
    if !(head <= s) then Err(KeyPrefix)
    else
      match Decode(s[|head|..])
      case Err(e) => Err(e)
      case Ok(body) => Verified(prefix, version, body)
  }

  method EncodeKey(prefix: string, version: Byte, payload: seq<Byte>) returns (s: string)
    ensures s == Key(prefix, version, payload)
  {
    var check := Fletcher16(Tagged(prefix, version, payload));
    var body := EncodeBytes(payload + check);
    s := Head(prefix, version) + Group(body);
  }

  method DecodeKey(prefix: string, version: Byte, s: string) returns (r: Result<seq<Byte>, FormatError>)
    ensures r == Opened(prefix, version, s)
  {
    var head := Head(prefix, version);
    if !(head <= s) {
      return Err(KeyPrefix);
    }
    var decoded := DecodeText(s[|head|..]);
    if decoded.Err? {
      return Err(decoded.error);
    }
    var body := decoded.value;
    if |body| < 2 {
      return Err(TooShort);
    }
    var payload, check := body[..|body| - 2], body[|body| - 2..];
    var expected := Fletcher16(Tagged(prefix, version, payload));
    if expected != check {
      return Err(FormatError.Checksum);
    }
    r := Ok(payload);
  }

  lemma VerifiedBody(prefix: string, version: Byte, payload: seq<Byte>)
    ensures Verified(prefix, version, Body(prefix, version, payload)) == Ok(payload)
  {
  }

  lemma KeyRoundTrip(prefix: string, version: Byte, payload: seq<Byte>)
    ensures Opened(prefix, version, Key(prefix, version, payload)) == Ok(payload)
  {
    var head := Head(prefix, version);
    var body := Body(prefix, version, payload);
    var text := Group(Encode(body));
    assert (head + text)[|head|..] == text;
    GroupRoundTrip(body);
    VerifiedBody(prefix, version, payload);
  }

  /** The checksum's first byte is the sum, its second the sum weighted by distance from the end, over
      tag, version and payload, each modulo 255; both follow the payload in the key's body. */
  lemma KeyShape(prefix: string, version: Byte, payload: seq<Byte>)
    ensures var key, data := Key(prefix, version, payload), Utf8.Encode(prefix) + [version] + payload;
            var head := prefix + Decimal.Decimal(version) + "-";
            && head <= key
            && key[|head|..] == Group(Encode(payload + [Sum(data) % 255, WeightedSum(data) % 255]))
            && Decode(key[|head|..]) == Ok(payload + [Sum(data) % 255, WeightedSum(data) % 255])
  {
    var head := Head(prefix, version);
    var text := Group(Encode(Body(prefix, version, payload)));
    assert (head + text)[|head|..] == text;
    GroupRoundTrip(Body(prefix, version, payload));
  }

  /** A text opens to a payload exactly when the tag, the version and a hyphen come first and what follows
      decodes to the payload and its checksum; otherwise the first of four things is wrong with it. */
  lemma OpensWhen(prefix: string, version: Byte, s: string, payload: seq<Byte>)
    ensures var head := prefix + Decimal.Decimal(version) + "-";
            var r, data := Opened(prefix, version, s), Utf8.Encode(prefix) + [version] + payload;
            && (r == Err(KeyPrefix) <==> !(head <= s))
            && (head <= s ==>
                  && (r == Ok(payload) <==>
                        Decode(s[|head|..]) == Ok(payload + [Sum(data) % 255, WeightedSum(data) % 255]))
                  && (r == Err(InvalidSymbol) <==> Decode(s[|head|..]).Err?)
                  && (r == Err(TooShort) <==> Decode(s[|head|..]).Ok? && |Decode(s[|head|..]).value| < 2))
  {
    hide Decoded, Symbols, Sum, WeightedSum;
    var head := Head(prefix, version);
    if head <= s && Decode(s[|head|..]).Ok? {
      var body := Decode(s[|head|..]).value;
      if |body| >= 2 {
        assert body == body[..|body| - 2] + body[|body| - 2..];
      }
      var check := Fletcher(Tagged(prefix, version, payload));
      assert (payload + check)[..|payload + check| - 2] == payload && (payload + check)[|payload + check| - 2..] == check;
    }
  }

  // ---------- the wrong tag or version ----------

  predicate HyphenFree(s: string) {
    '-' !in s
  }

  /** With no hyphen in either tag, the head ends at the key's first hyphen. */
  lemma HeadsAgree(p: string, v: Byte, q: string, w: Byte, rest: string)
    requires HyphenFree(p) && HyphenFree(q)
    requires Head(q, w) <= Head(p, v) + rest
    ensures p + Decimal.Decimal(v) == q + Decimal.Decimal(w)
  {
    var a, b := p + Decimal.Decimal(v), q + Decimal.Decimal(w);
    Decimal.DigitsAreDigits(v);
    Decimal.DigitsAreDigits(w);
    assert HyphenFree(a) && HyphenFree(b);
    var s := a + "-" + rest;
    assert s[|a|] == '-' && s[|b|] == '-';
    assert forall k :: 0 <= k < |a| ==> s[k] == a[k];
    assert forall k :: 0 <= k < |b| ==> s[k] == b[k];
    assert a == s[..|a|] && b == s[..|b|];
  }

  lemma ByteDigits(v: Byte)
    ensures v < 10 ==> Decimal.Decimal(v) == [Decimal.Digit(v)]
    ensures 10 <= v < 100 ==> Decimal.Decimal(v) == [Decimal.Digit(v / 10), Decimal.Digit(v % 10)]
    ensures 100 <= v ==>
              Decimal.Decimal(v) ==
              [Decimal.Digit(v / 100), Decimal.Digit(v / 10 % 10), Decimal.Digit(v % 10)]
  {
    if v >= 10 {
      assert Decimal.Digits(v) == Decimal.Digits(v / 10) + [Decimal.Digit(v % 10)];
    }
  }

  lemma AsciiSum(c: char)
    requires c as int < 0x80
    ensures Sum(Utf8.Encode([c])) == c as int
  {
  }

  lemma EncodedSum(s: string, t: string)
    ensures Sum(Utf8.Encode(s + t)) == Sum(Utf8.Encode(s)) + Sum(Utf8.Encode(t))
  {
    Utf8.EncodeConcat(s, t);
    SumConcat(Utf8.Encode(s), Utf8.Encode(t));
  }

  lemma TwoDigitSum(c: char, d: char)
    requires c as int < 0x80 && d as int < 0x80
    ensures Sum(Utf8.Encode([c, d])) == c as int + d as int
  {
    assert [c, d] == [c] + [d];
    EncodedSum([c], [d]);
    AsciiSum(c);
    AsciiSum(d);
  }

  lemma DigitShift(w: Byte)
    ensures 10 <= w < 100 ==> (48 + w / 10 + w % 10 - w) % 255 != 0
    ensures 100 <= w ==> (48 + w / 100 + w % 100 - w) % 255 != 0
    ensures 100 <= w ==> (48 + w / 100 + (48 + w / 10 % 10) + w % 10 - w) % 255 != 0
  {
  }

  lemma SameDigit(a: nat, b: nat)
    requires a < 10 && b < 10 && Decimal.Digit(a) == Decimal.Digit(b)
    ensures a == b
  {
  }

  lemma DigitCode(a: nat)
    requires a < 10
    ensures Decimal.Digit(a) as int == 48 + a
  {
  }

  /** The digits left to the shorter version are the last digits of the longer. */
  lemma SplitVersion(d: string, v: Byte, w: Byte)
    requires d != "" && Decimal.Decimal(w) == d + Decimal.Decimal(v)
    ensures w >= 10
    ensures w < 100 ==> d == [Decimal.Digit(w / 10)] && v == w % 10
    ensures w >= 100 ==> || (d == [Decimal.Digit(w / 100)] && v == w % 100)
                         || (d == [Decimal.Digit(w / 100), Decimal.Digit(w / 10 % 10)] && v == w % 10)
  {
    var t := Decimal.Decimal(v);
    ByteDigits(v);
    ByteDigits(w);
    hide *;
    assert d == (d + t)[..|d|] && t == (d + t)[|d|..];
    if w >= 10 {
      SameDigit(v % 10, w % 10);
      if w >= 100 && v >= 10 {
        SameDigit(v / 10, w / 10 % 10);
      }
    }
  }

  /** Digits moved from the version to the tag change the first checksum byte. */
  lemma MovedDigits(d: string, v: Byte, w: Byte)
    requires d != "" && Decimal.Decimal(w) == d + Decimal.Decimal(v)
    ensures (Sum(Utf8.Encode(d)) + v - w) % 255 != 0
  {
    hide *;
    SplitVersion(d, v, w);
    DigitShift(w);
    if w < 100 {
      DigitCode(w / 10);
      AsciiSum(d[0]);
    } else if |d| == 1 {
      DigitCode(w / 100);
      AsciiSum(d[0]);
    } else {
      DigitCode(w / 100);
      DigitCode(w / 10 % 10);
      TwoDigitSum(d[0], d[1]);
    }
  }

  lemma TaggedSum(p: string, v: Byte, payload: seq<Byte>)
    ensures Sum(Tagged(p, v, payload)) == Sum(Utf8.Encode(p)) + v + Sum(payload)
  {
    SumConcat(Utf8.Encode(p) + [v], payload);
    SumStep(Utf8.Encode(p), v);
  }

  lemma LongerTag(p: string, v: Byte, q: string, w: Byte, payload: seq<Byte>)
    requires p + Decimal.Decimal(v) == q + Decimal.Decimal(w) && |p| > |q|
    ensures Sum(Tagged(p, v, payload)) % 255 != Sum(Tagged(q, w, payload)) % 255
  {
    hide *;
    var d := p[|q|..];
    TagSplits(p, Decimal.Decimal(v), q, Decimal.Decimal(w));
    MovedDigits(d, v, w);
    EncodedSum(q, d);
    TaggedSum(p, v, payload);
    TaggedSum(q, w, payload);
    DifferentRemainders(Sum(Tagged(p, v, payload)), Sum(Tagged(q, w, payload)));
  }

  lemma TagSplits(p: string, s: string, q: string, t: string)
    requires p + s == q + t && |p| > |q|
    ensures p == q + p[|q|..] && t == p[|q|..] + s
  {
    assert q == (p + s)[..|q|] == p[..|q|];
    assert t == (p + s)[|q|..];
  }

  lemma DifferentRemainders(x: int, y: int)
    requires (x - y) % 255 != 0
    ensures x % 255 != y % 255
  {
  }

  /** Between tags without hyphens, a key opens under its own tag and version only. */
  lemma OpensUnderItsOwnHeadOnly(p: string, v: Byte, q: string, w: Byte, payload: seq<Byte>)
    requires HyphenFree(p) && HyphenFree(q)
    ensures Opened(q, w, Key(p, v, payload)).Ok? <==> p == q && v == w
  {
    KeyRoundTrip(p, v, payload);
    var key := Key(p, v, payload);
    if Head(q, w) <= key && !(p == q && v == w) {
      var body := Body(p, v, payload);
      HeadsAgree(p, v, q, w, Group(Encode(body)));
      assert key[|Head(q, w)|..] == Group(Encode(body));
      GroupRoundTrip(body);
      assert body[..|body| - 2] == payload && body[|body| - 2..] == Fletcher(Tagged(p, v, payload));
      if |p| > |q| {
        LongerTag(p, v, q, w, payload);
      } else if |p| < |q| {
        LongerTag(q, w, p, v, payload);
      } else {
        var all := p + Decimal.Decimal(v);
        assert p == all[..|p|] == q && Decimal.Decimal(v) == all[|p|..] == Decimal.Decimal(w);
        Decimal.Injective(v, w);
      }
    }
  }
}
