/** The order of strings is the order of their UTF-8 bytes, as the program compares them. */
module ByteOrder {
  import opened Ordering
  import opened Utf8

  /** At place `k` the bytes part for the first time, `a` having the lesser one. */
  predicate PartsBelow(a: seq<Byte>, b: seq<Byte>, k: nat) {
    k < |a| && k < |b| && a[..k] == b[..k] && a[k] < b[k]
  }

  /** `a` is a beginning of `b`, or has the lesser byte where they part. */
  ghost predicate BytesLe(a: seq<Byte>, b: seq<Byte>) {
    a <= b || exists k :: PartsBelow(a, b, k)
  }

  lemma PartsOnce(a: seq<Byte>, b: seq<Byte>, k: nat)
    requires PartsBelow(a, b, k)
    ensures BytesLe(a, b) && !BytesLe(b, a)
  {
    forall i | 0 <= i < k ensures a[i] == b[i] {
      assert a[..k][i] == b[..k][i];
    }
    assert !(b <= a);
    forall j: nat ensures !PartsBelow(b, a, j) {
      if k < j && j <= |a| && j <= |b| {
        assert a[..j][k] == a[k] && b[..j][k] == b[k];
      }
    }
  }

  lemma SamePrefix(p: seq<Byte>, a: seq<Byte>, b: seq<Byte>)
    ensures BytesLe(p + a, p + b) <==> BytesLe(a, b)
  {
    var x, y := p + a, p + b;
    if x <= y {
      assert a == x[|p|..] && b == y[|p|..];
      assert a == b[..|a|];
    }
    if a <= b {
      assert b == a + b[|a|..] && y == x + b[|a|..];
    }
    if k: nat :| PartsBelow(x, y, k) {
      assert k >= |p| by {
        assert forall i :: 0 <= i < |p| ==> x[i] == y[i];
      }
      assert a[..k - |p|] == x[..k][|p|..] && b[..k - |p|] == y[..k][|p|..];
      assert PartsBelow(a, b, k - |p|);
    }
    if k: nat :| PartsBelow(a, b, k) {
      assert x[..|p| + k] == p + a[..k] && y[..|p| + k] == p + b[..k];
      assert PartsBelow(x, y, |p| + k);
    }
  }

  lemma Digits(m: nat, n: nat)
    requires m < n
    ensures m / 0x40 <= n / 0x40
    ensures m / 0x40 == n / 0x40 ==> m % 0x40 < n % 0x40
  {
  }

  /** The first byte tells how many bytes there are, more for greater characters. */
  lemma LeadingByte(c: char)
    ensures var n, x := c as int, EncodeChar(c);
            && |x| == (if n < 0x80 then 1 else if n < 0x800 then 2 else if n < 0x10000 then 3 else 4)
            && (|x| == 1 ==> x[0] < 0x80)
            && (|x| == 2 ==> 0xC0 <= x[0] < 0xE0)
            && (|x| == 3 ==> 0xE0 <= x[0] < 0xF0)
            && (|x| == 4 ==> 0xF0 <= x[0])
  {
  }

  lemma SameLength(c: char, d: char) returns (k: nat)
    requires c < d && |EncodeChar(c)| == |EncodeChar(d)|
    ensures PartsBelow(EncodeChar(c), EncodeChar(d), k)
  {
    var m, n := c as int, d as int;
    SixBits(m);
    SixBits(n);
    Digits(m, n);
    if m / 0x40 < n / 0x40 {
      Digits(m / 0x40, n / 0x40);
      SixBits(m / 0x40);
      SixBits(n / 0x40);
      if m / 0x1000 < n / 0x1000 {
        Digits(m / 0x1000, n / 0x1000);
      }
    }
    var x, y := EncodeChar(c), EncodeChar(d);
    k := if x[0] != y[0] then 0 else if x[1] != y[1] then 1 else if x[2] != y[2] then 2 else 3;
  }

  /** A lesser character has the lesser byte where its encoding parts from the greater's. */
  lemma CharsPart(c: char, d: char) returns (k: nat)
    requires c < d
    ensures PartsBelow(EncodeChar(c), EncodeChar(d), k)
  {
    hide EncodeChar;
    LeadingByte(c);
    LeadingByte(d);
    if |EncodeChar(c)| == |EncodeChar(d)| {
      k := SameLength(c, d);
    } else {
      k := 0;
    }
  }

  lemma PartsInside(a: seq<Byte>, b: seq<Byte>, k: nat, p: seq<Byte>, q: seq<Byte>)
    requires PartsBelow(a, b, k)
    ensures PartsBelow(a + p, b + q, k)
  {
    assert (a + p)[..k] == a[..k] && (b + q)[..k] == b[..k];
  }

  /** Comparing strings character by character is comparing their UTF-8 bytes. */
  lemma {:induction false} StrLeIsByteOrder(s: string, t: string)
    ensures StrLe(s, t) <==> BytesLe(Encode(s), Encode(t))
  {
    hide EncodeChar;
    if s == [] || t == [] {
      assert s != [] ==> |Encode(s)| > 0;
    } else {
      var x, y := EncodeChar(s[0]), EncodeChar(t[0]);
      var p, q := Encode(s[1..]), Encode(t[1..]);
      if s[0] == t[0] {
        SamePrefix(x, p, q);
        StrLeIsByteOrder(s[1..], t[1..]);
      } else if s[0] < t[0] {
        var k := CharsPart(s[0], t[0]);
        PartsInside(x, y, k, p, q);
        PartsOnce(x + p, y + q, k);
      } else {
        var k := CharsPart(t[0], s[0]);
        PartsInside(y, x, k, q, p);
        PartsOnce(y + q, x + p, k);
      }
    }
  }
}
