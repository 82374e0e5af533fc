/** One wrong character in a key string is either harmless or noticed. */
module KeyErrors {
  import opened Outcomes
  import opened BitStrings
  import opened Crockford
  import opened KeyFormat

  // ---------- from a character to a symbol ----------

  lemma SymbolsAround(before: string, c: char, after: string)
    ensures Symbols(before + [c] + after) == Both(Both(Symbols(before), SymbolOf(c)), Symbols(after))
  {
    hide *;
    SymbolsConcat(before + [c], after);
    SymbolsConcat(before, [c]);
    OneSymbol(c);
  }

  lemma UpdateMiddle<T>(us: seq<T>, x: T, y: T, ws: seq<T>)
    ensures (us + [x] + ws)[|us| := y] == us + [y] + ws
  {
  }

  /** Replacing a character that is no hyphen replaces one symbol, or makes the text unreadable. */
  lemma SymbolReplaced(s: string, j: nat, c: char, vs: seq<Symbol>) returns (i: nat)
    requires j < |s| && s[j] != '-' && c != '-' && Symbols(s) == Some(vs)
    ensures i < |vs|
    ensures Symbols(s[j := c]) ==
            if DecodeSymbol(c).Some? then Some(vs[i := DecodeSymbol(c).value]) else None
  {
    hide DecodeSymbol;
    hide Symbols;
    var before, after := s[..j], s[j + 1..];
    assert s == before + [s[j]] + after && s[j := c] == before + [c] + after;
    SymbolsAround(before, s[j], after);
    SymbolsAround(before, c, after);
    var us, ws := Symbols(before).value, Symbols(after).value;
    i := |us|;
    if DecodeSymbol(c).Some? {
      UpdateMiddle(us, DecodeSymbol(s[j]).value, DecodeSymbol(c).value, ws);
    }
  }

  // ---------- from a symbol to two bytes ----------

  lemma {:induction false} PackAt(w: Width, bits: seq<bool>, q: nat)
    requires q < |Pack(w, bits)|
    ensures Times(w, q) + Size(w) <= |bits|
    ensures Pack(w, bits)[q] == Value(bits[Times(w, q)..Times(w, q) + Size(w)])
  {
    if q > 0 {
      var rest := bits[Size(w)..];
      PackAt(w, rest, q - 1);
      var at := Times(w, q - 1);
      assert rest[at..at + Size(w)] == bits[at + Size(w)..at + Size(w) + Size(w)];
    }
  }

  lemma Around<T>(xs: seq<T>, i: nat)
    requires i < |xs|
    ensures xs == xs[..i] + [xs[i]] + xs[i + 1..]
  {
  }

  lemma StreamAt(xs: seq<nat>, i: nat)
    requires i < |xs|
    ensures Stream(Five, xs) == Stream(Five, xs[..i]) + Bits(xs[i], 5) + Stream(Five, xs[i + 1..])
  {
    hide *;
    FiveBits();
    Around(xs, i);
    var before, after := xs[..i], xs[i + 1..];
    var bits := Bits(xs[i], 5);
    assert Stream(Five, before + [xs[i]]) == Stream(Five, before) + bits by {
      Appended(Five, before, xs[i]);
    }
    assert Stream(Five, before + [xs[i]] + after) == Stream(Five, before + [xs[i]]) + Stream(Five, after) by {
      StreamConcat(Five, before + [xs[i]], after);
    }
  }

  lemma FiveBits()
    ensures Size(Five) == 5 && Size(Eight) == 8 && Pow2(5) == 32
  {
  }

  /** Outside its own five bits, replacing a symbol changes no bit. */
  lemma BitsReplaced(vs: seq<Symbol>, i: nat, v: Symbol)
    requires i < |vs|
    ensures |Stream(Five, vs[i := v])| == |Stream(Five, vs)| == 5 * |vs|
    ensures Stream(Five, vs[i := v])[..5 * i] == Stream(Five, vs)[..5 * i]
    ensures Stream(Five, vs[i := v])[5 * i + 5..] == Stream(Five, vs)[5 * i + 5..]
    ensures Stream(Five, vs)[5 * i..5 * i + 5] == Bits(vs[i], 5)
    ensures Stream(Five, vs[i := v])[5 * i..5 * i + 5] == Bits(v, 5)
  {
    var us := vs[i := v];
    StreamAt(vs, i);
    StreamAt(us, i);
    assert us[..i] == vs[..i] && us[i + 1..] == vs[i + 1..];
  }

  /** Two windows that agree outside a middle part differ by the middle's difference, moved up. */
  lemma PartChange(pre: seq<bool>, mid: seq<bool>, mid2: seq<bool>, post: seq<bool>)
    requires |mid| == |mid2|
    ensures Value(pre + mid2 + post) - Value(pre + mid + post) == (Value(mid2) - Value(mid)) * Pow2(|post|)
  {
    hide *;
    ValueConcat(pre + mid, post);
    ValueConcat(pre, mid);
    ValueConcat(pre + mid2, post);
    ValueConcat(pre, mid2);
    Moved(Value(pre) * Pow2(|mid|), Value(mid), Value(mid2), Pow2(|post|), Value(post));
  }

  lemma Moved(a: int, x: int, y: int, p: int, c: int)
    ensures ((a + y) * p + c) - ((a + x) * p + c) == (y - x) * p
  {
  }

  /** Both strings have the same bits except from `a` to `b`. */
  ghost predicate AgreeOutside(s: seq<bool>, t: seq<bool>, a: nat, b: nat) {
    && a <= b <= |s| && |s| == |t|
    && s[..a] == t[..a] && s[b..] == t[b..]
  }

  lemma SliceAgrees(s: seq<bool>, t: seq<bool>, a: nat, b: nat, from: nat, to: nat)
    requires AgreeOutside(s, t, a, b) && from <= to <= |s| && (to <= a || b <= from)
    ensures |s| == |t| && s[from..to] == t[from..to]
  {
    assert forall k :: 0 <= k < a ==> s[k] == s[..a][k] == t[k];
    assert forall k :: b <= k < |s| ==> s[k] == s[b..][k - b] == t[b..][k - b] == t[k];
  }

  lemma WindowChange(s: seq<bool>, t: seq<bool>, lo: nat, a: nat, b: nat)
    requires |s| == |t| && lo <= a <= b <= lo + 8 <= |s|
    requires s[lo..a] == t[lo..a] && s[b..lo + 8] == t[b..lo + 8]
    ensures Value(t[lo..lo + 8]) - Value(s[lo..lo + 8])
         == (Value(t[a..b]) - Value(s[a..b])) * Pow2(lo + 8 - b)
  {
    assert s[lo..lo + 8] == s[lo..a] + s[a..b] + s[b..lo + 8];
    assert t[lo..lo + 8] == t[lo..a] + t[a..b] + t[b..lo + 8];
    PartChange(s[lo..a], s[a..b], t[a..b], s[b..lo + 8]);
  }

  /** Changes of two neighbouring bytes that neither sum can miss. */
  predicate Noticeable(d: int, e: int) {
    && -255 < d < 255
    && -255 < d + e < 255
    && (d + e == 0 ==> d == 0 && e == 0)
  }

  lemma WholeSymbol(x: Symbol, y: Symbol, k: nat)
    requires k <= 3
    ensures Noticeable((y - x) * Pow2(k), 0)
  {
  }

  /** A symbol across two bytes: its high bits end the first, its low bits begin the second. */
  lemma SplitSymbol(p: nat, h: int, l: int)
    requires 1 <= p <= 4
    requires 0 - Pow2(p) < h < Pow2(p) && 0 - Pow2(5 - p) < l < Pow2(5 - p)
    ensures Noticeable(h, l * Pow2(3 + p)) && Noticeable(h, 0)
  {
    Powers();
    assert p == 1 || p == 2 || p == 3 || p == 4;
  }

  function Change(was: seq<Byte>, now: seq<Byte>, k: nat): int
    requires k < |was| == |now|
  {
    var x: int, y: int := was[k], now[k];
    y - x
  }

  /** What replacing symbol `i` by `v` does to the decoded bytes: only the byte it begins in and the
      next can change, and not by amounts that cancel. */
  ghost predicate TwoBytesChange(was: seq<Byte>, now: seq<Byte>, q: nat) {
    && |was| == |now|
    && (forall k :: 0 <= k < |was| && k != q && k != q + 1 ==> now[k] == was[k])
    && (q < |was| ==> Noticeable(Change(was, now, q), 0))
    && (q + 1 < |was| ==> Noticeable(Change(was, now, q), Change(was, now, q + 1)))
  }

  lemma DecodedAt(vs: seq<Symbol>, k: nat)
    requires k < |Decoded(vs)|
    ensures 8 * k + 8 <= |Stream(Five, vs)|
    ensures Decoded(vs)[k] == Value(Stream(Five, vs)[8 * k..8 * k + 8])
  {
    PackAt(Eight, Stream(Five, vs), k);
  }

  /** A symbol within one byte. */
  lemma OneByte(s: seq<bool>, t: seq<bool>, lo: nat, a: nat, b: nat, x: Symbol, y: Symbol)
    requires b == a + 5 && AgreeOutside(s, t, a, b) && lo <= a && b <= lo + 8 <= |s|
    requires s[a..b] == Bits(x, 5) && t[a..b] == Bits(y, 5)
    ensures Noticeable(Value(t[lo..lo + 8]) - Value(s[lo..lo + 8]), 0)
  {
    hide *;
    SymbolValue(x);
    SymbolValue(y);
    SliceAgrees(s, t, a, b, lo, a);
    SliceAgrees(s, t, a, b, b, lo + 8);
    WindowChange(s, t, lo, a, b);
    WholeSymbol(x, y, lo + 8 - b);
  }

  lemma SymbolValue(x: Symbol)
    ensures Value(Bits(x, 5)) == x
  {
    Powers();
    ValueBits(x, 5);
  }

  /** A symbol across the edge between two bytes: the part before the edge. */
  lemma HighPart(s: seq<bool>, t: seq<bool>, lo: nat, a: nat, edge: nat, b: nat)
    requires AgreeOutside(s, t, a, b) && lo <= a <= edge <= b && edge == lo + 8 <= |s|
    ensures Value(t[lo..lo + 8]) - Value(s[lo..lo + 8]) == Value(t[a..edge]) - Value(s[a..edge])
  {
    hide *;
    SliceAgrees(s, t, a, b, lo, a);
    assert edge <= |t| by {
      SliceAgrees(s, t, a, b, 0, 0);
    }
    assert s[edge..lo + 8] == t[edge..lo + 8];
    WindowChange(s, t, lo, a, edge);
    NoShift();
    assert lo + 8 - edge == 0;
  }

  /** The part after it. */
  lemma LowPart(s: seq<bool>, t: seq<bool>, a: nat, edge: nat, b: nat, k: nat)
    requires AgreeOutside(s, t, a, b) && a <= edge <= b <= edge + 8 <= |s| && k == edge + 8 - b
    ensures |s| == |t|
    ensures Value(t[edge..edge + 8]) - Value(s[edge..edge + 8])
         == (Value(t[edge..b]) - Value(s[edge..b])) * Pow2(k)
  {
    hide *;
    SliceAgrees(s, t, a, b, b, edge + 8);
    WindowChange(s, t, edge, edge, b);
  }

  lemma ValueBound(s: seq<bool>, t: seq<bool>, k: nat)
    requires |s| == |t| == k
    ensures 0 - Pow2(k) < Value(t) - Value(s) < Pow2(k)
  {
  }

  lemma BothBytes(s: seq<bool>, t: seq<bool>, lo: nat, a: nat, edge: nat, b: nat)
    requires |s| == |t| && b == a + 5 && AgreeOutside(s, t, a, b) && b <= |s|
    requires lo <= a < edge < b && edge == lo + 8
    ensures Noticeable(Value(t[lo..edge]) - Value(s[lo..edge]), 0)
    ensures edge + 8 <= |s| ==>
              Noticeable(Value(t[lo..edge]) - Value(s[lo..edge]),
                         Value(t[edge..edge + 8]) - Value(s[edge..edge + 8]))
  {
    hide *;
    var p := edge - a;
    var h := Value(t[a..edge]) - Value(s[a..edge]);
    HighPart(s, t, lo, a, edge, b);
    ValueBound(s[a..edge], t[a..edge], p);
    var l := Value(t[edge..b]) - Value(s[edge..b]);
    ValueBound(s[edge..b], t[edge..b], 5 - p);
    SplitSymbol(p, h, l);
    if edge + 8 <= |s| {
      LowPart(s, t, a, edge, b, 3 + p);
    }
  }

  lemma NoShift()
    ensures Pow2(0) == 1
  {
  }

  lemma SymbolChangesTwoBytes(vs: seq<Symbol>, i: nat, v: Symbol)
    requires i < |vs|
    ensures TwoBytesChange(Decoded(vs), Decoded(vs[i := v]), 5 * i / 8)
  {
    hide Stream, Decoded, Value, Bits, Noticeable, Pow2;
    var us := vs[i := v];
    var s, t, a, q := Stream(Five, vs), Stream(Five, us), 5 * i, 5 * i / 8;
    BitsReplaced(vs, i, v);
    var was, now := Decoded(vs), Decoded(us);
    forall k | 0 <= k < |was| && k != q && k != q + 1
      ensures now[k] == was[k]
    {
      DecodedAt(vs, k);
      DecodedAt(us, k);
      SliceAgrees(s, t, a, a + 5, 8 * k, 8 * k + 8);
    }
    if q < |was| {
      DecodedAt(vs, q);
      DecodedAt(us, q);
      if a + 5 <= 8 * q + 8 {
        OneByte(s, t, 8 * q, a, a + 5, vs[i], v);
        if q + 1 < |was| {
          DecodedAt(vs, q + 1);
          SliceAgrees(s, t, a, a + 5, 8 * q + 8, 8 * q + 16);
        }
      } else {
        BothBytes(s, t, 8 * q, a, 8 * q + 8, a + 5);
      }
    }
    if q + 1 < |was| {
      DecodedAt(vs, q + 1);
      DecodedAt(us, q + 1);
    }
  }

  // ---------- from two bytes to the checksum ----------

  /** A body damaged in one symbol is refused, unless its payload is whole. */
  lemma DamageNoticed(prefix: string, version: Byte, payload: seq<Byte>, now: seq<Byte>, q: nat)
    requires TwoBytesChange(Body(prefix, version, payload), now, q)
    ensures Verified(prefix, version, now).Ok? ==> Verified(prefix, version, now) == Ok(payload)
  {
    var was := Body(prefix, version, payload);
    var n := |payload|;
    var found := now[..n];
    assert was[..n] == payload && was[n] == Fletcher(Tagged(prefix, version, payload))[0];
    assert was[n + 1] == Fletcher(Tagged(prefix, version, payload))[1];
    assert forall k :: 0 <= k < n && k != q && k != q + 1 ==> found[k] == payload[k];
    if Verified(prefix, version, now).Ok? {
      assert now[n..] == Fletcher(Tagged(prefix, version, found));
      assert now[n] == Fletcher(Tagged(prefix, version, found))[0];
      assert now[n + 1] == Fletcher(Tagged(prefix, version, found))[1];
      if q >= n {
        assert found == payload;
      } else if q + 1 == n {
        LastByteNoticed(prefix, version, payload, found);
      } else {
        PairNoticed(prefix, version, payload, found, q);
      }
    }
  }

  lemma SameRemainder(x: int, y: int)
    requires x % 255 == y % 255 && -255 < y - x < 255
    ensures x == y
  {
  }

  lemma LastByte(u: seq<Byte>, x: Byte, y: Byte)
    requires -255 < y as int - x < 255
    requires WeightedSum(u + [x]) % 255 == WeightedSum(u + [y]) % 255
    ensures x == y
  {
  }

  lemma TaggedAppend(prefix: string, version: Byte, payload: seq<Byte>, x: Byte)
    ensures Tagged(prefix, version, payload + [x]) == Tagged(prefix, version, payload) + [x]
  {
  }

  /** The last byte counts once in the second sum. */
  lemma LastByteNoticed(prefix: string, version: Byte, was: seq<Byte>, now: seq<Byte>)
    requires |was| == |now| > 0 && was[..|was| - 1] == now[..|was| - 1]
    requires -255 < Change(was, now, |was| - 1) < 255
    requires WeightedSum(Tagged(prefix, version, was)) % 255 == WeightedSum(Tagged(prefix, version, now)) % 255
    ensures was == now
  {
    hide Tagged, WeightedSum;
    var n := |was| - 1;
    var same := was[..n];
    assert was == same + [was[n]] && now == same + [now[n]];
    TaggedAppend(prefix, version, same, was[n]);
    TaggedAppend(prefix, version, same, now[n]);
    LastByte(Tagged(prefix, version, same), was[n], now[n]);
  }

  lemma PairSum(u: seq<Byte>, x: Byte, y: Byte, v: seq<Byte>)
    ensures Sum(u + [x] + [y] + v) == Sum(u) + x + y + Sum(v)
  {
    SumConcat(u + [x] + [y], v);
    SumStep(u + [x], y);
    SumStep(u, x);
  }

  /** Two changes that do not cancel show in the first sum. */
  lemma PairNoticed(prefix: string, version: Byte, was: seq<Byte>, now: seq<Byte>, q: nat)
    requires |was| == |now| && q + 1 < |was|
    requires forall k :: 0 <= k < |was| && k != q && k != q + 1 ==> now[k] == was[k]
    requires Noticeable(Change(was, now, q), Change(was, now, q + 1))
    requires Sum(Tagged(prefix, version, was)) % 255 == Sum(Tagged(prefix, version, now)) % 255
    ensures was == now
  {
    var u, v := was[..q], was[q + 2..];
    assert was == u + [was[q]] + [was[q + 1]] + v && now == u + [now[q]] + [now[q + 1]] + v;
    PairSum(u, was[q], was[q + 1], v);
    PairSum(u, now[q], now[q + 1], v);
    TaggedSum(prefix, version, was);
    TaggedSum(prefix, version, now);
    SameRemainder(Sum(Tagged(prefix, version, was)), Sum(Tagged(prefix, version, now)));
  }

  // ---------- the main result ----------

  /** Where a key's body begins. */
  function BodyStart(prefix: string, version: Byte): nat {
    |Head(prefix, version)|
  }

  /** Replace any one symbol of a key's body by any character but a hyphen: reading the key fails,
      or gives the payload that was written. */
  lemma OneWrongSymbol(prefix: string, version: Byte, payload: seq<Byte>, j: nat, c: char)
    requires BodyStart(prefix, version) <= j < |Key(prefix, version, payload)|
    requires Key(prefix, version, payload)[j] != '-' && c != '-'
    ensures var r := Opened(prefix, version, Key(prefix, version, payload)[j := c]);
            r.Ok? ==> r == Ok(payload)
  {
    var head, body := Head(prefix, version), Body(prefix, version, payload);
    var text := Group(Encode(body));
    var at := j - |head|;
    var key := head + text;
    assert key[j := c] == head + text[at := c] && key[j] == text[at];
    assert (head + text[at := c])[|head|..] == text[at := c];
    var vs := Encoded(body);
    SymbolsOfText(vs);
    SymbolsOfGroup(Encode(body));
    var i := SymbolReplaced(text, at, c, vs);
    if DecodeSymbol(c).Some? {
      var v := DecodeSymbol(c).value;
      DecodedEncoded(body);
      SymbolChangesTwoBytes(vs, i, v);
      DamageNoticed(prefix, version, payload, Decoded(vs[i := v]), 5 * i / 8);
    }
  }
}
