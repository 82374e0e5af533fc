/** Crockford base32: bytes as symbols of five bits, in groups of five characters. */
module Crockford {
  import opened Outcomes
  import opened BitStrings
  import Utf8

  type Byte = Utf8.Byte
  type Symbol = x: nat | x < 32

  const CROCKFORD_ALPHABET := "0123456789ABCDEFGHJKMNPQRSTVWXYZ"

  datatype FormatError = InvalidSymbol | TooShort | KeyPrefix | Checksum

  // ---------- the alphabet ----------

  /** The alphabet's character for a symbol, by the ranges that leave out I, L, O and U. */
  function SymbolChar(v: Symbol): char {
    if v < 10 then ('0' as int + v) as char
    else if v < 18 then ('A' as int + v - 10) as char
    else if v < 20 then ('J' as int + v - 18) as char
    else if v < 22 then ('M' as int + v - 20) as char
    else if v < 27 then ('P' as int + v - 22) as char
    else ('V' as int + v - 27) as char
  }

  function AsciiUpper(c: char): char {
    if 'a' <= c <= 'z' then (c as int - 32) as char else c
  }

  /** Characters outside ASCII occur in a string as bytes of 0x80 and more, none of which is a
      symbol; so reading characters and reading bytes agree. */
  function DecodeSymbol(c: char): Option<Symbol> {
    var u := AsciiUpper(c);
    if u == 'O' then Some(0)
    else if u == 'I' || u == 'L' then Some(1)
    else if '0' <= u <= '9' then Some(u as int - '0' as int)
    else if 'A' <= u <= 'H' then Some(u as int - 'A' as int + 10)
    else if 'J' <= u <= 'K' then Some(u as int - 'J' as int + 18)
    else if 'M' <= u <= 'N' then Some(u as int - 'M' as int + 20)
    else if 'P' <= u <= 'T' then Some(u as int - 'P' as int + 22)
    else if 'V' <= u <= 'Z' then Some(u as int - 'V' as int + 27)
    else None
  }

  /** Every character means its place in the alphabet, whatever its case; `O` means 0, `I` and `L`
      mean 1; nothing else means anything. */
  lemma SymbolTable(c: char, v: Symbol)
    ensures DecodeSymbol(c) == Some(v) <==>
              || AsciiUpper(c) == SymbolChar(v)
              || (v == 0 && AsciiUpper(c) == 'O')
              || (v == 1 && (AsciiUpper(c) == 'I' || AsciiUpper(c) == 'L'))
    ensures DecodeSymbol(SymbolChar(v)) == Some(v) && SymbolChar(v) != '-'
  {
  }

  /** Lower-case letters mean what the upper-case ones mean; `U` and the hyphen mean nothing. */
  lemma EitherCase(c: char)
    ensures 'a' <= c <= 'z' ==> DecodeSymbol(c) == DecodeSymbol((c as int - 32) as char)
    ensures DecodeSymbol('U').None? && DecodeSymbol('u').None? && DecodeSymbol('-').None?
  {
  }

  lemma Alphabet(v: Symbol)
    ensures SymbolChar(v) == CROCKFORD_ALPHABET[v]
  {
  }

  // ---------- what encoding and decoding mean ----------

  /** Bits short of a whole number of symbols. */
  function Padding(n: nat): (p: nat)
    ensures p < 5 && (8 * n + p) % 5 == 0
  {
    (5 - 8 * n % 5) % 5
  }

  function AsSymbols(xs: seq<nat>): (vs: seq<Symbol>)
    requires forall i :: 0 <= i < |xs| ==> xs[i] < Pow2(5)
  {
    Powers();
    xs
  }

  function AsBytes(xs: seq<nat>): (bytes: seq<Byte>)
    requires forall i :: 0 <= i < |xs| ==> xs[i] < Pow2(8)
  {
    Powers();
    xs
  }

  /** The bits of the bytes, and zeros up to a whole symbol, five at a time. */
  function Encoded(data: seq<Byte>): (vs: seq<Symbol>)
    ensures |vs| == (8 * |data| + 4) / 5
  {
    AsSymbols(Pack(Five, Stream(Eight, data) + Zeros(Padding(|data|))))
  }

  /** The bits of the symbols, eight at a time; a last part of a byte is dropped. */
  function Decoded(vs: seq<Symbol>): (bytes: seq<Byte>)
    ensures |bytes| == 5 * |vs| / 8
  {
    AsBytes(Pack(Eight, Stream(Five, vs)))
  }

  function Text(vs: seq<Symbol>): (s: string)
    ensures |s| == |vs|
  {
    if vs == [] then "" else Text(vs[..|vs| - 1]) + [SymbolChar(vs[|vs| - 1])]
  }

  function Encode(data: seq<Byte>): string {
    Text(Encoded(data))
  }

  /** The symbols of a text, hyphens skipped, or nothing when a character is no symbol. */
  function Symbols(s: string): (r: Option<seq<Symbol>>)
    ensures r.Some? ==> |r.value| <= |s|
  {
    if s == [] then Some([])
    else if s[0] == '-' then Symbols(s[1..])
    else
      match DecodeSymbol(s[0])
      case None => None
      case Some(v) =>
        match Symbols(s[1..])
        case None => None
        case Some(rest) => Some([v] + rest)
  }

  function Decode(s: string): Result<seq<Byte>, FormatError> {
    match Symbols(s)
    case None => Err(InvalidSymbol)
    case Some(vs) => Ok(Decoded(vs))
  }

  /** Chunks of five characters, joined by hyphens. */
  function Group(s: string): string {
    if |s| <= 5 then s else s[..5] + "-" + Group(s[5..])
  }

  // ---------- round trips ----------

  /** Symbols encode some bytes exactly when their bits are the bytes' bits and then zeros. */
  lemma EncodedBits(data: seq<Byte>)
    ensures Stream(Five, Encoded(data)) == Stream(Eight, data) + Zeros(Padding(|data|))
  {
    var n := (8 * |data| + Padding(|data|)) / 5;
    StreamPackWhole(Five, Stream(Eight, data) + Zeros(Padding(|data|)), n);
  }

  lemma DecodedEncoded(data: seq<Byte>)
    ensures Decoded(Encoded(data)) == data
  {
    EncodedBits(data);
    Powers();
    PackStream(Eight, data, Zeros(Padding(|data|)));
  }

  function Both(a: Option<seq<Symbol>>, b: Option<seq<Symbol>>): Option<seq<Symbol>> {
    if a.Some? && b.Some? then Some(a.value + b.value) else None
  }

  lemma {:induction false} SymbolsConcat(s: string, t: string)
    ensures Symbols(s + t) == Both(Symbols(s), Symbols(t))
  {
    if s == [] {
      assert s + t == t;
      if Symbols(t).Some? {
        assert [] + Symbols(t).value == Symbols(t).value;
      }
    } else {
      SymbolsConcat(s[1..], t);
      assert (s + t)[0] == s[0] && (s + t)[1..] == s[1..] + t;
      if s[0] != '-' && DecodeSymbol(s[0]).Some? && Symbols(s[1..]).Some? && Symbols(t).Some? {
        Assoc([DecodeSymbol(s[0]).value], Symbols(s[1..]).value, Symbols(t).value);
      }
    }
  }

  function SymbolOf(c: char): Option<seq<Symbol>> {
    if c == '-' then Some([])
    else if DecodeSymbol(c).Some? then Some([DecodeSymbol(c).value])
    else None
  }

  lemma OneSymbol(c: char)
    ensures Symbols([c]) == SymbolOf(c)
  {
    assert [c][1..] == "" && Symbols("") == Some([]);
    if c != '-' && DecodeSymbol(c).Some? {
      assert [DecodeSymbol(c).value] + [] == [DecodeSymbol(c).value];
    }
  }

  lemma {:induction false} SymbolsOfText(vs: seq<Symbol>)
    ensures Symbols(Text(vs)) == Some(vs)
  {
    if vs != [] {
      var init, v := vs[..|vs| - 1], vs[|vs| - 1];
      SymbolsOfText(init);
      SymbolTable(SymbolChar(v), v);
      OneSymbol(SymbolChar(v));
      SymbolsConcat(Text(init), [SymbolChar(v)]);
      assert vs == init + [v];
    }
  }

  lemma HyphenSkipped(s: string)
    ensures Symbols("-" + s) == Symbols(s)
  {
  }

  /** Grouping changes no symbol. */
  lemma {:induction false} SymbolsOfGroup(s: string)
    ensures Symbols(Group(s)) == Symbols(s)
  {
    if |s| > 5 {
      var chunk, rest := s[..5], s[5..];
      SymbolsOfGroup(rest);
      Assoc(chunk, "-", Group(rest));
      SymbolsConcat(chunk, "-" + Group(rest));
      HyphenSkipped(Group(rest));
      SymbolsConcat(chunk, rest);
      assert s == chunk + rest;
    }
  }

  /** Grouping puts a hyphen after every five characters but the last ones, and keeps the characters in
      their order. */
  lemma {:induction false} GroupPlaces(s: string, i: nat)
    requires i < |Group(s)|
    ensures s != "" && |Group(s)| == |s| + (|s| - 1) / 5
    ensures i % 6 == 5 ==> Group(s)[i] == '-'
    ensures i % 6 != 5 ==> i - i / 6 < |s| && Group(s)[i] == s[i - i / 6]
  {
    if |s| > 5 {
      if i >= 6 {
        GroupPlaces(s[5..], i - 6);
        SixLater(i);
      } else {
        GroupPlaces(s[5..], 0);
      }
    }
  }

  lemma SixLater(i: nat)
    requires i >= 6
    ensures (i - 6) % 6 == i % 6 && (i - 6) / 6 == i / 6 - 1
  {
  }

  lemma GroupRoundTrip(data: seq<Byte>)
    ensures Decode(Encode(data)) == Ok(data)
    ensures Decode(Group(Encode(data))) == Ok(data)
  {
    SymbolsOfText(Encoded(data));
    SymbolsOfGroup(Encode(data));
    DecodedEncoded(data);
  }

  // ---------- lengths ----------

  /** How many characters are not hyphens. */
  function NonHyphens(s: string): nat {
    if s == "" then 0 else (if s[0] == '-' then 0 else 1) + NonHyphens(s[1..])
  }

  lemma {:induction false} SymbolCount(s: string)
    ensures Symbols(s).Some? ==> |Symbols(s).value| == NonHyphens(s)
  {
    if s != "" {
      SymbolCount(s[1..]);
    }
  }

  /** `n` bytes take as many characters as hold their bits; `m` symbols give as many bytes as they
      fill. */
  lemma Lengths(data: seq<Byte>, s: string)
    ensures |Encode(data)| == (8 * |data| + 4) / 5
    ensures Decode(s).Ok? ==> |Decode(s).value| == 5 * NonHyphens(s) / 8
  {
    SymbolCount(s);
  }

  // ---------- the two loops ----------

  lemma Appended(w: Width, xs: seq<nat>, x: nat)
    ensures Stream(w, xs + [x]) == Stream(w, xs) + Bits(x, Size(w))
  {
    StreamConcat(w, xs, [x]);
    StreamCons(w, x, []);
    assert [x] + [] == [x];
    assert Bits(x, Size(w)) + [] == Bits(x, Size(w));
  }

  /** What was read is what was written and then the low `bits` bits of the accumulator. */
  ghost predicate Balanced(from: Width, read: seq<nat>, to: Width, written: seq<nat>, acc: nat, bits: nat) {
    Stream(to, written) + Bits(acc, bits) == Stream(from, read)
  }

  /** Shifting a number in loses no live bit. */
  lemma Read(from: Width, read: seq<nat>, to: Width, written: seq<nat>, acc: Word, bits: nat, k: nat, v: nat)
    requires Balanced(from, read, to, written, acc, bits)
    requires k == Size(from) && acc < Pow2(bits) && bits + k <= 12 && v < Pow2(k)
    ensures ShiftLeft(acc, k) + v < Pow2(bits + k) <= 4096
    ensures Balanced(from, read + [v], to, written, ShiftLeft(acc, k) + v, bits + k)
  {
    var next := ShiftLeft(acc, k) + v;
    PowFits(bits + k);
    BitsShiftLeft(acc, bits, k, v);
    Appended(from, read, v);
    Rebalance(Stream(to, written), Bits(acc, bits), Bits(v, k), Bits(next, bits + k));
  }

  lemma Rebalance<T>(written: seq<T>, held: seq<T>, taken: seq<T>, next: seq<T>)
    requires next == held + taken
    ensures written + next == written + held + taken
  {
  }

  /** The top bits held become one more number written. */
  lemma Write(from: Width, read: seq<nat>, to: Width, written: seq<nat>, acc: Word, bits: nat, rest: nat)
    requires Balanced(from, read, to, written, acc, bits) && bits == Size(to) + rest
    ensures Balanced(from, read, to, written + [Low(ShiftRight(acc, rest), Size(to))], acc, rest)
  {
    var v := ShiftRight(acc, rest);
    BitsShiftRight(acc, Size(to), rest);
    BitsLow(v, Size(to));
    Appended(to, written, Low(v, Size(to)));
    Assoc(Stream(to, written), Bits(v, Size(to)), Bits(acc, rest));
  }

  lemma Mask(from: Width, read: seq<nat>, to: Width, written: seq<nat>, acc: Word, bits: nat)
    requires Balanced(from, read, to, written, acc, bits)
    ensures Balanced(from, read, to, written, Low(acc, bits), bits)
  {
    BitsLow(acc, bits);
  }

  lemma PaddingIs(n: nat, m: nat, bits: nat)
    requires 8 * n == 5 * m + bits && bits < 5
    ensures Padding(n) == if bits == 0 then 0 else 5 - bits
  {
  }

  lemma TextAppend(vs: seq<Symbol>, v: Symbol)
    ensures Text(vs + [v]) == Text(vs) + [SymbolChar(v)]
  {
  }

  /** The last bits, moved up over zeros, are the last symbol. */
  lemma Finish(data: seq<Byte>, vs: seq<Symbol>, acc: Word, bits: nat)
    requires Balanced(Eight, data, Five, vs, acc, bits) && acc < Pow2(bits) && bits < 5
    ensures bits == 0 ==> Encode(data) == Text(vs)
    ensures bits > 0 ==> Low(ShiftLeft(acc, 5 - bits), 5) < 32
    ensures bits > 0 ==> Encode(data) == Text(vs) + [SymbolChar(Low(ShiftLeft(acc, 5 - bits), 5))]
  {
    var held := Stream(Five, vs);
    assert |held + Bits(acc, bits)| == 5 * |vs| + bits;
    PaddingIs(|data|, |vs|, bits);
    Powers();
    if bits == 0 {
      assert held == Stream(Eight, data) + Zeros(0);
      PackStream(Five, vs, []);
      assert held + [] == held;
    } else {
      var up := ShiftLeft(acc, 5 - bits);
      BitsShiftLeft(acc, bits, 5 - bits, 0);
      BitsLow(up, 5);
      BitsOfZero(5 - bits);
      var all := vs + [Low(up, 5)];
      Appended(Five, vs, Low(up, 5));
      Assoc(held, Bits(acc, bits), Zeros(5 - bits));
      PackStream(Five, all, []);
      assert Stream(Five, all) + [] == Stream(Five, all);
      TextAppend(vs, Low(up, 5));
    }
  }

  lemma Start(from: Width, to: Width)
    ensures Balanced(from, [], to, [], 0, 0) && 0 < Pow2(0)
    ensures Symbols("") == Some([]) && Text([]) == ""
  {
  }

  lemma EightBits()
    ensures Pow2(8) == 256 && Size(Eight) == 8
  {
  }

  lemma TakeByte(read: seq<Byte>, vs: seq<Symbol>, acc: Word, bits: nat, v: Byte)
    requires Balanced(Eight, read, Five, vs, acc, bits) && acc < Pow2(bits) && bits < 5
    ensures ShiftLeft(acc, 8) + v <= 4095
    ensures Balanced(Eight, read + [v], Five, vs, ShiftLeft(acc, 8) + v, bits + 8)
  {
    hide *;
    EightBits();
    Read(Eight, read, Five, vs, acc, bits, 8, v);
  }

  lemma WriteSymbol(read: seq<Byte>, vs: seq<Symbol>, acc: Word, bits: nat)
    requires Balanced(Eight, read, Five, vs, acc, bits) && bits >= 5
    ensures Low(ShiftRight(acc, bits - 5), 5) < 32
    ensures Balanced(Eight, read, Five, vs + [Low(ShiftRight(acc, bits - 5), 5)], acc, bits - 5)
  {
    Powers();
    Write(Eight, read, Five, vs, acc, bits, bits - 5);
  }

  /** Base32 by a 16-bit accumulator: `acc` holds `bits` bits not yet written. */
  method EncodeBytes(data: seq<Byte>) returns (out: string)
    ensures out == Encode(data)
  {
    hide *;
    Start(Eight, Five);
    out := "";
    var acc: Word, bits: nat := 0, 0;
    ghost var vs: seq<Symbol> := [];
    assert data[..0] == [];
    for k := 0 to |data|
      invariant bits < 5 && acc < Pow2(bits)
      invariant out == Text(vs)
      invariant Balanced(Eight, data[..k], Five, vs, acc, bits)
    {
      ghost var read := data[..k] + [data[k]];
      assert data[..k + 1] == read;
      TakeByte(data[..k], vs, acc, bits, data[k]);
      acc := ShiftLeft(acc, 8) + data[k];
      bits := bits + 8;
      while bits >= 5
        invariant bits <= 12
        invariant out == Text(vs)
        invariant Balanced(Eight, read, Five, vs, acc, bits)
      {
        WriteSymbol(read, vs, acc, bits);
        bits := bits - 5;
        var idx := Low(ShiftRight(acc, bits), 5);
        out := out + [SymbolChar(idx)];
        TextAppend(vs, idx);
        vs := vs + [idx];
      }
      Mask(Eight, read, Five, vs, acc, bits);
      acc := Low(acc, bits);
    }
    assert data[..|data|] == data;
    Finish(data, vs, acc, bits);
    if bits > 0 {
      var idx := Low(ShiftLeft(acc, 5 - bits), 5);
      out := out + [SymbolChar(idx)];
    }
  }

  /** What reading the next character does to the symbols read so far. */
  lemma NextCharacter(s: string, k: nat, vs: seq<Symbol>)
    requires k < |s| && Symbols(s[..k]) == Some(vs)
    ensures s[k] == '-' ==> Symbols(s[..k + 1]) == Some(vs)
    ensures s[k] != '-' && DecodeSymbol(s[k]).None? ==> Decode(s) == Err(InvalidSymbol)
    ensures s[k] != '-' && DecodeSymbol(s[k]).Some? ==>
              Symbols(s[..k + 1]) == Some(vs + [DecodeSymbol(s[k]).value])
  {
    var c := [s[k]];
    OneSymbol(s[k]);
    assert s[..k + 1] == s[..k] + c;
    SymbolsConcat(s[..k], c);
    assert s == s[..k + 1] + s[k + 1..];
    SymbolsConcat(s[..k + 1], s[k + 1..]);
    assert vs + [] == vs;
  }

  lemma Complete(s: string, vs: seq<Symbol>, out: seq<Byte>, acc: Word, bits: nat)
    requires Balanced(Five, vs, Eight, out, acc, bits) && bits < 8
    requires Symbols(s) == Some(vs)
    ensures Decode(s) == Ok(out)
  {
    Powers();
    PackStream(Eight, out, Bits(acc, bits));
  }

  /** One symbol taken in, and a byte written once there are eight bits. */
  lemma TakeSymbol(vs: seq<Symbol>, out: seq<Byte>, acc: Word, bits: nat, v: Symbol, next: nat)
    requires Balanced(Five, vs, Eight, out, acc, bits) && acc < Pow2(bits) && bits < 8
    requires next == ShiftLeft(acc, 5) + v
    ensures next < Pow2(bits + 5) <= 4096
    ensures Balanced(Five, vs + [v], Eight, out, next, bits + 5)
    ensures bits >= 3 ==> ShiftRight(next, bits - 3) < 256
    ensures bits >= 3 ==>
              Balanced(Five, vs + [v], Eight, out + [ShiftRight(next, bits - 3)], Low(next, bits - 3), bits - 3)
  {
    Powers();
    Read(Five, vs, Eight, out, acc, bits, 5, v);
    if bits >= 3 {
      ShiftRightSmall(next, 8, bits - 3);
      BitsLow(ShiftRight(next, bits - 3), 8);
      ValueBits(ShiftRight(next, bits - 3), 8);
      ValueBits(Low(ShiftRight(next, bits - 3), 8), 8);
      Write(Five, vs + [v], Eight, out, next, bits + 5, bits - 3);
      Mask(Five, vs + [v], Eight, out + [ShiftRight(next, bits - 3)], next, bits - 3);
    }
  }

  method DecodeText(s: string) returns (r: Result<seq<Byte>, FormatError>)
    ensures r == Decode(s)
  {
    hide *;
    Start(Five, Eight);
    var out: seq<Byte> := [];
    var acc: Word, bits: nat := 0, 0;
    ghost var vs: seq<Symbol> := [];
    assert s[..0] == [];
    for k := 0 to |s|
      invariant bits < 8 && acc < Pow2(bits)
      invariant Symbols(s[..k]) == Some(vs)
      invariant Balanced(Five, vs, Eight, out, acc, bits)
    {
      NextCharacter(s, k, vs);
      if s[k] == '-' {
        continue;
      }
      var v := DecodeSymbol(s[k]);
      if v.None? {
        return Err(InvalidSymbol);
      }
      TakeSymbol(vs, out, acc, bits, v.value, ShiftLeft(acc, 5) + v.value);
      vs := vs + [v.value];
      acc := ShiftLeft(acc, 5) + v.value;
      bits := bits + 5;
      if bits >= 8 {
        bits := bits - 8;
        out := out + [ShiftRight(acc, bits)];
        acc := Low(acc, bits);
      }
    }
    assert s[..|s|] == s;
    Complete(s, vs, out, acc, bits);
    r := Ok(out);
  }
}
