/** Why key tags must hold no hyphen: a key of one tag and version that opens under another. */
module HyphenatedTags {
  import opened BitStrings
  import opened Crockford
  import opened KeyFormat
  import opened Outcomes
  import Decimal
  import Utf8

  lemma {:induction false} AsciiBytes(s: string)
    requires forall k :: 0 <= k < |s| ==> s[k] as int < 0x80
    ensures |Utf8.Encode(s)| == |s| && forall k :: 0 <= k < |s| ==> Utf8.Encode(s)[k] == s[k] as int
  {
    if s != "" {
      AsciiBytes(s[1..]);
      assert Utf8.EncodeChar(s[0]) == [s[0] as int];
    }
  }

  const HYPHENATED := "SK1-" + "--00" + ("0OOO" + "-o-")

  lemma Four(a: Byte, b: Byte, c: Byte, d: Byte)
    ensures Sum([a, b, c, d]) == a + b + c + d
    ensures WeightedSum([a, b, c, d]) == 4 * a + 3 * b + 2 * c + d
  {
    SumEmpty();
    hide *;
    assert [] + [a] == [a] && [a] + [b] == [a, b] && [a, b] + [c] == [a, b, c] && [a, b, c] + [d] == [a, b, c, d];
    SumStep([], a);
    SumStep([a], b);
    SumStep([a, b], c);
    SumStep([a, b, c], d);
  }

  lemma SumEmpty()
    ensures Sum([]) == 0 && WeightedSum([]) == 0
  {
  }

  lemma PairOfFours(u: seq<Byte>, v: seq<Byte>)
    requires |u| == |v| == 4
    ensures Sum(u + v) == Sum(u) + Sum(v)
    ensures WeightedSum(u + v) == WeightedSum(u) + 4 * Sum(u) + WeightedSum(v)
  {
    hide *;
    SumConcat(u, v);
  }

  const FIVE_ZEROS: seq<Byte> := [0, 0, 0, 0, 0]

  lemma FourBytes(s: string)
    requires |s| == 4 && forall k :: 0 <= k < 4 ==> s[k] as int < 0x80
    ensures Utf8.Encode(s) == [s[0] as int, s[1] as int, s[2] as int, s[3] as int]
  {
    AsciiBytes(s);
    assert |Utf8.Encode(s)| == 4;
  }

  lemma LastBytes()
    ensures Utf8.Encode("-o-") == [45, 111, 45]
  {
  }

  lemma HyphenatedBytes()
    ensures Tagged(HYPHENATED, 0, []) == [83, 75, 49, 45] + [45, 45, 48, 48] + ([48, 79, 79, 79] + [45, 111, 45, 0])
  {
    FourBytes("SK1-");
    FourBytes("--00");
    FourBytes("0OOO");
    LastBytes();
    hide *;
    Utf8.EncodeConcat("SK1-" + "--00", "0OOO" + "-o-");
    Utf8.EncodeConcat("SK1-", "--00");
    Utf8.EncodeConcat("0OOO", "-o-");
    TaggedIs(HYPHENATED);
    assert [45, 111, 45] + [0] == [45, 111, 45, 0];
    var a: seq<Byte>, c: seq<Byte> := [83, 75, 49, 45] + [45, 45, 48, 48], [48, 79, 79, 79];
    assert a + (c + [45, 111, 45]) + [0] == a + (c + ([45, 111, 45] + [0]));
  }

  lemma TaggedIs(prefix: string)
    ensures Tagged(prefix, 0, []) == Utf8.Encode(prefix) + [0]
  {
  }

  lemma PlainBytes()
    ensures Tagged("SK", 1, FIVE_ZEROS) == [83, 75, 1, 0] + [0, 0, 0, 0]
  {
  }

  lemma HyphenatedSums()
    ensures Fletcher(Tagged(HYPHENATED, 0, [])) == Fletcher(Tagged("SK", 1, FIVE_ZEROS))
  {
    hide Sum, WeightedSum, Tagged;
    HyphenatedBytes();
    PlainBytes();
    Four(83, 75, 49, 45);
    Four(45, 45, 48, 48);
    Four(48, 79, 79, 79);
    Four(45, 111, 45, 0);
    PairOfFours([83, 75, 49, 45], [45, 45, 48, 48]);
    PairOfFours([48, 79, 79, 79], [45, 111, 45, 0]);
    SumConcat([83, 75, 49, 45] + [45, 45, 48, 48], [48, 79, 79, 79] + [45, 111, 45, 0]);
    Four(83, 75, 1, 0);
    Four(0, 0, 0, 0);
    PairOfFours([83, 75, 1, 0], [0, 0, 0, 0]);
  }

  predicate ReadsZero(c: char) {
    c == '-' || c == '0' || c == 'O' || c == 'o'
  }

  lemma {:induction false} ZeroText(s: string)
    requires forall k :: 0 <= k < |s| ==> ReadsZero(s[k])
    ensures Symbols(s).Some? && forall k :: 0 <= k < |Symbols(s).value| ==> Symbols(s).value[k] == 0
  {
    if s != "" {
      ZeroText(s[1..]);
    }
  }

  lemma {:induction false} ZeroStream(w: Width, xs: seq<nat>)
    requires forall k :: 0 <= k < |xs| ==> xs[k] == 0
    ensures Stream(w, xs) == Zeros(Times(w, |xs|))
  {
    if xs != [] {
      ZeroStream(w, xs[1..]);
      BitsOfZero(Size(w));
      assert Zeros(Size(w)) + Zeros(Times(w, |xs| - 1)) == Zeros(Times(w, |xs|));
    }
  }

  /** Eight zero symbols ahead of some encoded bytes are five zero bytes ahead of them. */
  lemma ZerosAhead(us: seq<Symbol>, data: seq<Byte>)
    requires |us| == 8 && forall k :: 0 <= k < 8 ==> us[k] == 0
    ensures Decoded(us + Encoded(data)) == FIVE_ZEROS + data
  {
    hide Stream, Pack, Encoded, Zeros;
    ZeroStream(Five, us);
    ZeroStream(Eight, FIVE_ZEROS);
    StreamConcat(Five, us, Encoded(data));
    EncodedBits(data);
    StreamConcat(Eight, FIVE_ZEROS, data);
    var pad := Zeros(Padding(|data|));
    Assoc(Stream(Eight, FIVE_ZEROS), Stream(Eight, data), pad);
    Powers();
    PackStream(Eight, FIVE_ZEROS + data, pad);
  }

  const ZEROS_TEXT := "--00" + ("0OOO" + ("-o-" + "0-"))

  lemma {:induction false} NonHyphensConcat(s: string, t: string)
    ensures NonHyphens(s + t) == NonHyphens(s) + NonHyphens(t)
  {
    if s == "" {
      assert s + t == t;
    } else {
      assert (s + t)[0] == s[0] && (s + t)[1..] == s[1..] + t;
      NonHyphensConcat(s[1..], t);
    }
  }

  lemma PartCounts()
    ensures NonHyphens("--00") == 2 && NonHyphens("0OOO") == 4 && NonHyphens("-o-") == 1 && NonHyphens("0-") == 1
  {
  }

  lemma ZerosTextReads()
    ensures forall k :: 0 <= k < |ZEROS_TEXT| ==> ReadsZero(ZEROS_TEXT[k])
  {
  }

  lemma EightOfThem()
    ensures Symbols(ZEROS_TEXT).Some? && |Symbols(ZEROS_TEXT).value| == 8
    ensures forall k :: 0 <= k < 8 ==> Symbols(ZEROS_TEXT).value[k] == 0
  {
    hide NonHyphens, Symbols, ReadsZero;
    ZerosTextReads();
    ZeroText(ZEROS_TEXT);
    SymbolCount(ZEROS_TEXT);
    PartCounts();
    NonHyphensConcat("-o-", "0-");
    NonHyphensConcat("0OOO", "-o-" + "0-");
    NonHyphensConcat("--00", "0OOO" + ("-o-" + "0-"));
  }

  lemma Reassociate(p: string, a: string, b: string, c: string, d: string, e: string, text: string)
    ensures p + a + (b + c) + d + e + text == p + ((a + (b + (c + (d + e)))) + text)
  {
  }

  lemma HyphenatedKey(text: string)
    requires text == Group(Encode(Fletcher(Tagged(HYPHENATED, 0, []))))
    ensures Key(HYPHENATED, 0, []) == Head("SK", 1) + (ZEROS_TEXT + text)
  {
    var check := Fletcher(Tagged(HYPHENATED, 0, []));
    assert Body(HYPHENATED, 0, []) == check;
    ByteDigits(0);
    ByteDigits(1);
    assert Decimal.Decimal(0) == "0" && "0" + "-" == "0-";
    assert Head("SK", 1) == "SK1-";
    Reassociate("SK1-", "--00", "0OOO", "-o-", "0", "-", text);
  }

  lemma OpensTo(p: string, v: Byte, rest: string, payload: seq<Byte>)
    requires Symbols(rest).Some? && Decoded(Symbols(rest).value) == payload + Fletcher(Tagged(p, v, payload))
    ensures Opened(p, v, Head(p, v) + rest) == Ok(payload)
  {
  }

  /** A hyphen in a tag can end the head early: this key, of another tag and version, opens under `SK`
      version 1, to a payload nobody encoded. */
  lemma HyphensConfuse()
    ensures Opened("SK", 1, Key(HYPHENATED, 0, [])) == Ok(FIVE_ZEROS)
  {
    hide *;
    var check := Fletcher(Tagged(HYPHENATED, 0, []));
    var text := Group(Encode(check));
    HyphenatedKey(text);
    EncodedSymbols(check);
    EightOfThem();
    JoinedSymbols(ZEROS_TEXT, text);
    ZerosAhead(Symbols(ZEROS_TEXT).value, check);
    HyphenatedSums();
    OpensTo("SK", 1, ZEROS_TEXT + text, FIVE_ZEROS);
  }

  lemma EncodedSymbols(data: seq<Byte>)
    ensures Symbols(Group(Encode(data))) == Some(Encoded(data))
  {
    SymbolsOfText(Encoded(data));
    SymbolsOfGroup(Encode(data));
  }

  lemma JoinedSymbols(s: string, t: string)
    requires Symbols(s).Some? && Symbols(t).Some?
    ensures Symbols(s + t) == Some(Symbols(s).value + Symbols(t).value)
  {
    SymbolsConcat(s, t);
  }
}
