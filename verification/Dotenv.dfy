/** Reading `.env` text. */
module Dotenv {
  import opened Outcomes
  import opened Text

  type Pair = (string, string)

  /** Lines are counted from one. */
  datatype ParseError = NoEquals(line: nat) | BadName(line: nat, key: string)

  const BOM := '\U{FEFF}'

  // ---------- names ----------

  predicate IsNameStart(c: char) {
    'A' <= c <= 'Z' || 'a' <= c <= 'z' || c == '_'
  }

  predicate IsNameChar(c: char) {
    IsNameStart(c) || '0' <= c <= '9'
  }

  predicate IsValidKey(key: string) {
    key != "" && IsNameStart(key[0]) && forall k :: 1 <= k < |key| ==> IsNameChar(key[k])
  }

  // ---------- lines ----------

  function StripSuffix(s: string, c: char): string {
    if s != "" && s[|s| - 1] == c then s[..|s| - 1] else s
  }

  /** How many characters come before the first `c`, or all of them. */
  function Before(s: string, c: char): (n: nat)
    ensures n <= |s|
    ensures n < |s| ==> s[n] == c
    ensures forall k :: 0 <= k < n ==> s[k] != c
  {
    if s == "" || s[0] == c then 0 else 1 + Before(s[1..], c)
  }

  lemma BeforeIs(s: string, c: char, n: nat)
    requires n < |s| && s[n] == c && forall k :: 0 <= k < n ==> s[k] != c
    ensures Before(s, c) == n
  {
  }

  /** A line ends at a line feed, which takes a carriage return before it along; the last line need
      not end, and a text ending in a line feed has no empty line after it. */
  function Lines(text: string): seq<string>
    decreases |text|
  {
    var n := Before(text, '\n');
    if text == "" then []
    else if n == |text| then [text]
    else [StripSuffix(text[..n], '\r')] + Lines(text[n + 1..])
  }

  // ---------- values ----------

  function StripPair(s: string, quote: char): Option<string> {
    if |s| >= 2 && s[0] == quote && s[|s| - 1] == quote then Some(s[1..|s| - 1]) else None
  }

  /** What a backslash and this character stand for. */
  function Escaped(c: char): string {
    match c
    case 'n' => "\n"
    case 'r' => "\r"
    case 't' => "\t"
    case '\\' => "\\"
    case '"' => "\""
    case other => ['\\', other]
  }

  function Unescaped(s: string): string {
    if s == "" then ""
    else if s[0] != '\\' then [s[0]] + Unescaped(s[1..])
    else if |s| == 1 then "\\"
    else Escaped(s[1]) + Unescaped(s[2..])
  }

  /** Single quotes are literal, double quotes interpret escapes, anything else is trimmed. */
  function ValueOf(raw: string): string {
    var trimmed := Trim(raw);
    var single := StripPair(trimmed, '\'');
    var double := StripPair(trimmed, '"');
    if single.Some? then single.value
    else if double.Some? then Unescaped(double.value)
    else trimmed
  }

  method UnescapeDouble(s: string) returns (out: string)
    ensures out == Unescaped(s)
  {
    out := "";
    var k := 0;
    while k < |s|
      invariant 0 <= k <= |s|
      invariant out + Unescaped(s[k..]) == Unescaped(s)
    {
      var c := s[k];
      k := k + 1;
      if c != '\\' {
        assert s[k - 1..][1..] == s[k..];
        out := out + [c];
      } else if k < |s| {
        var next := s[k];
        k := k + 1;
        assert s[k - 2..][2..] == s[k..];
        out := out + Escaped(next);
      } else {
        out := out + "\\";
      }
    }
  }

  // ---------- a whole text ----------

  function StripPrefix(s: string, prefix: string): string {
    if prefix <= s then s[|prefix|..] else s
  }

  /** Nothing for a blank line or a comment, else the pair it assigns. */
  function ParseLine(raw: string, number: nat): Result<Option<Pair>, ParseError> {
    var start := TrimStart(raw);
    if start == "" || start[0] == '#' then Ok(None)
    else
      var line := StripPrefix(start, "export ");
      var n := Before(line, '=');
      if n == |line| then Err(NoEquals(number))
      else
        var key := Trim(line[..n]);
        if !IsValidKey(key) then Err(BadName(number, key))
        else Ok(Some((key, ValueOf(line[n + 1..]))))
  }

  function ParseLines(lines: seq<string>, number: nat): Result<seq<Pair>, ParseError> {
    if lines == [] then Ok([])
    else
      match ParseLine(lines[0], number)
      case Err(e) => Err(e)
      case Ok(first) =>
        match ParseLines(lines[1..], number + 1)
        case Err(e) => Err(e)
        case Ok(rest) => Ok(if first.Some? then [first.value] + rest else rest)
  }

  function WithoutBom(text: string): string {
    StripPrefix(text, [BOM])
  }

  function Parsed(text: string): Result<seq<Pair>, ParseError> {
    ParseLines(Lines(WithoutBom(text)), 1)
  }

  /** What the lines read so far add in front of the rest. */
  function Prepend(out: seq<Pair>, rest: Result<seq<Pair>, ParseError>): Result<seq<Pair>, ParseError> {
    match rest
    case Err(e) => Err(e)
    case Ok(more) => Ok(out + more)
  }

  method ParseValue(raw: string) returns (value: string)
    ensures value == ValueOf(raw)
  {
    var trimmed := Trim(raw);
    var inner := StripPair(trimmed, '\'');
    if inner.Some? {
      return inner.value;
    }
    inner := StripPair(trimmed, '"');
    if inner.Some? {
      value := UnescapeDouble(inner.value);
      return;
    }
    value := trimmed;
  }

  method Parse(text: string) returns (r: Result<seq<Pair>, ParseError>)
    ensures r == Parsed(text)
  {
    var lines := Lines(WithoutBom(text));
    var out: seq<Pair> := [];
    assert lines[0..] == lines;
    NothingBefore(Parsed(text));
    for number := 0 to |lines|
      invariant Parsed(text) == Prepend(out, ParseLines(lines[number..], number + 1))
    {
      assert lines[number..][1..] == lines[number + 1..];
      var line := TrimStart(lines[number]);
      if line == "" || line[0] == '#' {
        continue;
      }
      line := StripPrefix(line, "export ");
      var n := Before(line, '=');
      if n == |line| {
        return Err(NoEquals(number + 1));
      }
      var key := Trim(line[..n]);
      if !IsValidKey(key) {
        return Err(BadName(number + 1, key));
      }
      var value := ParseValue(line[n + 1..]);
      assert ParseLine(lines[number], number + 1) == Ok(Some((key, value)));
      AppendOne(out, (key, value), ParseLines(lines[number + 1..], number + 2));
      out := out + [(key, value)];
    }
    assert lines[|lines|..] == [];
    assert out + [] == out;
    r := Ok(out);
  }

  lemma NothingBefore(r: Result<seq<Pair>, ParseError>)
    ensures Prepend([], r) == r
  {
    if r.Ok? {
      assert [] + r.value == r.value;
    }
  }

  lemma AppendOne(out: seq<Pair>, pair: Pair, rest: Result<seq<Pair>, ParseError>)
    ensures Prepend(out + [pair], rest) == Prepend(out, Prepend([pair], rest))
  {
    if rest.Ok? {
      assert (out + [pair]) + rest.value == out + ([pair] + rest.value);
    }
  }

  lemma {:induction false} ParsedNamesValid(lines: seq<string>, number: nat)
    ensures ParseLines(lines, number).Ok? ==>
              forall k :: 0 <= k < |ParseLines(lines, number).value| ==> IsValidKey(ParseLines(lines, number).value[k].0)
  {
    if lines != [] {
      ParsedNamesValid(lines[1..], number + 1);
    }
  }
}
