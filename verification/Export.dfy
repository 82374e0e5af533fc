/** Writing entries as `.env` text and as shell commands, and reading the `.env` text back. */
module Export {
  import opened Dotenv
  import opened Outcomes
  import opened Text

  // ---------- the .env rendering ----------

  function EscapeChar(c: char): string {
    match c
    case '\\' => "\\\\"
    case '"' => "\\\""
    case '\n' => "\\n"
    case '\r' => "\\r"
    case other => [other]
  }

  function Escape(value: string): string {
    if value == "" then "" else Escape(value[..|value| - 1]) + EscapeChar(value[|value| - 1])
  }

  function DotenvLine(e: Pair): string {
    e.0 + "=" + ("\"" + Escape(e.1) + "\"")
  }

  function Rendered(entries: seq<Pair>): string {
    if entries == [] then ""
    else Rendered(entries[..|entries| - 1]) + (DotenvLine(entries[|entries| - 1]) + "\n")
  }

  method DotenvQuote(value: string) returns (out: string)
    ensures out == "\"" + Escape(value) + "\""
  {
    out := "\"";
    for k := 0 to |value|
      invariant out == "\"" + Escape(value[..k])
    {
      var c := value[k];
      assert value[..k + 1][..k] == value[..k];
      match c {
        case '\\' => out := out + "\\\\";
        case '"' => out := out + "\\\"";
        case '\n' => out := out + "\\n";
        case '\r' => out := out + "\\r";
        case _ => out := out + [c];
      }
    }
    assert value[..|value|] == value;
    out := out + "\"";
  }

  method RenderDotenv(entries: seq<Pair>) returns (out: string)
    ensures out == Rendered(entries)
  {
    out := "";
    for k := 0 to |entries|
      invariant out == Rendered(entries[..k])
    {
      var (key, value) := entries[k];
      assert entries[..k + 1][..k] == entries[..k];
      var quoted := DotenvQuote(value);
      ghost var before := out;
      out := out + key;
      out := out + "=";
      out := out + quoted;
      out := out + "\n";
      assert out == before + (DotenvLine(entries[k]) + "\n");
    }
    assert entries[..|entries|] == entries;
  }

  // ---------- what is written reads back ----------

  lemma EscapedChar(c: char, rest: string)
    ensures Unescaped(EscapeChar(c) + rest) == [c] + Unescaped(rest)
    ensures forall d :: d in EscapeChar(c) ==> d != '\n' && d != '\r'
  {
    var s := EscapeChar(c) + rest;
    if |EscapeChar(c)| == 2 {
      assert s[0] == '\\' && s[1] == EscapeChar(c)[1] && s[2..] == rest;
    } else {
      assert s[0] == c && s[1..] == rest;
    }
  }

  lemma {:induction false} EscapeCons(c: char, value: string)
    ensures Escape([c] + value) == EscapeChar(c) + Escape(value)
  {
    hide EscapeChar;
    var s := [c] + value;
    if value == "" {
      assert s[..0] == "";
    } else {
      var n := |value| - 1;
      EscapeCons(c, value[..n]);
      assert s[..|s| - 1] == [c] + value[..n];
      assert Escape(s) == EscapeChar(c) + Escape(value[..n]) + EscapeChar(value[n]);
      assert Escape(value) == Escape(value[..n]) + EscapeChar(value[n]);
    }
  }

  /** Unescaping undoes escaping, and an escaped value has no line end in it. */
  lemma {:induction false} UnescapeEscape(value: string)
    ensures Unescaped(Escape(value)) == value
    ensures forall d :: d in Escape(value) ==> d != '\n' && d != '\r'
  {
    if value != "" {
      var c, rest := value[0], value[1..];
      assert value == [c] + rest;
      EscapeCons(c, rest);
      EscapedChar(c, Escape(rest));
      UnescapeEscape(rest);
    }
  }

  lemma QuotedReads(value: string)
    ensures ValueOf("\"" + Escape(value) + "\"") == value
  {
    var inner := Escape(value);
    var s := "\"" + inner + "\"";
    assert s[0] == '"' && s[|s| - 1] == '"' && s[1..|s| - 1] == inner;
    assert Trim(s) == s;
    UnescapeEscape(value);
  }

  lemma BeforeKey(key: string, rest: string)
    requires IsValidKey(key)
    ensures var line := key + "=" + rest;
            && Before(line, '=') == |key| && line[..|key|] == key && line[|key| + 1..] == rest
  {
    var line := key + "=" + rest;
    assert line[|key|] == '=';
    assert forall k :: 0 <= k < |key| ==> line[k] == key[k] && IsNameChar(key[k]);
    BeforeIs(line, '=', |key|);
  }

  lemma TrimKey(key: string)
    requires IsValidKey(key)
    ensures Trim(key) == key
  {
  }

  lemma NameNotSpace(c: char)
    requires IsNameChar(c)
    ensures !IsWhitespace(c) && c != '#' && c != '=' && c != ' ' && c != BOM
  {
  }

  lemma NoExportPrefix(key: string, rest: string)
    requires IsValidKey(key)
    ensures StripPrefix(key + "=" + rest, "export ") == key + "=" + rest
  {
    var line := key + "=" + rest;
    assert "export "[6] == ' ';
    if |key| > 6 {
      assert line[6] == key[6];
      NameNotSpace(key[6]);
    } else {
      assert line[|key|] == '=';
    }
  }

  lemma LineReads(e: Pair, number: nat)
    requires IsValidKey(e.0)
    ensures ParseLine(DotenvLine(e), number) == Ok(Some(e))
  {
    var quoted := "\"" + Escape(e.1) + "\"";
    var line := e.0 + "=" + quoted;
    assert line[0] == e.0[0];
    NameNotSpace(line[0]);
    NoExportPrefix(e.0, quoted);
    BeforeKey(e.0, quoted);
    TrimKey(e.0);
    QuotedReads(e.1);
  }

  /** A line without line ends, ended by a line feed, is the first line of the text. */
  lemma FirstLine(line: string, rest: string)
    requires line != "" && line[|line| - 1] != '\r' && forall c :: c in line ==> c != '\n'
    ensures Lines(line + "\n" + rest) == [line] + Lines(rest)
  {
    var text := line + "\n" + rest;
    assert text[|line|] == '\n';
    assert forall k :: 0 <= k < |line| ==> text[k] == line[k] && line[k] in line;
    BeforeIs(text, '\n', |line|);
    assert text[..|line|] == line && text[|line| + 1..] == rest;
    assert StripSuffix(line, '\r') == line;
  }

  lemma LineShape(e: Pair)
    requires IsValidKey(e.0)
    ensures var line := DotenvLine(e);
            line != "" && line[0] == e.0[0] && line[|line| - 1] == '"' && forall c :: c in line ==> c != '\n'
  {
    UnescapeEscape(e.1);
    assert forall c :: c in e.0 ==> IsNameChar(c);
  }

  lemma {:induction false} RenderedCons(e: Pair, entries: seq<Pair>)
    ensures Rendered([e] + entries) == DotenvLine(e) + "\n" + Rendered(entries)
  {
    hide DotenvLine;
    var all := [e] + entries;
    if entries == [] {
      assert all[..0] == [];
      assert "" + (DotenvLine(e) + "\n") == DotenvLine(e) + "\n" + "";
    } else {
      var n := |entries| - 1;
      RenderedCons(e, entries[..n]);
      assert all[..|all| - 1] == [e] + entries[..n];
      var last := DotenvLine(entries[n]) + "\n";
      assert (DotenvLine(e) + "\n" + Rendered(entries[..n])) + last
          == DotenvLine(e) + "\n" + (Rendered(entries[..n]) + last);
    }
  }

  lemma {:induction false} LinesRead(entries: seq<Pair>, number: nat)
    requires forall k :: 0 <= k < |entries| ==> IsValidKey(entries[k].0)
    ensures ParseLines(Lines(Rendered(entries)), number) == Ok(entries)
  {
    if entries != [] {
      var e, rest := entries[0], entries[1..];
      assert entries == [e] + rest;
      LinesRead(rest, number + 1);
      RenderedCons(e, rest);
      LineShape(e);
      FirstLine(DotenvLine(e), Rendered(rest));
      LineReads(e, number);
      assert ([DotenvLine(e)] + Lines(Rendered(rest)))[1..] == Lines(Rendered(rest));
    }
  }

  lemma StartsOtherwise(a: string, rest: string)
    requires a != "" && a[0] != BOM
    ensures WithoutBom(a + rest) == a + rest
  {
    assert (a + rest)[0] == a[0];
  }

  lemma NoBom(entries: seq<Pair>)
    requires forall k :: 0 <= k < |entries| ==> IsValidKey(entries[k].0)
    ensures WithoutBom(Rendered(entries)) == Rendered(entries)
  {
    hide *;
    if entries == [] {
      NoBomEmpty();
    } else {
      var e, rest := entries[0], entries[1..];
      assert entries == [e] + rest;
      NoBomFirst(e, rest);
    }
  }

  lemma NoBomEmpty()
    ensures WithoutBom(Rendered([])) == Rendered([])
  {
  }

  lemma NoBomFirst(e: Pair, rest: seq<Pair>)
    requires IsValidKey(e.0)
    ensures WithoutBom(Rendered([e] + rest)) == Rendered([e] + rest)
  {
    hide *;
    RenderedCons(e, rest);
    LineShape(e);
    FirstOfName(e.0);
    var line := DotenvLine(e);
    assert line + "\n" + Rendered(rest) == line + ("\n" + Rendered(rest));
    StartsOtherwise(line, "\n" + Rendered(rest));
  }

  lemma FirstOfName(key: string)
    requires IsValidKey(key)
    ensures key != "" && key[0] != BOM
  {
  }

  /** Entries with valid names, whatever their values, read back exactly as they were written. */
  lemma RenderThenParse(entries: seq<Pair>)
    requires forall k :: 0 <= k < |entries| ==> IsValidKey(entries[k].0)
    ensures Parsed(Rendered(entries)) == Ok(entries)
  {
    hide IsValidKey, Rendered, ParseLines, Lines, WithoutBom;
    LinesRead(entries, 1);
    NoBom(entries);
  }

  /** Whatever text parses, writing out what it said and reading that again says the same. */
  lemma ParseRenderParse(text: string)
    requires Parsed(text).Ok?
    ensures Parsed(Rendered(Parsed(text).value)) == Parsed(text)
  {
    ParsedNamesValid(Lines(WithoutBom(text)), 1);
    RenderThenParse(Parsed(text).value);
  }
}
