/** What each form a `.env` line may take reads as. */
module DotenvForms {
  import opened Dotenv
  import opened Outcomes
  import opened Text

  /** Text with something visible at both ends. */
  predicate Solid(s: string) {
    s != "" && !IsWhitespace(s[0]) && !IsWhitespace(s[|s| - 1])
  }

  lemma {:induction false} TrimStartAround(pre: string, rest: string)
    requires Blank(pre) && (rest == "" || !IsWhitespace(rest[0]))
    ensures TrimStart(pre + rest) == rest
  {
    if pre == "" {
      assert pre + rest == rest;
    } else {
      assert pre[0] in pre;
      assert (pre + rest)[1..] == pre[1..] + rest;
      TrimStartAround(pre[1..], rest);
    }
  }

  lemma {:induction false} TrimEndAround(core: string, post: string)
    requires Blank(post) && (core == "" || !IsWhitespace(core[|core| - 1]))
    ensures TrimEnd(core + post) == core
  {
    if post == "" {
      assert core + post == core;
    } else {
      var n := |post| - 1;
      assert post[n] in post;
      assert (core + post)[..|core + post| - 1] == core + post[..n];
      TrimEndAround(core, post[..n]);
    }
  }

  lemma TrimAround(pre: string, core: string, post: string)
    requires Blank(pre) && Blank(post) && Solid(core)
    ensures Trim(pre + core + post) == core
  {
    assert pre + core + post == pre + (core + post);
    TrimStartAround(pre, core + post);
    TrimEndAround(core, post);
  }

  // ---------- values ----------

  lemma PairStripped(quote: char, inner: string)
    ensures StripPair([quote] + inner + [quote], quote) == Some(inner)
  {
    var s := [quote] + inner + [quote];
    assert s[1..|s| - 1] == inner;
  }

  /** Single quotes keep what they hold, spaces and backslashes included. */
  lemma SingleQuoted(pre: string, inner: string, post: string)
    requires Blank(pre) && Blank(post)
    ensures ValueOf(pre + ("'" + inner + "'") + post) == inner
  {
    TrimAround(pre, "'" + inner + "'", post);
    PairStripped('\'', inner);
  }

  /** Double quotes keep what they hold, escapes read. */
  lemma DoubleQuoted(pre: string, inner: string, post: string)
    requires Blank(pre) && Blank(post)
    ensures ValueOf(pre + ("\"" + inner + "\"") + post) == Unescaped(inner)
  {
    TrimAround(pre, "\"" + inner + "\"", post);
    PairStripped('"', inner);
    assert ("\"" + inner + "\"")[0] == '"';
  }

  predicate Wrapped(s: string, quote: char) {
    |s| >= 2 && s[0] == quote && s[|s| - 1] == quote
  }

  /** Anything else is the text itself without the space around it; `#`, `$` and `=` mean nothing. */
  lemma Unquoted(pre: string, value: string, post: string)
    requires Blank(pre) && Blank(post) && Solid(value)
    requires !Wrapped(value, '\'') && !Wrapped(value, '"')
    ensures ValueOf(pre + value + post) == value
  {
    TrimAround(pre, value, post);
  }

  // ---------- lines ----------

  lemma NameSolid(key: string)
    requires IsValidKey(key)
    ensures Solid(key) && key[0] != '#'
    ensures forall k :: 0 <= k < |key| ==> IsNameChar(key[k]) && key[k] != '=' && key[k] != ' '
  {
  }

  lemma BlankHolds(s: string)
    requires Blank(s)
    ensures forall k :: 0 <= k < |s| ==> IsWhitespace(s[k]) && s[k] != '='
  {
    forall k | 0 <= k < |s|
      ensures IsWhitespace(s[k]) && s[k] != '='
    {
      assert s[k] in s;
    }
  }

  lemma NameAndValue(key: string, space: string, raw: string)
    requires IsValidKey(key) && Blank(space)
    ensures var line := key + space + "=" + raw;
            var n := Before(line, '=');
            n < |line| && Trim(line[..n]) == key && line[n + 1..] == raw
  {
    var line, n := key + space + "=" + raw, |key + space|;
    NameSolid(key);
    BlankHolds(space);
    assert forall k :: 0 <= k < |key| ==> line[k] == key[k];
    assert forall k :: |key| <= k < n ==> line[k] == space[k - |key|];
    assert line[n] == '=';
    BeforeIs(line, '=', n);
    assert line[..n] == key + space && line[n + 1..] == raw;
    TrimAround("", key, space);
    assert "" + key + space == key + space;
  }

  /** Space before the name and between name and `=` is no part of the name. The one name that cannot
      be followed by a space is `export`, which would read as the keyword. */
  lemma Assignment(pre: string, key: string, space: string, raw: string, number: nat)
    requires Blank(pre) && Blank(space) && IsValidKey(key)
    requires key == "export" ==> space == "" || space[0] != ' '
    ensures ParseLine(pre + (key + space + "=" + raw), number) == Ok(Some((key, ValueOf(raw))))
  {
    var line := key + space + "=" + raw;
    NameSolid(key);
    BlankHolds(space);
    assert line[0] == key[0];
    TrimStartAround(pre, line);
    NotKeyword(key, space, raw);
    NameAndValue(key, space, raw);
  }

  lemma NotKeyword(key: string, space: string, raw: string)
    requires IsValidKey(key) && Blank(space)
    requires key == "export" ==> space == "" || space[0] != ' '
    ensures !("export " <= key + space + "=" + raw)
  {
    var line, word := key + space + "=" + raw, "export ";
    NameSolid(key);
    BlankHolds(space);
    NoSpaceInside();
    assert forall k :: 0 <= k < |key| ==> line[k] == key[k];
    assert line[|key|] == if space == "" then '=' else space[0];
    if |key| > 6 {
      assert line[6] != word[6];
    } else if |key| < 6 {
      assert line[|key|] != word[|key|];
    } else if key == "export" {
      assert line[6] != word[6];
    } else {
      assert line[..6] == key && word[..6] == "export";
    }
  }

  lemma NoSpaceInside()
    ensures forall k :: 0 <= k < 6 ==> !IsWhitespace("export "[k]) && "export "[k] != '='
    ensures "export "[6] == ' '
  {
  }

  lemma ExportedAssignment(pre: string, key: string, space: string, raw: string, number: nat)
    requires Blank(pre) && Blank(space) && IsValidKey(key)
    ensures ParseLine(pre + ("export " + (key + space + "=" + raw)), number) == Ok(Some((key, ValueOf(raw))))
  {
    hide ValueOf, IsValidKey, IsNameStart, IsNameChar;
    var line := key + space + "=" + raw;
    assert ("export " + line)[0] == 'e';
    TrimStartAround(pre, "export " + line);
    assert ("export " + line)[|"export "|..] == line;
    NameAndValue(key, space, raw);
  }

  /** Blank lines and comments assign nothing. */
  lemma NothingAssigned(pre: string, rest: string, number: nat)
    requires Blank(pre)
    ensures ParseLine(pre, number) == Ok(None)
    ensures ParseLine(pre + ("#" + rest), number) == Ok(None)
  {
    assert pre + "" == pre;
    TrimStartAround(pre, "");
    TrimStartAround(pre, "#" + rest);
  }

  /** Lines end alike with and without a carriage return, and the last need not end. */
  lemma LineEnds(line: string, rest: string)
    requires forall k :: 0 <= k < |line| ==> line[k] != '\n'
    ensures Lines(line + "\r\n" + rest) == [line] + Lines(rest)
    ensures line != "" ==> Lines(line) == [line]
    ensures line == "" || line[|line| - 1] != '\r' ==> Lines(line + "\n" + rest) == [line] + Lines(rest)
  {
    var text := line + "\r\n" + rest;
    var n := |line| + 1;
    assert forall k :: 0 <= k < |line| ==> text[k] == line[k];
    assert text[|line|] == '\r' && text[n] == '\n';
    BeforeIs(text, '\n', n);
    assert text[..n] == line + "\r" && text[n + 1..] == rest;
    assert StripSuffix(line + "\r", '\r') == line;
    var plain := line + "\n" + rest;
    assert forall k :: 0 <= k < |line| ==> plain[k] == line[k];
    assert plain[|line|] == '\n';
    BeforeIs(plain, '\n', |line|);
    assert plain[..|line|] == line && plain[|line| + 1..] == rest;
  }

  // ---------- names ----------

  /** ASCII letters, digits and underscores, with no digit first. */
  predicate IsIdentifier(key: string) {
    && key != "" && !('0' <= key[0] <= '9')
    && forall c :: c in key ==> 'A' <= c <= 'Z' || 'a' <= c <= 'z' || '0' <= c <= '9' || c == '_'
  }

  lemma ValidIsIdentifier(key: string)
    ensures IsValidKey(key) <==> IsIdentifier(key)
  {
    if IsValidKey(key) {
      forall c | c in key
        ensures 'A' <= c <= 'Z' || 'a' <= c <= 'z' || '0' <= c <= '9' || c == '_'
      {
        var k :| 0 <= k < |key| && key[k] == c;
      }
    }
    if IsIdentifier(key) {
      forall k | 0 <= k < |key| ensures IsNameChar(key[k]) {
        assert key[k] in key;
      }
    }
  }

  lemma OneLine(line: string, pair: Pair)
    requires Lines(line) == [line] && ParseLine(line, 1) == Ok(Some(pair))
    ensures ParseLines(Lines(line), 1) == Ok([pair])
  {
    assert Lines(line)[1..] == [] && ParseLines([], 2) == Ok([]);
    assert [pair] + [] == [pair];
  }

  lemma OnlyName(r: Result<seq<Pair>, ParseError>, pair: Pair)
    requires r.Ok? ==> forall k :: 0 <= k < |r.value| ==> IsValidKey(r.value[k].0)
    ensures r == Ok([pair]) ==> IsValidKey(pair.0)
  {
    if r == Ok([pair]) {
      assert r.value[0] == pair;
    }
  }

  /** The text `key=` assigns the empty value to that key exactly when the key is an identifier. */
  lemma NamesAccepted(key: string)
    ensures Parsed(key + "=") == Ok([(key, "")]) <==> IsIdentifier(key)
  {
    ValidIsIdentifier(key);
    var text := key + "=";
    if IsValidKey(key) {
      NameSolid(key);
      assert text[0] == key[0];
      LineEnds(text, "");
      Assignment("", key, "", "", 1);
      assert "" + (key + "" + "=" + "") == text;
      assert !([BOM] <= text) && WithoutBom(text) == text;
      assert ValueOf("") == "";
      OneLine(text, (key, ""));
    } else {
      ParsedNamesValid(Lines(WithoutBom(text)), 1);
      OnlyName(Parsed(text), (key, ""));
    }
  }

  /** A line with something on it that is no comment is refused when it has no `=`, and for its name when
      what stands before the first `=` is no identifier. */
  lemma LinesRefused(pre: string, core: string, number: nat)
    requires Blank(pre) && core != "" && !IsWhitespace(core[0]) && core[0] != '#' && !("export " <= core)
    ensures '=' !in core ==> ParseLine(pre + core, number) == Err(NoEquals(number))
    ensures forall n :: 0 <= n < |core| && core[n] == '=' && '=' !in core[..n] && !IsIdentifier(Trim(core[..n])) ==>
              ParseLine(pre + core, number) == Err(BadName(number, Trim(core[..n])))
  {
    TrimStartAround(pre, core);
    forall n | 0 <= n < |core| && core[n] == '=' && '=' !in core[..n] && !IsIdentifier(Trim(core[..n]))
      ensures ParseLine(pre + core, number) == Err(BadName(number, Trim(core[..n])))
    {
      forall k | 0 <= k < n ensures core[k] != '=' {
        assert core[..n][k] == core[k];
      }
      BeforeIs(core, '=', n);
      ValidIsIdentifier(Trim(core[..n]));
    }
  }

  // ---------- escapes ----------

  /** Five letters after a backslash stand for one character each; any other pair stays as it is, and so
      does a backslash at the end and every other character. */
  lemma EscapesRead(c: char, rest: string)
    ensures Unescaped("\\" + [c] + rest) ==
            (if c == 'n' then "\n"
             else if c == 'r' then "\r"
             else if c == 't' then "\t"
             else if c == '\\' then "\\"
             else if c == '"' then "\""
             else "\\" + [c]) + Unescaped(rest)
    ensures Unescaped("\\") == "\\" && Unescaped("") == ""
    ensures c != '\\' ==> Unescaped([c] + rest) == [c] + Unescaped(rest)
  {
    var s := "\\" + [c] + rest;
    assert s[0] == '\\' && s[1] == c && s[2..] == rest;
    assert ([c] + rest)[1..] == rest;
  }

  // ---------- whole texts ----------

  /** One byte-order mark at the very start is ignored, and only there. */
  lemma BomIgnored(text: string)
    ensures Parsed(['\U{FEFF}'] + text) == ParseLines(Lines(text), 1)
    ensures text == "" || text[0] != '\U{FEFF}' ==> Parsed(text) == ParseLines(Lines(text), 1)
  {
    assert (['\U{FEFF}'] + text)[1..] == text;
  }

  /** A text is refused exactly when some line is bad, for the first of them, by its number. */
  lemma {:induction false} FirstBadLine(lines: seq<string>, number: nat)
    ensures match ParseLines(lines, number)
            case Err(e) =>
              exists k :: 0 <= k < |lines| && ParseLine(lines[k], number + k) == Err(e)
                          && forall j :: 0 <= j < k ==> ParseLine(lines[j], number + j).Ok?
            case Ok(_) => forall k :: 0 <= k < |lines| ==> ParseLine(lines[k], number + k).Ok?
  {
    hide ParseLine;
    if lines != [] {
      var rest := lines[1..];
      FirstBadLine(rest, number + 1);
      assert forall k :: 0 <= k < |rest| ==>
        lines[k + 1] == rest[k] && ParseLine(lines[k + 1], number + (k + 1)) == ParseLine(rest[k], number + 1 + k);
      if ParseLine(lines[0], number).Err? {
        assert ParseLine(lines[0], number + 0) == Err(ParseLines(lines, number).error);
      } else if ParseLines(rest, number + 1).Err? {
        var k :| 0 <= k < |rest| && ParseLine(rest[k], number + 1 + k) == Err(ParseLines(rest, number + 1).error)
                 && forall j :: 0 <= j < k ==> ParseLine(rest[j], number + 1 + j).Ok?;
        BadLineAt(lines, number, k + 1);
      }
    }
  }

  lemma BadLineAt(lines: seq<string>, number: nat, k: nat)
    requires 0 < k < |lines| && ParseLine(lines[0], number).Ok?
    requires forall j :: 0 <= j < k - 1 ==> ParseLine(lines[1..][j], number + 1 + j).Ok?
    ensures forall j :: 0 <= j < k ==> ParseLine(lines[j], number + j).Ok?
  {
    hide ParseLine;
    forall j | 0 <= j < k ensures ParseLine(lines[j], number + j).Ok? {
      if j > 0 {
        assert lines[1..][j - 1] == lines[j] && number + 1 + (j - 1) == number + j;
      }
    }
  }
}
