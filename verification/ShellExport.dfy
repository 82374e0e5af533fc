/** Writing entries as shell commands, and what a shell makes of the text. */
module ShellExport {
  import opened Dotenv
  import opened Outcomes

  // ---------- the rendering ----------

  function QuoteChar(c: char): string {
    if c == '\'' then "'\\''" else [c]
  }

  function QuoteBody(value: string): string {
    if value == "" then "" else QuoteBody(value[..|value| - 1]) + QuoteChar(value[|value| - 1])
  }

  function ShellLine(e: Pair): string {
    "export " + e.0 + "=" + ("'" + QuoteBody(e.1) + "'") + "\n"
  }

  function ShellText(entries: seq<Pair>): string {
    if entries == [] then "" else ShellText(entries[..|entries| - 1]) + ShellLine(entries[|entries| - 1])
  }

  method ShellQuote(value: string) returns (out: string)
    ensures out == "'" + QuoteBody(value) + "'"
  {
    out := "'";
    for k := 0 to |value|
      invariant out == "'" + QuoteBody(value[..k])
    {
      var c := value[k];
      assert value[..k + 1][..k] == value[..k];
      if c == '\'' {
        out := out + "'\\''";
      } else {
        out := out + [c];
      }
    }
    assert value[..|value|] == value;
    out := out + "'";
  }

  method RenderShell(entries: seq<Pair>) returns (out: string)
    ensures out == ShellText(entries)
  {
    out := "";
    for k := 0 to |entries|
      invariant out == ShellText(entries[..k])
    {
      var (key, value) := entries[k];
      assert entries[..k + 1][..k] == entries[..k];
      var quoted := ShellQuote(value);
      ghost var before := out;
      out := out + "export ";
      out := out + key;
      out := out + "=";
      out := out + quoted;
      out := out + "\n";
      assert out == before + ShellLine(entries[k]);
    }
    assert entries[..|entries|] == entries;
  }

  // ---------- what a shell reads ----------

  /** One command, as its words. */
  type Command = seq<string>

  /** Characters that stand for themselves outside quotes and start nothing: no expansion, operator,
      pattern or comment begins with one. */
  predicate Plain(c: char) {
    IsNameChar(c) || c == '=' || c == '.' || c == '/' || c == '-'
  }

  const NUL := '\0'

  /** The words of the command being read: those finished, and the one under way, if any. */
  datatype Reading = Reading(done: seq<Command>, words: seq<string>, word: Option<string>)

  function Extended(r: Reading, s: string): Reading {
    r.(word := Some((if r.word.Some? then r.word.value else "") + s))
  }

  function WordEnded(r: Reading): Reading {
    if r.word.Some? then Reading(r.done, r.words + [r.word.value], None) else r
  }

  function CommandEnded(r: Reading): Reading {
    var w := WordEnded(r);
    if w.words == [] then w else Reading(w.done + [w.words], [], None)
  }

  /** The commands of a script by the POSIX.1-2017 Shell Command Language: outside quotes blanks end
      words and line feeds end commands; a backslash keeps the next character as it is (section
      2.2.1), or with a line feed joins two lines; single quotes keep every character up to the next
      single quote (section 2.2.2). Anything that could mean more than itself is refused, and so is
      NUL, which no script can hold. */
  function Lex(s: string, quoted: bool, r: Reading): Option<seq<Command>> {
    if s == "" then (if quoted then None else Some(CommandEnded(r).done))
    else if s[0] == NUL then None
    else if quoted then
      (if s[0] == '\'' then Lex(s[1..], false, r) else Lex(s[1..], true, Extended(r, [s[0]])))
    else if s[0] == ' ' then Lex(s[1..], false, WordEnded(r))
    else if s[0] == '\n' then Lex(s[1..], false, CommandEnded(r))
    else if s[0] == '\'' then Lex(s[1..], true, Extended(r, ""))
    else if s[0] == '\\' then
      (if |s| == 1 || s[1] == NUL then None
       else if s[1] == '\n' then Lex(s[2..], false, r)
       else Lex(s[2..], false, Extended(r, [s[1]])))
    else if Plain(s[0]) then Lex(s[1..], false, Extended(r, [s[0]]))
    else None
  }

  function Commands(script: string): Option<seq<Command>> {
    Lex(script, false, Reading([], [], None))
  }

  // ---------- the rendering means one export an entry ----------

  predicate NulFree(s: string) {
    forall k :: 0 <= k < |s| ==> s[k] != NUL
  }

  lemma {:induction false} QuoteCons(c: char, value: string)
    ensures QuoteBody([c] + value) == QuoteChar(c) + QuoteBody(value)
  {
    hide QuoteChar;
    var s := [c] + value;
    if value == "" {
      assert s[..0] == "";
    } else {
      var n := |value| - 1;
      QuoteCons(c, value[..n]);
      assert s[..|s| - 1] == [c] + value[..n];
      assert QuoteBody(s) == QuoteChar(c) + QuoteBody(value[..n]) + QuoteChar(value[n]);
    }
  }

  lemma LexQuotedChar(c: char, rest: string, r: Reading)
    requires r.word.Some?
    ensures Lex(QuoteChar(c) + rest, true, r) == if c == NUL then None else Lex(rest, true, Extended(r, [c]))
  {
    var s := QuoteChar(c) + rest;
    if c == '\'' {
      assert s[0] == '\'' && s[1..][0] == '\\' && s[1..][1] == '\'' && s[1..][2..][0] == '\'';
      assert s[1..][2..][1..] == rest;
      var q := Extended(r, ['\'']);
      assert Extended(q, "") == q by {
        assert q.word.value + "" == q.word.value;
      }
      assert Lex(s, true, r) == Lex(s[1..], false, r);
      assert Lex(s[1..], false, r) == Lex(s[1..][2..], false, q);
      assert Lex(s[1..][2..], false, q) == Lex(rest, true, q);
    } else {
      assert s[0] == c && s[1..] == rest;
    }
  }

  lemma ExtendedTwice(r: Reading, a: string, b: string)
    ensures Extended(Extended(r, a), b) == Extended(r, a + b)
  {
    var w := if r.word.Some? then r.word.value else "";
    assert (w + a) + b == w + (a + b);
  }

  /** Inside quotes the value's own characters are read, and nothing else, if none is NUL. */
  lemma {:induction false} LexQuoteBody(value: string, rest: string, r: Reading)
    requires r.word.Some?
    ensures Lex(QuoteBody(value) + ("'" + rest), true, r) ==
            if NulFree(value) then Lex(rest, false, Extended(r, value)) else None
  {
    hide QuoteChar;
    if value == "" {
      assert QuoteBody("") + ("'" + rest) == "'" + rest;
      assert ("'" + rest)[1..] == rest;
      assert r.word.value + "" == r.word.value;
    } else {
      var c, more := value[0], value[1..];
      assert value == [c] + more;
      QuoteCons(c, more);
      assert QuoteChar(c) + QuoteBody(more) + ("'" + rest) == QuoteChar(c) + (QuoteBody(more) + ("'" + rest));
      LexQuotedChar(c, QuoteBody(more) + ("'" + rest), r);
      if c != NUL {
        LexQuoteBody(more, rest, Extended(r, [c]));
        ExtendedTwice(r, [c], more);
        assert NulFree(value) <==> NulFree(more);
      }
    }
  }

  lemma {:induction false} LexPlain(s: string, rest: string, r: Reading)
    requires r.word.Some? || s != ""
    requires forall k :: 0 <= k < |s| ==> Plain(s[k])
    ensures Lex(s + rest, false, r) == Lex(rest, false, Extended(r, s))
  {
    if s == "" {
      assert s + rest == rest && r.word.value + "" == r.word.value;
    } else {
      assert (s + rest)[0] == s[0] && (s + rest)[1..] == s[1..] + rest;
      PlainChar(s[0]);
      LexPlain(s[1..], rest, Extended(r, [s[0]]));
      ExtendedTwice(r, [s[0]], s[1..]);
      assert [s[0]] + s[1..] == s;
    }
  }

  lemma PlainChar(c: char)
    requires Plain(c)
    ensures c != NUL && c != ' ' && c != '\n' && c != '\'' && c != '\\'
  {
  }

  function ExportOf(e: Pair): Command {
    ["export", e.0 + "=" + e.1]
  }

  lemma LexQuoted(value: string, rest: string, r: Reading)
    requires r.word.Some?
    ensures Lex("'" + (QuoteBody(value) + ("'" + rest)), false, r) ==
            if NulFree(value) then Lex(rest, false, Extended(r, value)) else None
  {
    var s := "'" + (QuoteBody(value) + ("'" + rest));
    assert s[1..] == QuoteBody(value) + ("'" + rest);
    assert Extended(r, "") == r by {
      assert r.word.value + "" == r.word.value;
    }
    LexQuoteBody(value, rest, r);
  }

  lemma LexBlank(rest: string, r: Reading)
    ensures Lex(" " + rest, false, r) == Lex(rest, false, WordEnded(r))
    ensures Lex("\n" + rest, false, r) == Lex(rest, false, CommandEnded(r))
  {
  }

  lemma LineParts(e: Pair, rest: string)
    ensures ShellLine(e) + rest
         == "export" + (" " + ((e.0 + "=") + ("'" + (QuoteBody(e.1) + ("'" + ("\n" + rest))))))
  {
  }

  lemma AssignmentPlain(key: string)
    requires IsValidKey(key)
    ensures forall k :: 0 <= k < |key + "="| ==> Plain((key + "=")[k])
  {
  }

  lemma ExportPlain()
    ensures forall k :: 0 <= k < |"export"| ==> Plain("export"[k])
  {
  }

  lemma ExtendedNew(r: Reading, s: string)
    requires r.word.None?
    ensures Extended(r, s) == r.(word := Some(s))
  {
    assert "" + s == s;
  }

  lemma ExportRead(e: Pair, done: seq<Command>, r: Reading)
    requires r == Reading(done, ["export"], Some(e.0 + "="))
    ensures CommandEnded(Extended(r, e.1)) == Reading(done + [ExportOf(e)], [], None)
  {
    assert ["export"] + [e.0 + "=" + e.1] == ["export", e.0 + "=" + e.1];
  }

  /** One line is one command, read in one piece. */
  lemma LexLine(e: Pair, rest: string, done: seq<Command>)
    requires IsValidKey(e.0)
    ensures Lex(ShellLine(e) + rest, false, Reading(done, [], None)) ==
            if NulFree(e.1) then Lex(rest, false, Reading(done + [ExportOf(e)], [], None)) else None
  {
    hide Lex, ShellLine, QuoteBody, NulFree, IsValidKey;
    var start := Reading(done, [], None);
    var tail := "\n" + rest;
    var quoted := "'" + (QuoteBody(e.1) + ("'" + tail));
    var operand := (e.0 + "=") + quoted;
    LineParts(e, rest);
    ExportPlain();
    AssignmentPlain(e.0);
    LexPlain("export", " " + operand, start);
    ExtendedNew(start, "export");
    LexBlank(operand, Extended(start, "export"));
    var named := Reading(done, ["export"], None);
    assert WordEnded(Reading(done, [], Some("export"))) == named;
    LexPlain(e.0 + "=", quoted, named);
    var r := Reading(done, ["export"], Some(e.0 + "="));
    ExtendedNew(named, e.0 + "=");
    LexQuoted(e.1, tail, r);
    LexBlank(rest, Extended(r, e.1));
    ExportRead(e, done, r);
  }

  lemma {:induction false} TextCons(e: Pair, entries: seq<Pair>)
    ensures ShellText([e] + entries) == ShellLine(e) + ShellText(entries)
  {
    hide ShellLine;
    var all := [e] + entries;
    if entries == [] {
      assert all[..0] == [];
    } else {
      var n := |entries| - 1;
      TextCons(e, entries[..n]);
      assert all[..|all| - 1] == [e] + entries[..n];
      assert (ShellLine(e) + ShellText(entries[..n])) + ShellLine(entries[n])
          == ShellLine(e) + (ShellText(entries[..n]) + ShellLine(entries[n]));
    }
  }

  function Exports(entries: seq<Pair>): (cs: seq<Command>)
    ensures |cs| == |entries|
    ensures forall k :: 0 <= k < |entries| ==> cs[k] == ExportOf(entries[k])
  {
    seq(|entries|, k requires 0 <= k < |entries| => ExportOf(entries[k]))
  }

  predicate AllNulFree(entries: seq<Pair>) {
    forall k :: 0 <= k < |entries| ==> NulFree(entries[k].1)
  }

  lemma {:induction false} LexText(entries: seq<Pair>, done: seq<Command>)
    requires forall k :: 0 <= k < |entries| ==> IsValidKey(entries[k].0)
    ensures Lex(ShellText(entries), false, Reading(done, [], None)) ==
            if AllNulFree(entries) then Some(done + Exports(entries)) else None
  {
    hide NulFree, AllNulFree, ShellText, ShellLine, IsValidKey, Lex;
    if entries == [] {
      LexNothing(done);
    } else {
      var e, rest := entries[0], entries[1..];
      assert entries == [e] + rest;
      TextCons(e, rest);
      LexLine(e, ShellText(rest), done);
      if NulFree(e.1) {
        LexText(rest, done + [ExportOf(e)]);
      }
      ExportsCons(e, rest, done);
    }
  }

  lemma ExportsCons(e: Pair, rest: seq<Pair>, done: seq<Command>)
    ensures AllNulFree([e] + rest) <==> NulFree(e.1) && AllNulFree(rest)
    ensures done + [ExportOf(e)] + Exports(rest) == done + Exports([e] + rest)
  {
    hide NulFree, ExportOf;
    var all := [e] + rest;
    assert all[0] == e && all[1..] == rest;
    AllNulFreeTail(all);
    ExportsTail(all);
    Regroup(done, ExportOf(e), Exports(rest));
  }

  lemma AllNulFreeTail(all: seq<Pair>)
    requires all != []
    ensures AllNulFree(all) <==> NulFree(all[0].1) && AllNulFree(all[1..])
  {
  }

  lemma ExportsTail(all: seq<Pair>)
    requires all != []
    ensures Exports(all) == [ExportOf(all[0])] + Exports(all[1..])
  {
  }

  lemma Regroup<T>(a: seq<T>, x: T, c: seq<T>)
    ensures a + [x] + c == a + ([x] + c)
  {
  }

  lemma LexNothing(done: seq<Command>)
    ensures ShellText([]) == "" && AllNulFree([])
    ensures Lex("", false, Reading(done, [], None)) == Some(done + Exports([]))
  {
    assert done + Exports([]) == done;
  }

  /** A shell reads the rendering of entries with valid names as exactly one `export` of the original
      value for each, in order, if no value holds a NUL; and only then can it read it at all. */
  lemma ShellReadsExports(entries: seq<Pair>)
    requires forall k :: 0 <= k < |entries| ==> IsValidKey(entries[k].0)
    ensures Commands(ShellText(entries)) == if AllNulFree(entries) then Some(Exports(entries)) else None
  {
    LexText(entries, []);
    assert [] + Exports(entries) == Exports(entries);
  }
}
