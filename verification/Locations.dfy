/** The associated data of every sealed field: a text naming what the field is and where it lives. */
module Locations {
  import opened Aead
  import opened Outcomes
  import Decimal
  import Utf8

  datatype Field = DataKey | Name | Value
  datatype Record = Org | Project | Environment

  datatype Location =
    | SecretField(field: Field, env: string, secret: string, version: int)
    | DisplayName(record: Record, id: string)

  // ---------- the texts ----------

  function FieldTag(field: Field): string {
    match field
    case DataKey => "datakey"
    case Name => "name"
    case Value => "value"
  }

  function RecordTag(record: Record): string {
    match record
    case Org => "org-name"
    case Project => "project-name"
    case Environment => "env-name"
  }

  function Tag(l: Location): string {
    if l.SecretField? then FieldTag(l.field) else RecordTag(l.record)
  }

  function AadText(l: Location): string {
    match l
    case SecretField(f, env, secret, version) =>
      "sotto/v1/" + FieldTag(f) + "|env=" + env + "|secret=" + secret + "|ver=" + Decimal.Decimal(version)
    case DisplayName(r, id) => "sotto/v1/" + RecordTag(r) + "|id=" + id
  }

  function Aad(l: Location): seq<Utf8.Byte> {
    Utf8.Encode(AadText(l))
  }

  // ---------- identifiers ----------

  predicate IsIdChar(c: char) {
    'A' <= c <= 'Z' || 'a' <= c <= 'z' || '0' <= c <= '9' || c == '_' || c == '-'
  }

  predicate IsId(s: string) {
    forall k :: 0 <= k < |s| ==> IsIdChar(s[k])
  }

  predicate WellNamed(l: Location) {
    match l
    case SecretField(_, env, secret, _) => IsId(env) && IsId(secret)
    case DisplayName(_, id) => IsId(id)
  }

  // ---------- a text names one place ----------

  predicate BarFree(s: string) {
    forall k :: 0 <= k < |s| ==> s[k] != '|'
  }

  /** What stands before the first bar, and what stands after it, are determined. */
  lemma SplitAtBar(a: string, b: string, c: string, d: string)
    requires BarFree(a) && BarFree(c) && a + "|" + b == c + "|" + d
    ensures a == c && b == d
  {
    var s, t := a + "|" + b, c + "|" + d;
    assert s[|a|] == '|' && t[|c|] == '|';
    assert forall k :: 0 <= k < |a| ==> s[k] == a[k];
    assert forall k :: 0 <= k < |c| ==> t[k] == c[k];
    assert |a| == |c|;
    assert a == s[..|a|] && c == t[..|c|];
    assert b == s[|a| + 1..] && d == t[|c| + 1..];
  }

  lemma SplitSame(p: string, a: string, b: string)
    requires p + a == p + b
    ensures a == b
  {
    assert a == (p + a)[|p|..] && b == (p + b)[|p|..];
  }

  function Rest(l: Location): string {
    match l
    case SecretField(_, env, secret, version) => "env=" + env + "|" + SecretRest(secret, version)
    case DisplayName(_, id) => "id=" + id
  }

  function SecretRest(secret: string, version: int): string {
    "secret=" + secret + "|" + ("ver=" + Decimal.Decimal(version))
  }

  lemma BarJoin(a: string, tag: string, barTag: string, b: string)
    requires barTag == "|" + tag
    ensures a + barTag + b == a + "|" + (tag + b)
  {
  }

  lemma SecretInParts(head: string, env: string, secret: string, ver: string)
    ensures head + "|env=" + env + "|secret=" + secret + "|ver=" + ver
         == head + "|" + ("env=" + env + "|" + ("secret=" + secret + "|" + ("ver=" + ver)))
  {
  }

  lemma TextInParts(l: Location)
    ensures AadText(l) == "sotto/v1/" + Tag(l) + "|" + Rest(l)
    ensures BarFree("sotto/v1/" + Tag(l))
  {
    match l
    case SecretField(f, env, secret, version) =>
      SecretInParts("sotto/v1/" + FieldTag(f), env, secret, Decimal.Decimal(version));
    case DisplayName(r, id) =>
      BarJoin("sotto/v1/" + RecordTag(r), "id=", "|id=", id);
  }

  lemma TagsDiffer(l: Location, m: Location)
    requires Tag(l) == Tag(m)
    ensures l.SecretField? == m.SecretField?
    ensures l.SecretField? ==> l.field == m.field
    ensures l.DisplayName? ==> l.record == m.record
  {
  }

  /** Over ids of letters, digits, `_` and `-`, no two locations have the same associated data:
      not two secrets, environments or versions, not two fields, not a field and a display name. */
  lemma OneLocation(l: Location, m: Location)
    requires WellNamed(l) && WellNamed(m) && Aad(l) == Aad(m)
    ensures l == m
  {
    Utf8.Injective(AadText(l), AadText(m));
    TextInParts(l);
    TextInParts(m);
    SplitAtBar("sotto/v1/" + Tag(l), Rest(l), "sotto/v1/" + Tag(m), Rest(m));
    SplitSame("sotto/v1/", Tag(l), Tag(m));
    TagsDiffer(l, m);
    if l.SecretField? {
      SplitAtBar("env=" + l.env, SecretRest(l.secret, l.version),
                 "env=" + m.env, SecretRest(m.secret, m.version));
      SplitSame("env=", l.env, m.env);
      SplitAtBar("secret=" + l.secret, "ver=" + Decimal.Decimal(l.version),
                 "secret=" + m.secret, "ver=" + Decimal.Decimal(m.version));
      SplitSame("secret=", l.secret, m.secret);
      SplitSame("ver=", Decimal.Decimal(l.version), Decimal.Decimal(m.version));
      Decimal.Injective(l.version, m.version);
    } else {
      SplitSame("id=", l.id, m.id);
    }
  }

  lemma Shift(p: string, a: string, q: string, b: string, c: string)
    ensures p + a + q + (b + q + c) == p + (a + q + b) + q + c
  {
  }

  /** Without that restriction two different secrets can share their associated data. */
  lemma DelimitersForge()
    ensures var l := SecretField(Value, "a", "b|secret=c", 1);
            var m := SecretField(Value, "a|secret=b", "c", 1);
            l != m && Aad(l) == Aad(m)
  {
    assert "b|secret=c" == "b" + "|secret=" + "c";
    assert "a|secret=b" == "a" + "|secret=" + "b";
    Shift("sotto/v1/" + FieldTag(Value) + "|env=", "a", "|secret=", "b", "c");
    assert "a" != "a|secret=b" by {
      assert |"a"| == 1;
    }
  }

  // ---------- a blob opens in one place ----------

  function SealAt(key: Key, plaintext: seq<Utf8.Byte>, l: Location): Blob {
    Seal(key, plaintext, Aad(l))
  }

  function OpenAt(key: Key, blob: Blob, l: Location): Result<seq<Utf8.Byte>, CryptoError> {
    Open(key, blob, Aad(l))
  }

  lemma OpensInPlace(k: Key, plaintext: seq<Utf8.Byte>, l: Location, k2: Key, m: Location)
    requires WellNamed(l) && WellNamed(m)
    ensures OpenAt(k2, SealAt(k, plaintext, l), m) ==
            if k2 == k && m == l then Ok(plaintext) else Err(Crypto)
  {
    if Aad(l) == Aad(m) {
      OneLocation(l, m);
    }
  }
}
