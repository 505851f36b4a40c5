/** Redaction of headers and JSON trees before they are traced. */
module Redact {
  import opened Wrappers
  import opened Json
  import opened Overlay

  const KEY_HINTS: seq<string> := [
    "authorization", "api-key", "api_key", "apikey", "cookie",
    "token", "secret", "credential", "password", "x-api-key"]

  const VALUE_HINTS: seq<string> := ["bearer ", "sk-", "api_key"]

  const MARKER: string := "[REDACTED]"

  /**
   * Lower case as far as the hints can tell: apart from A to Z only the dotted capital I and
   * the Kelvin sign become ASCII letters.
   */
  function LowerChar(c: char): char {
    if 'A' <= c <= 'Z' then c - 'A' + 'a'
    else if c == '\U{130}' then 'i'
    else if c == '\U{212a}' then 'k'
    else c
  }

  function Lower(s: string): string { seq(|s|, i requires 0 <= i < |s| => LowerChar(s[i])) }

  function Dashed(s: string): string { seq(|s|, i requires 0 <= i < |s| => if s[i] == '_' then '-' else s[i]) }

  predicate OccursAt(s: string, t: string, i: nat) {
    i + |t| <= |s| && s[i..i + |t|] == t
  }

  predicate Contains(s: string, t: string) {
    exists i :: 0 <= i <= |s| && OccursAt(s, t, i)
  }

  /** HeaderName: the name of something secret. */
  predicate Sensitive(name: string) {
    exists i :: 0 <= i < |KEY_HINTS| && Contains(Dashed(Lower(name)), KEY_HINTS[i])
  }

  predicate Hinted(s: string) {
    exists i :: 0 <= i < |VALUE_HINTS| && Contains(Lower(s), VALUE_HINTS[i])
  }

  function Value(s: string): string { if Hinted(s) then MARKER else s }

  function RedactEntry(k: string, v: Json): Json
    decreases v, 1
  {
    if Sensitive(k) then Str(MARKER)
    else if v.Str? then Str(Value(v.s))
    else Redacted(v)
  }

  function Redacted(v: Json): Json
    decreases v, 0
  {
    match v
    case Obj(f) => Obj(map k | k in f :: RedactEntry(k, f[k]))
    case Arr(xs) => Arr(RedactedItems(xs))
    case _ => v
  }

  function RedactedItems(xs: seq<Json>): (r: seq<Json>)
    ensures |r| == |xs| && forall i :: 0 <= i < |xs| ==> r[i] == Redacted(xs[i])
    decreases xs, 0
  {
    if xs == [] then [] else [Redacted(xs[0])] + RedactedItems(xs[1..])
  }

  // ---- the code ----------------------------------------------------------------------------------

  /** redactValue: rewrites the maps it finds, in any order of their keys. */
  method RedactValue(v: Json) returns (r: Json)
    ensures r == Redacted(v)
    decreases v, 1
  {
    match v {
      case Obj(f) =>
        var m := new JsonMap(f);
        RedactMap(m);
        r := Obj(m.fields);
      case Arr(xs) =>
        var done: seq<Json> := [];
        for i := 0 to |xs|
          invariant |done| == i && forall j :: 0 <= j < i ==> done[j] == Redacted(xs[j])
        {
          var child := RedactValue(xs[i]);
          done := done + [child];
        }
        assert done == RedactedItems(xs);
        r := Arr(done);
      case _ =>
        r := v;
    }
  }

  method RedactMap(m: JsonMap)
    modifies m
    ensures Obj(m.fields) == Redacted(Obj(old(m.fields)))
    decreases Obj(m.fields), 0
  {
    ghost var f := m.fields;
    var todo := m.fields.Keys;
    while todo != {}
      invariant todo <= f.Keys == m.fields.Keys
      invariant forall k :: k in f ==> m.fields[k] == if k in todo then f[k] else RedactEntry(k, f[k])
      decreases |todo|
    {
      var k :| k in todo;
      assert m.fields[k] == f[k];
      var entry := RedactChild(k, m.fields[k]);
      m.fields := m.fields[k := entry];
      todo := todo - {k};
    }
    EveryEntryRedacted(f, m.fields);
  }

  lemma EveryEntryRedacted(f: Fields, g: Fields)
    requires g.Keys == f.Keys && forall k :: k in f ==> g[k] == RedactEntry(k, f[k])
    ensures Obj(g) == Redacted(Obj(f))
  {
  }

  /** One turn of the loop over a map. */
  method RedactChild(k: string, child: Json) returns (r: Json)
    ensures r == RedactEntry(k, child)
    decreases child, 2
  {
    if Sensitive(k) {
      r := Str(MARKER);
    } else if child.Str? {
      r := Str(Value(child.s));
    } else {
      r := RedactValue(child);
    }
  }

  function HeaderValue(k: string, v: string): string { if Sensitive(k) then MARKER else Value(v) }

  function RedactedHeaders(h: map<string, string>): map<string, string> { map k | k in h :: HeaderValue(k, h[k]) }

  /** Headers fills a fresh map; without headers there is none. */
  method Headers(h: Option<map<string, string>>) returns (out: Option<map<string, string>>)
    ensures out == if h.None? then None else Some(RedactedHeaders(h.value))
  {
    if h.None? {
      return None;
    }
    var result: map<string, string> := map[];
    var todo := h.value.Keys;
    while todo != {}
      invariant todo <= h.value.Keys && result.Keys == h.value.Keys - todo
      invariant forall k :: k in result ==> result[k] == HeaderValue(k, h.value[k])
      decreases |todo|
    {
      var k :| k in todo;
      if Sensitive(k) {
        result := result[k := MARKER];
      } else {
        result := result[k := Value(h.value[k])];
      }
      todo := todo - {k};
    }
    assert result == RedactedHeaders(h.value);
    out := Some(result);
  }

  /** Headers as the trace event carries them. */
  function HeadersJson(h: map<string, string>): Json { Obj(map k | k in h :: Str(h[k])) }

  lemma {:induction false} HeaderEntryAgrees(k: string, v: string)
    ensures RedactEntry(k, Str(v)) == Str(HeaderValue(k, v))
  {
  }

  lemma HeadersLikeEvent(h: map<string, string>)
    ensures HeadersJson(RedactedHeaders(h)) == Redacted(HeadersJson(h))
  {
    var f, g := HeadersJson(h).fields, HeadersJson(RedactedHeaders(h)).fields;
    forall k | k in f ensures g[k] == RedactEntry(k, f[k]) {
      HeaderEntryAgrees(k, h[k]);
    }
    EveryEntryRedacted(f, g);
  }

  /** Redacting headers first and the event that carries them later is redacting them once. */
  lemma HeadersAgree(h: map<string, string>)
    ensures HeadersJson(RedactedHeaders(h)) == Redacted(HeadersJson(h))
    ensures Redacted(HeadersJson(RedactedHeaders(h))) == HeadersJson(RedactedHeaders(h))
  {
    HeadersLikeEvent(h);
    RedactingTwice(HeadersJson(h));
  }

  // ---- the hints -----------------------------------------------------------------------------------------

  lemma NotContains(s: string, t: string, c: char)
    requires c in t && c !in s
    ensures !Contains(s, t)
  {
  }

  /** Underscores count as dashes, so the hint "api_key" never matches a name and is never missed. */
  lemma UnderscoreHint(name: string)
    ensures !Contains(Dashed(Lower(name)), "api_key")
    ensures Contains(Lower(name), "api_key") ==> Sensitive(name)
  {
    var low, n := Lower(name), Dashed(Lower(name));
    assert "api_key"[3] == '_' && forall i :: 0 <= i < |n| ==> n[i] != '_';
    NotContains(n, "api_key", '_');
    if Contains(low, "api_key") {
      var i :| 0 <= i <= |low| && OccursAt(low, "api_key", i);
      forall j | 0 <= j < 7 ensures n[i..i + 7][j] == "api-key"[j] {
        assert low[i..i + 7][j] == low[i + j];
      }
      assert n[i..i + 7] == "api-key";
      assert OccursAt(n, "api-key", i);
      assert KEY_HINTS[1] == "api-key" && Contains(n, KEY_HINTS[1]);
    }
  }

  /** Neither case nor the choice between dash and underscore hides a name. */
  lemma CaseAndDashesDoNotMatter(name: string)
    ensures Sensitive(Lower(name)) <==> Sensitive(name)
    ensures Sensitive(Dashed(name)) <==> Sensitive(name)
  {
    assert Dashed(Lower(Lower(name))) == Dashed(Lower(name));
    assert Dashed(Lower(Dashed(name))) == Dashed(Lower(name));
  }

  // ---- which strings are redacted, character by character -------------------------------------------

  /** A character that stands for a letter of a hint: in either case, or one of the two that lower-case to it. */
  predicate StandsFor(c: char, h: char) {
    || c == h
    || ('a' <= h <= 'z' && c as int == h as int - 32)
    || (h == 'i' && c == '\U{130}')
    || (h == 'k' && c == '\U{212a}')
  }

  /** The hint stands at a position of a value. */
  predicate ReadsAt(s: string, i: int, hint: string) {
    0 <= i <= |s| - |hint| && forall j :: 0 <= j < |hint| ==> StandsFor(s[i + j], hint[j])
  }

  /** A value to be redacted. */
  predicate HoldsSecret(s: string) {
    exists i :: 0 <= i < |s| && (ReadsAt(s, i, "bearer ") || ReadsAt(s, i, "sk-") || ReadsAt(s, i, "api_key"))
  }

  /** The hint stands at a position of a name; dash and underscore are the same there. */
  predicate NamedAt(s: string, i: int, hint: string) {
    && 0 <= i <= |s| - |hint|
    && forall j :: 0 <= j < |hint| ==>
         if hint[j] in {'-', '_'} then s[i + j] in {'-', '_'} else StandsFor(s[i + j], hint[j])
  }

  const SECRET_NAMES: set<string> := {
    "authorization", "api-key", "api_key", "apikey", "cookie",
    "token", "secret", "credential", "password", "x-api-key"}

  /** A name whose entry is to be redacted. */
  predicate NamesSecret(name: string) {
    exists i, hint :: 0 <= i < |name| && hint in SECRET_NAMES && NamedAt(name, i, hint)
  }

  lemma LowerMeans(c: char, h: char)
    requires h < '\U{80}' && !('A' <= h <= 'Z')
    ensures LowerChar(c) == h <==> StandsFor(c, h)
  {
  }

  /** A hint of ASCII characters without capitals. */
  predicate Plain(hint: string) {
    hint != "" && forall j :: 0 <= j < |hint| ==> hint[j] < '\U{80}' && !('A' <= hint[j] <= 'Z')
  }

  lemma OccursMeans(s: string, i: nat, hint: string)
    requires Plain(hint)
    ensures OccursAt(Lower(s), hint, i) <==> ReadsAt(s, i, hint)
  {
    if i + |hint| <= |s| {
      var part := Lower(s)[i..i + |hint|];
      forall j | 0 <= j < |hint| ensures part[j] == hint[j] <==> StandsFor(s[i + j], hint[j]) {
        LowerMeans(s[i + j], hint[j]);
      }
      assert part == hint <==> forall j :: 0 <= j < |hint| ==> part[j] == hint[j];
    }
  }

  lemma ContainsMeans(s: string, hint: string)
    requires Plain(hint)
    ensures Contains(Lower(s), hint) <==> exists i :: 0 <= i < |s| && ReadsAt(s, i, hint)
  {
    if Contains(Lower(s), hint) {
      var i :| 0 <= i <= |s| && OccursAt(Lower(s), hint, i);
      OccursMeans(s, i, hint);
    }
    if i :| 0 <= i < |s| && ReadsAt(s, i, hint) {
      OccursMeans(s, i, hint);
    }
  }

  lemma HintedMeans(s: string)
    ensures Hinted(s) <==> HoldsSecret(s)
  {
    assert VALUE_HINTS[0] == "bearer " && VALUE_HINTS[1] == "sk-" && VALUE_HINTS[2] == "api_key";
    ContainsMeans(s, "bearer ");
    ContainsMeans(s, "sk-");
    ContainsMeans(s, "api_key");
  }

  /**
   * A value is replaced by the marker exactly if, somewhere and in whatever case, it reads "bearer ",
   * "sk-" or "api_key"; any other value stays.
   */
  lemma ValueMeans(s: string)
    ensures Value(s) == if HoldsSecret(s) then "[REDACTED]" else s
  {
    HintedMeans(s);
  }

  lemma NameOccursMeans(s: string, i: nat, hint: string)
    requires Plain(hint) && '_' !in hint
    ensures OccursAt(Dashed(Lower(s)), hint, i) <==> NamedAt(s, i, hint)
  {
    if i + |hint| <= |s| {
      var part := Dashed(Lower(s))[i..i + |hint|];
      forall j | 0 <= j < |hint|
        ensures part[j] == hint[j]
                <==> if hint[j] in {'-', '_'} then s[i + j] in {'-', '_'} else StandsFor(s[i + j], hint[j])
      {
        LowerMeans(s[i + j], hint[j]);
        LowerMeans(s[i + j], '_');
      }
      assert part == hint <==> forall j :: 0 <= j < |hint| ==> part[j] == hint[j];
    }
  }

  lemma NameContainsMeans(s: string, hint: string)
    requires Plain(hint) && '_' !in hint
    ensures Contains(Dashed(Lower(s)), hint) <==> exists i :: 0 <= i < |s| && NamedAt(s, i, hint)
  {
    if Contains(Dashed(Lower(s)), hint) {
      var i :| 0 <= i <= |s| && OccursAt(Dashed(Lower(s)), hint, i);
      NameOccursMeans(s, i, hint);
    }
    if i :| 0 <= i < |s| && NamedAt(s, i, hint) {
      NameOccursMeans(s, i, hint);
    }
  }

  /** The underscore in a hint reads like a dash, so the two spellings are one hint. */
  lemma UnderscoreReadsLikeDash(s: string, i: int)
    ensures NamedAt(s, i, "api_key") <==> NamedAt(s, i, "api-key")
  {
    assert "api_key"[3] == '_' && "api-key"[3] == '-';
    assert forall j :: 0 <= j < 7 && j != 3 ==> "api_key"[j] == "api-key"[j];
  }

  /** Where a hint stands in the list; the one with the underscore counts as the one with the dash. */
  lemma HintNumber(hint: string) returns (n: nat)
    requires hint in SECRET_NAMES
    ensures n < |KEY_HINTS| && n != 2 && KEY_HINTS[n] == if hint == "api_key" then "api-key" else hint
  {
    assert |KEY_HINTS| == 10 && KEY_HINTS[9] == "x-api-key";
    n := if hint == "authorization" then 0
    else if hint in {"api-key", "api_key"} then 1
    else if hint == "apikey" then 3
    else if hint == "cookie" then 4
    else if hint == "token" then 5
    else if hint == "secret" then 6
    else if hint == "credential" then 7
    else if hint == "password" then 8
    else 9;
  }

  lemma PlainHint(n: nat)
    requires n < |KEY_HINTS| && n != 2
    ensures Plain(KEY_HINTS[n]) && '_' !in KEY_HINTS[n]
  {
  }

  lemma HintMeans(name: string, n: nat)
    requires n < |KEY_HINTS| && n != 2
    ensures Contains(Dashed(Lower(name)), KEY_HINTS[n])
            <==> exists i :: 0 <= i < |name| && NamedAt(name, i, KEY_HINTS[n])
  {
    PlainHint(n);
    NameContainsMeans(name, KEY_HINTS[n]);
  }

  lemma SensitiveIsNamed(name: string)
    requires Sensitive(name)
    ensures NamesSecret(name)
  {
    UnderscoreHint(name);
    var n :| 0 <= n < |KEY_HINTS| && Contains(Dashed(Lower(name)), KEY_HINTS[n]);
    HintMeans(name, n);
    assert KEY_HINTS[n] in SECRET_NAMES;
  }

  lemma NamedIsSensitive(name: string)
    requires NamesSecret(name)
    ensures Sensitive(name)
  {
    var i, hint :| 0 <= i < |name| && hint in SECRET_NAMES && NamedAt(name, i, hint);
    UnderscoreReadsLikeDash(name, i);
    var n := HintNumber(hint);
    HintMeans(name, n);
  }

  /** A name is secret exactly if one of the ten hints stands in it, in whatever case, dashes and underscores alike. */
  lemma SensitiveMeans(name: string)
    ensures Sensitive(name) <==> NamesSecret(name)
  {
    if Sensitive(name) {
      SensitiveIsNamed(name);
    }
    if NamesSecret(name) {
      NamedIsSensitive(name);
    }
  }

  /** What becomes of an entry, in these terms. */
  lemma {:induction false} EntryMeans(k: string, v: Json)
    ensures RedactEntry(k, v)
            == if NamesSecret(k) || (v.Str? && HoldsSecret(v.s)) then Str("[REDACTED]")
               else if v.Str? then v else Redacted(v)
  {
    SensitiveMeans(k);
    if v.Str? {
      ValueMeans(v.s);
    }
  }

  /** Every header stays; it holds the marker exactly if its name or its value is a secret, and else its value. */
  lemma HeadersMean(h: map<string, string>)
    ensures RedactedHeaders(h).Keys == h.Keys
    ensures forall k :: k in h ==>
              RedactedHeaders(h)[k] == if NamesSecret(k) || HoldsSecret(h[k]) then "[REDACTED]" else h[k]
  {
    forall k | k in h
      ensures RedactedHeaders(h)[k] == if NamesSecret(k) || HoldsSecret(h[k]) then "[REDACTED]" else h[k]
    {
      HeaderEntryAgrees(k, h[k]);
      EntryMeans(k, Str(h[k]));
    }
  }

  // ---- what redaction leaves behind ------------------------------------------------------------------

  lemma MarkerIsClean()
    ensures !HoldsSecret("[REDACTED]")
  {
    var low := Lower(MARKER);
    assert low == "[redacted]";
    assert "bearer "[0] == 'b' && "sk-"[0] == 's' && "api_key"[1] == 'p';
    forall i | 0 <= i < |VALUE_HINTS| ensures !Contains(low, VALUE_HINTS[i]) {
      var c := if i == 0 then 'b' else if i == 1 then 's' else 'p';
      assert c in VALUE_HINTS[i] && c !in low;
      NotContains(low, VALUE_HINTS[i], c);
    }
    HintedMeans(MARKER);
  }

  /** At every depth: secret names hold the marker, strings directly in an object carry no hint. */
  predicate Clean(v: Json) {
    match v
    case Obj(f) =>
      forall k :: k in f ==>
        if NamesSecret(k) then f[k] == Str("[REDACTED]")
        else if f[k].Str? then !HoldsSecret(f[k].s)
        else Clean(f[k])
    case Arr(xs) => forall i :: 0 <= i < |xs| ==> Clean(xs[i])
    case _ => true
  }

  lemma {:induction false} RedactedIsClean(v: Json)
    ensures Clean(Redacted(v))
  {
    MarkerIsClean();
    match v
    case Obj(f) =>
      forall k | k in f ensures EntryClean(k, RedactEntry(k, f[k])) {
        EntryMeans(k, f[k]);
        if !f[k].Str? { RedactedIsClean(f[k]); }
      }
      assert forall k :: k in f ==> EntryClean(k, Redacted(v).fields[k]);
    case Arr(xs) =>
      forall i | 0 <= i < |xs| ensures Clean(Redacted(xs[i])) { RedactedIsClean(xs[i]); }
    case _ =>
  }

  /** Redaction changes nothing exactly where there is nothing to redact. */
  lemma {:induction false} FixedIffClean(v: Json)
    ensures Redacted(v) == v <==> Clean(v)
  {
    MarkerIsClean();
    match v
    case Obj(f) =>
      var g := Redacted(v).fields;
      forall k | k in f ensures g[k] == f[k] <==> EntryClean(k, f[k]) {
        if !f[k].Str? { FixedIffClean(f[k]); }
        EntryFixedIffClean(k, f[k]);
      }
      assert Redacted(v) == v <==> forall k :: k in f ==> g[k] == f[k] by {
        assert g.Keys == f.Keys;
        if forall k :: k in f ==> g[k] == f[k] { assert g == f; }
      }
      assert Clean(v) <==> forall k :: k in f ==> EntryClean(k, f[k]);
    case Arr(xs) =>
      forall i | 0 <= i < |xs| ensures Redacted(xs[i]) == xs[i] <==> Clean(xs[i]) { FixedIffClean(xs[i]); }
      if Clean(v) { assert RedactedItems(xs) == xs; }
      if Redacted(v) == v { assert RedactedItems(xs) == xs; }
    case _ =>
  }

  lemma {:induction false} EntryFixedIffClean(k: string, w: Json)
    requires !w.Str? ==> (Redacted(w) == w <==> Clean(w))
    ensures RedactEntry(k, w) == w <==> EntryClean(k, w)
  {
    EntryMeans(k, w);
    MarkerIsClean();
  }

  predicate EntryClean(k: string, v: Json) {
    if NamesSecret(k) then v == Str("[REDACTED]") else if v.Str? then !HoldsSecret(v.s) else Clean(v)
  }

  /** So redacting again, on the other side of the connection or before storing, is harmless. */
  lemma {:induction false} RedactingTwice(v: Json)
    ensures Redacted(Redacted(v)) == Redacted(v)
  {
    RedactedIsClean(v);
    FixedIffClean(Redacted(v));
  }

  // ---- path by path -------------------------------------------------------------------------------------

  datatype Step = Key(name: string) | Index(i: nat)

  function At(v: Json, path: seq<Step>): Option<Json> {
    if path == [] then Some(v)
    else
      match path[0]
      case Key(k) => if v.Obj? && k in v.fields then At(v.fields[k], path[1..]) else None
      case Index(i) => if v.Arr? && i < |v.items| then At(v.items[i], path[1..]) else None
  }

  predicate ThroughSecret(path: seq<Step>) {
    exists i :: 0 <= i < |path| && path[i].Key? && NamesSecret(path[i].name)
  }

  /** What becomes of a value, given whether it stands directly in an object. */
  function Becomes(v: Json, inObject: bool): Json {
    if v.Str? then (if inObject && HoldsSecret(v.s) then Str("[REDACTED]") else v) else Redacted(v)
  }

  /**
   * Off the secret names every path leads where it led before, array lengths and keys
   * included: to the marker for a hinted string directly in an object, and to an unchanged
   * scalar otherwise, in particular to an unchanged string in an array.
   */
  lemma {:induction false} RedactedByPath(v: Json, path: seq<Step>)
    requires !ThroughSecret(path)
    ensures At(Redacted(v), path)
            == if At(v, path).None? then None
               else Some(Becomes(At(v, path).value, path != [] && path[|path| - 1].Key?))
    decreases |path|, 0
  {
    if path != [] {
      var rest := path[1..];
      assert forall i :: 0 <= i < |rest| ==> rest[i] == path[i + 1];
      match path[0]
      case Key(k) =>
        assert !NamesSecret(k);
        if v.Obj? && k in v.fields {
          EntryMeans(k, v.fields[k]);
          Below(v.fields[k], rest, true);
        }
      case Index(i) =>
        if v.Arr? && i < |v.items| {
          assert Redacted(v).items[i] == Redacted(v.items[i]);
          Below(v.items[i], rest, false);
        }
    }
  }

  lemma {:induction false} Below(w: Json, rest: seq<Step>, inObject: bool)
    requires !ThroughSecret(rest)
    ensures At(Becomes(w, inObject), rest)
            == if At(w, rest).None? then None
               else Some(Becomes(At(w, rest).value, if rest == [] then inObject else rest[|rest| - 1].Key?))
    decreases |rest|, 1
  {
    if rest != [] && !w.Str? {
      RedactedByPath(w, rest);
    }
  }

  /** A secret name holds the marker, whatever it held, and nothing below it is left. */
  lemma {:induction false} SecretByPath(v: Json, path: seq<Step>, k: string, below: seq<Step>)
    requires !ThroughSecret(path) && NamesSecret(k) && At(v, path + [Key(k)]).Some?
    ensures At(Redacted(v), path + [Key(k)]) == Some(Str("[REDACTED]"))
    ensures below != [] ==> At(Redacted(v), path + [Key(k)] + below) == None
  {
    AtConcat(v, path, [Key(k)]);
    var w := At(v, path).value;
    assert [Key(k)][1..] == [];
    assert w.Obj? && k in w.fields;
    RedactedByPath(v, path);
    assert At(Redacted(v), path) == Some(Redacted(w));
    EntryMeans(k, w.fields[k]);
    AtConcat(Redacted(v), path, [Key(k)]);
    AtConcat(Redacted(v), path + [Key(k)], below);
  }

  lemma {:induction false} AtConcat(v: Json, a: seq<Step>, b: seq<Step>)
    ensures At(v, a + b) == if At(v, a).None? then None else At(At(v, a).value, b)
    decreases |a|
  {
    if a == [] {
      assert a + b == b;
    } else {
      assert (a + b)[0] == a[0] && (a + b)[1..] == a[1..] + b;
      match a[0]
      case Key(k) => if v.Obj? && k in v.fields { AtConcat(v.fields[k], a[1..], b); }
      case Index(i) => if v.Arr? && i < |v.items| { AtConcat(v.items[i], a[1..], b); }
    }
  }
}
