/**
 * Python's format-string scanner (`string.Formatter().parse`) and the
 * substitution done by `str.format_map`, restricted to replacement fields
 * that are plain names.
 *
 * `Parse` follows the C scanner behind `Formatter.parse` chunk by chunk:
 * each chunk is some literal text optionally followed by one replacement
 * field. A doubled brace ends a chunk whose literal keeps ONE brace; a lone
 * `}`, a `{` at the very end, a `{` inside a field name and a field that
 * never closes are errors (Python raises `ValueError` for each).
 *
 * `Token`, `Spelling` and `Expand` are an independent reference: a template
 * is a sequence of characters, escaped braces and placeholders, `Spelling`
 * is how it is written and `Expand` what it means once every placeholder
 * has a value. `ParseSpelling` and `ParseTokens` connect the two both ways.
 */
module FormatString {
  import opened Wrappers
  import opened Values

  datatype ParseError =
    | SingleClose                    // "Single '}' encountered in format string"
    | SingleOpen                     // "Single '{' encountered in format string"
    | OpenInFieldName                // "unexpected '{' in field name"
    | UnclosedField                  // "expected '}' before end of string"
    | UnsupportedField(text: string) // index, attribute, conversion, format spec or positional field

  /** One item of `Formatter.parse`: literal text, then the field name if a field follows. */
  datatype Chunk = Chunk(literal: string, field: Option<string>)

  const BRACES: set<char> := {'{', '}'}

  /** Characters that end a field name in the C scanner. */
  const FIELD_STOPS: set<char> := {'{', '}', '[', ':', '!'}

  /** Position of the first character of `s` in `stops`, or `|s|` if there is none. */
  function IndexOfAny(s: string, stops: set<char>): (i: nat)
    ensures i <= |s|
    ensures forall k :: 0 <= k < i ==> s[k] !in stops
    ensures i < |s| ==> s[i] in stops
    decreases |s|
  {
    if s == [] then 0 else if s[0] in stops then 0 else 1 + IndexOfAny(s[1..], stops)
  }

  /** How many runs of ten decimal digits lie outside ASCII. */
  const OTHER_RUNS := 67

  /**
   * The first code point of the `k`-th run of ten decimal digits outside
   * ASCII (Unicode general category Nd, version 15.0), in increasing order.
   * The mathematical digits U+1D7CE..U+1D7FF count as five runs.
   */
  function RunStart(k: nat): (r: int)
    requires k < OTHER_RUNS
    ensures r >= 0x0660
  {
    match k
    case 0 => 0x0660
    case 1 => 0x06F0
    case 2 => 0x07C0
    case 3 => 0x0966
    case 4 => 0x09E6
    case 5 => 0x0A66
    case 6 => 0x0AE6
    case 7 => 0x0B66
    case 8 => 0x0BE6
    case 9 => 0x0C66
    case 10 => 0x0CE6
    case 11 => 0x0D66
    case 12 => 0x0DE6
    case 13 => 0x0E50
    case 14 => 0x0ED0
    case 15 => 0x0F20
    case 16 => 0x1040
    case 17 => 0x1090
    case 18 => 0x17E0
    case 19 => 0x1810
    case 20 => 0x1946
    case 21 => 0x19D0
    case 22 => 0x1A80
    case 23 => 0x1A90
    case 24 => 0x1B50
    case 25 => 0x1BB0
    case 26 => 0x1C40
    case 27 => 0x1C50
    case 28 => 0xA620
    case 29 => 0xA8D0
    case 30 => 0xA900
    case 31 => 0xA9D0
    case 32 => 0xA9F0
    case 33 => 0xAA50
    case 34 => 0xABF0
    case 35 => 0xFF10
    case 36 => 0x104A0
    case 37 => 0x10D30
    case 38 => 0x11066
    case 39 => 0x110F0
    case 40 => 0x11136
    case 41 => 0x111D0
    case 42 => 0x112F0
    case 43 => 0x11450
    case 44 => 0x114D0
    case 45 => 0x11650
    case 46 => 0x116C0
    case 47 => 0x11730
    case 48 => 0x118E0
    case 49 => 0x11950
    case 50 => 0x11C50
    case 51 => 0x11D50
    case 52 => 0x11DA0
    case 53 => 0x11F50
    case 54 => 0x16A60
    case 55 => 0x16AC0
    case 56 => 0x16B50
    case 57 => 0x1D7CE
    case 58 => 0x1D7D8
    case 59 => 0x1D7E2
    case 60 => 0x1D7EC
    case 61 => 0x1D7F6
    case 62 => 0x1E140
    case 63 => 0x1E2F0
    case 64 => 0x1E4F0
    case 65 => 0x1E950
    case 66 => 0x1FBF0
    case _ => 0x1FBF0
  }

  /** `n` lies in the `k`-th run or a later one. */
  predicate InRunFrom(n: int, k: nat)
    decreases OTHER_RUNS - k
  {
    k < OTHER_RUNS && (RunStart(k) <= n < RunStart(k) + 10 || InRunFrom(n, k + 1))
  }

  /**
   * A decimal digit of any script: the characters whose decimal value
   * CPython reads when it decides whether a field name is a positional
   * index.
   */
  predicate IsDecimal(c: char) {
    IsDigit(c) || (c as int >= 0x0660 && InRunFrom(c as int, 0))
  }

  /** A name made of decimal digits only: `format_map` reads it as a positional index. */
  predicate AllDecimal(s: string) {
    forall k {:trigger IsDecimal(s[k])} :: 0 <= k < |s| ==> IsDecimal(s[k])
  }

  /**
   * A field name `format_map` looks up verbatim as a mapping key: not empty
   * (auto-numbering), not all decimal digits (a positional index) and
   * without attribute access, indexing, conversion or format spec.
   */
  predicate IsSimpleName(name: string) {
    && name != []
    && (forall k :: 0 <= k < |name| ==> name[k] !in FIELD_STOPS && name[k] != '.')
    && !AllDecimal(name)
  }

  /** Scans a field name that starts right after an opening brace, up to its closing brace. */
  function ParseField(s: string): (r: Result<(string, string), ParseError>)
    ensures r.Success? ==> IsSimpleName(r.value.0) && s == r.value.0 + "}" + r.value.1
  {
    var j := IndexOfAny(s, FIELD_STOPS);
    if j == |s| then Failure(UnclosedField)
    else if s[j] == '{' then Failure(OpenInFieldName)
    else if s[j] != '}' || !IsSimpleName(s[..j]) then Failure(UnsupportedField(s[..j + 1]))
    else
      assert s == s[..j] + "}" + s[j + 1..];
      Success((s[..j], s[j + 1..]))
  }

  /** The next chunk of a non-empty format string and the text after it. */
  function NextChunk(s: string): (r: Result<(Chunk, string), ParseError>)
    requires s != []
    ensures r.Success? ==> |r.value.1| < |s|
  {
    var i := IndexOfAny(s, BRACES);
    if i == |s| then Success((Chunk(s, None), []))
    else if s[i] == '}' then
      if i + 1 < |s| && s[i + 1] == '}' then Success((Chunk(s[..i + 1], None), s[i + 2..]))
      else Failure(SingleClose)
    else if i + 1 == |s| then Failure(SingleOpen)
    else if s[i + 1] == '{' then Success((Chunk(s[..i + 1], None), s[i + 2..]))
    else
      match ParseField(s[i + 1..])
      case Failure(e) => Failure(e)
      case Success((name, rest)) => Success((Chunk(s[..i], Some(name)), rest))
  }

  /** All chunks of `s` in order, or the first error the scanner meets. */
  function Parse(s: string): Result<seq<Chunk>, ParseError>
    decreases |s|
  {
    if s == [] then Success([])
    else
      match NextChunk(s)
      case Failure(e) => Failure(e)
      case Success((chunk, rest)) =>
        match Parse(rest)
        case Failure(e) => Failure(e)
        case Success(chunks) => Success([chunk] + chunks)
  }

  /** The field names of the chunks, in order and with repetitions. */
  function FieldNames(cs: seq<Chunk>): seq<string> {
    if cs == [] then []
    else (match cs[0].field case Some(n) => [n] case None => []) + FieldNames(cs[1..])
  }

  /** `format_map`: every literal in order, every field replaced by `str()` of its value. */
  function Format(cs: seq<Chunk>, values: map<string, Value>): string
    requires forall n :: n in FieldNames(cs) ==> n in values
  {
    if cs == [] then []
    else
      cs[0].literal
      + (match cs[0].field case Some(n) => Show(values[n]) case None => [])
      + Format(cs[1..], values)
  }

  // ---------------------------------------------------------------------
  // Reference semantics of a template
  // ---------------------------------------------------------------------

  datatype Token = Text(c: char) | EscapedOpen | EscapedClose | Placeholder(name: string)

  predicate TokenOk(t: Token) {
    && (t.Text? ==> t.c !in BRACES)
    && (t.Placeholder? ==> IsSimpleName(t.name))
  }

  predicate WellFormed(ts: seq<Token>) {
    forall k :: 0 <= k < |ts| ==> TokenOk(ts[k])
  }

  /** How a token is written in a template. */
  function SpellToken(t: Token): string {
    match t
    case Text(c) => [c]
    case EscapedOpen => "{{"
    case EscapedClose => "}}"
    case Placeholder(n) => "{" + n + "}"
  }

  function Spelling(ts: seq<Token>): string {
    if ts == [] then [] else SpellToken(ts[0]) + Spelling(ts[1..])
  }

  function Placeholders(ts: seq<Token>): set<string> {
    if ts == [] then {}
    else (if ts[0].Placeholder? then {ts[0].name} else {}) + Placeholders(ts[1..])
  }

  /** What a token stands for once placeholders have values. */
  function ExpandToken(t: Token, values: map<string, Value>): string
    requires t.Placeholder? ==> t.name in values
  {
    match t
    case Text(c) => [c]
    case EscapedOpen => "{"
    case EscapedClose => "}"
    case Placeholder(n) => Show(values[n])
  }

  function Expand(ts: seq<Token>, values: map<string, Value>): string
    requires Placeholders(ts) <= values.Keys
  {
    if ts == [] then [] else ExpandToken(ts[0], values) + Expand(ts[1..], values)
  }

  function Texts(l: string): seq<Token> {
    if l == [] then [] else [Text(l[0])] + Texts(l[1..])
  }

  /** The tokens a chunk stands for: its literal characters, its escape, its field. */
  function ChunkTokens(c: Chunk): seq<Token> {
    var l := c.literal;
    match c.field
    case Some(n) => Texts(l) + [Placeholder(n)]
    case None =>
      if l != [] && l[|l| - 1] == '{' then Texts(l[..|l| - 1]) + [EscapedOpen]
      else if l != [] && l[|l| - 1] == '}' then Texts(l[..|l| - 1]) + [EscapedClose]
      else Texts(l)
  }

  function Tokens(cs: seq<Chunk>): seq<Token> {
    if cs == [] then [] else ChunkTokens(cs[0]) + Tokens(cs[1..])
  }

  // ---------------------------------------------------------------------
  // Lemmas
  // ---------------------------------------------------------------------

  /** The field scanner reads back exactly the name a placeholder was written with. */
  lemma ParseFieldSpelling(n: string, rest: string)
    requires IsSimpleName(n)
    ensures ParseField(n + "}" + rest) == Success((n, rest))
  {
    var s := n + "}" + rest;
    var j := IndexOfAny(s, FIELD_STOPS);
    assert s[|n|] == '}';
    assert forall k :: 0 <= k < |n| ==> s[k] == n[k];
    assert j == |n|;
    assert s[..j] == n;
    assert s[j + 1..] == rest;
  }

  /** A character that is not a brace joins the literal of the chunk after it. */
  lemma NextChunkText(c: char, s: string)
    requires c !in BRACES
    ensures s == [] ==> NextChunk([c] + s) == Success((Chunk([c], None), []))
    ensures s != [] ==>
      NextChunk([c] + s) ==
        match NextChunk(s)
        case Failure(e) => Failure(e)
        case Success((chunk, rest)) => Success((Chunk([c] + chunk.literal, chunk.field), rest))
  {
    var t := [c] + s;
    assert t[1..] == s;
    var i := IndexOfAny(s, BRACES);
    assert IndexOfAny(t, BRACES) == i + 1;
    if i == |s| {
      assert t[..i + 1] == t;
    } else {
      assert t[i + 1] == s[i];
      if i + 1 < |s| {
        assert t[i + 2] == s[i + 1];
        assert t[..i + 2] == [c] + s[..i + 1];
        assert t[i + 3..] == s[i + 2..];
        assert t[i + 2..] == s[i + 1..];
        assert t[..i + 1] == [c] + s[..i];
      }
    }
  }

  function PrependText(c: char, r: Result<seq<Chunk>, ParseError>): Result<seq<Chunk>, ParseError> {
    match r
    case Failure(e) => Failure(e)
    case Success(cs) =>
      if cs == [] then Success([Chunk([c], None)])
      else Success([Chunk([c] + cs[0].literal, cs[0].field)] + cs[1..])
  }

  /** Parsing a literal character followed by `s` is parsing `s` with that character put in front. */
  lemma ParseText(c: char, s: string)
    requires c !in BRACES
    ensures Parse([c] + s) == PrependText(c, Parse(s))
  {
    NextChunkText(c, s);
    var t := [c] + s;
    if s == [] {
      assert Parse(s) == Success([]);
      assert NextChunk(t) == Success((Chunk([c], None), []));
      assert [Chunk([c], None)] + [] == [Chunk([c], None)];
      assert Parse(t) == Success([Chunk([c], None)]);
    } else {
      match NextChunk(s)
      case Failure(e) =>
        assert Parse(s) == Failure(e);
        assert Parse(t) == Failure(e);
      case Success((chunk, rest)) =>
        var chunk' := Chunk([c] + chunk.literal, chunk.field);
        assert NextChunk(t) == Success((chunk', rest));
        match Parse(rest)
        case Failure(e) =>
          assert Parse(s) == Failure(e);
          assert Parse(t) == Failure(e);
        case Success(cs) =>
          assert Parse(s) == Success([chunk] + cs);
          assert Parse(t) == Success([chunk'] + cs);
          assert ([chunk] + cs)[1..] == cs;
    }
  }

  /** The chunk an escaped brace or a placeholder is read as. */
  function SpecialChunk(t: Token): Chunk
    requires !t.Text?
  {
    match t
    case EscapedOpen => Chunk("{", None)
    case EscapedClose => Chunk("}", None)
    case Placeholder(n) => Chunk([], Some(n))
  }

  /** An escaped brace or a placeholder at the front of the text is one chunk on its own. */
  lemma NextChunkSpecial(t: Token, s: string)
    requires !t.Text? && TokenOk(t)
    ensures NextChunk(SpellToken(t) + s) == Success((SpecialChunk(t), s))
  {
    var u := SpellToken(t) + s;
    match t
    case EscapedOpen =>
      assert u[0] == '{' && u[1] == '{';
      assert IndexOfAny(u, BRACES) == 0;
      assert u[..1] == "{" && u[2..] == s;
    case EscapedClose =>
      assert u[0] == '}' && u[1] == '}';
      assert IndexOfAny(u, BRACES) == 0;
      assert u[..1] == "}" && u[2..] == s;
    case Placeholder(n) =>
      NextChunkPlaceholder(n, s);
  }

  lemma NextChunkPlaceholder(n: string, s: string)
    requires IsSimpleName(n)
    ensures NextChunk("{" + n + "}" + s) == Success((Chunk([], Some(n)), s))
  {
    var u := "{" + n + "}" + s;
    assert u[0] == '{' && u[1] == n[0];
    assert n[0] !in FIELD_STOPS;
    assert IndexOfAny(u, BRACES) == 0;
    assert u[1..] == n + "}" + s;
    ParseFieldSpelling(n, s);
    assert u[..0] == [];
  }

  /** Putting a literal character in front of the first chunk changes neither the names nor anything but the front of the output. */
  lemma PrependTextChunks(c: char, cs: seq<Chunk>, values: map<string, Value>)
    requires PrependText(c, Success(cs)).Success?
    ensures var cs' := PrependText(c, Success(cs)).value;
      && FieldNames(cs') == FieldNames(cs)
      && ((forall n :: n in FieldNames(cs) ==> n in values) ==> Format(cs', values) == [c] + Format(cs, values))
  {
    var cs' := PrependText(c, Success(cs)).value;
    if cs == [] {
      assert cs' == [Chunk([c], None)];
      assert cs'[1..] == [];
    } else {
      assert cs'[1..] == cs[1..];
      if forall n :: n in FieldNames(cs) ==> n in values {
        PrependTextFormat(c, cs[0], cs'[0], Format(cs[1..], values), values);
      }
    }
  }

  /** One chunk whose literal gained a front character, followed by the same output `tail`. */
  lemma PrependTextFormat(c: char, chunk: Chunk, chunk': Chunk, tail: string, values: map<string, Value>)
    requires chunk' == Chunk([c] + chunk.literal, chunk.field)
    requires chunk.field.Some? ==> chunk.field.value in values
    ensures chunk'.literal + (match chunk'.field case Some(n) => Show(values[n]) case None => []) + tail
      == [c] + (chunk.literal + (match chunk.field case Some(n) => Show(values[n]) case None => []) + tail)
  {
  }

  /** A chunk of its own in front: its name comes first, its text comes first. */
  lemma ConsChunk(t: Token, cs: seq<Chunk>, values: map<string, Value>)
    requires !t.Text?
    ensures (set n | n in FieldNames([SpecialChunk(t)] + cs)) ==
      (if t.Placeholder? then {t.name} else {}) + (set n | n in FieldNames(cs))
    ensures (t.Placeholder? ==> t.name in values) && (forall n :: n in FieldNames(cs) ==> n in values) ==>
      Format([SpecialChunk(t)] + cs, values) == ExpandToken(t, values) + Format(cs, values)
  {
    assert ([SpecialChunk(t)] + cs)[1..] == cs;
  }

  /** `Parse` accepts every well-formed template and finds exactly its placeholders; `Format` agrees with `Expand`. */
  lemma {:induction false} ParseSpelling(ts: seq<Token>, values: map<string, Value>)
    requires WellFormed(ts)
    ensures Parse(Spelling(ts)).Success?
    ensures var cs := Parse(Spelling(ts)).value;
      && (set n | n in FieldNames(cs)) == Placeholders(ts)
      && (Placeholders(ts) <= values.Keys ==> Format(cs, values) == Expand(ts, values))
    decreases |ts|
  {
    if ts == [] {
      return;
    }
    var s' := Spelling(ts[1..]);
    assert WellFormed(ts[1..]) by {
      forall k | 0 <= k < |ts[1..]| ensures TokenOk(ts[1..][k]) {
        assert ts[1..][k] == ts[k + 1];
      }
    }
    assert TokenOk(ts[0]);
    ParseSpelling(ts[1..], values);
    var cs' := Parse(s').value;
    var t := Spelling(ts);
    assert t == SpellToken(ts[0]) + s';
    if ts[0].Text? {
      var c := ts[0].c;
      assert t == [c] + s';
      ParseText(c, s');
      PrependTextChunks(c, cs', values);
    } else {
      NextChunkSpecial(ts[0], s');
      var cs := Parse(t).value;
      assert cs == [SpecialChunk(ts[0])] + cs';
      ConsChunk(ts[0], cs', values);
    }
  }

  lemma WellFormedAppend(a: seq<Token>, b: seq<Token>)
    requires WellFormed(a) && WellFormed(b)
    ensures WellFormed(a + b)
  {
    forall k | 0 <= k < |a + b| ensures TokenOk((a + b)[k]) {
      if k < |a| {
        assert (a + b)[k] == a[k];
      } else {
        assert (a + b)[k] == b[k - |a|];
      }
    }
  }

  lemma {:induction false} SpellingAppend(a: seq<Token>, b: seq<Token>, values: map<string, Value>)
    ensures Spelling(a + b) == Spelling(a) + Spelling(b)
    ensures Placeholders(a + b) == Placeholders(a) + Placeholders(b)
    ensures Placeholders(a + b) <= values.Keys ==>
      Expand(a + b, values) == Expand(a, values) + Expand(b, values)
    decreases |a|
  {
    if a == [] {
      assert a + b == b;
    } else {
      assert (a + b)[0] == a[0];
      assert (a + b)[1..] == a[1..] + b;
      SpellingAppend(a[1..], b, values);
      ConcatAssoc(SpellToken(a[0]), Spelling(a[1..]), Spelling(b));
      if Placeholders(a + b) <= values.Keys {
        ConcatAssoc(ExpandToken(a[0], values), Expand(a[1..], values), Expand(b, values));
      }
    }
  }

  lemma {:induction false} TextsSpelling(l: string, values: map<string, Value>)
    ensures Spelling(Texts(l)) == l
    ensures Placeholders(Texts(l)) == {}
    ensures Expand(Texts(l), values) == l
    ensures (forall k :: 0 <= k < |l| ==> l[k] !in BRACES) ==> WellFormed(Texts(l))
    decreases |l|
  {
    if l != [] {
      TextsSpelling(l[1..], values);
      assert l == [l[0]] + l[1..];
    }
  }

  /** `c` followed by `rest` is `s`, spelled through the tokens of `c`. */
  ghost predicate ChunkSpelled(s: string, c: Chunk, rest: string, values: map<string, Value>) {
    && WellFormed(ChunkTokens(c))
    && s == Spelling(ChunkTokens(c)) + rest
    && Placeholders(ChunkTokens(c)) == (match c.field case Some(n) => {n} case None => {})
    && (Placeholders(ChunkTokens(c)) <= values.Keys ==>
          Expand(ChunkTokens(c), values)
          == c.literal + (match c.field case Some(n) => Show(values[n]) case None => []))
  }

  /** The tokens of a chunk whose literal text (without its escape) is `head`, followed by `tail`. */
  lemma HeadTail(head: string, tail: seq<Token>, values: map<string, Value>)
    requires forall k :: 0 <= k < |head| ==> head[k] !in BRACES
    requires WellFormed(tail)
    ensures WellFormed(Texts(head) + tail)
    ensures Spelling(Texts(head) + tail) == head + Spelling(tail)
    ensures Placeholders(Texts(head) + tail) == Placeholders(tail)
    ensures Placeholders(tail) <= values.Keys ==> Expand(Texts(head) + tail, values) == head + Expand(tail, values)
  {
    TextsSpelling(head, values);
    SpellingAppend(Texts(head), tail, values);
    WellFormedAppend(Texts(head), tail);
  }

  lemma SingleToken(t: Token, values: map<string, Value>)
    ensures Spelling([t]) == SpellToken(t)
    ensures Placeholders([t]) == if t.Placeholder? then {t.name} else {}
    ensures (t.Placeholder? ==> t.name in values) ==> Expand([t], values) == ExpandToken(t, values)
  {
    assert [t][1..] == [];
  }

  lemma SingleWellFormed(t: Token)
    requires TokenOk(t)
    ensures WellFormed([t])
  {
    assert [t][0] == t;
  }

  lemma NextChunkPlain(s: string, values: map<string, Value>)
    requires s != [] && IndexOfAny(s, BRACES) == |s|
    ensures NextChunk(s) == Success((Chunk(s, None), []))
    ensures ChunkSpelled(s, Chunk(s, None), [], values)
  {
    PlainSpelled(s, values);
  }

  lemma PlainSpelled(s: string, values: map<string, Value>)
    requires forall k :: 0 <= k < |s| ==> s[k] !in BRACES
    ensures ChunkSpelled(s, Chunk(s, None), [], values)
  {
    assert s == [] || s[|s| - 1] !in BRACES;
    assert ChunkTokens(Chunk(s, None)) == Texts(s);
    TextsSpelling(s, values);
    assert WellFormed(Texts(s));
    assert s == Spelling(Texts(s)) + [];
    assert Placeholders(Texts(s)) == {};
    assert Expand(Texts(s), values) == s + [];
  }

  lemma EscapeSpelled(head: string, b: char, rest: string, values: map<string, Value>)
    requires forall k :: 0 <= k < |head| ==> head[k] !in BRACES
    requires b in BRACES
    ensures ChunkSpelled(head + [b, b] + rest, Chunk(head + [b], None), rest, values)
  {
    var lit := head + [b];
    var tail := if b == '{' then [EscapedOpen] else [EscapedClose];
    assert lit[..|lit| - 1] == head;
    var ts := ChunkTokens(Chunk(lit, None));
    assert ts == Texts(head) + tail;
    SingleToken(tail[0], values);
    SingleWellFormed(tail[0]);
    HeadTail(head, tail, values);
    assert head + [b, b] + rest == Spelling(ts) + rest;
  }

  lemma FieldSpelled(head: string, n: string, rest: string, values: map<string, Value>)
    requires forall k :: 0 <= k < |head| ==> head[k] !in BRACES
    requires IsSimpleName(n)
    ensures ChunkSpelled(head + "{" + n + "}" + rest, Chunk(head, Some(n)), rest, values)
  {
    var ts := ChunkTokens(Chunk(head, Some(n)));
    assert ts == Texts(head) + [Placeholder(n)];
    SingleToken(Placeholder(n), values);
    SingleWellFormed(Placeholder(n));
    HeadTail(head, [Placeholder(n)], values);
    assert head + "{" + n + "}" + rest == Spelling(ts) + rest;
  }

  /** Splitting a string around one of its positions, kept apart so the solver sees it without other facts. */
  lemma SplitAt(s: string, i: nat)
    requires i < |s|
    ensures s == s[..i] + [s[i]] + s[i + 1..]
  {
  }

  /** Regrouping a concatenation, kept apart for the same reason. */
  lemma ConcatAssoc(a: string, b: string, c: string)
    ensures a + (b + c) == a + b + c
  {
  }

  lemma NextChunkFieldTokens(s: string, i: nat, n: string, rest: string, values: map<string, Value>)
    requires i == IndexOfAny(s, BRACES)
    requires i + 1 < |s| && s[i] == '{' && ParseField(s[i + 1..]) == Success((n, rest))
    ensures ChunkSpelled(s, Chunk(s[..i], Some(n)), rest, values)
  {
    var head := s[..i];
    SplitAt(s, i);
    assert s == head + "{" + n + "}" + rest by {
      assert s == head + "{" + (n + "}" + rest);
      ConcatAssoc(head + "{", n + "}", rest);
      ConcatAssoc(head + "{", n, "}");
    }
    assert forall k :: 0 <= k < |head| ==> head[k] !in BRACES;
    FieldSpelled(head, n, rest, values);
  }

  lemma NextChunkEscapeTokens(s: string, i: nat, values: map<string, Value>)
    requires i == IndexOfAny(s, BRACES)
    requires i + 1 < |s| && s[i + 1] == s[i]
    ensures ChunkSpelled(s, Chunk(s[..i + 1], None), s[i + 2..], values)
  {
    EscapeSplit(s, i);
    assert forall k :: 0 <= k < |s[..i]| ==> s[..i][k] !in BRACES;
    EscapeSpelled(s[..i], s[i], s[i + 2..], values);
  }

  /** A doubled character at `i`, cut out of its surroundings. */
  lemma EscapeSplit(s: string, i: nat)
    requires i + 1 < |s| && s[i + 1] == s[i]
    ensures s == s[..i] + [s[i], s[i]] + s[i + 2..]
    ensures s[..i + 1] == s[..i] + [s[i]]
  {
    SplitAt(s, i);
    SplitAt(s[i + 1..], 0);
    assert s[i + 1..][1..] == s[i + 2..];
  }

  /** A chunk is the spelling of its tokens: the scanner drops nothing and reorders nothing. */
  lemma NextChunkTokens(s: string, values: map<string, Value>)
    requires s != [] && NextChunk(s).Success?
    ensures ChunkSpelled(s, NextChunk(s).value.0, NextChunk(s).value.1, values)
  {
    var i := IndexOfAny(s, BRACES);
    if i == |s| {
      NextChunkPlain(s, values);
    } else if s[i] == '{' && s[i + 1] != '{' {
      var (n, rest) := ParseField(s[i + 1..]).value;
      assert NextChunk(s) == Success((Chunk(s[..i], Some(n)), rest));
      NextChunkFieldTokens(s, i, n, rest, values);
    } else {
      assert NextChunk(s) == Success((Chunk(s[..i + 1], None), s[i + 2..]));
      NextChunkEscapeTokens(s, i, values);
    }
  }

  /** Every accepted format string is the spelling of well-formed tokens, and `Format` is their expansion. */
  lemma {:induction false} ParseTokens(s: string, values: map<string, Value>)
    requires Parse(s).Success?
    ensures var cs := Parse(s).value;
      && WellFormed(Tokens(cs))
      && Spelling(Tokens(cs)) == s
      && Placeholders(Tokens(cs)) == (set n | n in FieldNames(cs))
      && (Placeholders(Tokens(cs)) <= values.Keys ==> Format(cs, values) == Expand(Tokens(cs), values))
    decreases |s|
  {
    if s == [] {
      return;
    }
    var (c, rest) := NextChunk(s).value;
    ParseTokens(rest, values);
    NextChunkTokens(s, values);
    var cs := Parse(s).value;
    assert cs == [c] + Parse(rest).value;
    assert cs[1..] == Parse(rest).value;
    SpellingAppend(ChunkTokens(c), Tokens(cs[1..]), values);
    WellFormedAppend(ChunkTokens(c), Tokens(cs[1..]));
  }

  /** `Formatter.parse` accepts a string exactly when it is the spelling of some well-formed template. */
  lemma ParseSucceedsIff(s: string)
    ensures Parse(s).Success? <==> exists ts :: WellFormed(ts) && Spelling(ts) == s
  {
    if Parse(s).Success? {
      ParseTokens(s, map[]);
      var ts := Tokens(Parse(s).value);
      assert WellFormed(ts) && Spelling(ts) == s;
    }
    if exists ts :: WellFormed(ts) && Spelling(ts) == s {
      var ts :| WellFormed(ts) && Spelling(ts) == s;
      ParseSpelling(ts, map[]);
    }
  }

  /** Keys the template never names do not change what `format_map` produces. */
  lemma {:induction false} FormatIgnoresExtraKeys(cs: seq<Chunk>, values: map<string, Value>, more: map<string, Value>)
    requires forall n :: n in FieldNames(cs) ==> n in values
    requires forall n :: n in values ==> n in more && more[n] == values[n]
    ensures Format(cs, more) == Format(cs, values)
    decreases |cs|
  {
    if cs != [] {
      FormatIgnoresExtraKeys(cs[1..], values, more);
    }
  }
}
