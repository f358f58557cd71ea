/**
 * `pbq.query.Query`: a SQL template whose double quotes become single
 * quotes and whose `{name}` fields are filled from a parameter mapping, plus
 * the dry-run based `validate` and `price`, each memoised by a one-entry
 * least-recently-used cache shared by every `Query` object.
 */
module QueryModel {
  import opened Wrappers
  import opened Values
  import opened FormatString
  import opened Warehouse

  /** 1024^4 bytes, as a float in the source. */
  const TERA_IN_BYTES: real := 1099511627776.0
  /** Dollars charged per tera-byte billed. */
  const PRICE_PER_TERA: real := 5.0

  /** Why building a `Query` fails. */
  datatype QueryError =
    | ParametersUnset                     // no (or an empty) mapping given: `self._parameters` does not exist
    | Malformed(error: ParseError)        // `Formatter().parse` rejects the template
    | MissingParams(missing: set<string>) // fields the mapping has no key for

  /** `query.replace('"', "'")`. */
  function Normalise(s: string): (r: string)
    ensures |r| == |s|
    ensures forall k :: 0 <= k < |s| ==> r[k] == (if s[k] == '"' then '\'' else s[k])
    ensures '"' !in r
    decreases |s|
  {
    if s == [] then [] else [if s[0] == '"' then '\'' else s[0]] + Normalise(s[1..])
  }

  /** `Normalise` leaves a text alone exactly when it has no double quote. */
  lemma NormaliseFixedPoints(s: string)
    ensures Normalise(s) == s <==> '"' !in s
  {
    if '"' !in s {
      assert forall k :: 0 <= k < |s| ==> Normalise(s)[k] == s[k];
    }
  }

  /** `_validate_params`: every field name must be a key of the mapping; the missing ones are reported. */
  function ValidateParams(names: seq<string>, parameters: map<string, Value>): (r: Outcome<QueryError>)
    ensures r.Pass? <==> forall n :: n in names ==> n in parameters
    ensures r.Fail? ==> r.error.MissingParams? && r.error.missing != {}
    ensures r.Fail? ==> forall n :: n in r.error.missing <==> (n in names && n !in parameters)
  {
    var missing := (set n | n in names) - parameters.Keys;
    if missing != {} then
      Fail(MissingParams(missing))
    else
      assert forall n :: n in names ==> n in parameters by {
        forall n | n in names ensures n in parameters {
          assert n in (set m | m in names);
          assert n !in missing;
        }
      }
      Pass
  }

  /** `_format` on a text: unchanged without fields, else validated and filled in by `format_map`. */
  function FormatQuery(text: string, parameters: map<string, Value>): Result<string, QueryError> {
    match Parse(text)
    case Failure(e) => Failure(Malformed(e))
    case Success(chunks) =>
      var names := FieldNames(chunks);
      if |names| == 0 then Success(text)
      else
        match ValidateParams(names, parameters)
        case Fail(e) => Failure(e)
        case Pass => Success(Format(chunks, parameters))
  }

  /**
   * The text a `Query(template, parameters)` ends up holding, or the error
   * its constructor raises. A missing or empty mapping falls back to an
   * attribute the class never defines, so it always fails.
   */
  function Resolve(template: string, parameters: Option<map<string, Value>>): (r: Result<string, QueryError>)
    ensures parameters.None? || parameters.value == map[] ==> r == Failure(ParametersUnset)
  {
    if parameters.None? || parameters.value == map[] then Failure(ParametersUnset)
    else FormatQuery(Normalise(template), parameters.value)
  }

  /**
   * The constructor as its tests expect it: a missing or empty mapping
   * falls back to the class-level default mapping `defaults` (the
   * configuration file the source comment on line 19 alludes to) instead
   * of failing.
   */
  function ResolveIntended(template: string, parameters: Option<map<string, Value>>, defaults: map<string, Value>)
    : (r: Result<string, QueryError>)
    ensures parameters.Some? && parameters.value != map[] ==> r == Resolve(template, parameters)
    ensures (parameters.None? || parameters.value == map[]) && defaults != map[] ==>
      r == Resolve(template, Some(defaults))
    ensures r.Failure? ==> r.error != ParametersUnset
  {
    var mapping := if parameters.None? || parameters.value == map[] then defaults else parameters.value;
    FormatQuery(Normalise(template), mapping)
  }

  // ---------------------------------------------------------------------
  // What a resolved query holds
  // ---------------------------------------------------------------------

  /**
   * Written as well-formed tokens, the normalised template resolves to
   * itself when it has no placeholder, to exactly the placeholders the
   * mapping lacks when some are missing, and otherwise to its expansion.
   */
  lemma ResolveTokens(template: string, parameters: map<string, Value>, ts: seq<Token>)
    requires parameters != map[]
    requires WellFormed(ts) && Spelling(ts) == Normalise(template)
    ensures Placeholders(ts) == {} ==> Resolve(template, Some(parameters)) == Success(Normalise(template))
    ensures Placeholders(ts) != {} && !(Placeholders(ts) <= parameters.Keys) ==>
      Resolve(template, Some(parameters)) == Failure(MissingParams(Placeholders(ts) - parameters.Keys))
    ensures Placeholders(ts) != {} && Placeholders(ts) <= parameters.Keys ==>
      Resolve(template, Some(parameters)) == Success(Expand(ts, parameters))
  {
    FormatQueryTokens(Normalise(template), parameters, ts);
  }

  /** `_format` on a text written as well-formed tokens, for any mapping. */
  lemma FormatQueryTokens(text: string, parameters: map<string, Value>, ts: seq<Token>)
    requires WellFormed(ts) && Spelling(ts) == text
    ensures Placeholders(ts) == {} ==> FormatQuery(text, parameters) == Success(text)
    ensures Placeholders(ts) != {} && !(Placeholders(ts) <= parameters.Keys) ==>
      FormatQuery(text, parameters) == Failure(MissingParams(Placeholders(ts) - parameters.Keys))
    ensures Placeholders(ts) != {} && Placeholders(ts) <= parameters.Keys ==>
      FormatQuery(text, parameters) == Success(Expand(ts, parameters))
  {
    ParseSpelling(ts, parameters);
    var cs := Parse(text).value;
    var names := FieldNames(cs);
    assert (set n | n in names) == Placeholders(ts);
    if |names| == 0 {
      assert Placeholders(ts) == {};
    } else {
      assert names[0] in Placeholders(ts);
    }
  }

  /** The constructor raises `Malformed` exactly when the normalised template is no well-formed template. */
  lemma ResolveMalformedIff(template: string, parameters: map<string, Value>)
    requires parameters != map[]
    ensures Resolve(template, Some(parameters)).Failure? && Resolve(template, Some(parameters)).error.Malformed?
      <==> !exists ts :: WellFormed(ts) && Spelling(ts) == Normalise(template)
  {
    ParseSucceedsIff(Normalise(template));
  }

  /** Keys the template never names change nothing, as long as the template resolved without them. */
  lemma ResolveIgnoresExtraKeys(template: string, parameters: map<string, Value>, more: map<string, Value>)
    requires Resolve(template, Some(parameters)).Success?
    requires forall n :: n in parameters ==> n in more && more[n] == parameters[n]
    ensures Resolve(template, Some(more)) == Resolve(template, Some(parameters))
  {
    var k :| k in parameters;
    assert k in more;
    var text := Normalise(template);
    var cs := Parse(text).value;
    if |FieldNames(cs)| != 0 {
      assert ValidateParams(FieldNames(cs), parameters).Pass?;
      FormatIgnoresExtraKeys(cs, parameters, more);
    }
  }

  /** A double quote in an expansion comes from a placeholder's value, never from the template's own text. */
  lemma {:induction false} QuoteFromValue(ts: seq<Token>, values: map<string, Value>)
    requires Placeholders(ts) <= values.Keys
    requires '"' !in Spelling(ts) && '"' in Expand(ts, values)
    ensures exists n :: n in Placeholders(ts) && '"' in Show(values[n])
    decreases |ts|
  {
    var t := ts[0];
    assert Spelling(ts) == SpellToken(t) + Spelling(ts[1..]);
    assert Expand(ts, values) == ExpandToken(t, values) + Expand(ts[1..], values);
    if t.Text? {
      assert Spelling(ts)[0] == t.c;
    }
    if '"' in ExpandToken(t, values) {
      assert t.Placeholder?;
      assert t.name in Placeholders(ts);
    } else {
      QuoteFromValue(ts[1..], values);
      var n :| n in Placeholders(ts[1..]) && '"' in Show(values[n]);
      assert n in Placeholders(ts);
    }
  }

  /**
   * Quotes are normalised before substitution: a double quote survives in
   * the resolved text only when some parameter's value contains one.
   */
  lemma ResolvedQuotes(template: string, parameters: map<string, Value>)
    requires Resolve(template, Some(parameters)).Success?
    requires '"' in Resolve(template, Some(parameters)).value
    ensures Parse(Normalise(template)).Success?
    ensures exists k :: k in FieldNames(Parse(Normalise(template)).value) && k in parameters && '"' in Show(parameters[k])
  {
    var text := Normalise(template);
    ParseTokens(text, parameters);
    var cs := Parse(text).value;
    var ts := Tokens(cs);
    ResolveTokens(template, parameters, ts);
    QuoteFromValue(ts, parameters);
    var k :| k in Placeholders(ts) && '"' in Show(parameters[k]);
    assert k in (set n | n in FieldNames(cs));
  }

  /**
   * With no mapping, the fallback fills every field from the default
   * mapping when it has them all.
   */
  lemma IntendedDefaultsFill(template: string, defaults: map<string, Value>, ts: seq<Token>)
    requires WellFormed(ts) && Spelling(ts) == Normalise(template)
    requires Placeholders(ts) != {} && Placeholders(ts) <= defaults.Keys
    ensures ResolveIntended(template, None, defaults) == Success(Expand(ts, defaults))
    ensures ResolveIntended(template, Some(map[]), defaults) == Success(Expand(ts, defaults))
  {
    FormatQueryTokens(Normalise(template), defaults, ts);
  }

  /**
   * With no mapping, a template without fields builds unchanged once the
   * fallback exists, but fails as written.
   */
  lemma IntendedNoFieldsBuild(template: string, defaults: map<string, Value>, ts: seq<Token>)
    requires WellFormed(ts) && Spelling(ts) == Normalise(template) && Placeholders(ts) == {}
    ensures ResolveIntended(template, None, defaults) == Success(Normalise(template))
    ensures Resolve(template, None) == Failure(ParametersUnset)
  {
    FormatQueryTokens(Normalise(template), defaults, ts);
  }

  /**
   * With no mapping, a field the defaults lack is reported as a missing
   * parameter once the fallback exists, but as written the constructor
   * fails before it looks at the fields.
   */
  lemma IntendedMissingReported(template: string, defaults: map<string, Value>, ts: seq<Token>, name: string)
    requires WellFormed(ts) && Spelling(ts) == Normalise(template)
    requires name in Placeholders(ts) && name !in defaults
    ensures ResolveIntended(template, None, defaults).Failure?
    ensures ResolveIntended(template, None, defaults).error.MissingParams?
    ensures name in ResolveIntended(template, None, defaults).error.missing
    ensures Resolve(template, None) == Failure(ParametersUnset)
  {
    FormatQueryTokens(Normalise(template), defaults, ts);
  }

  /**
   * The discrepancy on two small templates: as written, both fail because
   * the mapping is unset; with the fallback and no defaults, `x` builds and
   * `{a}` reports `a` as missing.
   */
  lemma UnsetMappingCounterexample()
    ensures Resolve("x", None) == Failure(ParametersUnset)
    ensures ResolveIntended("x", None, map[]) == Success("x")
    ensures Resolve("{a}", None) == Failure(ParametersUnset)
    ensures ResolveIntended("{a}", None, map[]) == Failure(MissingParams({"a"}))
  {
    PlainTemplateFallback();
    FieldTemplateFallback();
  }

  lemma PlainTemplateFallback()
    ensures ResolveIntended("x", None, map[]) == Success("x")
  {
    SingleToken(Text('x'), map[]);
    assert Normalise("x") == "x";
    IntendedNoFieldsBuild("x", map[], [Text('x')]);
  }

  lemma FieldTemplateFallback()
    ensures ResolveIntended("{a}", None, map[]) == Failure(MissingParams({"a"}))
  {
    LetterName('a');
    SingleToken(Placeholder("a"), map[]);
    SingleWellFormed(Placeholder("a"));
    assert Normalise("{a}") == "{a}" by {
      assert '"' !in "{a}";
      NormaliseFixedPoints("{a}");
    }
    var none: map<string, Value> := map[];
    assert Placeholders([Placeholder("a")]) - none.Keys == {"a"};
    FormatQueryTokens("{a}", none, [Placeholder("a")]);
  }

  /** A one-character name that is not a digit of any script is a simple field name. */
  lemma LetterName(c: char)
    requires !IsDecimal(c) && c !in FIELD_STOPS && c != '.'
    ensures IsSimpleName([c])
  {
    assert !IsDecimal([c][0]);
  }

  /** A three-token template, spelled and expanded token by token. */
  lemma ThreeTokens(a: Token, b: Token, c: Token, values: map<string, Value>)
    ensures Spelling([a, b, c]) == SpellToken(a) + SpellToken(b) + SpellToken(c)
    ensures Placeholders([a, b, c]) == Placeholders([a]) + Placeholders([b]) + Placeholders([c])
    ensures Placeholders([a, b, c]) <= values.Keys ==>
      Expand([a, b, c], values) == ExpandToken(a, values) + ExpandToken(b, values) + ExpandToken(c, values)
  {
    SingleToken(a, values);
    SingleToken(b, values);
    SingleToken(c, values);
    var bc := [b] + [c];
    assert [a, b, c] == [a] + bc;
    SpellingAppend([b], [c], values);
    SpellingAppend([a], bc, values);
    ConcatAssoc(SpellToken(a), SpellToken(b), SpellToken(c));
    if Placeholders([a, b, c]) <= values.Keys {
      ConcatAssoc(ExpandToken(a, values), ExpandToken(b, values), ExpandToken(c, values));
    }
  }

  lemma ThreeTokensWellFormed(a: Token, b: Token, c: Token)
    requires TokenOk(a) && TokenOk(b) && TokenOk(c)
    ensures WellFormed([a, b, c])
  {
    forall k | 0 <= k < 3 ensures TokenOk([a, b, c][k]) {
      assert [a, b, c][k] in {a, b, c};
    }
  }

  /** A double-quoted field becomes a single-quoted value. */
  lemma QuotedFieldExample()
    ensures Resolve("\"{d}\"", Some(map["d" := Int(1)])) == Success("'1'")
  {
    var ts := [Text('\''), Placeholder("d"), Text('\'')];
    var p := map["d" := Int(1)];
    QuotedFieldTokens(ts, p);
    ResolveTokens("\"{d}\"", p, ts);
  }

  lemma QuotedFieldTokens(ts: seq<Token>, p: map<string, Value>)
    requires ts == [Text('\''), Placeholder("d"), Text('\'')] && p == map["d" := Int(1)]
    ensures p != map[] && WellFormed(ts) && Spelling(ts) == Normalise("\"{d}\"")
    ensures Placeholders(ts) == {"d"} && Expand(ts, p) == "'1'"
  {
    assert "d" in p;
    QuotedFieldSpelling(ts);
    QuotedFieldExpansion(ts, p);
  }

  lemma QuotedFieldSpelling(ts: seq<Token>)
    requires ts == [Text('\''), Placeholder("d"), Text('\'')]
    ensures WellFormed(ts) && Spelling(ts) == Normalise("\"{d}\"")
  {
    LetterName('d');
    ThreeTokens(ts[0], ts[1], ts[2], map[]);
    ThreeTokensWellFormed(ts[0], ts[1], ts[2]);
    QuotesReplaced();
  }

  lemma QuotedFieldExpansion(ts: seq<Token>, p: map<string, Value>)
    requires ts == [Text('\''), Placeholder("d"), Text('\'')] && p == map["d" := Int(1)]
    ensures Placeholders(ts) == {"d"} && Expand(ts, p) == "'1'"
  {
    assert "d" in p;
    ThreeTokens(ts[0], ts[1], ts[2], p);
    assert Show(Int(1)) == "1";
  }

  lemma QuotesReplaced()
    ensures Normalise("\"{d}\"") == "'{d}'"
  {
    var s := "\"{d}\"";
    assert |Normalise(s)| == 5;
    assert forall k :: 0 <= k < 5 ==> Normalise(s)[k] == "'{d}'"[k];
  }

  /** Without any field, `_format` returns early and doubled braces are NOT collapsed. */
  lemma EscapesKeptWithoutFields(parameters: map<string, Value>)
    requires parameters != map[]
    ensures Resolve("{{x}}", Some(parameters)) == Success("{{x}}")
  {
    var ts := [EscapedOpen, Text('x'), EscapedClose];
    assert WellFormed(ts);
    assert Normalise("{{x}}") == "{{x}}" by {
      assert '"' !in "{{x}}";
      NormaliseFixedPoints("{{x}}");
    }
    assert Spelling(ts) == "{{x}}";
    ResolveTokens("{{x}}", parameters, ts);
  }

  /** With a field present, `format_map` collapses doubled braces around the substituted value. */
  lemma EscapesCollapsedWithField()
    ensures Resolve("{{{a}}}", Some(map["a" := Int(7)])) == Success("{7}")
  {
    var ts := [EscapedOpen, Placeholder("a"), EscapedClose];
    var p := map["a" := Int(7)];
    EscapesCollapsedTokens(ts, p);
    assert Normalise("{{{a}}}") == "{{{a}}}" by {
      assert '"' !in "{{{a}}}";
      NormaliseFixedPoints("{{{a}}}");
    }
    ResolveTokens("{{{a}}}", p, ts);
  }

  lemma EscapesCollapsedTokens(ts: seq<Token>, p: map<string, Value>)
    requires ts == [EscapedOpen, Placeholder("a"), EscapedClose] && p == map["a" := Int(7)]
    ensures p != map[] && WellFormed(ts) && Spelling(ts) == "{{{a}}}"
    ensures Placeholders(ts) == {"a"} && Expand(ts, p) == "{7}"
  {
    LetterName('a');
    assert "a" in p;
    ThreeTokens(ts[0], ts[1], ts[2], p);
    ThreeTokensWellFormed(ts[0], ts[1], ts[2]);
    assert Show(Int(7)) == "7";
  }

  /** A field named twice is reported once; an unused key is no error. */
  lemma MissingReportedOnce()
    ensures Resolve("{a}{b}{a}", Some(map["b" := Int(1), "c" := Int(2)])) == Failure(MissingParams({"a"}))
  {
    var ts := [Placeholder("a"), Placeholder("b"), Placeholder("a")];
    var p := map["b" := Int(1), "c" := Int(2)];
    MissingTokens(ts, p);
    assert Normalise("{a}{b}{a}") == "{a}{b}{a}" by {
      assert '"' !in "{a}{b}{a}";
      NormaliseFixedPoints("{a}{b}{a}");
    }
    ResolveTokens("{a}{b}{a}", p, ts);
  }

  lemma MissingTokens(ts: seq<Token>, p: map<string, Value>)
    requires ts == [Placeholder("a"), Placeholder("b"), Placeholder("a")] && p == map["b" := Int(1), "c" := Int(2)]
    ensures p != map[] && WellFormed(ts) && Spelling(ts) == "{a}{b}{a}"
    ensures Placeholders(ts) == {"a", "b"} && Placeholders(ts) - p.Keys == {"a"}
  {
    LetterName('a');
    LetterName('b');
    assert "b" in p;
    ThreeTokens(ts[0], ts[1], ts[2], p);
    ThreeTokensWellFormed(ts[0], ts[1], ts[2]);
  }

  /**
   * A field named by a non-ASCII digit (ARABIC-INDIC DIGIT ONE) is a
   * positional index to `format_map`, even when the mapping has that key.
   */
  lemma NonAsciiDigitField()
    ensures Resolve("{\U{0661}}", Some(map["\U{0661}" := Int(5)])) == Failure(Malformed(UnsupportedField("\U{0661}}")))
  {
    var t := "{\U{0661}}";
    assert "\U{0661}" in map["\U{0661}" := Int(5)];
    assert Normalise(t) == t by {
      assert '"' !in t;
      NormaliseFixedPoints(t);
    }
    assert IsDecimal('\U{0661}') by {
      assert RunStart(0) == 0x0660;
    }
    assert !IsSimpleName("\U{0661}");
    assert IndexOfAny(t, BRACES) == 0;
    assert t[1..] == "\U{0661}}";
    assert IndexOfAny(t[1..], FIELD_STOPS) == 1;
    assert t[1..][..1] == "\U{0661}" && t[1..][..2] == "\U{0661}}";
    assert ParseField(t[1..]) == Failure(UnsupportedField("\U{0661}}"));
    assert NextChunk(t) == Failure(UnsupportedField("\U{0661}}"));
  }

  // ---------------------------------------------------------------------
  // Query objects, dry runs and their caches
  // ---------------------------------------------------------------------

  /** The job configuration `_init_query_command` sends: a dry run that bypasses the result cache. */
  const DRY_RUN_CONFIG := NEW_QUERY_CONFIG.(dryRun := true, useQueryCache := Some(false))

  /** A finished dry-run job; only its billed byte count, which may be absent, is read. */
  datatype Job = Job(totalBytesBilled: Option<nat>)

  /** Exceptions `validate` and `price` raise. */
  datatype CallError =
    | InvalidQuery             // RuntimeError: "Query is not valid, please fix your query first"
    | ServiceFailure(message: string) // a client exception other than an HTTP error, passed on
    | BytesUnknown                    // TypeError: `int()` of a job without a billed byte count

  /** What `_init_query_command` makes of the service's answer. */
  function DryRunOutcome(response: DryRunResponse): (r: Result<Option<Job>, CallError>)
    ensures r.Failure? <==> response.OtherError?
    ensures r.Failure? ==> r.error == ServiceFailure(response.message)
    ensures r == Success(None) <==> response.HttpError?
    ensures response.Estimated? ==> r == Success(Some(Job(response.totalBytesBilled)))
  {
    match response
    case Estimated(bytes) => Success(Some(Job(bytes)))
    case HttpError => Success(None)
    case OtherError(m) => Failure(ServiceFailure(m))
  }

  /** `validate` given what `_init_query_command` returned or raised. */
  function Verdict(init: Result<Option<Job>, CallError>): (r: Outcome<CallError>)
    ensures r.Pass? <==> init.Success? && init.value.Some?
    ensures init.Success? && init.value.None? ==> r == Fail(InvalidQuery)
    ensures init.Failure? ==> r == Fail(init.error)
  {
    match init
    case Failure(e) => Fail(e)
    case Success(None) => Fail(InvalidQuery)
    case Success(Some(_)) => Pass
  }

  /** Dollars for a billed byte count, before the source rounds to three decimals. */
  function PriceOf(bytes: nat): (dollars: real)
    ensures dollars >= 0.0
    ensures dollars * TERA_IN_BYTES == bytes as real * PRICE_PER_TERA
  {
    bytes as real / TERA_IN_BYTES * PRICE_PER_TERA
  }

  /** Billing more bytes never costs less. */
  lemma PriceMonotone(a: nat, b: nat)
    requires a <= b
    ensures PriceOf(a) <= PriceOf(b)
  {
    assert PriceOf(a) * TERA_IN_BYTES <= PriceOf(b) * TERA_IN_BYTES;
  }

  /** `price` given what `_init_query_command` returned or raised. */
  function PriceOutcome(init: Result<Option<Job>, CallError>): (r: Result<real, CallError>)
    ensures r.Success? <==> Verdict(init).Pass? && init.value.value.totalBytesBilled.Some?
    ensures r.Success? ==> r.value == PriceOf(init.value.value.totalBytesBilled.value)
    ensures Verdict(init).Fail? ==> r == Failure(Verdict(init).error)
    ensures Verdict(init).Pass? && init.value.value.totalBytesBilled.None? ==> r == Failure(BytesUnknown)
  {
    match init
    case Failure(e) => Failure(e)
    case Success(None) => Failure(InvalidQuery)
    case Success(Some(Job(None))) => Failure(BytesUnknown)
    case Success(Some(Job(Some(bytes)))) => Success(PriceOf(bytes))
  }

  /**
   * The three one-entry caches `functools.lru_cache(1)` puts on
   * `_init_query_command`, `validate` and `price`. Each is a class-level
   * slot shared by every `Query`, keyed by object identity; a call that
   * raises stores nothing.
   */
  class Memo {
    var initSlot: Option<(Query, Option<Job>)>
    var validateSlot: Option<Query>
    var priceSlot: Option<(Query, real)>

    constructor ()
      ensures initSlot == None && validateSlot == None && priceSlot == None
    {
      initSlot := None;
      validateSlot := None;
      priceSlot := None;
    }
  }

  class Query {
    /** The SQL text: normalised, then with its fields filled in. */
    var query: string
    const parameters: map<string, Value>
    const client: Client

    /** Lines 18-20 of the constructor: the quote replacement and the attributes. */
    constructor (template: string, parameters: map<string, Value>, client: Client)
      ensures query == Normalise(template)
      ensures this.parameters == parameters && this.client == client
    {
      query := Normalise(template);
      this.parameters := parameters;
      this.client := client;
    }

    /**
     * `Query(template, parameters)`, with the default mapping its tests rely
     * on: a missing or empty mapping falls back to `defaults`. It fails
     * where `ResolveIntended` does and otherwise holds what that computes.
     * As written, the source fails instead (see `Resolve`).
     */
    static method New(template: string, parameters: Option<map<string, Value>>, defaults: map<string, Value>, client: Client)
      returns (r: Result<Query, QueryError>)
      ensures r.Failure? <==> ResolveIntended(template, parameters, defaults).Failure?
      ensures r.Failure? ==> r.error == ResolveIntended(template, parameters, defaults).error
      ensures r.Success? ==> fresh(r.value) && r.value.query == ResolveIntended(template, parameters, defaults).value
      ensures r.Success? ==> r.value.client == client
      ensures r.Success? ==> r.value.parameters == if parameters.None? || parameters.value == map[] then defaults else parameters.value
    {
      var mapping := if parameters.None? || parameters.value == map[] then defaults else parameters.value;
      var q := new Query(template, mapping, client);
      var error := q.Format();
      if error.Some? {
        return Failure(error.value);
      }
      return Success(q);
    }

    /** `_format`: replaces the text by its resolution, or reports the error and leaves it. */
    method Format() returns (error: Option<QueryError>)
      modifies this
      ensures FormatQuery(old(query), parameters).Success? ==>
        error == None && query == FormatQuery(old(query), parameters).value
      ensures FormatQuery(old(query), parameters).Failure? ==>
        error == Some(FormatQuery(old(query), parameters).error) && query == old(query)
    {
      var parsed := Parse(query);
      if parsed.Failure? {
        return Some(Malformed(parsed.error));
      }
      var names := FieldNames(parsed.value);
      if |names| == 0 {
        return None;
      }
      var check := ValidateParams(names, parameters);
      if check.Fail? {
        return Some(check.error);
      }
      query := FormatString.Format(parsed.value, parameters);
      return None;
    }

    /** The `_init_query_command` cache holds this object. */
    predicate InitHit(memo: Memo)
      reads memo
    {
      memo.initSlot.Some? && memo.initSlot.value.0 == this
    }

    /** What `_init_query_command` returns or raises when called now. */
    function PendingInit(memo: Memo): Result<Option<Job>, CallError>
      reads this, memo, client
    {
      if InitHit(memo) then Success(memo.initSlot.value.1)
      else DryRunOutcome(client.answer(query, DRY_RUN_CONFIG, client.calls))
    }

    /**
     * `_init_query_command`: a dry run of the text, unless the cache already
     * holds this object. An HTTP error yields `None`, which is cached like a
     * job; any other exception propagates and is not cached.
     */
    method InitQueryCommand(memo: Memo) returns (r: Result<Option<Job>, CallError>)
      modifies memo, client
      ensures r == old(PendingInit(memo))
      ensures client.calls == old(client.calls) + (if old(InitHit(memo)) then 0 else 1)
      ensures memo.initSlot == (if r.Success? then Some((this, r.value)) else old(memo.initSlot))
      ensures memo.validateSlot == old(memo.validateSlot) && memo.priceSlot == old(memo.priceSlot)
    {
      if InitHit(memo) {
        return Success(memo.initSlot.value.1);
      }
      var response := client.Query(query, DRY_RUN_CONFIG);
      r := DryRunOutcome(response);
      if r.Success? {
        memo.initSlot := Some((this, r.value));
      }
    }

    /** `validate`: passes when the dry run produced a job; a pass is cached, an exception is not. */
    method Validate(memo: Memo) returns (r: Outcome<CallError>)
      modifies memo, client
      ensures old(memo.validateSlot) == Some(this) ==>
        r == Pass && client.calls == old(client.calls) && memo.initSlot == old(memo.initSlot)
        && memo.validateSlot == old(memo.validateSlot)
      ensures old(memo.validateSlot) != Some(this) ==>
        && r == Verdict(old(PendingInit(memo)))
        && client.calls == old(client.calls) + (if old(InitHit(memo)) then 0 else 1)
        && memo.initSlot == (if old(PendingInit(memo)).Success? then Some((this, old(PendingInit(memo)).value)) else old(memo.initSlot))
        && memo.validateSlot == (if r.Pass? then Some(this) else old(memo.validateSlot))
      ensures memo.priceSlot == old(memo.priceSlot)
    {
      if memo.validateSlot == Some(this) {
        return Pass;
      }
      var init := InitQueryCommand(memo);
      r := Verdict(init);
      if r.Pass? {
        memo.validateSlot := Some(this);
      }
    }

    /** The `price` cache holds this object. */
    predicate PriceHit(memo: Memo)
      reads memo
    {
      memo.priceSlot.Some? && memo.priceSlot.value.0 == this
    }

    /** `price`: dollars for the dry run's billed bytes; a price is cached, an exception is not. */
    method Price(memo: Memo) returns (r: Result<real, CallError>)
      modifies memo, client
      ensures old(PriceHit(memo)) ==>
        r == Success(old(memo.priceSlot).value.1) && client.calls == old(client.calls)
        && memo.initSlot == old(memo.initSlot) && memo.priceSlot == old(memo.priceSlot)
      ensures !old(PriceHit(memo)) ==>
        && r == PriceOutcome(old(PendingInit(memo)))
        && client.calls == old(client.calls) + (if old(InitHit(memo)) then 0 else 1)
        && memo.initSlot == (if old(PendingInit(memo)).Success? then Some((this, old(PendingInit(memo)).value)) else old(memo.initSlot))
        && memo.priceSlot == (if r.Success? then Some((this, r.value)) else old(memo.priceSlot))
      ensures memo.validateSlot == old(memo.validateSlot)
    {
      if PriceHit(memo) {
        return Success(memo.priceSlot.value.1);
      }
      var init := InitQueryCommand(memo);
      r := PriceOutcome(init);
      if r.Success? {
        memo.priceSlot := Some((this, r.value));
      }
    }
  }

  /**
   * Calling `validate` twice: unless the first call passed on a service
   * exception, the second gives the same answer, and at most one dry run is
   * sent in all (a query found invalid is not sent again either).
   */
  method ValidateTwice(q: Query, memo: Memo) returns (first: Outcome<CallError>, second: Outcome<CallError>)
    modifies memo, q.client
    ensures !(first.Fail? && first.error.ServiceFailure?) ==>
      second == first && q.client.calls <= old(q.client.calls) + 1
  {
    first := q.Validate(memo);
    second := q.Validate(memo);
  }

  /**
   * Reading `price` twice: unless the first read passed on a service
   * exception, the second gives the same price or the same error, and at
   * most one dry run is sent in all.
   */
  method PriceTwice(q: Query, memo: Memo) returns (first: Result<real, CallError>, second: Result<real, CallError>)
    modifies memo, q.client
    ensures !(first.Failure? && first.error.ServiceFailure?) ==>
      second == first && q.client.calls <= old(q.client.calls) + 1
  {
    first := q.Price(memo);
    second := q.Price(memo);
  }

  /**
   * Calling `_init_query_command` twice with no other query in between: a
   * cached result is returned again without a second dry run.
   */
  method InitQueryCommandTwice(q: Query, memo: Memo)
    returns (first: Result<Option<Job>, CallError>, second: Result<Option<Job>, CallError>)
    modifies memo, q.client
    ensures first.Success? ==> second == first && q.client.calls <= old(q.client.calls) + 1
  {
    first := q.InitQueryCommand(memo);
    second := q.InitQueryCommand(memo);
  }

  /**
   * The one-entry cache is shared: after another query's dry run has taken
   * the slot, asking for the first query again sends a new dry run.
   */
  method SharedInitSlot(q1: Query, q2: Query, memo: Memo)
    returns (r1: Result<Option<Job>, CallError>, r2: Result<Option<Job>, CallError>, r3: Result<Option<Job>, CallError>)
    requires q1 != q2 && q1.client != q2.client
    modifies memo, q1.client, q2.client
    ensures r2.Success? ==>
      q1.client.calls == old(q1.client.calls) + (if old(q1.InitHit(memo)) then 1 else 2)
  {
    r1 := q1.InitQueryCommand(memo);
    r2 := q2.InitQueryCommand(memo);
    r3 := q1.InitQueryCommand(memo);
  }
}
