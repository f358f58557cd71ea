# pbq: SQL templates and warehouse job requests, in Dafny

`pbq` wraps the BigQuery client library. A `Query` takes an SQL template and
a parameter mapping, and the constructor resolves the template in three steps.
First it turns every double quote into a single quote. Then it scans the text
for `{name}` replacement fields with `string.Formatter().parse`. If any field
exists, it checks that every field name is a key of the mapping and fills the
fields in with `str.format_map`. `validate()` and `price` run a dry run of the
resolved text. Each sits behind a one-entry `functools.lru_cache` that all
`Query` objects share. The `PBQ` driver builds the query and load jobs it
hands to the client: a destination table for query results, and a load-job
configuration chosen by a small decision table.

The model has six modules:

- `Wrappers` (`wrappers.dfy`): `Option`, `Result` and `Outcome`.
- `Values` (`values.dfy`): the parameter values (integers, strings, booleans,
  `None`) and Python's `str()` of them.
- `FormatString` (`format_string.dfy`): the `Formatter.parse` scanner,
  restricted to fields with simple names. It works chunk by chunk, like
  CPython's C implementation. On such fields it raises the same errors:
  a single `}`, a single `{` at the end, a `{` inside a field name, or an
  unclosed field. Python's scanner also accepts `{}`, `{0}`, `{a.b}`,
  `{a!r}` and `{a:>5}`, and it has further errors on the conversion and
  format-spec path. The model instead rejects all of those fields with an
  error of its own, `UnsupportedField` (see "## Left out"). `format_map` is
  modelled too. The scanner is checked against an
  independent reference: a template is a sequence of tokens (characters,
  escaped braces and placeholders), `Spelling` is how a token sequence is
  written and `Expand` is what it means. `ParseSpelling` and `ParseTokens`
  prove the scanner agrees with the reference in both directions.
- `Warehouse` (`warehouse.dfy`): table references, query-job configurations,
  and a client. The client's answers come from an oracle that depends on the
  query text, the configuration and how many requests came before.
- `QueryModel` (`query.dfy`): template resolution as the function `Resolve`,
  and the `Query` class. Its constructor and `_format` update `query` step by
  step. The three caches are a `Memo` object whose slots the methods update.
- `Driver` (`driver.dfy`): the `PBQ` driver. It covers the load-job decision
  table, the time-stamped parquet file name, the in-place relabelling of a
  data frame's columns, and the query jobs of `to_dataframe` and
  `save_to_table`.

The code at `pbq/query.py:19` disagrees with the tests, as "## Findings"
records. `Resolve` models the constructor as written. `ResolveIntended` models
it with the fallback the tests rely on, and `Query.New` uses that version.

## Model

| member | source | states |
|---|---|---|
| Values.ShowText | pbq/query.py:34 | `str()` of a substituted value: a string is inserted verbatim; an integer is written in decimal digits without leading zeros, with a leading `-` when negative, and the digits read back as the same number; booleans are `True`/`False` and `None` is `None` |
| Values.Show | pbq/query.py:34 | `str()` of a parameter value; what it writes for each kind of value is stated by `Values.ShowText` |
| Values.DecimalRoundTrip | pbq/query.py:34 | reading back the decimal digits `str()` writes for a natural number gives that number |
| FormatString.Parse | pbq/query.py:27 | the model's `Formatter().parse` for simple-name fields: the chunks in order, or the first error; what it accepts and returns is stated by `ParseSpelling`, `ParseTokens` and `ParseSucceedsIff` |
| FormatString.FieldNames | pbq/query.py:27 | the field names of the chunks, in order and with repetitions; by `ParseSpelling` and `ParseTokens` their set is exactly the template's placeholders |
| FormatString.Format | pbq/query.py:34 | `format_map`: each literal in order and each field replaced by `str()` of its value; `ParseSpelling` and `ParseTokens` prove it is the token expansion, and `FormatIgnoresExtraKeys` proves that extra keys do not change it |
| FormatString.ParseField | pbq/query.py:27 | a field the scanner accepts has a simple name, and the input is exactly that name, the closing brace and the rest |
| FormatString.ParseSpelling | pbq/query.py:27 | the scanner accepts every well-formed token sequence as written; the field names it finds are exactly the placeholders; `format_map` gives the token expansion when every placeholder has a value |
| FormatString.ParseTokens | pbq/query.py:27 | every string the scanner accepts is the spelling of well-formed tokens, whose placeholders are the fields found and whose expansion is what `format_map` produces |
| FormatString.ParseSucceedsIff | pbq/query.py:27 | the model's scanner, for simple-name fields, accepts a string if and only if it is the spelling of some well-formed template |
| FormatString.FormatIgnoresExtraKeys | pbq/query.py:34 | extra keys in the mapping, which no field names, do not change the `format_map` result |
| QueryModel.Normalise | pbq/query.py:18 | quote replacement keeps the length, turns every `"` into `'`, leaves every other character in place, and leaves no `"` |
| QueryModel.NormaliseFixedPoints | pbq/query.py:18 | quote replacement leaves a text unchanged if and only if the text has no double quote |
| QueryModel.ValidateParams | pbq/query.py:37-43 | passes if and only if every field name is a key; otherwise it reports the non-empty set of names that are not keys, each name once |
| QueryModel.Resolve | pbq/query.py:19 | a missing or empty mapping always makes construction fail (the undefined `_parameters` fallback) |
| QueryModel.ResolveIntended | pbq/query.py:19 | with a truthy mapping it agrees with `Resolve`; with a missing or empty mapping and non-empty defaults it resolves exactly as `Resolve` does with the defaults as the mapping; it never fails because the mapping is unset |
| QueryModel.IntendedDefaultsFill | pbq/query.py:19-34 | with a missing or empty mapping, a template whose fields all have defaults resolves to its expansion with the default values |
| QueryModel.IntendedNoFieldsBuild | pbq/query.py:19-30 | with no mapping, a template without fields builds unchanged with the fallback, while as written it fails |
| QueryModel.IntendedMissingReported | pbq/query.py:19-43 | with no mapping, a field the defaults lack is reported as a missing parameter with the fallback, while as written construction fails before the fields are looked at |
| QueryModel.UnsetMappingCounterexample | pbq/query.py:19 | as written, `x` and `{a}` with no mapping both fail as unset; with the fallback and no defaults, `x` builds and `{a}` reports `a` missing |
| QueryModel.FormatQuery | pbq/query.py:23-34 | `_format`: a scanner error, the text unchanged when it has no field, the missing-parameters error, or the `format_map` result; `FormatQueryTokens` states each case for a text written as tokens |
| QueryModel.FormatQueryTokens | pbq/query.py:27-34 | `_format` on a text written as tokens, for any mapping: unchanged without placeholders, exactly the missing placeholders when some are missing, the expansion otherwise |
| QueryModel.ResolveTokens | pbq/query.py:27-34 | for a template written as tokens: without placeholders the result is the quote-normalised template unchanged; if some are missing, the error names exactly the missing placeholders; otherwise the result is the token expansion |
| QueryModel.ResolveMalformedIff | pbq/query.py:27 | construction fails with an error of the model's scanner (simple-name fields only) if and only if the normalised template is not the spelling of any well-formed template |
| QueryModel.ResolveIgnoresExtraKeys | pbq/query.py:37-43 | a template that resolves with one mapping resolves to the same text with any larger mapping that agrees with it |
| QueryModel.ResolvedQuotes | pbq/query.py:18-34 | a double quote survives in a resolved query only if the value of some field the template names contains one, because quotes are replaced before substitution |
| QueryModel.QuotedFieldExample | pbq/query.py:18-34 | `"{d}"` with `d = 1` resolves to `'1'` |
| QueryModel.EscapesKeptWithoutFields | pbq/query.py:27-30 | a template with only escaped braces, `{{x}}`, resolves to itself: the doubled braces are not collapsed |
| QueryModel.EscapesCollapsedWithField | pbq/query.py:34 | `{{{a}}}` with `a = 7` resolves to `{7}`: with a field present, doubled braces collapse |
| QueryModel.MissingReportedOnce | pbq/query.py:37-43 | `{a}{b}{a}` with keys `b` and `c` fails naming only `{a}`: a repeated name counts once and an unused key is no error |
| QueryModel.NonAsciiDigitField | pbq/query.py:34 | a field named by ARABIC-INDIC DIGIT ONE is positional, so it is not filled in even though the mapping has that key |
| QueryModel.DryRunOutcome | pbq/query.py:92-96 | an HTTP error becomes `None`; any other exception passes through as a service failure; an estimate becomes its job with its billed byte count |
| QueryModel.Verdict | pbq/query.py:70-72 | `validate` passes if and only if the dry run produced a job; a `None` result is the runtime error; any other exception passes through |
| QueryModel.PriceOf | pbq/query.py:60 | the price of a billed byte count is non-negative, and the price times 1024^4 equals the billed bytes times 5 dollars |
| QueryModel.PriceMonotone | pbq/query.py:60 | billing more bytes never gives a lower price |
| QueryModel.PriceOutcome | pbq/query.py:57-61 | `price` succeeds exactly when `validate` would pass and the job has a billed byte count, with that count's price; it fails with `validate`'s error when that fails, and with the `int(None)` type error when the count is absent |
| QueryModel.Memo.constructor | pbq/query.py:51-86 | the three one-entry caches of `price`, `validate` and `_init_query_command` start empty |
| QueryModel.Query.constructor | pbq/query.py:18-20 | the object holds the quote-normalised template, the mapping and the client |
| QueryModel.Query.New | pbq/query.py:12-21 | construction fails exactly when `ResolveIntended` does, with the same error; otherwise it yields a new query holding the resolved text and the mapping it used |
| QueryModel.Query.Format | pbq/query.py:23-34 | on success the text becomes its resolution; on error the error is reported and the text is left as it was |
| QueryModel.Query.InitQueryCommand | pbq/query.py:86-96 | returns the cached result when the shared slot holds this query, with no request; otherwise it sends one dry run, maps an HTTP error to `None` and caches the result; another exception is passed on and not cached; the other caches are untouched |
| QueryModel.Query.Validate | pbq/query.py:63-72 | a cached pass returns at once with no request; otherwise the verdict on the dry-run result, with a pass cached and a failure not cached |
| QueryModel.Query.Price | pbq/query.py:50-61 | a cached price returns at once with no request; otherwise the price of the dry-run job, or the error `validate` would raise, with only a price cached |
| QueryModel.ValidateTwice | pbq/query.py:63-72 | two `validate` calls in a row send at most one dry run and agree, unless the first passed on a service exception; a query found invalid is not sent again |
| QueryModel.PriceTwice | pbq/query.py:50-61 | reading `price` twice sends at most one dry run, and the two reads agree, unless the first passed on a service exception |
| QueryModel.InitQueryCommandTwice | pbq/query.py:86-96 | after a result is cached, a second call returns it again with no new dry run |
| QueryModel.SharedInitSlot | pbq/query.py:86 | the one-entry slot is shared: after another query's dry run takes it, the first query's dry run is sent again |
| Warehouse.Client.Query | pbq/query.py:93 | each request is one call to the service, answered by the oracle for that text, configuration and call number |
| Driver.SplitDecorator | pbq/pbq.py:99-101 | splitting a table id at its first `$` gives a name without `$`, and the parts spell the id back |
| Driver.LoadTableId | pbq/pbq.py:99-100 | the load target id: `table$partition` for a truthy partition, the table alone otherwise; `LoadTableIdSplits` proves `SplitDecorator` recovers both parts |
| Driver.LoadTableIdSplits | pbq/pbq.py:99-101 | for a table name without `$`, the load target id splits back into the name and the partition, present only when it is truthy |
| Driver.SaveFileToTable | pbq/pbq.py:96-112 | the load goes to the given dataset under the client's project, table `table$partition` for a truthy partition; truncate if and only if `replace`; one header row skipped if and only if the format is CSV; autodetect on; bad-record limit and format passed through |
| Driver.Pad2 | pbq/pbq.py:134 | two digits that read back as the number |
| Driver.Stamp | pbq/pbq.py:134 | `%y%m%d%H%M%S` is twelve digits |
| Driver.TempPath | pbq/pbq.py:135 | the file name is `/tmp/tmp-`, twelve characters, then `.parquet` |
| Driver.StampRoundTrip | pbq/pbq.py:134 | the stamp reads back as the two-digit year, month, day, hour, minute and second |
| Driver.TempPathSameSecond | pbq/pbq.py:133-135 | two clock readings give the same file if and only if they agree on the two-digit year and everything down to the second |
| Driver.Labels | pbq/pbq.py:142 | relabelling keeps the number and order of columns and makes each label the string form of the old one |
| Driver.LabelsIdempotent | pbq/pbq.py:142 | relabelling twice is relabelling once, and string labels are kept |
| Driver.SaveDfToParquet | pbq/pbq.py:141-143 | the frame's columns are relabelled in place |
| Driver.SaveDataframeToTable | pbq/pbq.py:133-138 | the frame is relabelled in place; the load is PARQUET from the time-stamped file, no header row skipped, to the same table and partition; `replace` and the bad-record limit are passed through |
| Driver.PBQ.constructor | pbq/pbq.py:18-20 | the driver copies the query's current text and keeps the client |
| Driver.PBQ.ToDataframe | pbq/pbq.py:35-40 | the job runs the query text; a destination is set if and only if `save_query` is on, to the `dataset` and `table` arguments in the default project; it fails with `KeyError` exactly when one of them is missing, `dataset` reported first |
| Driver.PBQ.SaveToTable | pbq/pbq.py:68-77 | the job is a real run (no dry run, no cache setting) of the query text into the named dataset and table, in `project` if it is truthy and in the client's default project otherwise |
| Driver.ToDataframeIgnoresExtraKeys | pbq/pbq.py:35-38 | keyword arguments other than `dataset` and `table` never change the job |
| Driver.SaveToTableFalsyProject | pbq/pbq.py:73-74 | a missing and an empty project both select the default project |

## Left out

- The BigQuery and BigQuery Storage services: running a query, the dry run, `load_table_from_file`, `get_table` and waiting for a job. The dry run is an oracle parameter of `Warehouse.Client`. Query and load jobs are modelled as the requests the driver would submit.
- Creating clients: the source calls `bigquery.Client()` inside `Query.__init__` and `PBQ.__init__`. The model passes the client in instead (`QueryModel.Query.New`, `Driver.PBQ.constructor`). For `bigquery.Client(project=project)` in `save_file_to_table`, the model keeps only the project that client would use.
- `table_details` (`pbq/pbq.py:145-161`): it only copies service metadata into a dictionary.
- `Query.read_file`, `Query._js_r`, opening the load file, `to_csv`'s CSV writing and `to_parquet`'s file writing: these are file and JSON I/O. `to_csv` submits the same job as `Driver.PBQ.ToDataframe`.
- pandas internals: `Driver.DataFrame` keeps only the column labels. The `index=False` argument of `to_parquet` is not modelled.
- The clock: `datetime.now()` is the `now` parameter of `Driver.SaveDataframeToTable`.
- `print` output in `save_to_table` and `save_file_to_table`.
- QueryModel.PriceOf: gives the exact real `bytes / 1024^4 * 5`. The source divides in floating point.
- QueryModel.PriceOutcome: returns the exact price. The source rounds the floating-point price to three decimals with `round`.
- `QueryModel.Query.Price`: returns the exact price as a real. The source computes it in floating point and rounds it to three decimals with `round`.
- `QueryModel.Query.New`: builds with the fallback mapping when the mapping is missing or empty. The source raises `AttributeError` there instead, because `pbq/query.py:19` reads a `_parameters` attribute the class never defines. That behaviour is kept in `QueryModel.Resolve` and exhibited by `QueryModel.UnsetMappingCounterexample`, as "## Findings" records.
- `FormatString.ParseField`: some fields end in `UnsupportedField`: attribute access (`a.b`), indexing (`a[0]`), a conversion (`!r`), a format spec (`:>5`), and empty or all-digit names. Digits of any script count, per Unicode 15.0; digits added in later Unicode versions are not covered. Python looks these fields up differently. `_validate_params` would compare the raw field text with the keys and could report a missing parameter first.
- `Values.Show`: parameter values are integers, strings, booleans or `None`. Floats, lists and other objects that a JSON file or a dict may hold are not modelled.
- `Driver.SaveFileToTable` and `Driver.SaveDataframeToTable` take every argument explicitly. The source's default arguments are not modelled: CSV format, no bad records allowed, `replace` on and no partition (`pbq/pbq.py:81-82`, `:120-121`).
- `Driver.ClientProject`: the project is used as given. Whatever `bigquery.Client` does with an empty project name is not modelled.
- `Driver.PBQ.ToDataframe`: keyword-argument values are strings.
- The BigQuery Storage client that `PBQ.__init__` creates is left out; it only speeds up result download.

## Findings

| source | as written | input that shows it | evidently intended | confidence | as-written member | corrected member |
|---|---|---|---|---|---|---|
| pbq/query.py:19 | a missing or empty mapping falls back to `self._parameters`, which the class never defines, so construction raises `AttributeError` | `Query("x")` or `Query("{a}")` with no mapping, as in tests/test_query.py:16-22 and :41-44 | fall back to a default mapping, which the comment on line 19 ties to a configuration file: a template without fields builds unchanged, and a field the defaults lack raises the missing-parameters `ValueError` | medium, not executed | QueryModel.UnsetMappingCounterexample | QueryModel.ResolveIntended |
