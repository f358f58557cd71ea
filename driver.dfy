/**
 * `pbq.pbq.PBQ`: the requests the driver builds before handing them to the
 * warehouse client — query jobs with an optional destination table, and
 * load jobs whose configuration follows a small decision table — and the
 * in-place relabelling of a data frame's columns before it is written out.
 */
module Driver {
  import opened Wrappers
  import opened Values
  import opened Warehouse
  import QueryModel

  /** `bigquery.SourceFormat.CSV` and `bigquery.SourceFormat.PARQUET`. */
  const CSV: string := "CSV"
  const PARQUET: string := "PARQUET"

  datatype WriteDisposition = WriteTruncate | WriteAppend

  /** The fields of `bigquery.LoadJobConfig` the driver sets; `None` is "left unset". */
  datatype LoadJobConfig = LoadJobConfig(
    maxBadRecords: int,
    sourceFormat: string,
    writeDisposition: WriteDisposition,
    skipLeadingRows: Option<nat>,
    autodetect: Option<bool>)

  /** A load job handed to `load_table_from_file`: the file, where it goes and how. */
  datatype LoadRequest = LoadRequest(filename: string, destination: TableRef, config: LoadJobConfig)

  /** A query job handed to `client.query`. */
  datatype QueryRequest = QueryRequest(sql: string, config: QueryJobConfig)

  /** Python truthiness of an optional string: present and not empty. */
  predicate Truthy(s: Option<string>) {
    s.Some? && s.value != []
  }

  /** The project of `bigquery.Client(project=project)`: the default one when none is given. */
  function ClientProject(project: Option<string>): ProjectRef {
    if project.None? then DefaultProject else Project(project.value)
  }

  // ---------------------------------------------------------------------
  // Load jobs
  // ---------------------------------------------------------------------

  /** The table id a load targets: `table$partition` for a truthy partition. */
  function LoadTableId(table: string, partition: Option<string>): string {
    if Truthy(partition) then table + "$" + partition.value else table
  }

  /** Splits a table id at its first `$` into the table name and the partition decorator. */
  function SplitDecorator(id: string): (r: (string, Option<string>))
    ensures '$' !in r.0
    ensures r.1.None? ==> r.0 == id
    ensures r.1.Some? ==> id == r.0 + "$" + r.1.value
    decreases |id|
  {
    if id == [] then ([], None)
    else if id[0] == '$' then ([], Some(id[1..]))
    else
      var (t, p) := SplitDecorator(id[1..]);
      assert p.Some? ==> id == [id[0]] + t + "$" + p.value;
      ([id[0]] + t, p)
  }

  /** For a table name without `$`, the decorated id splits back into the name and the partition. */
  lemma {:induction false} LoadTableIdSplits(table: string, partition: Option<string>)
    requires '$' !in table
    ensures SplitDecorator(LoadTableId(table, partition)) == (table, if Truthy(partition) then partition else None)
    decreases |table|
  {
    if table == [] {
      if Truthy(partition) {
        assert LoadTableId(table, partition) == "$" + partition.value;
        assert ("$" + partition.value)[1..] == partition.value;
      }
    } else {
      LoadTableIdSplits(table[1..], partition);
      var id := LoadTableId(table, partition);
      assert id[0] == table[0] && id[1..] == LoadTableId(table[1..], partition);
      assert [table[0]] + table[1..] == table;
    }
  }

  /**
   * `save_file_to_table` up to the load call: the target table, then the
   * job configuration one field at a time.
   */
  method SaveFileToTable(
    filename: string, table: string, dataset: string, project: Option<string>,
    fileFormat: string, maxBadRecords: int, replace: bool, partition: Option<string>)
    returns (r: LoadRequest)
    ensures r.filename == filename
    ensures r.destination == TableRef(ClientProject(project), dataset, LoadTableId(table, partition))
    ensures r.config.writeDisposition == WriteTruncate <==> replace
    ensures r.config.skipLeadingRows.Some? <==> fileFormat == CSV
    ensures r.config.skipLeadingRows.Some? ==> r.config.skipLeadingRows.value == 1
    ensures r.config.autodetect == Some(true)
    ensures r.config.maxBadRecords == maxBadRecords && r.config.sourceFormat == fileFormat
  {
    var table := table;
    if Truthy(partition) {
      table := table + "$" + partition.value;
    }
    var destination := TableRef(ClientProject(project), dataset, table);
    var config := LoadJobConfig(0, "", WriteAppend, None, None);
    config := config.(maxBadRecords := maxBadRecords);
    config := config.(sourceFormat := fileFormat);
    if replace {
      config := config.(writeDisposition := WriteTruncate);
    } else {
      config := config.(writeDisposition := WriteAppend);
    }
    if fileFormat == CSV {
      config := config.(skipLeadingRows := Some(1));
    }
    config := config.(autodetect := Some(true));
    r := LoadRequest(filename, destination, config);
  }

  // ---------------------------------------------------------------------
  // Temporary file names
  // ---------------------------------------------------------------------

  /** A reading of the clock: `datetime.datetime.now()`. */
  datatype Timestamp = Timestamp(year: nat, month: nat, day: nat, hour: nat, minute: nat, second: nat, microsecond: nat)
  {
    predicate Valid() {
      1 <= year <= 9999 && 1 <= month <= 12 && 1 <= day <= 31
      && hour < 24 && minute < 60 && second < 60 && microsecond < 1000000
    }
  }

  /** A number below 100 as two zero-padded digits (`%y`, `%m`, `%d`, `%H`, `%M`, `%S`). */
  function Pad2(n: nat): (r: string)
    requires n < 100
    ensures |r| == 2 && AllDigits(r) && DigitsValue(r) == n
  {
    var r := [DigitChar(n / 10), DigitChar(n % 10)];
    DigitCharValue(n / 10);
    DigitCharValue(n % 10);
    assert r[..1] == [DigitChar(n / 10)] && r[..1][..0] == [];
    assert DigitsValue(r[..1]) == n / 10;
    assert DigitsValue(r) == (n / 10) * 10 + n % 10;
    r
  }

  /** `now.strftime('%y%m%d%H%M%S')`. */
  function Stamp(t: Timestamp): (r: string)
    requires t.Valid()
    ensures |r| == 12 && AllDigits(r)
  {
    Pad2(t.year % 100) + Pad2(t.month) + Pad2(t.day) + Pad2(t.hour) + Pad2(t.minute) + Pad2(t.second)
  }

  const TEMP_PREFIX: string := "/tmp/tmp-"
  const TEMP_SUFFIX: string := ".parquet"

  /** The parquet file `save_dataframe_to_table` writes for a clock reading. */
  function TempPath(t: Timestamp): (path: string)
    requires t.Valid()
    ensures |path| == |TEMP_PREFIX| + 12 + |TEMP_SUFFIX|
    ensures path[..|TEMP_PREFIX|] == TEMP_PREFIX && path[|path| - |TEMP_SUFFIX|..] == TEMP_SUFFIX
  {
    TEMP_PREFIX + Stamp(t) + TEMP_SUFFIX
  }

  /** The six two-digit fields of a stamp, read back. */
  function StampFields(s: string): seq<nat>
    requires |s| == 12 && AllDigits(s)
  {
    seq(6, k requires 0 <= k < 6 => DigitsValue(s[2 * k..2 * k + 2]))
  }

  /** The clock fields a timestamp keeps in a file name. */
  function KeptFields(t: Timestamp): seq<nat> {
    [t.year % 100, t.month, t.day, t.hour, t.minute, t.second]
  }

  /** A stamp reads back as the two-digit year, month, day, hour, minute and second. */
  lemma StampRoundTrip(t: Timestamp)
    requires t.Valid()
    ensures StampFields(Stamp(t)) == KeptFields(t)
  {
    var s := Stamp(t);
    assert s[0..2] == Pad2(t.year % 100);
    assert s[2..4] == Pad2(t.month);
    assert s[4..6] == Pad2(t.day);
    assert s[6..8] == Pad2(t.hour);
    assert s[8..10] == Pad2(t.minute);
    assert s[10..12] == Pad2(t.second);
  }

  /**
   * Two clock readings give the same file name exactly when they agree on
   * the two-digit year and on everything down to the second: loads started
   * in the same second share one file.
   */
  lemma TempPathSameSecond(a: Timestamp, b: Timestamp)
    requires a.Valid() && b.Valid()
    ensures TempPath(a) == TempPath(b) <==> KeptFields(a) == KeptFields(b)
  {
    if TempPath(a) == TempPath(b) {
      assert Stamp(a) == TempPath(a)[|TEMP_PREFIX|..|TEMP_PREFIX| + 12];
      assert Stamp(b) == TempPath(b)[|TEMP_PREFIX|..|TEMP_PREFIX| + 12];
      StampRoundTrip(a);
      StampRoundTrip(b);
    }
    if KeptFields(a) == KeptFields(b) {
      assert a.year % 100 == b.year % 100 && a.month == b.month && a.day == b.day;
      assert a.hour == b.hour && a.minute == b.minute && a.second == b.second;
    }
  }

  // ---------------------------------------------------------------------
  // Data frames
  // ---------------------------------------------------------------------

  /** The column labels after `["{}".format(col) for col in df.columns]`. */
  function Labels(columns: seq<Value>): (r: seq<Value>)
    ensures |r| == |columns|
    ensures forall k :: 0 <= k < |r| ==> r[k].Str? && r[k].s == Show(columns[k])
  {
    seq(|columns|, k requires 0 <= k < |columns| => Str(Show(columns[k])))
  }

  /** Relabelling twice is relabelling once, and string labels are kept as they are. */
  lemma LabelsIdempotent(columns: seq<Value>)
    ensures Labels(Labels(columns)) == Labels(columns)
    ensures (forall k :: 0 <= k < |columns| ==> columns[k].Str?) ==> Labels(columns) == columns
  {
    assert forall k :: 0 <= k < |columns| ==> Labels(Labels(columns))[k] == Labels(columns)[k];
    if forall k :: 0 <= k < |columns| ==> columns[k].Str? {
      assert forall k :: 0 <= k < |columns| ==> Labels(columns)[k] == columns[k];
    }
  }

  /** A `pandas.DataFrame`; only its column labels are modelled. */
  class DataFrame {
    var columns: seq<Value>

    constructor (columns: seq<Value>)
      ensures this.columns == columns
    {
      this.columns := columns;
    }
  }

  /** `_save_df_to_parquet`: relabels the frame's columns in place before writing it. */
  method SaveDfToParquet(df: DataFrame, inputPath: string)
    modifies df
    ensures df.columns == Labels(old(df.columns))
  {
    df.columns := Labels(df.columns);
  }

  /**
   * `save_dataframe_to_table`: writes the frame to a time-stamped parquet
   * file and loads that file, forwarding the remaining arguments.
   */
  method SaveDataframeToTable(
    df: DataFrame, table: string, dataset: string, project: Option<string>,
    maxBadRecords: int, replace: bool, partition: Option<string>, now: Timestamp)
    returns (r: LoadRequest)
    requires now.Valid()
    modifies df
    ensures df.columns == Labels(old(df.columns))
    ensures r.filename == TempPath(now)
    ensures r.destination == TableRef(ClientProject(project), dataset, LoadTableId(table, partition))
    ensures r.config.sourceFormat == PARQUET && r.config.skipLeadingRows == None
    ensures r.config.writeDisposition == WriteTruncate <==> replace
    ensures r.config.maxBadRecords == maxBadRecords && r.config.autodetect == Some(true)
  {
    var inputPath := TempPath(now);
    SaveDfToParquet(df, inputPath);
    r := SaveFileToTable(inputPath, table, dataset, project, PARQUET, maxBadRecords, replace, partition);
  }

  // ---------------------------------------------------------------------
  // Query jobs
  // ---------------------------------------------------------------------

  class PBQ {
    /** The SQL text, copied from the `Query` when the driver is built. */
    const query: string
    const queryObj: QueryModel.Query
    const client: Client

    constructor (q: QueryModel.Query, client: Client)
      ensures query == q.query && queryObj == q && this.client == client
    {
      query := q.query;
      queryObj := q;
      this.client := client;
    }

    /**
     * The query job `to_dataframe` submits (and `to_csv` through it). With
     * `save_query`, the keyword arguments must name the dataset and the
     * table; the first key missing, `dataset` before `table`, is the
     * `KeyError`.
     */
    function ToDataframe(saveQuery: bool, params: map<string, string>): (r: Result<QueryRequest, string>)
      ensures r.Success? <==> !saveQuery || ("dataset" in params && "table" in params)
      ensures r.Failure? ==> r.error == if "dataset" !in params then "dataset" else "table"
      ensures r.Success? ==> r.value.sql == query && !r.value.config.dryRun && r.value.config.useQueryCache.None?
      ensures r.Success? ==> (r.value.config.destination.Some? <==> saveQuery)
      ensures r.Success? && saveQuery ==>
        r.value.config.destination == Some(TableRef(DefaultProject, params["dataset"], params["table"]))
    {
      if !saveQuery then Success(QueryRequest(query, NEW_QUERY_CONFIG))
      else if "dataset" !in params then Failure("dataset")
      else if "table" !in params then Failure("table")
      else
        var destination := TableRef(DefaultProject, params["dataset"], params["table"]);
        Success(QueryRequest(query, NEW_QUERY_CONFIG.(destination := Some(destination))))
    }

    /** The query job `save_to_table` submits: the query into the named table. */
    function SaveToTable(table: string, dataset: string, project: Option<string>): (r: QueryRequest)
      ensures r.sql == query && r.config.destination.Some?
      ensures !r.config.dryRun && r.config.useQueryCache.None?
      ensures r.config.destination.value.dataset == dataset && r.config.destination.value.table == table
      ensures r.config.destination.value.project == if Truthy(project) then Project(project.value) else DefaultProject
    {
      var tableRef := TableRef(DefaultProject, dataset, table);
      var tableRef := if Truthy(project) then TableRef(Project(project.value), dataset, table) else tableRef;
      QueryRequest(query, NEW_QUERY_CONFIG.(destination := Some(tableRef)))
    }
  }

  /** Keyword arguments other than `dataset` and `table` never change the job `to_dataframe` submits. */
  lemma ToDataframeIgnoresExtraKeys(p: PBQ, saveQuery: bool, params: map<string, string>, more: map<string, string>)
    requires forall k :: k in params ==> k in more && more[k] == params[k]
    requires forall k :: k in more && k !in params ==> k != "dataset" && k != "table"
    ensures p.ToDataframe(saveQuery, more) == p.ToDataframe(saveQuery, params)
  {
  }

  /** `save_to_table` treats a missing and an empty project alike: both use the client's default project. */
  lemma SaveToTableFalsyProject(p: PBQ, table: string, dataset: string)
    ensures p.SaveToTable(table, dataset, None) == p.SaveToTable(table, dataset, Some(""))
  {
  }
}
