/**
 * The rendering façade of the CLI: the output-format selector, and a
 * terminal whose methods send a value either to the table renderer or to
 * the serde (JSON/YAML) renderer. What the terminal writes is kept as a log
 * of events; the renderers' own text layout is not modelled.
 */
module Output {
  import opened Wrappers

  /** The format a command is asked to print in. */
  datatype OutputType = Table | Yaml | Json {
    /** Whether this is the table format. */
    function IsTable(): (r: bool)
      ensures r <==> !(Yaml? || Json?)
    {
      this == Table
    }
  }

  /** The format used when none is requested. */
  function DefaultOutputType(): (m: OutputType)
    ensures m.IsTable()
  {
    OutputType.Table
  }

  /** The structured-document formats the serde renderer writes. */
  datatype SerializeType = Yaml | Json

  /** The serde format a non-table output type stands for. */
  function ToSerializeType(m: OutputType): (f: SerializeType)
    requires !m.IsTable()
    ensures m.Yaml? <==> f.Yaml?
    ensures m.Json? <==> f.Json?
  {
    if m.Yaml? then SerializeType.Yaml else SerializeType.Json
  }

  /**
   * A serialisation failure, tagged with the format that failed; `source`
   * is the serialisation library's own error, kept as its message.
   */
  datatype OutputError = SerdeJson(source: string) | SerdeYamlError(source: string)

  /** The error the serde renderer reports when the library fails to write `format`. */
  function SerdeError(format: SerializeType, cause: string): (e: OutputError)
    ensures e.source == cause
    ensures e.SerdeJson? <==> format.Json?
    ensures e.SerdeYamlError? <==> format.Yaml?
  {
    match format
    case Json => SerdeJson(cause)
    case Yaml => SerdeYamlError(cause)
  }

  /**
   * What the serialisation library makes of one value in each format: its
   * document, or the library's error message.
   */
  type Serializer = SerializeType -> Result<string, string>

  /** A row of a table: its cells' text. */
  type Row = seq<string>

  /**
   * What a table-output handler yields: a header row, one content row per
   * record and, in parallel, one error annotation per record.
   */
  datatype TableView = TableView(header: Row, content: seq<Row>, errors: seq<string>) {
    /** The table renderer reads `errors[i]` beside `content[i]` and relies on this. */
    predicate Consistent() {
      |content| == |errors|
    }
  }

  /** One label/optional-value pair of a key/value handler. */
  type KeyValue = (string, Option<string>)

  /** The row a key/value pair is printed as. */
  function KeyValueRow(kv: KeyValue): (row: Row)
    ensures |row| == (if kv.1.Some? then 3 else 1)
    ensures row[0] == kv.0
    ensures kv.1.Some? ==> row[1] == ":" && row[2] == kv.1.value
  {
    match kv.1
    case Some(val) => [kv.0, ":", val]
    case None => [kv.0]
  }

  /** The rows printed for a list of key/value pairs: one per pair, in order. */
  function KeyValueTable(kvs: seq<KeyValue>): (rows: seq<Row>)
    ensures |rows| == |kvs|
    ensures forall i :: 0 <= i < |kvs| ==> rows[i] == KeyValueRow(kvs[i])
  {
    if kvs == [] then [] else [KeyValueRow(kvs[0])] + KeyValueTable(kvs[1..])
  }

  /** Two pairs, one with a value and one without, give a three-cell row and a one-cell row. */
  lemma KeyValueExample()
    ensures KeyValueTable([("Name", Some("g1")), ("Status", None)]) == [["Name", ":", "g1"], ["Status"]]
  {
  }

  /** Something written to the terminal. */
  datatype Event =
    | Text(text: string)                                // print
    | Line(text: string)                                // println
    | TableRows(view: TableView, indent: bool)          // handed to the table renderer
    | Serialized(format: SerializeType, document: string) // written by the serde renderer
    | KeyValueRows(rows: seq<Row>)                      // the key/value table, printed to standard output

  /** The output sink every render call writes to, with what it has written so far. */
  class Terminal {
    var log: seq<Event>

    constructor ()
      ensures log == []
    {
      log := [];
    }

    method Print(msg: string)
      modifies this
      ensures log == old(log) + [Text(msg)]
    {
      log := log + [Text(msg)];
    }

    method Println(msg: string)
      modifies this
      ensures log == old(log) + [Line(msg)]
    {
      log := log + [Line(msg)];
    }

    /** Table mode goes to the table renderer and succeeds; other modes go to the serde renderer. */
    method RenderList(list: TableView, serialize: Serializer, mode: OutputType)
      returns (r: Result<(), OutputError>)
      modifies this
      ensures mode.IsTable() ==> r == Ok(()) && log == old(log) + [TableRows(list, false)]
      ensures !mode.IsTable() ==>
        var format := ToSerializeType(mode);
        match serialize(format)
        case Ok(document) => r == Ok(()) && log == old(log) + [Serialized(format, document)]
        case Err(cause) => r == Err(SerdeError(format, cause)) && log == old(log)
    {
      if mode.IsTable() {
        RenderTable(list, false);
      } else {
        var rendered := RenderSerde(serialize, ToSerializeType(mode));
        if rendered.Err? {
          return Err(rendered.error);
        }
      }
      r := Ok(());
    }

    /** The table renderer cannot fail. */
    method RenderTable(val: TableView, indent: bool)
      modifies this
      ensures log == old(log) + [TableRows(val, indent)]
    {
      log := log + [TableRows(val, indent)];
    }

    /** Serialises a value; a library failure becomes the error of its format, and nothing is written. */
    method RenderSerde(serialize: Serializer, format: SerializeType)
      returns (r: Result<(), OutputError>)
      modifies this
      ensures match serialize(format)
        case Ok(document) => r == Ok(()) && log == old(log) + [Serialized(format, document)]
        case Err(cause) => r == Err(SerdeError(format, cause)) && log == old(log)
    {
      match serialize(format)
      case Ok(document) =>
        log := log + [Serialized(format, document)];
        r := Ok(());
      case Err(cause) =>
        r := Err(SerdeError(format, cause));
    }

    /**
     * Hands the objects to the describe renderer, given here as what it
     * writes or the error it reports; its outcome is returned unchanged.
     */
    method DescribeObjects<D>(objects: seq<D>, mode: OutputType,
                              describe: (seq<D>, OutputType) -> Result<seq<Event>, OutputError>)
      returns (r: Result<(), OutputError>)
      modifies this
      ensures match describe(objects, mode)
        case Ok(written) => r == Ok(()) && log == old(log) + written
        case Err(e) => r == Err(e) && log == old(log)
    {
      match describe(objects, mode)
      case Ok(written) =>
        log := log + written;
        r := Ok(());
      case Err(e) =>
        r := Err(e);
    }

    /**
     * Builds one row per pair, in order, and prints the table; cannot fail.
     * The table goes to standard output rather than through `Print`, and is
     * recorded in the same log.
     */
    method RenderKeyValues(keyValues: seq<KeyValue>)
      modifies this
      ensures log == old(log) + [KeyValueRows(KeyValueTable(keyValues))]
    {
      var table: seq<Row> := [];
      for i := 0 to |keyValues|
        invariant |table| == i
        invariant forall k :: 0 <= k < i ==> table[k] == KeyValueRow(keyValues[k])
      {
        var (key, valOpt) := keyValues[i];
        match valOpt
        case Some(val) =>
          table := table + [[key, ":", val]];
        case None =>
          table := table + [[key]];
      }
      assert table == KeyValueTable(keyValues);
      log := log + [KeyValueRows(table)];
    }
  }
}
