# Fluvio CLI output rendering, in Dafny

This project models three small parts of the Fluvio command-line tools.

- **The rendering façade** (`Output`). `OutputType` picks the format: table (the default), YAML or JSON. A `Terminal` sends a list to the table renderer in table mode. In YAML or JSON mode it sends the list to the serde renderer, and a serialisation error comes back to the caller unchanged. `RenderKeyValues` prints label/value pairs as a table. A pair with a value becomes a row `[label, ":", value]`; a pair without one becomes the row `[label]`. The terminal's output is a log of events (`Text`, `Line`, `TableRows`, `Serialized`, `KeyValueRows`), and every method says exactly which events it appends. The key/value table is printed to standard output rather than through the terminal; the model records it in the same log.
- **The SPU-group list command** (`SpuGroupList`). An empty list prints `no groups`. Otherwise the list is rendered once, in the format the caller asked for. The table handler gives the header `NAME, REPLICAS, MIN ID, RACK, SIZE, STATUS`, one six-cell row per group and one empty error string per group.
- **The record extractor impls** (`Extractors`). Reading a `&Record` gives back that same record. Writing a whole `Record` into a target replaces all of the target's fields. Writing a `(key, value)` pair replaces the key (even with `None`) and the value, and leaves everything else unchanged.

Two helper modules support these. `Wrappers` holds `Option` and `Result`. `Decimal` holds the decimal text of integers, which is how Rust's `to_string()` writes the integer cells: an optional '-', then digits with no leading zero, and never "-0". `ParseInt` reads that text back. Two round-trip lemmas show that `IntToString` gives the one canonical numeral of each integer.

Serialisation is a parameter, `Serializer = SerializeType -> Result<string, string>`. It gives the library's result for the value in each format: either the document or the library's error message. The list command passes the library's result for its own list of groups. The serde renderer turns a library error into `SerdeJson` or `SerdeYamlError`, whichever matches the format, and writes nothing in that case.

## Model

| member | source | states |
|---|---|---|
| `Output.OutputType.IsTable` | crates/fluvio-extension-common/src/output/mod.rs:95-98 | true exactly for table; false for yaml and json |
| `Output.DefaultOutputType` | crates/fluvio-extension-common/src/output/mod.rs:87-92 | the default output type is the table format |
| `Output.ToSerializeType` | crates/fluvio-extension-common/src/output/mod.rs:112-114 | a yaml or json output type becomes the serde format of the same name |
| `Output.SerdeError` | crates/fluvio-extension-common/src/output/mod.rs:38-55 | a library failure becomes the error of the format that failed, and its source is kept unchanged |
| `Output.KeyValueRow` | crates/fluvio-extension-common/src/output/mod.rs:155-160 | `(key, Some(val))` gives the three cells `key, ":", val`; `(key, None)` gives only `key` |
| `Output.KeyValueTable` | crates/fluvio-extension-common/src/output/mod.rs:149-161 | one row per pair, in the same order, each row shaped by its pair |
| `Output.KeyValueExample` | crates/fluvio-extension-common/src/output/mod.rs:155-161 | `[("Name", Some "g1"), ("Status", None)]` prints `[Name, :, g1]` then `[Status]` |
| `Output.Terminal.Print` | crates/fluvio-extension-common/src/output/mod.rs:102 | appends the raw text and nothing else |
| `Output.Terminal.Println` | crates/fluvio-extension-common/src/output/mod.rs:103 | appends one line and nothing else |
| `Output.Terminal.RenderList` | crates/fluvio-extension-common/src/output/mod.rs:105-118 | table mode only uses the table renderer and returns `Ok`; other modes only use the serde renderer, return its error unchanged, and otherwise return `Ok` |
| `Output.Terminal.RenderTable` | crates/fluvio-extension-common/src/output/mod.rs:120-123 | hands the table to the table renderer with the given indent; has no error result |
| `Output.Terminal.RenderSerde` | crates/fluvio-extension-common/src/output/mod.rs:125-132 | writes the document on success; on failure returns the format's error and writes nothing |
| `Output.Terminal.DescribeObjects` | crates/fluvio-extension-common/src/output/mod.rs:134-145 | delegates to the describe renderer and returns its outcome unchanged |
| `Output.Terminal.RenderKeyValues` | crates/fluvio-extension-common/src/output/mod.rs:147-165 | the loop prints exactly `KeyValueTable` of the pairs (one row per pair, in order); has no error result |
| `SpuGroupList.GroupRow` | crates/fluvio-cluster/src/cli/group/list.rs:101-114 | six cells, as wide as the header; cell 0 is the name; cells 1 and 2 are the canonical decimal text of replicas and min id, and they read back as those numbers; the rack cell is empty when there is no rack; then size and status |
| `SpuGroupList.Errors` | crates/fluvio-cluster/src/cli/group/list.rs:93-95 | one entry per group, and every entry is the empty string |
| `SpuGroupList.Content` | crates/fluvio-cluster/src/cli/group/list.rs:98-117 | one row per group, in input order |
| `SpuGroupList.ListTable` | crates/fluvio-cluster/src/cli/group/list.rs:86-117 | the header is the six fixed column names; content length equals errors length equals the number of groups; every row is as wide as the header |
| `SpuGroupList.ListTableExample` | crates/fluvio-cluster/src/cli/group/list.rs:88-116 | two concrete groups, one without a rack, give the expected header, rows and empty errors |
| `SpuGroupList.SpuGroupResponseToOutput` | crates/fluvio-cluster/src/cli/group/list.rs:66-81 | an empty list prints only `no groups`, does not render, and returns `Ok`; a non-empty list is rendered once in the caller's format, and the value serialised is that list of groups; a render error is returned |
| `Extractors.FromRecord` | crates/fluvio-extractors/src/traits.rs:37-43 | returns the very record it was given; has no error result |
| `Extractors.IntoRecord` | crates/fluvio-extractors/src/traits.rs:45-52 | every field of the target becomes the moved-in record's; has no error result |
| `Extractors.IntoRecordFromPair` | crates/fluvio-extractors/src/traits.rs:60-69 | the target's key becomes the pair's key (including `None`) and its value becomes the pair's value; the other fields are unchanged; has no error result |
| `Extractors.WriteBackKeyValue` | crates/fluvio-extractors/src/traits.rs:37-69 | writing back a record's own key and value, read through `FromRecord`, leaves the record as it was |
| `Decimal.NatToString` | crates/fluvio-cluster/src/cli/group/list.rs:106-107 | the digits of a natural number: non-empty, and with no leading zero unless the text is "0" |
| `Decimal.IntRoundTrip` | crates/fluvio-cluster/src/cli/group/list.rs:106-107 | reading an integer's text back gives the integer |
| `Decimal.IntToString` | crates/fluvio-cluster/src/cli/group/list.rs:106-107 | the text of an integer is a canonical numeral: '-' exactly for negatives, no leading zero, and no "-0" |
| `Decimal.NatToStringOfParse` | crates/fluvio-cluster/src/cli/group/list.rs:106-107 | every canonical digit string is the text of the number it reads as |
| `Decimal.IntToStringOfParse` | crates/fluvio-cluster/src/cli/group/list.rs:106-107 | every canonical numeral is the text of the integer it reads as, so each integer has exactly one canonical text and `IntToString` gives it |

## Left out

- Serialisation to JSON and YAML is left out. The serde renderer's body is not part of this model, so serialisation is the `Serializer` parameter. The model assumes that a failed serialisation writes nothing to the terminal.
- `Output.ToSerializeType`: only yaml and json are mapped. The `OutputType` to `SerializeType` conversion is not part of this model, and the source converts only in non-table mode.
- The table renderer and describe renderer bodies are not part of this model. A table is recorded as the `TableRows` event it is given. `describe_objects` is modelled only as delegation, and the describe renderer is given as the events it writes or the error it returns.
- `Output.Terminal.RenderKeyValues`: the source prints the key/value table with `printstd`, which writes to the process's standard output and does not go through the terminal. The model records it in the terminal's log as a `KeyValueRows` event. A terminal that does not write to standard output would show different output.
- prettytable layout is left out: `FORMAT_CLEAN`, column widths, cell alignment tags (RIGHT and CENTER in the group rows) and `printstd`. A row is its cells' text.
- `OutputError` display strings are left out. They come from the `thiserror` derive, and the library error is kept only as its message.
- `ClusterCliError` is not part of this model. It is reduced to one `RenderError` case that wraps an `OutputError`, which is what `?` does at crates/fluvio-cluster/src/cli/group/list.rs:75.
- `RenderContext::render_on` (async) and the `Arc` sharing of the terminal are left out. They are ownership and concurrency plumbing with no logic.
- `ListManagedSpuGroupsOpt::process` is left out: it is the network admin fetch.
- `real_storage_config()` and `status.to_string()` come from foreign types. Each group carries the resolved storage size and the status text as fields.
- Record's fields other than key and value (preamble and headers) are left out. They are the opaque type parameter `Rest`.
- Rust's `Infallible` error type cannot be inhabited, and Dafny cannot declare an uninhabited datatype here. So `FromRecord`, `IntoRecord` and `IntoRecordFromPair` have no error result.
- `FromBytes` and `IntoBytes` are left out: they are trait declarations with no implementations shown.
- The `debug!` tracing in the list command is left out.
