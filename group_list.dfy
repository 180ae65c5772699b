/**
 * Presentation of the SPU-group list command: the table handler for a list
 * of groups and the choice between printing "no groups" and rendering.
 */
module SpuGroupList {
  import opened Wrappers
  import opened Output
  import Decimal

  type U16 = n: int | 0 <= n < 0x1_0000
  type I32 = n: int | -0x8000_0000 <= n < 0x8000_0000

  /**
   * One listed group: its metadata name, the spec's replica count, minimum
   * SPU id and rack, the storage size its resolved storage config reports,
   * and its status as displayed text.
   */
  datatype SpuGroup = SpuGroup(
    name: string,
    replicas: U16,
    minId: I32,
    rack: Option<string>,
    storageSize: string,
    status: string)

  /** The command's error; a rendering failure converts into it. */
  datatype ClusterCliError = RenderError(source: OutputError)

  const NoGroupsMessage: string := "no groups"

  const Header: Row := ["NAME", "REPLICAS", "MIN ID", "RACK", "SIZE", "STATUS"]

  /** The row of one group: one cell per header column. */
  function GroupRow(g: SpuGroup): (row: Row)
    ensures |row| == |Header|
    ensures row[0] == g.name
    ensures row[1] == Decimal.IntToString(g.replicas) && row[2] == Decimal.IntToString(g.minId)
    ensures Decimal.IsCanonical(row[1]) && Decimal.ParseInt(row[1]) == g.replicas
    ensures Decimal.IsCanonical(row[2]) && Decimal.ParseInt(row[2]) == g.minId
    ensures g.rack.None? ==> row[3] == ""
    ensures g.rack.Some? ==> row[3] == g.rack.value
    ensures row[4] == g.storageSize && row[5] == g.status
  {
    Decimal.IntRoundTrip(g.replicas);
    Decimal.IntRoundTrip(g.minId);
    [g.name, Decimal.IntToString(g.replicas), Decimal.IntToString(g.minId),
     g.rack.GetOr(""), g.storageSize, g.status]
  }

  /** The per-group error annotations: none of the groups carries one. */
  function Errors(groups: seq<SpuGroup>): (errs: seq<string>)
    ensures |errs| == |groups|
    ensures forall i :: 0 <= i < |errs| ==> errs[i] == ""
  {
    seq(|groups|, _ => "")
  }

  /** The content rows: one per group, in input order. */
  function Content(groups: seq<SpuGroup>): (rows: seq<Row>)
    ensures |rows| == |groups|
    ensures forall i :: 0 <= i < |groups| ==> rows[i] == GroupRow(groups[i])
  {
    if groups == [] then [] else [GroupRow(groups[0])] + Content(groups[1..])
  }

  /**
   * What the list's table handler yields: the header, and as many content
   * rows and error entries as groups, every row exactly as wide as the header.
   */
  function ListTable(groups: seq<SpuGroup>): (view: TableView)
    ensures view.header == Header
    ensures view.Consistent()
    ensures |view.content| == |groups|
    ensures forall row :: row in view.content ==> |row| == |view.header|
  {
    TableView(Header, Content(groups), Errors(groups))
  }

  /** Two groups, one without a rack, laid out under the header. */
  lemma ListTableExample()
    ensures ListTable([SpuGroup("g1", 2, 0, Some("r1"), "1Gi", "Reserved"),
                       SpuGroup("g2", 1, 10, None, "2Gi", "Init")])
         == TableView(Header,
                      [["g1", "2", "0", "r1", "1Gi", "Reserved"],
                       ["g2", "1", "10", "", "2Gi", "Init"]],
                      ["", ""])
  {
    var groups := [SpuGroup("g1", 2, 0, Some("r1"), "1Gi", "Reserved"),
                   SpuGroup("g2", 1, 10, None, "2Gi", "Init")];
    var content := Content(groups);
    assert content[0] == GroupRow(groups[0]);
    assert content[1] == GroupRow(groups[1]);
    assert Decimal.IntToString(10) == "10" by {
      assert Decimal.NatToString(10) == Decimal.NatToString(1) + [Decimal.DigitChar(0)];
    }
    assert Errors(groups) == ["", ""];
  }

  /**
   * Prints "no groups" for an empty list; otherwise renders the list once,
   * in the caller's format, and converts a rendering error into the
   * command's error. `serialize` gives what the serialisation library
   * makes of a list of groups in each format.
   */
  method SpuGroupResponseToOutput(out: Terminal, listSpuGroups: seq<SpuGroup>,
                                  outputType: OutputType, serialize: seq<SpuGroup> -> Serializer)
    returns (r: Result<(), ClusterCliError>)
    modifies out
    ensures listSpuGroups == [] ==> r == Ok(()) && out.log == old(out.log) + [Line(NoGroupsMessage)]
    ensures listSpuGroups != [] && outputType.IsTable() ==>
      r == Ok(()) && out.log == old(out.log) + [TableRows(ListTable(listSpuGroups), false)]
    ensures listSpuGroups != [] && !outputType.IsTable() ==>
      var format := ToSerializeType(outputType);
      match serialize(listSpuGroups)(format)
      case Ok(document) => r == Ok(()) && out.log == old(out.log) + [Serialized(format, document)]
      case Err(cause) => r == Err(RenderError(SerdeError(format, cause))) && out.log == old(out.log)
  {
    if listSpuGroups != [] {
      var groups := ListTable(listSpuGroups);
      var rendered := out.RenderList(groups, serialize(listSpuGroups), outputType);
      if rendered.Err? {
        return Err(RenderError(rendered.error));
      }
      r := Ok(());
    } else {
      out.Println(NoGroupsMessage);
      r := Ok(());
    }
  }
}
