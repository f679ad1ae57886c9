/** The metadata renderer: `renderValue` turns any parsed value into a tree of
    lists, tables, links and text, labelling every record field through the label
    dictionary; `renderFlowerInfoTable` and the detail heading build the detail view
    of one record. */
module Render {
  import opened JsonValue
  import Labels
  import Numerals

  /** What the renderer produces. A `Link` opens `href` in a new browsing context
      (`target`) with the opener hidden from it (`rel`). `Empty` is React's rendering
      of `undefined`. */
  datatype Node =
    | List(items: seq<Node>)
    | Table(rows: seq<Row>)
    | Link(href: string, text: string, target: string, rel: string)
    | Text(text: string)
    | Empty

  /** One table row: the label cell and the value cell. */
  datatype Row = Row(title: string, cell: Node)

  const LinkPrefix := "http"
  const NewContext := "_blank"
  const NoOpener := "noopener noreferrer"

  predicate StartsWith(s: string, prefix: string) {
    |prefix| <= |s| && s[..|prefix|] == prefix
  }

  /** A hyperlink showing `s` and pointing at `s`. */
  function LinkTo(s: string): Node {
    Link(s, s, NewContext, NoOpener)
  }

  /** `value?.toString()` for a scalar; `undefined` for null. */
  function ScalarNode(v: Json): (r: Node)
    requires !v.Arr? && !v.Obj?
    ensures v.Null? <==> r.Empty?
    ensures v.Str? ==> r == Text(v.s)
    ensures v.Bool? ==> r == Text(if v.b then "true" else "false")
    ensures v.Num? ==> r == Text(Numerals.IntToString(v.n))
  {
    match v
    case Null => Empty
    case Bool(b) => Text(if b then "true" else "false")
    case Num(n) => Text(Numerals.IntToString(n))
    case Str(s) => Text(s)
  }

  /** `renderValue`: an array becomes a list, a record a labelled table, and any
      other value its text. A string is never a link here: only an array element
      can be one. */
  function RenderValue(v: Json): (r: Node)
    ensures v.Arr? <==> r.List?
    ensures v.Obj? <==> r.Table?
    ensures !r.Link?
    ensures v.Arr? ==> |r.items| == |v.items| &&
                       forall i :: 0 <= i < |v.items| ==> r.items[i] == RenderItem(v.items[i])
    ensures v.Obj? ==> |r.rows| == |v.entries| &&
                       forall i :: 0 <= i < |v.entries| ==>
                         r.rows[i] == Row(Labels.Label(v.entries[i].0), RenderValue(v.entries[i].1))
    ensures !v.Arr? && !v.Obj? ==> r == ScalarNode(v)
    decreases v, 0
  {
    match v
    case Arr(items) => List(RenderItems(items))
    case Obj(entries) => Table(RenderRows(entries))
    case _ => ScalarNode(v)
  }

  /** The content of one list item: a link for a string beginning with "http",
      otherwise the element rendered as a value. */
  function RenderItem(x: Json): (r: Node)
    ensures r.Link? <==> x.Str? && StartsWith(x.s, LinkPrefix)
    ensures r.Link? ==> r == LinkTo(x.s)
    ensures !r.Link? ==> r == RenderValue(x)
    decreases x, 1
  {
    if x.Str? && StartsWith(x.s, LinkPrefix) then LinkTo(x.s) else RenderValue(x)
  }

  function RenderItems(items: seq<Json>): (r: seq<Node>)
    ensures |r| == |items|
    ensures forall i :: 0 <= i < |items| ==> r[i] == RenderItem(items[i])
    decreases items, 0
  {
    if items == [] then [] else [RenderItem(items[0])] + RenderItems(items[1..])
  }

  /** One record field as a table row: its label and its rendered value. */
  function RenderEntry(e: (string, Json)): (r: Row)
    ensures r.title == Labels.Label(e.0) && r.cell == RenderValue(e.1)
    decreases e, 0
  {
    assert e.1 < e;
    Row(Labels.Label(e.0), RenderValue(e.1))
  }

  function RenderRows(entries: seq<(string, Json)>): (r: seq<Row>)
    ensures |r| == |entries|
    ensures forall i :: 0 <= i < |entries| ==> r[i] == RenderEntry(entries[i])
    decreases entries, 0
  {
    if entries == [] then [] else [RenderEntry(entries[0])] + RenderRows(entries[1..])
  }

  // ---------------------------------------------------------------------------
  // Where links come from.

  /** The link nodes of a rendered tree, in document order. */
  function LinksOf(n: Node): seq<Node>
    decreases n
  {
    match n
    case List(items) => NodesLinks(items)
    case Table(rows) => RowsLinks(rows)
    case Link(_, _, _, _) => [n]
    case _ => []
  }

  function NodesLinks(ns: seq<Node>): seq<Node>
    decreases ns
  {
    if ns == [] then [] else LinksOf(ns[0]) + NodesLinks(ns[1..])
  }

  function RowsLinks(rows: seq<Row>): seq<Node>
    decreases rows
  {
    if rows == [] then []
    else
      var row := rows[0];
      assert row.cell < row;
      LinksOf(row.cell) + RowsLinks(rows[1..])
  }

  /** The strings of `v` that are elements of an array and begin with "http", in
      document order, each as the link it should become. */
  function ArrayUrls(v: Json): seq<Node>
    decreases v, 0
  {
    match v
    case Arr(items) => ItemsUrls(items)
    case Obj(entries) => EntriesUrls(entries)
    case _ => []
  }

  function ItemsUrls(items: seq<Json>): seq<Node>
    decreases items
  {
    if items == [] then []
    else
      var x := items[0];
      (if x.Str? && StartsWith(x.s, LinkPrefix) then [LinkTo(x.s)] else ArrayUrls(x))
      + ItemsUrls(items[1..])
  }

  function EntriesUrls(entries: seq<(string, Json)>): seq<Node>
    decreases entries
  {
    if entries == [] then []
    else
      var e := entries[0];
      assert e.1 < e;
      ArrayUrls(e.1) + EntriesUrls(entries[1..])
  }

  /** The rendered tree holds exactly one link per "http" string that is an array
      element, in the same order, with that string as both target and text; every
      other string (in particular one stored under a record key) is not a link. */
  lemma {:induction false} RenderLinks(v: Json)
    ensures LinksOf(RenderValue(v)) == ArrayUrls(v)
    decreases v, 0
  {
    match v
    case Arr(items) => RenderItemsLinks(items);
    case Obj(entries) => RenderRowsLinks(entries);
    case _ =>
  }

  lemma {:induction false} RenderItemsLinks(items: seq<Json>)
    ensures NodesLinks(RenderItems(items)) == ItemsUrls(items)
    decreases items
  {
    if items != [] {
      var x := items[0];
      if !(x.Str? && StartsWith(x.s, LinkPrefix)) {
        RenderLinks(x);
      }
      RenderItemsLinks(items[1..]);
      assert RenderItems(items) == [RenderItem(x)] + RenderItems(items[1..]);
    }
  }

  lemma {:induction false} RenderRowsLinks(entries: seq<(string, Json)>)
    ensures RowsLinks(RenderRows(entries)) == EntriesUrls(entries)
    decreases entries
  {
    if entries != [] {
      var e := entries[0];
      assert e.1 < e;
      RenderLinks(e.1);
      RenderRowsLinks(entries[1..]);
      assert RenderRows(entries) == [RenderEntry(e)] + RenderRows(entries[1..]);
    }
  }

  /** A URL stored directly under a record key is shown as plain text, not as a
      link: the "http" test is applied only to array elements. */
  lemma KeyedUrlIsText(key: string, url: string)
    requires StartsWith(url, LinkPrefix)
    ensures RenderValue(Obj([(key, Str(url))])) == Table([Row(Labels.Label(key), Text(url))])
    ensures LinksOf(RenderValue(Obj([(key, Str(url))]))) == []
  {
    var rows := RenderValue(Obj([(key, Str(url))])).rows;
    assert rows == [Row(Labels.Label(key), Text(url))];
    assert rows[1..] == [];
    assert LinksOf(Table(rows)) == LinksOf(Text(url)) + RowsLinks([]);
  }

  /** The same URL as an element of an array under that key becomes a link. */
  lemma ListedUrlIsLink(key: string, url: string)
    requires StartsWith(url, LinkPrefix)
    ensures RenderValue(Obj([(key, Arr([Str(url)]))])) == Table([Row(Labels.Label(key), List([LinkTo(url)]))])
  {
    var list := RenderValue(Arr([Str(url)]));
    assert list.items[0] == RenderItem(Str(url)) == LinkTo(url);
    assert list == List([LinkTo(url)]);
    var table := RenderValue(Obj([(key, Arr([Str(url)]))]));
    assert table.rows[0] == Row(Labels.Label(key), list);
    assert table.rows == [Row(Labels.Label(key), List([LinkTo(url)]))];
  }

  // ---------------------------------------------------------------------------
  // Nothing is dropped or invented.

  /** Number of nodes of a rendered tree; a row counts as its value cell. */
  function NodeSize(n: Node): nat
    decreases n
  {
    match n
    case List(items) => 1 + NodesSize(items)
    case Table(rows) => 1 + RowsSize(rows)
    case _ => 1
  }

  function NodesSize(ns: seq<Node>): nat
    decreases ns
  {
    if ns == [] then 0 else NodeSize(ns[0]) + NodesSize(ns[1..])
  }

  function RowsSize(rows: seq<Row>): nat
    decreases rows
  {
    if rows == [] then 0
    else
      var row := rows[0];
      assert row.cell < row;
      NodeSize(row.cell) + RowsSize(rows[1..])
  }

  /** Every value node, at every depth, becomes exactly one rendered node. */
  lemma {:induction false} RenderSize(v: Json)
    ensures NodeSize(RenderValue(v)) == Size(v)
    decreases v, 0
  {
    match v
    case Arr(items) => RenderItemsSize(items);
    case Obj(entries) => RenderRowsSize(entries);
    case _ =>
  }

  lemma {:induction false} RenderItemsSize(items: seq<Json>)
    ensures NodesSize(RenderItems(items)) == ItemsSize(items)
    decreases items
  {
    if items != [] {
      RenderSize(items[0]);
      RenderItemsSize(items[1..]);
      assert RenderItems(items) == [RenderItem(items[0])] + RenderItems(items[1..]);
    }
  }

  lemma {:induction false} RenderRowsSize(entries: seq<(string, Json)>)
    ensures RowsSize(RenderRows(entries)) == EntriesSize(entries)
    decreases entries
  {
    if entries != [] {
      var e := entries[0];
      assert e.1 < e;
      RenderSize(e.1);
      RenderRowsSize(entries[1..]);
      assert RenderRows(entries) == [RenderEntry(e)] + RenderRows(entries[1..]);
    }
  }

  // ---------------------------------------------------------------------------
  // The detail view of one record.

  const FallbackHeading := "Flower Information"
  const AttributeHeader := "Thuộc tính"
  const ValueHeader := "Giá trị"

  /** `flowerInfo.name?.commonName`: present only when `name` is a record with a
      `commonName` field. */
  function CommonName(info: Json): (r: Option<Json>)
    ensures r.Some? ==> info.Obj? && Get(info.entries, "name").Some? &&
                        Get(info.entries, "name").value.Obj? &&
                        Get(Get(info.entries, "name").value.entries, "commonName") == r
    ensures info.Obj? && Get(info.entries, "name").Some? && Get(info.entries, "name").value.Obj? ==>
              r == Get(Get(info.entries, "name").value.entries, "commonName")
  {
    if !info.Obj? then None
    else match Get(info.entries, "name")
      case Some(Obj(fields)) => Get(fields, "commonName")
      case _ => None
  }

  /** `flowerInfo.name?.commonName || "Flower Information"`. */
  function Heading(info: Json): (r: Json)
    ensures Truthy(r)
    ensures CommonName(info).Some? && Truthy(CommonName(info).value) ==> r == CommonName(info).value
    ensures (CommonName(info).None? || !Truthy(CommonName(info).value)) ==> r == Str(FallbackHeading)
  {
    var c := CommonName(info);
    if c.Some? && Truthy(c.value) then c.value else Str(FallbackHeading)
  }

  /** The heading is the common name when `name` is a record holding a non-empty
      one; a missing name, a name that is not a record, or an empty common name
      all give the fallback. */
  lemma HeadingExamples(common: string)
    requires common != ""
    ensures Heading(Obj([("name", Obj([("commonName", Str(common))]))])) == Str(common)
    ensures Heading(Obj([("name", Obj([("commonName", Str(""))]))])) == Str(FallbackHeading)
    ensures Heading(Obj([("name", Str(common))])) == Str(FallbackHeading)
    ensures Heading(Obj([])) == Str(FallbackHeading)
  {
  }

  /** The body of `renderFlowerInfoTable`: one row per entry of `Object.entries` of
      the open record, in order, labelled and rendered as values. */
  function DetailRows(info: Json): (r: seq<Row>)
    requires Truthy(info)
    ensures |r| == |Entries(info)|
    ensures forall i :: 0 <= i < |r| ==>
              r[i].title == Labels.Label(Entries(info)[i].0) && r[i].cell == RenderValue(Entries(info)[i].1)
  {
    RenderRows(Entries(info))
  }

  /** For a record, the top-level table has the same rows as the table that
      `renderValue` makes of it: the two differ only in their header and styling. */
  lemma DetailRowsOfRecord(entries: seq<(string, Json)>)
    ensures DetailRows(Obj(entries)) == RenderValue(Obj(entries)).rows
  {
  }

  /** The detail panel: a heading, the two fixed column headers and the rows. */
  datatype Detail = Detail(heading: Json, headers: (string, string), rows: seq<Row>)

  /** The panel shown for the session's current `flowerInfo`: none while it is falsy. */
  function DetailView(info: Json): (r: Option<Detail>)
    ensures r.Some? <==> Truthy(info)
    ensures r.Some? ==> r.value.heading == Heading(info) &&
                        r.value.headers == (AttributeHeader, ValueHeader) &&
                        r.value.rows == DetailRows(info)
  {
    if Truthy(info) then Some(Detail(Heading(info), (AttributeHeader, ValueHeader), DetailRows(info)))
    else None
  }

  /** What `{flowerInfo && (...)}` shows while the panel is closed: the falsy value
      itself, which React renders as nothing for null, false and "", but as its text
      for a number. The only falsy number is 0. */
  function ClosedPanelText(info: Json): (r: Option<string>)
    ensures r.Some? <==> info == Num(0)
    ensures r.Some? ==> r.value == "0"
  {
    if !Truthy(info) && info.Num? then Some(Numerals.IntToString(info.n)) else None
  }
}
