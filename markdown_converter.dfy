/** `AnnotatedMarkdownConverter`: a walk over the body of a document that appends Markdown
    with fixed annotations to one string builder: headings, paragraphs, links, lists, tables
    flattened into `Row N: [label] value` lines, block quotes, preformatted text and inline
    emphasis; other tags are transparent. The result has runs of three or more line feeds
    collapsed to two and is trimmed. */
module MarkdownConverter {
  import opened Wrappers
  import opened Text
  import opened Dom

  /** What the walk takes from jsoup as given: a text node's whitespace normalisation
      (`TextNode.text()`), an element's normalised text (`text()`), its raw text
      (`wholeText()`), its `absUrl("href")`, and the caller's URL transformation. */
  datatype ConvertEnv = ConvertEnv(
    normalise: string -> string,
    text: Node -> string,
    wholeText: Node -> string,
    absHref: Node -> string,
    transformUrl: string -> string)

  /** What `convertElement` does for a tag it knows. */
  datatype TagKind =
    | Heading(prefix: string) | Paragraph | LineBreak | Link | BulletList | NumberedList
    | Table | Quote | Preformatted | Marked(mark: string) | Rule

  /** The branches of `convertElement`'s `when`, by tag name. */
  const TagKinds: map<string, TagKind> := map[
    "h1" := Heading("#"), "h2" := Heading("##"), "h3" := Heading("###"),
    "h4" := Heading("####"), "h5" := Heading("#####"), "h6" := Heading("######"),
    "p" := Paragraph, "br" := LineBreak, "a" := Link, "ul" := BulletList, "ol" := NumberedList,
    "table" := Table, "blockquote" := Quote, "pre" := Preformatted,
    "strong" := Marked("**"), "b" := Marked("**"), "em" := Marked("*"), "i" := Marked("*"),
    "code" := Marked("`"), "hr" := Rule]

  /** The tags `convertElement` handles; every other tag renders only its children. */
  const KnownTags: set<string> := TagKinds.Keys

  // ---------------------------------------------------------------- what the walk appends

  /** The text `convertChildren` appends for the nodes `cs` of an element tagged `parent`. */
  function RenderAll(env: ConvertEnv, cs: seq<Node>, parent: string): string
    decreases cs, 4
  {
    if cs == [] then "" else RenderAll(env, cs[..|cs| - 1], parent) + Render(env, cs[|cs| - 1], parent)
  }

  /** `convertNode`: a text node's text unless it is blank (its raw text under `pre`), an
      element's rendering, nothing for the other kinds of node. */
  function Render(env: ConvertEnv, n: Node, parent: string): string
    decreases n, 3
  {
    match n
    case TextNode(whole) =>
      var t := if parent == "pre" then whole else env.normalise(whole);
      if IsBlank(t) then "" else t
    case Element(_, _, _) => RenderElement(env, n)
    case OtherNode => ""
  }

  /** `convertElement`: the rendering chosen by the tag. */
  function RenderElement(env: ConvertEnv, e: Node): string
    requires e.Element?
    decreases e, 2
  {
    if e.tag !in TagKinds then RenderAll(env, e.children, e.tag)
    else
      match TagKinds[e.tag]
      case Heading(prefix) => HeadingText(env, e, prefix)
      case Paragraph => BlockText(env, e)
      case LineBreak => "\n"
      case Link => LinkText(env, e)
      case BulletList => ListText(env, e, false)
      case NumberedList => ListText(env, e, true)
      case Table => TableText(env, e)
      case Quote => QuoteText(env, e)
      case Preformatted => PreText(env, e)
      case Marked(mark) => Wrapped(env, e, mark)
      case Rule => "\n\n---\n\n"
  }

  /** `appendHeading`: the heading on a paragraph of its own, after its `#` prefix. */
  function HeadingText(env: ConvertEnv, e: Node, prefix: string): string
    requires e.Element?
    decreases e, 1
  {
    "\n\n" + prefix + " " + RenderAll(env, e.children, e.tag) + "\n\n"
  }

  /** `appendBlock`. */
  function BlockText(env: ConvertEnv, e: Node): string
    requires e.Element?
    decreases e, 1
  {
    "\n\n" + RenderAll(env, e.children, e.tag) + "\n\n"
  }

  /** `appendLink`: a Markdown link to the transformed absolute URL, or only the children when
      that URL is blank. */
  function LinkText(env: ConvertEnv, e: Node): string
    requires e.Element?
    decreases e, 1
  {
    var href := env.absHref(e);
    if IsBlank(href) then RenderAll(env, e.children, e.tag)
    else "[" + RenderAll(env, e.children, e.tag) + "](" + env.transformUrl(href) + ")"
  }

  /** `appendList`. */
  function ListText(env: ConvertEnv, e: Node, ordered: bool): string
    requires e.Element?
    decreases e, 1
  {
    "\n\n" + Concat(ListParts(env, e, ordered)) + "\n"
  }

  /** What each item of a list appends: its prefix, its children, a line feed. */
  function ListParts(env: ConvertEnv, list: Node, ordered: bool): (r: seq<string>)
    requires list.Element?
    decreases list, 0
  {
    var items := ListItems(list.children);
    seq(|items|, i requires 0 <= i < |items| =>
      ItemPrefix(ordered, i) + RenderAll(env, items[i].children, items[i].tag) + "\n")
  }

  /** `appendBlockquote`: the children rendered apart, trimmed, and quoted line by line. */
  function QuoteText(env: ConvertEnv, e: Node): string
    requires e.Element?
    decreases e, 1
  {
    "\n\n" + QuoteLines(Lines(Trim(RenderAll(env, e.children, e.tag)))) + "\n"
  }

  /** The strong, emphasis and code cases: the children between two copies of `mark`. */
  function Wrapped(env: ConvertEnv, e: Node, mark: string): string
    requires e.Element?
    decreases e, 1
  {
    mark + RenderAll(env, e.children, e.tag) + mark
  }

  /** `appendPreformatted`: the raw text in a fenced block. */
  function PreText(env: ConvertEnv, e: Node): string
    requires e.Element?
  {
    "\n\n```\n" + env.wholeText(e) + "\n```\n\n"
  }

  /** The direct `li` children of a list, in order. */
  function ListItems(cs: seq<Node>): (r: seq<Node>)
    ensures forall i :: 0 <= i < |r| ==> r[i] in cs && r[i].Element? && r[i].tag == "li"
  {
    if cs == [] then []
    else if cs[0].Element? && cs[0].tag == "li" then [cs[0]] + ListItems(cs[1..])
    else ListItems(cs[1..])
  }

  /** The prefix of the item at (0-based) position `i`. */
  function ItemPrefix(ordered: bool, i: nat): string {
    if ordered then NatToString(i + 1) + ". " else "- "
  }

  /** Each line of a quote, prefixed "> " and ended by a line feed. */
  function QuoteLines(lines: seq<string>): string {
    if lines == [] then "" else QuoteLines(lines[..|lines| - 1]) + QuoteLine(lines[|lines| - 1])
  }

  function QuoteLine(line: string): string {
    "> " + line + "\n"
  }

  /** The lines of a quote, each led by "> ". */
  function Quoted(lines: seq<string>): seq<string> {
    seq(|lines|, k requires 0 <= k < |lines| => "> " + lines[k])
  }

  // ---------------------------------------------------------------- tables

  /** The queries `appendTable` runs under a table (or a row). */
  datatype Query = HeaderCells | BodyRows | AllRows | RowCells

  /** `thead th, thead td, tr:first-child th`; `tbody tr`; `tr`; `td, th`. */
  predicate Selected(q: Query, f: Found)
    requires f.node.Element?
  {
    match q
    case HeaderCells =>
      || ((f.node.tag == "th" || f.node.tag == "td") && exists i :: 0 <= i < |f.ancestors| && f.ancestors[i].node.Element? && f.ancestors[i].node.tag == "thead")
      || (f.node.tag == "th" && exists i :: 0 <= i < |f.ancestors| && f.ancestors[i].node.Element? && f.ancestors[i].node.tag == "tr" && f.ancestors[i].firstChild)
    case BodyRows => f.node.tag == "tr" && exists i :: 0 <= i < |f.ancestors| && f.ancestors[i].node.Element? && f.ancestors[i].node.tag == "tbody"
    case AllRows => f.node.tag == "tr"
    case RowCells => f.node.tag == "td" || f.node.tag == "th"
  }

  function Filter(fs: seq<Found>, q: Query): (r: seq<Node>)
    requires forall i :: 0 <= i < |fs| ==> fs[i].node.Element?
    ensures forall i :: 0 <= i < |r| ==> r[i].Element?
    ensures q == BodyRows || q == AllRows ==> forall i :: 0 <= i < |r| ==> r[i].tag == "tr"
  {
    if fs == [] then []
    else (if Selected(q, fs[0]) then [fs[0].node] else []) + Filter(fs[1..], q)
  }

  /** `element.select(query)`: the matching elements under `e`, in document order. */
  function Select(e: Node, q: Query): (r: seq<Node>)
    requires e.Element?
    ensures forall i :: 0 <= i < |r| ==> r[i].Element?
    ensures q == BodyRows || q == AllRows ==> forall i :: 0 <= i < |r| ==> r[i].tag == "tr"
  {
    Filter(Descendants(e.children, [], false), q)
  }

  /** The trimmed texts of the header cells. */
  function Headers(env: ConvertEnv, table: Node): (r: seq<string>)
    requires table.Element?
  {
    var cells := Select(table, HeaderCells);
    seq(|cells|, i requires 0 <= i < |cells| => Trim(env.text(cells[i])))
  }

  /** The rows printed: those under a `tbody` if there are any, otherwise every row, less the
      first when header cells were found. */
  function TableRows(env: ConvertEnv, table: Node): (r: seq<Node>)
    requires table.Element?
    ensures forall i :: 0 <= i < |r| ==> r[i].Element?
  {
    var body := Select(table, BodyRows);
    if body != [] then body
    else
      var all := Select(table, AllRows);
      if Headers(env, table) != [] && all != [] then all[1..] else all
  }

  /** The label of column `k`: its header when there is a non-blank one, else "Column k+1". */
  function Label(headers: seq<string>, k: nat): string
  {
    if k < |headers| && !IsBlank(headers[k]) then headers[k] else "Column " + NatToString(k + 1)
  }

  /** What cell `k` of a row appends: a separator after the first cell, then the cell. */
  function CellText(env: ConvertEnv, headers: seq<string>, k: nat, cell: Node): string
  {
    (if k > 0 then " |" else "") + LabelledCell(env, headers, k, cell)
  }

  /** Cell `k` with its label: ` [label] value`, the value being the cell's trimmed text. */
  function LabelledCell(env: ConvertEnv, headers: seq<string>, k: nat, cell: Node): string
  {
    " [" + Label(headers, k) + "] " + Trim(env.text(cell))
  }

  /** The labelled cells of a row, in order. */
  function LabelledCells(env: ConvertEnv, headers: seq<string>, cells: seq<Node>): (r: seq<string>)
    ensures |r| == |cells|
  {
    if cells == [] then []
    else LabelledCells(env, headers, cells[..|cells| - 1]) + [LabelledCell(env, headers, |cells| - 1, cells[|cells| - 1])]
  }

  /** The cells of a row, one after the other. */
  function CellsText(env: ConvertEnv, headers: seq<string>, cells: seq<Node>): string
  {
    if cells == [] then ""
    else CellsText(env, headers, cells[..|cells| - 1]) + CellText(env, headers, |cells| - 1, cells[|cells| - 1])
  }

  /** The line of the (0-based) `i`-th row. */
  function RowLine(env: ConvertEnv, headers: seq<string>, i: nat, row: Node): string
    requires row.Element?
  {
    "Row " + NatToString(i + 1) + ":" + CellsText(env, headers, Select(row, RowCells)) + "\n"
  }

  /** The lines of the rows, numbered from 1. */
  function RowLines(env: ConvertEnv, headers: seq<string>, rows: seq<Node>): string
    requires forall i :: 0 <= i < |rows| ==> rows[i].Element?
  {
    if rows == [] then ""
    else RowLines(env, headers, rows[..|rows| - 1]) + RowLine(env, headers, |rows| - 1, rows[|rows| - 1])
  }

  /** `appendTable`. */
  function TableText(env: ConvertEnv, table: Node): string
    requires table.Element?
  {
    "\n\n[Table]\n" + RowLines(env, Headers(env, table), TableRows(env, table)) + "\n"
  }

  // ---------------------------------------------------------------- convert

  /** `document.body()`: the first `body` (or `frameset`) child of the first `html` child, or
      an empty body when there is none. */
  function Body(document: seq<Node>): (b: Node)
    ensures b.Element?
  {
    var root := FirstTagged(ElementChildren(document), {"html"});
    var bodies := if root.Some? then FirstTagged(ElementChildren(root.value.children), {"body", "frameset"}) else None;
    if bodies.Some? then bodies.value else Element("body", map[], [])
  }

  function FirstTagged(es: seq<Node>, tags: set<string>): (r: Option<Node>)
    ensures r.Some? ==> r.value.Element? && r.value.tag in tags && r.value in es
  {
    if es == [] then None
    else if es[0].Element? && es[0].tag in tags then Some(es[0])
    else FirstTagged(es[1..], tags)
  }

  /** `replace(Regex("\n{3,}"), "\n\n")`: every run of line feeds longer than two is cut to two,
      shorter runs are kept. */
  function CollapseNewlines(s: string): (r: string)
    ensures NoTripleNewline(r)
  {
    if s == [] then ""
    else
      var r := CollapseNewlines(s[..|s| - 1]);
      var c := s[|s| - 1];
      if c == '\n' && EndsWith(r, "\n\n") then r
      else
        NoTripleNewlineSnoc(r, c);
        r + [c]
  }

  lemma NoTripleNewlineSnoc(r: string, c: char)
    requires NoTripleNewline(r) && !(c == '\n' && EndsWith(r, "\n\n"))
    ensures NoTripleNewline(r + [c])
  {
    var s := r + [c];
    forall i | 0 <= i < |s| - 2
      ensures !TripleAt(s, i)
    {
      if i + 2 == |r| {
        assert r[|r| - 2..] == [r[i], r[i + 1]];
      } else {
        assert !TripleAt(r, i);
        assert s[i] == r[i] && s[i + 1] == r[i + 1] && s[i + 2] == r[i + 2];
      }
    }
  }

  /** `convert`: the rendering of the body, collapsed and trimmed. */
  function Markdown(env: ConvertEnv, document: seq<Node>): string
  {
    var body := Body(document);
    Trim(CollapseNewlines(RenderAll(env, body.children, body.tag)))
  }

  // ---------------------------------------------------------------- the walk itself

  /** The `StringBuilder` the walk appends to. */
  class Builder {
    var text: string

    constructor()
      ensures text == ""
    {
      text := "";
    }

    method Append(s: string)
      modifies this
      ensures text == old(text) + s
    {
      text := text + s;
    }
  }

  /** `convert`: walk the body into a fresh builder, then collapse and trim. */
  method Convert(env: ConvertEnv, document: seq<Node>) returns (markdown: string)
    ensures markdown == Markdown(env, document)
  {
    var sb := new Builder();
    var body := Body(document);
    ConvertChildren(env, body, sb);
    EmptyPrefix(RenderAll(env, body.children, body.tag));
    markdown := Trim(CollapseNewlines(sb.text));
  }

  lemma EmptyPrefix(s: string)
    ensures "" + s == s
  {
  }

  method ConvertChildren(env: ConvertEnv, element: Node, sb: Builder)
    requires element.Element?
    modifies sb
    ensures sb.text == old(sb.text) + RenderAll(env, element.children, element.tag)
    decreases element, 0
  {
    var cs := element.children;
    for i := 0 to |cs|
      invariant sb.text == old(sb.text) + RenderAll(env, cs[..i], element.tag)
    {
      ConvertNode(env, cs[i], element.tag, sb);
      assert cs[..i + 1][..i] == cs[..i];
      Assoc(old(sb.text), RenderAll(env, cs[..i], element.tag), Render(env, cs[i], element.tag));
    }
    assert cs[..|cs|] == cs;
  }

  method ConvertNode(env: ConvertEnv, n: Node, parent: string, sb: Builder)
    modifies sb
    ensures sb.text == old(sb.text) + Render(env, n, parent)
    decreases n, 5
  {
    match n
    case TextNode(whole) =>
      var t := if parent == "pre" then whole else env.normalise(whole);
      if !IsBlank(t) {
        sb.Append(t);
      } else {
        assert sb.text == old(sb.text) + "";
      }
    case Element(_, _, _) =>
      ConvertElement(env, n, sb);
    case OtherNode =>
      assert sb.text == old(sb.text) + "";
  }

  method ConvertElement(env: ConvertEnv, e: Node, sb: Builder)
    requires e.Element?
    modifies sb
    ensures sb.text == old(sb.text) + RenderElement(env, e)
    decreases e, 4
  {
    if e.tag !in TagKinds {
      ConvertChildren(env, e, sb);
    } else {
      match TagKinds[e.tag]
      case Heading(prefix) => AppendHeading(env, e, prefix, sb);
      case Paragraph => AppendBlock(env, e, sb);
      case LineBreak => sb.Append("\n");
      case Link => AppendLink(env, e, sb);
      case BulletList => AppendList(env, e, false, sb);
      case NumberedList => AppendList(env, e, true, sb);
      case Table => AppendTable(env, e, sb);
      case Quote => AppendBlockquote(env, e, sb);
      case Preformatted => AppendPreformatted(env, e, sb);
      case Marked(mark) => AppendWrapped(env, e, mark, sb);
      case Rule => sb.Append("\n\n---\n\n");
    }
  }

  /** The strong, emphasis and code branches of `convertElement`. */
  method AppendWrapped(env: ConvertEnv, e: Node, mark: string, sb: Builder)
    requires e.Element?
    modifies sb
    ensures sb.text == old(sb.text) + Wrapped(env, e, mark)
    decreases e, 3
  {
    sb.Append(mark);
    ConvertChildren(env, e, sb);
    sb.Append(mark);
  }

  method AppendHeading(env: ConvertEnv, e: Node, prefix: string, sb: Builder)
    requires e.Element?
    modifies sb
    ensures sb.text == old(sb.text) + HeadingText(env, e, prefix)
    decreases e, 3
  {
    sb.Append("\n\n");
    sb.Append(prefix);
    sb.Append(" ");
    ConvertChildren(env, e, sb);
    sb.Append("\n\n");
  }

  method AppendBlock(env: ConvertEnv, e: Node, sb: Builder)
    requires e.Element?
    modifies sb
    ensures sb.text == old(sb.text) + BlockText(env, e)
    decreases e, 3
  {
    sb.Append("\n\n");
    ConvertChildren(env, e, sb);
    sb.Append("\n\n");
  }

  method AppendLink(env: ConvertEnv, e: Node, sb: Builder)
    requires e.Element?
    modifies sb
    ensures sb.text == old(sb.text) + LinkText(env, e)
    decreases e, 3
  {
    var href := env.absHref(e);
    if IsBlank(href) {
      ConvertChildren(env, e, sb);
      return;
    }
    sb.Append("[");
    ConvertChildren(env, e, sb);
    sb.Append("](");
    sb.Append(env.transformUrl(href));
    sb.Append(")");
  }

  method AppendList(env: ConvertEnv, e: Node, ordered: bool, sb: Builder)
    requires e.Element?
    modifies sb
    ensures sb.text == old(sb.text) + ListText(env, e, ordered)
    decreases e, 3
  {
    sb.Append("\n\n");
    AppendItems(env, e, ordered, sb);
    sb.Append("\n");
    ghost var body := Concat(ListParts(env, e, ordered));
    assert ListText(env, e, ordered) == "\n\n" + body + "\n";
    Assoc(old(sb.text), "\n\n", body);
    Assoc(old(sb.text), "\n\n" + body, "\n");
  }

  /** `appendList`'s loop over the direct `li` children. */
  method AppendItems(env: ConvertEnv, e: Node, ordered: bool, sb: Builder)
    requires e.Element?
    modifies sb
    ensures sb.text == old(sb.text) + Concat(ListParts(env, e, ordered))
    decreases e, 2
  {
    var items := ListItems(e.children);
    ghost var parts := ListParts(env, e, ordered);
    for index := 0 to |items|
      invariant sb.text == old(sb.text) + Concat(parts[..index])
    {
      var prefix := ItemPrefix(ordered, index);
      AppendItem(env, e, items[index], prefix, sb);
      assert parts[index] == prefix + RenderAll(env, items[index].children, items[index].tag) + "\n";
      ConcatPrefixSnoc(parts, index);
      Assoc(old(sb.text), Concat(parts[..index]), parts[index]);
    }
    assert parts[..|items|] == parts;
  }

  /** One pass of `appendList`'s item loop. */
  method AppendItem(env: ConvertEnv, list: Node, item: Node, prefix: string, sb: Builder)
    requires list.Element? && item in list.children && item.Element?
    modifies sb
    ensures sb.text == old(sb.text) + (prefix + RenderAll(env, item.children, item.tag) + "\n")
    decreases list, 1
  {
    sb.Append(prefix);
    ConvertChildren(env, item, sb);
    sb.Append("\n");
  }

  method AppendTable(env: ConvertEnv, table: Node, sb: Builder)
    requires table.Element?
    modifies sb
    ensures sb.text == old(sb.text) + TableText(env, table)
  {
    var headers := Headers(env, table);
    var rows := TableRows(env, table);
    sb.Append("\n\n[Table]\n");
    AppendRows(env, headers, rows, sb);
    sb.Append("\n");
    Assoc(old(sb.text), "\n\n[Table]\n", RowLines(env, headers, rows));
    Assoc(old(sb.text), "\n\n[Table]\n" + RowLines(env, headers, rows), "\n");
  }

  /** `appendTable`'s loop over the printed rows. */
  method AppendRows(env: ConvertEnv, headers: seq<string>, rows: seq<Node>, sb: Builder)
    requires forall i :: 0 <= i < |rows| ==> rows[i].Element?
    modifies sb
    ensures sb.text == old(sb.text) + RowLines(env, headers, rows)
  {
    for rowIndex := 0 to |rows|
      invariant sb.text == old(sb.text) + RowLines(env, headers, rows[..rowIndex])
    {
      AppendRow(env, headers, rowIndex, rows[rowIndex], sb);
      assert rows[..rowIndex + 1][..rowIndex] == rows[..rowIndex];
      Assoc(old(sb.text), RowLines(env, headers, rows[..rowIndex]), RowLine(env, headers, rowIndex, rows[rowIndex]));
    }
    assert rows[..|rows|] == rows;
  }

  /** One pass of `appendTable`'s row loop. */
  method AppendRow(env: ConvertEnv, headers: seq<string>, rowIndex: nat, row: Node, sb: Builder)
    requires row.Element?
    modifies sb
    ensures sb.text == old(sb.text) + RowLine(env, headers, rowIndex, row)
  {
    var cells := Select(row, RowCells);
    var title := "Row " + NatToString(rowIndex + 1) + ":";
    sb.Append(title);
    AppendCells(env, headers, cells, sb);
    sb.Append("\n");
    Assoc(old(sb.text), title, CellsText(env, headers, cells));
    Assoc(old(sb.text), title + CellsText(env, headers, cells), "\n");
  }

  /** `appendTable`'s loop over the cells of one row. */
  method AppendCells(env: ConvertEnv, headers: seq<string>, cells: seq<Node>, sb: Builder)
    modifies sb
    ensures sb.text == old(sb.text) + CellsText(env, headers, cells)
  {
    for colIndex := 0 to |cells|
      invariant sb.text == old(sb.text) + CellsText(env, headers, cells[..colIndex])
    {
      AppendCell(env, headers, colIndex, cells[colIndex], sb);
      assert cells[..colIndex + 1][..colIndex] == cells[..colIndex];
      Assoc(old(sb.text), CellsText(env, headers, cells[..colIndex]), CellText(env, headers, colIndex, cells[colIndex]));
    }
    assert cells[..|cells|] == cells;
  }

  /** One pass of `appendTable`'s cell loop. */
  method AppendCell(env: ConvertEnv, headers: seq<string>, colIndex: nat, cell: Node, sb: Builder)
    modifies sb
    ensures sb.text == old(sb.text) + CellText(env, headers, colIndex, cell)
  {
    var columnLabel := Label(headers, colIndex);
    var value := Trim(env.text(cell));
    if colIndex > 0 {
      sb.Append(" |");
    } else {
      EmptyPrefix(LabelledCell(env, headers, colIndex, cell));
    }
    sb.Append(" [" + columnLabel + "] " + value);
  }

  method AppendBlockquote(env: ConvertEnv, e: Node, sb: Builder)
    requires e.Element?
    modifies sb
    ensures sb.text == old(sb.text) + QuoteText(env, e)
    decreases e, 3
  {
    sb.Append("\n\n");
    ghost var start := sb.text;
    var inner := RenderApart(env, e);
    var lines := Lines(Trim(inner));
    ghost var quoted := QuoteLines(lines);
    assert QuoteText(env, e) == "\n\n" + quoted + "\n";
    AppendQuoted(lines, sb);
    assert sb.text == start + quoted;
    sb.Append("\n");
    Assoc(old(sb.text), "\n\n", quoted);
    Assoc(old(sb.text), "\n\n" + quoted, "\n");
  }

  /** The children of `e` walked into a builder of their own. */
  method RenderApart(env: ConvertEnv, e: Node) returns (inner: string)
    requires e.Element?
    ensures inner == RenderAll(env, e.children, e.tag)
    decreases e, 1
  {
    var content := new Builder();
    ConvertChildren(env, e, content);
    inner := content.text;
    EmptyPrefix(RenderAll(env, e.children, e.tag));
  }

  /** `appendBlockquote`'s loop over the lines of the quoted text. */
  method AppendQuoted(lines: seq<string>, sb: Builder)
    modifies sb
    ensures sb.text == old(sb.text) + QuoteLines(lines)
  {
    for i := 0 to |lines|
      invariant sb.text == old(sb.text) + QuoteLines(lines[..i])
    {
      sb.Append("> ");
      sb.Append(lines[i]);
      sb.Append("\n");
      assert lines[..i + 1][..i] == lines[..i];
      Assoc(old(sb.text), QuoteLines(lines[..i]), QuoteLine(lines[i]));
    }
    assert lines[..|lines|] == lines;
  }

  method AppendPreformatted(env: ConvertEnv, e: Node, sb: Builder)
    requires e.Element?
    modifies sb
    ensures sb.text == old(sb.text) + PreText(env, e)
  {
    sb.Append("\n\n```\n");
    sb.Append(env.wholeText(e));
    sb.Append("\n```\n\n");
  }

  // ---------------------------------------------------------------- properties

  /** The converted text never holds three line feeds in a row and starts and ends with a
      character that is not whitespace. */
  lemma MarkdownShape(env: ConvertEnv, document: seq<Node>)
    ensures var m := Markdown(env, document);
            NoTripleNewline(m) && (m == [] || (!IsWhitespace(m[0]) && !IsWhitespace(m[|m| - 1])))
  {
    var body := Body(document);
    var c := CollapseNewlines(RenderAll(env, body.children, body.tag));
    TrimmedShape(c);
  }

  /** Trimming keeps the absence of triple line feeds and removes the surrounding whitespace. */
  lemma TrimmedShape(c: string)
    requires NoTripleNewline(c)
    ensures var m := Trim(c);
            NoTripleNewline(m) && (m == [] || (!IsWhitespace(m[0]) && !IsWhitespace(m[|m| - 1])))
  {
    var m := Trim(c);
    var k := TrimOffset(c);
    assert k + |m| <= |c| && m == c[k..k + |m|];
    NoTripleNewlineInfix(c, k, k + |m|);
  }

  /** The collapse leaves text that has no run of three line feeds as it is. */
  lemma {:induction false} CollapseKeeps(s: string)
    requires NoTripleNewline(s)
    ensures CollapseNewlines(s) == s
  {
    if s != [] {
      var init := s[..|s| - 1];
      var c := s[|s| - 1];
      assert init + [c] == s;
      NoTripleNewlineInfix(s, 0, |s| - 1);
      CollapseKeeps(init);
      if EndsWith(init, "\n\n") {
        assert init[|init| - 2..] == "\n\n";
        assert s[|s| - 3] == '\n' && s[|s| - 2] == '\n';
        assert !TripleAt(s, |s| - 3);
        assert c != '\n';
      }
    }
  }

  /** Collapsing twice is collapsing once. */
  lemma CollapseIdempotent(s: string)
    ensures CollapseNewlines(CollapseNewlines(s)) == CollapseNewlines(s)
  {
    CollapseKeeps(CollapseNewlines(s));
  }

  /** The text with every line feed removed. */
  function DropNewlines(s: string): (r: string)
    ensures forall i :: 0 <= i < |r| ==> r[i] != '\n'
  {
    if s == [] then ""
    else if s[|s| - 1] == '\n' then DropNewlines(s[..|s| - 1])
    else DropNewlines(s[..|s| - 1]) + [s[|s| - 1]]
  }

  /** The collapse removes line feeds only: every other character is kept, in order. */
  lemma {:induction false} CollapseKeepsText(s: string)
    ensures DropNewlines(CollapseNewlines(s)) == DropNewlines(s)
  {
    if s != [] {
      var init := s[..|s| - 1];
      var c := s[|s| - 1];
      var r := CollapseNewlines(init);
      CollapseKeepsText(init);
      if !(c == '\n' && EndsWith(r, "\n\n")) {
        assert (r + [c])[..|r|] == r;
      }
    }
  }

  /** One more character: a line feed after two is dropped, anything else is appended. */
  lemma CollapseSnoc(s: string, c: char)
    ensures CollapseNewlines(s + [c])
         == if c == '\n' && EndsWith(CollapseNewlines(s), "\n\n") then CollapseNewlines(s)
            else CollapseNewlines(s) + [c]
  {
    assert (s + [c])[..|s|] == s;
  }

  /** Text that ends in anything but a line feed is collapsed on its own. */
  lemma {:induction false} CollapseSplitAfter(x: string, y: string)
    requires x == [] || x[|x| - 1] != '\n'
    ensures CollapseNewlines(x + y) == CollapseNewlines(x) + CollapseNewlines(y)
  {
    if y == [] {
      assert x + y == x;
    } else {
      var init := y[..|y| - 1];
      var c := y[|y| - 1];
      assert y == init + [c] && x + y == (x + init) + [c];
      CollapseSplitAfter(x, init);
      var a := CollapseNewlines(x);
      var t := CollapseNewlines(init);
      CollapseSnoc(x + init, c);
      CollapseSnoc(init, c);
      if c == '\n' && EndsWith(t, "\n\n") {
        EndsWithJoined(x, a, t);
      } else {
        if c == '\n' {
          EndsWithJoined(x, a, t);
        }
        Assoc(a, t, [c]);
      }
    }
  }

  /** The collapse of `x` ends in the last character of `x`; so a pair of line feeds ends
      `collapse(x) + t` exactly when it ends `t`. */
  lemma EndsWithJoined(x: string, a: string, t: string)
    requires x == [] || x[|x| - 1] != '\n'
    requires a == CollapseNewlines(x)
    ensures EndsWith(a + t, "\n\n") == EndsWith(t, "\n\n")
  {
    if x != [] {
      assert a == CollapseNewlines(x[..|x| - 1]) + [x[|x| - 1]];
      var j := a + t;
      if |t| >= 2 {
        assert j[|j| - 2..] == t[|t| - 2..];
      } else if |t| == 1 {
        assert j[|j| - 2] == x[|x| - 1];
      } else {
        assert j[|j| - 1] == x[|x| - 1];
      }
    } else {
      assert a + t == t;
    }
  }

  /** Text that starts with anything but a line feed is collapsed on its own. */
  lemma CollapseSplitBefore(z: string, y: string)
    requires y == [] || y[0] != '\n'
    ensures CollapseNewlines(z + y) == CollapseNewlines(z) + CollapseNewlines(y)
  {
    if y == [] {
      assert z + y == z;
    } else {
      var c := y[0];
      var rest := y[1..];
      var zc := z + [c];
      assert z + y == zc + rest && y == [c] + rest && [] + [c] == [c];
      CollapseSplitAfter(zc, rest);
      CollapseSnoc(z, c);
      CollapseSplitAfter([c], rest);
      CollapseSnoc([], c);
      Assoc(CollapseNewlines(z), [c], CollapseNewlines(rest));
    }
  }

  /** A run of `k` line feeds on its own becomes `min(k, 2)` line feeds. */
  lemma {:induction false} CollapseRunAlone(k: nat)
    ensures CollapseNewlines(Repeat('\n', k)) == Repeat('\n', if k < 3 then k else 2)
  {
    if k > 0 {
      var run := Repeat('\n', k);
      assert run[..k - 1] == Repeat('\n', k - 1);
      CollapseRunAlone(k - 1);
      if k >= 3 {
        assert EndsWith(Repeat('\n', 2), "\n\n");
      } else {
        assert !EndsWith(Repeat('\n', k - 1), "\n\n");
      }
    }
  }

  /** A maximal run of line feeds (nothing but other characters, or the ends of the text,
      on either side) becomes two line feeds when it is three or longer and is kept as it is
      otherwise; the text around it is collapsed independently. */
  lemma CollapseRun(x: string, k: nat, y: string)
    requires x == [] || x[|x| - 1] != '\n'
    requires y == [] || y[0] != '\n'
    ensures CollapseNewlines(x + Repeat('\n', k) + y)
         == CollapseNewlines(x) + Repeat('\n', if k < 3 then k else 2) + CollapseNewlines(y)
  {
    var run := Repeat('\n', k);
    CollapseSplitBefore(x + run, y);
    CollapseSplitAfter(x, run);
    CollapseRunAlone(k);
  }

  /** `hN` for N from 1 to 6 is a paragraph of its own led by a prefix of N hashes. */
  lemma HeadingLevel(env: ConvertEnv, e: Node, n: nat)
    requires e.Element? && 1 <= n <= 6 && e.tag == "h" + NatToString(n)
    ensures e.tag in TagKinds && TagKinds[e.tag].Heading?
    ensures var prefix := TagKinds[e.tag].prefix;
            && |prefix| == n && (forall i :: 0 <= i < n ==> prefix[i] == '#')
            && RenderElement(env, e) == "\n\n" + prefix + " " + RenderAll(env, e.children, e.tag) + "\n\n"
  {
    HeadingKind(e.tag, n);
    HeadingRender(env, e);
  }

  /** `hN` is a heading whose prefix is N hashes. */
  lemma HeadingKind(tag: string, n: nat)
    requires 1 <= n <= 6 && tag == "h" + NatToString(n)
    ensures tag in TagKinds && TagKinds[tag].Heading?
    ensures |TagKinds[tag].prefix| == n && forall i :: 0 <= i < n ==> TagKinds[tag].prefix[i] == '#'
  {
    assert NatToString(n) == [DigitChar(n)];
    if n == 1 {
      assert tag == "h1";
    } else if n == 2 {
      assert tag == "h2";
    } else if n == 3 {
      assert tag == "h3";
    } else if n == 4 {
      assert tag == "h4";
    } else if n == 5 {
      assert tag == "h5";
    } else {
      assert tag == "h6";
    }
  }

  /** A heading is a paragraph of its own led by its prefix and a space. */
  lemma HeadingRender(env: ConvertEnv, e: Node)
    requires e.Element? && e.tag in TagKinds && TagKinds[e.tag].Heading?
    ensures RenderElement(env, e) == "\n\n" + TagKinds[e.tag].prefix + " " + RenderAll(env, e.children, e.tag) + "\n\n"
  {
  }

  /** Paragraphs, line breaks, rules, preformatted text and the inline markers. */
  lemma FixedMarkers(env: ConvertEnv, e: Node)
    requires e.Element?
    ensures var inner := RenderAll(env, e.children, e.tag);
            && (e.tag == "p" ==> RenderElement(env, e) == "\n\n" + inner + "\n\n")
            && (e.tag == "br" ==> RenderElement(env, e) == "\n")
            && (e.tag == "hr" ==> RenderElement(env, e) == "\n\n---\n\n")
            && (e.tag == "pre" ==> RenderElement(env, e) == "\n\n```\n" + env.wholeText(e) + "\n```\n\n")
            && (e.tag in {"strong", "b"} ==> RenderElement(env, e) == "**" + inner + "**")
            && (e.tag in {"em", "i"} ==> RenderElement(env, e) == "*" + inner + "*")
            && (e.tag == "code" ==> RenderElement(env, e) == "`" + inner + "`")
  {
    if e.tag in TagKinds {
      var k := TagKinds[e.tag];
      assert e.tag == "p" ==> k == Paragraph;
      assert e.tag == "br" ==> k == LineBreak;
      assert e.tag == "hr" ==> k == Rule;
      assert e.tag == "pre" ==> k == Preformatted;
      assert e.tag in {"strong", "b"} ==> k == Marked("**");
      assert e.tag in {"em", "i"} ==> k == Marked("*");
      assert e.tag == "code" ==> k == Marked("`");
    }
  }

  /** A link whose absolute URL is blank is as transparent as an unknown tag; any other link
      wraps its children in Markdown link syntax around the transformed URL. */
  lemma LinkRendering(env: ConvertEnv, e: Node)
    requires e.Element? && e.tag == "a"
    ensures var inner := RenderAll(env, e.children, e.tag);
            var href := env.absHref(e);
            && (IsBlank(href) ==> RenderElement(env, e) == RenderElement(env, e.(tag := "span")))
            && (!IsBlank(href) ==> RenderElement(env, e) == "[" + inner + "](" + env.transformUrl(href) + ")")
  {
    var span := e.(tag := "span");
    assert span.tag !in KnownTags;
    RenderAllParent(env, e.children, "a", "span");
  }

  /** A tag the converter does not know renders exactly its children. */
  lemma UnknownTransparent(env: ConvertEnv, e: Node)
    requires e.Element? && e.tag !in KnownTags
    ensures RenderElement(env, e) == RenderAll(env, e.children, e.tag)
  {
  }

  /** Rendering a sequence of siblings is rendering each part in turn. */
  lemma {:induction false} RenderAllAppend(env: ConvertEnv, a: seq<Node>, b: seq<Node>, parent: string)
    ensures RenderAll(env, a + b, parent) == RenderAll(env, a, parent) + RenderAll(env, b, parent)
    decreases |b|
  {
    if b == [] {
      assert a + b == a;
    } else {
      var last := b[|b| - 1];
      assert (a + b)[..|a + b| - 1] == a + b[..|b| - 1];
      RenderAllAppend(env, a, b[..|b| - 1], parent);
      Assoc(RenderAll(env, a, parent), RenderAll(env, b[..|b| - 1], parent), Render(env, last, parent));
    }
  }

  /** The parent's tag matters only as far as whether it is `pre`. */
  lemma {:induction false} RenderAllParent(env: ConvertEnv, cs: seq<Node>, p: string, q: string)
    requires (p == "pre") == (q == "pre")
    ensures RenderAll(env, cs, p) == RenderAll(env, cs, q)
    decreases |cs|
  {
    if cs != [] {
      RenderAllParent(env, cs[..|cs| - 1], p, q);
    }
  }

  /** Unwrapping an element of an unknown tag changes nothing outside `pre`. */
  lemma UnwrapUnknown(env: ConvertEnv, before: seq<Node>, w: Node, after: seq<Node>, parent: string)
    requires w.Element? && w.tag !in KnownTags && parent != "pre"
    ensures RenderAll(env, before + [w] + after, parent) == RenderAll(env, before + w.children + after, parent)
  {
    var b := RenderAll(env, before, parent);
    var a := RenderAll(env, after, parent);
    var inner := RenderAll(env, w.children, parent);
    RenderSingle(env, w, parent);
    RenderAllParent(env, w.children, w.tag, parent);
    assert RenderAll(env, [w], parent) == inner;
    RenderAllAppend(env, before + [w], after, parent);
    RenderAllAppend(env, before, [w], parent);
    RenderAllAppend(env, before + w.children, after, parent);
    RenderAllAppend(env, before, w.children, parent);
  }

  lemma RenderSingle(env: ConvertEnv, n: Node, parent: string)
    ensures RenderAll(env, [n], parent) == Render(env, n, parent)
  {
    assert [n][..0] == [];
    EmptyPrefix(Render(env, n, parent));
  }

  /** A text node that is blank once normalised (or, under `pre`, as it stands) adds nothing. */
  lemma BlankTextSilent(env: ConvertEnv, before: seq<Node>, whole: string, after: seq<Node>, parent: string)
    requires IsBlank(if parent == "pre" then whole else env.normalise(whole))
    ensures RenderAll(env, before + [TextNode(whole)] + after, parent) == RenderAll(env, before + after, parent)
  {
    RenderSingle(env, TextNode(whole), parent);
    RenderAllAppend(env, before + [TextNode(whole)], after, parent);
    RenderAllAppend(env, before, [TextNode(whole)], parent);
    RenderAllAppend(env, before, after, parent);
    assert RenderAll(env, before, parent) + "" == RenderAll(env, before, parent);
  }

  /** `ListItems` keeps exactly the `li` children: filtering again keeps them all. */
  lemma {:induction false} ListItemsIdempotent(cs: seq<Node>)
    ensures ListItems(ListItems(cs)) == ListItems(cs)
  {
    if cs != [] {
      ListItemsIdempotent(cs[1..]);
      if cs[0].Element? && cs[0].tag == "li" {
        assert ([cs[0]] + ListItems(cs[1..]))[1..] == ListItems(cs[1..]);
      }
    }
  }

  /** A list renders its direct `li` children only: dropping every other child changes nothing. */
  lemma ListIgnoresOthers(env: ConvertEnv, tag: string, attrs: map<string, string>, cs: seq<Node>)
    requires tag == "ul" || tag == "ol"
    ensures RenderElement(env, Element(tag, attrs, cs)) == RenderElement(env, Element(tag, attrs, ListItems(cs)))
  {
    ListRendered(env, Element(tag, attrs, cs), tag == "ol");
    ListRendered(env, Element(tag, attrs, ListItems(cs)), tag == "ol");
    ListItemsIdempotent(cs);
    assert ListParts(env, Element(tag, attrs, cs), tag == "ol") == ListParts(env, Element(tag, attrs, ListItems(cs)), tag == "ol");
  }

  /** One line per `li` child, numbered from 1 in an ordered list, dashed otherwise. */
  lemma ListLines(env: ConvertEnv, e: Node, ordered: bool)
    requires e.Element? && (e.tag == "ul" || e.tag == "ol") && ordered == (e.tag == "ol")
    ensures RenderElement(env, e) == "\n\n" + Concat(ListParts(env, e, ordered)) + "\n"
    ensures |ListParts(env, e, ordered)| == |ListItems(e.children)|
    ensures forall i :: 0 <= i < |ListParts(env, e, ordered)| ==>
              && StartsWith(ListParts(env, e, ordered)[i], if ordered then NatToString(i + 1) + ". " else "- ")
              && EndsWith(ListParts(env, e, ordered)[i], "\n")
  {
    ListRendered(env, e, ordered);
    var parts := ListParts(env, e, ordered);
    var items := ListItems(e.children);
    forall i | 0 <= i < |parts|
      ensures && StartsWith(parts[i], if ordered then NatToString(i + 1) + ". " else "- ")
              && EndsWith(parts[i], "\n")
    {
      FramedLine(ItemPrefix(ordered, i), RenderAll(env, items[i].children, items[i].tag));
    }
  }

  lemma ListRendered(env: ConvertEnv, e: Node, ordered: bool)
    requires e.Element? && (e.tag == "ul" || e.tag == "ol") && ordered == (e.tag == "ol")
    ensures RenderElement(env, e) == ListText(env, e, ordered)
  {
    assert TagKinds[e.tag] == if ordered then NumberedList else BulletList;
  }

  /** A line made of a prefix, a body and a line feed starts with the prefix and ends with the
      line feed. */
  lemma FramedLine(prefix: string, body: string)
    ensures StartsWith(prefix + body + "\n", prefix) && EndsWith(prefix + body + "\n", "\n")
  {
    var line := prefix + body + "\n";
    assert line[..|prefix|] == prefix;
    assert line[|line| - 1..] == "\n";
  }

  /** Tables use only the cells' plain text: the URL transformation, the link resolution and
      the text-node normalisation play no part, and the block opens with the `[Table]` marker. */
  lemma TableIgnoresLinks(env: ConvertEnv, other: ConvertEnv, table: Node)
    requires table.Element? && env.text == other.text
    ensures TableText(env, table) == TableText(other, table)
    ensures StartsWith(TableText(env, table), "\n\n[Table]\n")
  {
    var headers := Headers(env, table);
    assert Headers(other, table) == headers;
    var rows := TableRows(env, table);
    assert TableRows(other, table) == rows;
    RowLinesText(env, other, headers, rows);
    var t := TableText(env, table);
    assert t[..|"\n\n[Table]\n"|] == "\n\n[Table]\n";
  }

  lemma {:induction false} RowLinesText(env: ConvertEnv, other: ConvertEnv, headers: seq<string>, rows: seq<Node>)
    requires env.text == other.text
    requires forall i :: 0 <= i < |rows| ==> rows[i].Element?
    ensures RowLines(env, headers, rows) == RowLines(other, headers, rows)
    decreases |rows|
  {
    if rows != [] {
      RowLinesText(env, other, headers, rows[..|rows| - 1]);
      CellsTextText(env, other, headers, Select(rows[|rows| - 1], RowCells));
    }
  }

  lemma {:induction false} CellsTextText(env: ConvertEnv, other: ConvertEnv, headers: seq<string>, cells: seq<Node>)
    requires env.text == other.text
    ensures CellsText(env, headers, cells) == CellsText(other, headers, cells)
    decreases |cells|
  {
    if cells != [] {
      CellsTextText(env, other, headers, cells[..|cells| - 1]);
    }
  }

  /** The printed rows are `tr` elements: the `tbody` rows when there are any, otherwise every
      row, with (only) the first one dropped when header cells were found. */
  lemma TableRowsChoice(env: ConvertEnv, table: Node)
    requires table.Element?
    ensures var rows := TableRows(env, table);
            && (forall i :: 0 <= i < |rows| ==> rows[i].tag == "tr")
            && (Select(table, BodyRows) != [] ==> rows == Select(table, BodyRows))
            && (Select(table, BodyRows) == [] ==>
                  var all := Select(table, AllRows);
                  |rows| <= |all| <= |rows| + 1 && rows == all[|all| - |rows|..]
                  && (|all| == |rows| + 1 <==> Headers(env, table) != [] && all != []))
  {
  }

  /** The cells of a row are the labelled values joined by " |". */
  lemma {:induction false} CellsJoined(env: ConvertEnv, headers: seq<string>, cells: seq<Node>)
    ensures CellsText(env, headers, cells) == JoinWith(LabelledCells(env, headers, cells), " |")
    decreases |cells|
  {
    if |cells| >= 1 {
      var init := cells[..|cells| - 1];
      var n := |cells| - 1;
      var last := LabelledCell(env, headers, n, cells[n]);
      var labelled := LabelledCells(env, headers, init);
      assert CellsText(env, headers, cells) == CellsText(env, headers, init) + CellText(env, headers, n, cells[n]);
      assert LabelledCells(env, headers, cells) == labelled + [last];
      CellsJoined(env, headers, init);
      if n == 0 {
        assert init == [] && labelled == [];
        assert CellText(env, headers, n, cells[n]) == "" + last;
        EmptyPrefix(last);
        EmptyPrefix("" + last);
        assert JoinWith([last], " |") == last;
      } else {
        assert |labelled| == n;
        JoinWithSnoc(labelled, last, " |");
        assert CellText(env, headers, n, cells[n]) == " |" + last;
        Assoc(JoinWith(labelled, " |"), " |", last);
      }
    }
  }

  /** The quoted text splits at line feeds into the quoted lines, each led by "> ". */
  lemma {:induction false} QuoteLinesSplit(lines: seq<string>, w: string)
    requires forall k :: 0 <= k < |lines| ==> Excludes(lines[k], '\n')
    requires Excludes(w, '\n')
    ensures SplitChar(QuoteLines(lines) + w, '\n') == Quoted(lines) + [w]
    decreases |lines|
  {
    if lines == [] {
      EmptyPrefix(w);
      SplitCharNone(w, '\n');
    } else {
      var init := lines[..|lines| - 1];
      var line := lines[|lines| - 1];
      var quoted := "> " + line;
      ExcludesConcat("> ", line, '\n');
      var x := QuoteLines(init) + quoted;
      QuoteLinesSplit(init, quoted);
      assert QuoteLines(lines) == QuoteLines(init) + (quoted + "\n");
      Assoc(QuoteLines(init), quoted, "\n");
      assert QuoteLines(lines) + w == x + ['\n'] + w;
      SplitCharAppend(x, '\n', w);
      SplitCharNone(w, '\n');
      assert Quoted(lines) == Quoted(init) + [quoted];
    }
  }

  /** Every line of a block quote's trimmed inner rendering comes out led by "> ". */
  lemma QuoteEveryLine(env: ConvertEnv, e: Node)
    requires e.Element? && e.tag == "blockquote"
    ensures var lines := Lines(Trim(RenderAll(env, e.children, e.tag)));
            && RenderElement(env, e) == "\n\n" + QuoteLines(lines) + "\n"
            && SplitChar(QuoteLines(lines), '\n') == Quoted(lines) + [""]
  {
    assert TagKinds[e.tag] == Quote;
    QuoteSplit(Lines(Trim(RenderAll(env, e.children, e.tag))));
  }

  /** Lines without line feeds, quoted, split back into the quoted lines. */
  lemma QuoteSplit(lines: seq<string>)
    requires forall k :: 0 <= k < |lines| ==> forall i :: 0 <= i < |lines[k]| ==> lines[k][i] != '\n' && lines[k][i] != '\r'
    ensures SplitChar(QuoteLines(lines), '\n') == Quoted(lines) + [""]
  {
    forall k | 0 <= k < |lines| ensures Excludes(lines[k], '\n') {
    }
    QuoteLinesSplit(lines, "");
    assert QuoteLines(lines) + "" == QuoteLines(lines);
  }
}
