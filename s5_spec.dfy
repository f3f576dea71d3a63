/**
  What the S5 slide converter computes, as functions over the mind map:
  the list attributes an icon set and a first child select, the metadata
  dictionary after the root text and the `__meta__` nodes are read, and
  the lines of every slide, list, list item and table.
 */
module S5Spec {

  import opened Wrappers
  import opened Text
  import opened MindMap

  // ---------------------------------------------------------------------
  // The metadata dictionary

  const AuthorDefault: string :=
    "The Author.\n" + "        You don't need to change this code.\n"
    + "        Instead, you should write a" + " __meta__ node in your mm file.\n"
    + "        Refer to the docstring for details."

  /**
    The dictionary `__init__` starts from.  `footer` starts as None, which
    is modelled by the key being absent.
   */
  const DefaultMeta: map<string, string> := map[
    "title" := "Title",
    "subtitle" := "",
    "author" := AuthorDefault,
    "company" := "See above",
    "template" := "default",
    "presdate" := "Today",
    "content_type" := "application/xhtml+xml; charset=utf-8",
    "header" := "",
    "generator" := "mm2s5.py"]

  /**
    `meta[k]` for a key the templates read.  Every such key is present once
    `_grab_meta` has run (see `S5Props.GrabMetaKeys`), so the fallback is
    never taken.
   */
  function Field(meta: map<string, string>, k: string): string {
    if k in meta then meta[k] else ""
  }

  /** The dictionary after `_grab_meta`, and the exception that stopped it, if any. */
  datatype MetaRun = MetaRun(meta: map<string, string>, failure: Option<Failure>)

  /** `title` and `subtitle` from the first two lines of the root text. */
  function TitleMeta(meta: map<string, string>, rootText: string): (m: map<string, string>)
    ensures m.Keys == meta.Keys + {"title"} + (if |Split(rootText, '\n')| > 1 then {"subtitle"} else {})
  {
    var titles := Split(rootText, '\n');
    var m := meta["title" := titles[0]];
    if |titles| > 1 then m["subtitle" := titles[1]] else m
  }

  /** The key/value entries under one `__meta__` node, applied one after the other. */
  function ApplyEntries(meta: map<string, string>, subs: seq<Node>): (r: MetaRun)
    ensures meta.Keys <= r.meta.Keys
    decreases |subs|
  {
    if subs == [] then MetaRun(meta, None)
    else
      var sub := subs[0];
      if sub.text.None? then MetaRun(meta, Some(MissingText))
      else if |sub.children| == 0 then MetaRun(meta, Some(MissingMetaValue))
      else if sub.children[0].text.None? then MetaRun(meta, Some(MissingText))
      else ApplyEntries(meta[sub.text.value := sub.children[0].text.value], subs[1..])
  }

  const MetaMarker: string := "__meta__"

  /** The loop of `_grab_meta` over `nodes`, the document's nodes in preorder. */
  function ScanMeta(meta: map<string, string>, nodes: seq<Node>): (r: MetaRun)
    ensures meta.Keys <= r.meta.Keys
    decreases |nodes|, 1
  {
    if nodes == [] then MetaRun(meta, None)
    else if nodes[0].text == Some(MetaMarker) then ThenScan(ApplyEntries(meta, nodes[0].children), nodes[1..])
    else ScanMeta(meta, nodes[1..])
  }

  /** The scan going on over `nodes` after the entries of one `__meta__` node, unless they failed. */
  function ThenScan(a: MetaRun, nodes: seq<Node>): (r: MetaRun)
    ensures a.meta.Keys <= r.meta.Keys
    decreases |nodes|, 2
  {
    if a.failure.Some? then a else ScanMeta(a.meta, nodes)
  }

  /** The footer `_grab_meta` derives when none was given. */
  function DefaultFooter(meta: map<string, string>): string {
    "<h1>" + Field(meta, "company") + "</h2><h2>" + Field(meta, "title") + "</h2>"
  }

  function WithFooter(meta: map<string, string>): (m: map<string, string>)
    ensures m.Keys == meta.Keys + {"footer"}
  {
    if "footer" in meta then meta else meta["footer" := DefaultFooter(meta)]
  }

  /** `_grab_meta` on the document `etIn`; it succeeds only on a document with a titled first node. */
  function GrabMetaOf(meta: map<string, string>, etIn: Option<Node>): (g: MetaRun)
    ensures g.failure.None? ==> etIn.Some? && |etIn.value.children| > 0 && etIn.value.children[0].text.Some?
  {
    if etIn.None? then MetaRun(meta, Some(NotLoaded))
    else if |etIn.value.children| == 0 then MetaRun(meta, Some(NoPresentation))
    else if etIn.value.children[0].text.None? then MetaRun(meta, Some(MissingText))
    else
      var s := ScanMeta(TitleMeta(meta, etIn.value.children[0].text.value), PreorderAll(etIn.value.children));
      if s.failure.Some? then s else MetaRun(WithFooter(s.meta), None)
  }

  // ---------------------------------------------------------------------
  // List attributes

  /** The keys `_get_list_attributes` may put in its dictionary. */
  datatype ListAttrs = ListAttrs(noUl: bool, ulClass: bool, skip: bool, ol: bool)

  /** Whether the first child node asks for raw markup: its text starts with `<` or is `__table__`. */
  function MarkupFirst(page: Node): Result<bool, Failure> {
    if |page.children| == 0 then Ok(false)
    else
      var t :- TextOf(page.children[0]);
      Ok(StartsWith(t, "<") || t == TableMarker)
  }

  /**
    `_get_list_attributes`: each attribute is set exactly when its icon is
    present; `no_ul` also when the first child is raw markup.
   */
  function ListAttributes(page: Node): Result<ListAttrs, Failure> {
    var m :- MarkupFirst(page);
    Ok(ListAttrs("button_ok" in page.icons || m, "stop" in page.icons,
                 "button_cancel" in page.icons, "full-1" in page.icons))
  }

  // ---------------------------------------------------------------------
  // Lists, items and tables

  const TableMarker: string := "__table__"

  /** `_insert_line_item`: the lines for one child with non-empty text `text`, at `depth`. */
  function LineItem(text: string, line: Node, depth: nat, attrs: ListAttrs): seq<string> {
    if text == "" then []
    else
      var t := Replace(text, "<html>", "");
      var t := if line.link.Some? then "<a href=\"" + line.link.value + "\">" + t + "</a>" else t;
      if !attrs.noUl then [Indent(depth + 3) + "<li>" + Replace(t, "\n", "<br/>\n") + "</li>"]
      else [t]
  }

  /** One `<td>` line per cell. */
  function CellLines(indent: string, cells: seq<Node>): Result<seq<string>, Failure> {
    if cells == [] then Ok([])
    else
      var t :- TextOf(cells[0]);
      var rest :- CellLines(indent, cells[1..]);
      Ok([indent + "    <td>" + t + "</td>"] + rest)
  }

  /** One `<tr>` block per row; a row's cells are the row node and all its descendants. */
  function RowLines(indent: string, rows: seq<Node>): Result<seq<string>, Failure> {
    if rows == [] then Ok([])
    else
      var cells :- CellLines(indent, Preorder(rows[0]));
      var rest :- RowLines(indent, rows[1..]);
      Ok([indent + "  <tr>"] + cells + [indent + "  </tr>"] + rest)
  }

  /** `_insert_table`. */
  function TableLines(table: Node, depth: nat): Result<seq<string>, Failure> {
    var indent := Indent(depth + 2);
    var rows :- RowLines(indent, table.children);
    Ok([indent + "<table>"] + rows + [indent + "</table>"])
  }

  /** The opening line of a list, without its indentation. */
  function ListOpen(attrs: ListAttrs): string {
    if attrs.ol then (if attrs.ulClass then "<ol class=\"incremental\">" else "<ol>")
    else (if attrs.ulClass then "<ul class=\"incremental\">" else "<ul>")
  }

  /** The closing line of a list, without its indentation. */
  function ListClose(attrs: ListAttrs): string {
    if attrs.ol then "</ol>" else "</ul>"
  }

  /** The text `_doList` reads for a child: TEXT, unless it is missing or empty. */
  function ItemText(line: Node): Result<string, Failure> {
    if line.text.None? || line.text.value == "" then Err(RichContent) else Ok(line.text.value)
  }

  /**
    `_doList(lines, sub, depth)`: what it appends.  Nothing for a node
    without child elements; otherwise the list of its children, wrapped in
    `<ul>`/`<ol>` unless `no_ul` is set.
   */
  function ListLines(sub: Node, depth: nat): Result<seq<string>, Failure>
    decreases sub, 1
  {
    if |sub.children| + |sub.icons| == 0 then Ok([])
    else
      var attrs :- ListAttributes(sub);
      var items :- ItemsLines(sub.children, depth, attrs);
      var indent := Indent(depth + 2);
      if attrs.noUl then Ok(items)
      else Ok([indent + ListOpen(attrs)] + items + [indent + ListClose(attrs)])
  }

  /** The loop of `_doList` over the children `lines`. */
  function ItemsLines(lines: seq<Node>, depth: nat, attrs: ListAttrs): Result<seq<string>, Failure>
    decreases lines, 0
  {
    if lines == [] then Ok([])
    else
      var head :- ItemLines(lines[0], depth, attrs);
      var rest :- ItemsLines(lines[1..], depth, attrs);
      Ok(head + rest)
  }

  /** One child of `_doList`: a table, or its item followed by its own list one level deeper. */
  function ItemLines(line: Node, depth: nat, attrs: ListAttrs): Result<seq<string>, Failure>
    decreases line, 2
  {
    var text :- ItemText(line);
    if text == TableMarker then TableLines(line, depth)
    else
      var sub :- ListLines(line, depth + 1);
      Ok(LineItem(text, line, depth, attrs) + sub)
  }

  // ---------------------------------------------------------------------
  // Slides

  /** The lines of one page's slide around the lines of its list. */
  function SlideBlock(title: string, body: seq<string>): seq<string> {
    SlideHead(title) + body + SlideTail
  }

  function SlideHead(title: string): seq<string> {
    ["  <div class=\"slide\">", "    <h1>" + title + "</h1>", "    <div class=\"slidecontent\">"]
  }

  const SlideTail: seq<string> := ["    </div>", "  </div>"]

  /** The loop of `convert` over the pages: one block per page that is neither `__meta__` nor skipped. */
  function Slides(pages: seq<Node>): Result<seq<seq<string>>, Failure> {
    if pages == [] then Ok([])
    else
      var t :- TextOf(pages[0]);
      if t == MetaMarker then Slides(pages[1..])
      else
        var attrs :- ListAttributes(pages[0]);
        if attrs.skip then Slides(pages[1..])
        else
          var body :- ListLines(pages[0], 0);
          var rest :- Slides(pages[1..]);
          Ok([SlideBlock(t, body)] + rest)
  }

  function Flatten(blocks: seq<seq<string>>): seq<string> {
    if blocks == [] then [] else blocks[0] + Flatten(blocks[1..])
  }

  const XmlDeclaration: string :=
    "<?xml version=\"1.0\" encoding=\"UTF-8\"?>"

  const DocType: string :=
    "<!DOCTYPE html PUBLIC " + "\"-//W3C//DTD XHTML 1.0 Strict//EN\"\n"
    + "      \"http://www.w3.org/TR/xhtml1/DTD/" + "xhtml1-strict.dtd\">\n"
    + "        <html " + "xmlns=\"http://www.w3.org/1999/xhtml\">"

  /** The `<head>` block, filled in from the dictionary. */
  function HeadBlock(meta: map<string, string>): string {
    "\n" + "      <title>" + Field(meta, "title") + "</title>\n"
    + "      <meta name=\"version\" content=\"S5 1.1\"" + " />\n"
    + "      <meta name=\"generator\" content=\"" + Field(meta, "generator") + "\" />\n"
    + "      <meta name=\"presdate\" content=\"" + Field(meta, "presdate") + "\" />\n"
    + "      <meta name=\"author\" content=\"" + Field(meta, "author") + "\" />\n"
    + "      <meta name=\"company\" content=\"" + Field(meta, "company") + "\" />\n"
    + "      <meta http-equiv=\"Content-type\"" + " content=\"" + Field(meta, "content_type")
    + "\" />\n" + "      <!-- S5 format see Eric A. Meyer,"
    + " http://meyerweb.com/eric/tools/s5/ -->\n"
    + "      <link rel=\"stylesheet\" href=\"ui/" + Field(meta, "template")
    + "/slides.css\" type=\"text/css\"\n" + "        media=\"projection\" id=\"slideProj\""
    + " />\n" + "      <link rel=\"stylesheet\" href=\"ui/" + Field(meta, "template")
    + "/outline.css\" type=\"text/css\" x\n"
    + "        media=\"screen\" id=\"outlineStyle\" />\n"
    + "      <link rel=\"stylesheet\" href=\"ui/" + Field(meta, "template")
    + "/print.css\" type=\"text/css\"\n" + "        media=\"print\" id=\"slidePrint\" />\n"
    + "      <link rel=\"stylesheet\" href=\"ui/" + Field(meta, "template")
    + "/opera.css\" type=\"text/css\"\n" + "        media=\"projection\" id=\"operaFix\" />\n"
    + "      <script src=\"ui/" + Field(meta, "template") + "/slides.js\""
    + " type=\"text/javascript\"></script>\n" + "      "
  }

  /** The layout block, filled in from the dictionary. */
  function LayoutBlock(meta: map<string, string>): string {
    "<div class=\"layout\">\n" + "        <div id=\"controls\"><!-- DO NOT EDIT"
    + " --></div>\n" + "        <div id=\"currentSlide\"><!-- DO NOT" + " EDIT --></div>\n"
    + "        <div id=\"header\">" + Field(meta, "header") + "</div>\n"
    + "        <div id=\"footer\">" + Field(meta, "footer") + "</div>\n" + "      </div>"
  }

  /** The document head and the layout block. */
  function HeadLines(meta: map<string, string>): seq<string> {
    [XmlDeclaration, DocType, "<head>", HeadBlock(meta), "</head>", "<body>", LayoutBlock(meta),
     "<div class=\"presentation\">"]
  }

  /** The title slide. */
  function TitleSlide(meta: map<string, string>): seq<string> {
    [ "  <div class=\"slide\">",
      "    <h1>" + Field(meta, "title") + "</h1>",
      "    <h2>" + Field(meta, "subtitle") + "</h2>",
      "    <h3>" + Field(meta, "author") + "</h3>",
      "    <h4>" + Field(meta, "company") + "</h4>",
      "  </div>" ]
  }

  const TailLines: seq<string> := ["</div>", "</body>", "</html>"]

  /** The outcome of `convert`, and the dictionary afterwards. */
  datatype S5Run = S5Run(result: Result<seq<string>, Failure>, meta: map<string, string>)

  function S5Of(meta: map<string, string>, etIn: Option<Node>): S5Run {
    var g := GrabMetaOf(meta, etIn);
    if g.failure.Some? then S5Run(Err(g.failure.value), g.meta)
    else
      var slides := Slides(etIn.value.children[0].children);
      if slides.Err? then S5Run(Err(slides.error), g.meta)
      else S5Run(Ok(HeadLines(g.meta) + TitleSlide(g.meta) + Flatten(slides.value) + TailLines), g.meta)
  }
}
