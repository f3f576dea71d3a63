/**
  What the S5 converter promises about its output: which icons select
  which list attributes, how the metadata dictionary is overridden, which
  pages become slides, where lists open and close and how deep they are
  indented, and that lists and tables nest their tags properly.
 */
module S5Props {

  import opened Wrappers
  import opened Text
  import opened MindMap
  import opened Markup
  import opened S5Spec

  // ---------------------------------------------------------------------
  // List attributes

  /** An icon other than the four recognised ones leaves the attributes as they are. */
  lemma OtherIconIgnored(page: Node, icon: string)
    requires icon != "button_ok" && icon != "stop" && icon != "button_cancel" && icon != "full-1"
    ensures ListAttributes(page.(icons := page.icons + [icon])) == ListAttributes(page)
  {
    assert forall x :: x in page.icons + [icon] <==> x in page.icons || x == icon;
  }

  /** Only the first child is inspected for raw markup: later children change nothing. */
  lemma FirstChildOnly(page: Node, later: seq<Node>)
    requires |page.children| > 0
    ensures ListAttributes(page.(children := page.children + later)) == ListAttributes(page)
  {
    assert (page.children + later)[0] == page.children[0];
  }

  /** The attributes can only fail on a first child without text. */
  lemma ListAttributesFail(page: Node)
    ensures ListAttributes(page).Err? <==> |page.children| > 0 && page.children[0].text.None?
    ensures ListAttributes(page).Err? ==> ListAttributes(page).error == MissingText
  {
  }

  // ---------------------------------------------------------------------
  // Metadata

  /** No entry among `subs` sets `k`. */
  predicate NoEntryFor(subs: seq<Node>, k: string) {
    forall j :: 0 <= j < |subs| ==> subs[j].text != Some(k)
  }

  /** No `__meta__` node among `nodes` has an entry for `k`. */
  predicate NoMetaEntryFor(nodes: seq<Node>, k: string) {
    forall i :: 0 <= i < |nodes| && nodes[i].text == Some(MetaMarker) ==> NoEntryFor(nodes[i].children, k)
  }

  /** Entries for other keys leave `k` as it was. */
  lemma {:induction false} ApplyEntriesKeeps(meta: map<string, string>, subs: seq<Node>, k: string)
    requires NoEntryFor(subs, k)
    ensures var r := ApplyEntries(meta, subs); (k in r.meta <==> k in meta) && (k in meta ==> r.meta[k] == meta[k])
    decreases |subs|
  {
    if subs != [] && subs[0].text.Some? && |subs[0].children| > 0 && subs[0].children[0].text.Some? {
      ApplyEntriesKeeps(meta[subs[0].text.value := subs[0].children[0].text.value], subs[1..], k);
    }
  }

  /** `__meta__` nodes without an entry for `k` leave `k` as it was. */
  lemma {:induction false} ScanMetaKeeps(meta: map<string, string>, nodes: seq<Node>, k: string)
    requires NoMetaEntryFor(nodes, k)
    ensures var r := ScanMeta(meta, nodes); (k in r.meta <==> k in meta) && (k in meta ==> r.meta[k] == meta[k])
    decreases |nodes|
  {
    if nodes != [] {
      assert NoMetaEntryFor(nodes[1..], k) by {
        forall i | 0 <= i < |nodes[1..]| && nodes[1..][i].text == Some(MetaMarker)
          ensures NoEntryFor(nodes[1..][i].children, k)
        {
          assert nodes[1..][i] == nodes[i + 1];
        }
      }
      if nodes[0].text == Some(MetaMarker) {
        var a := ApplyEntries(meta, nodes[0].children);
        ApplyEntriesKeeps(meta, nodes[0].children, k);
        if a.failure.None? {
          ScanMetaKeeps(a.meta, nodes[1..], k);
        }
      } else {
        ScanMetaKeeps(meta, nodes[1..], k);
      }
    }
  }

  /** Within one `__meta__` node the last entry for a key wins. */
  lemma {:induction false} ApplyEntriesLast(meta: map<string, string>, subs: seq<Node>, j: nat, k: string)
    requires ApplyEntries(meta, subs).failure.None?
    requires j < |subs| && subs[j].text == Some(k) && NoEntryFor(subs[j + 1..], k)
    ensures |subs[j].children| > 0 && subs[j].children[0].text.Some?
    ensures var r := ApplyEntries(meta, subs); k in r.meta && r.meta[k] == subs[j].children[0].text.value
    decreases j
  {
    var m := meta[subs[0].text.value := subs[0].children[0].text.value];
    if j == 0 {
      ApplyEntriesKeeps(m, subs[1..], k);
    } else {
      assert subs[1..][j - 1] == subs[j] && subs[1..][j - 1 + 1..] == subs[j + 1..];
      ApplyEntriesLast(m, subs[1..], j - 1, k);
    }
  }

  /**
    Across the whole document the last entry for a key wins: entry `j` of
    the `__meta__` node at preorder position `i` sets `k` when no later
    entry of that node and no later `__meta__` node sets it again.
   */
  lemma {:induction false} ScanMetaLast(meta: map<string, string>, nodes: seq<Node>, i: nat, j: nat, k: string)
    requires ScanMeta(meta, nodes).failure.None?
    requires i < |nodes| && nodes[i].text == Some(MetaMarker)
    requires j < |nodes[i].children| && nodes[i].children[j].text == Some(k)
    requires NoEntryFor(nodes[i].children[j + 1..], k) && NoMetaEntryFor(nodes[i + 1..], k)
    ensures |nodes[i].children[j].children| > 0 && nodes[i].children[j].children[0].text.Some?
    ensures var r := ScanMeta(meta, nodes); k in r.meta && r.meta[k] == nodes[i].children[j].children[0].text.value
    decreases i
  {
    if i == 0 {
      var a := ApplyEntries(meta, nodes[0].children);
      ApplyEntriesLast(meta, nodes[0].children, j, k);
      assert nodes[1..] == nodes[i + 1..];
      ScanMetaKeeps(a.meta, nodes[1..], k);
    } else {
      assert nodes[1..][i - 1] == nodes[i] && nodes[1..][i - 1 + 1..] == nodes[i + 1..];
      if nodes[0].text == Some(MetaMarker) {
        var a := ApplyEntries(meta, nodes[0].children);
        ScanMetaLast(a.meta, nodes[1..], i - 1, j, k);
      } else {
        ScanMetaLast(meta, nodes[1..], i - 1, j, k);
      }
    }
  }

  /** The default footer leaves every other key as it is. */
  lemma WithFooterKeeps(meta: map<string, string>, k: string)
    requires k in meta
    ensures k in WithFooter(meta) && (k != "footer" ==> WithFooter(meta)[k] == meta[k])
  {
  }

  /** After a successful `_grab_meta` every key the templates read is present, and so are the old ones. */
  lemma GrabMetaKeys(meta: map<string, string>, etIn: Option<Node>)
    requires GrabMetaOf(meta, etIn).failure.None?
    ensures meta.Keys + {"title", "footer"} <= GrabMetaOf(meta, etIn).meta.Keys
    ensures DefaultMeta.Keys <= meta.Keys ==> DefaultMeta.Keys + {"footer"} <= GrabMetaOf(meta, etIn).meta.Keys
  {
  }

  /** Without `__meta__` entries for them, title and subtitle are the first two lines of the root text. */
  lemma GrabMetaTitle(meta: map<string, string>, doc: Node)
    requires GrabMetaOf(meta, Some(doc)).failure.None?
    requires NoMetaEntryFor(PreorderAll(doc.children), "title")
    requires NoMetaEntryFor(PreorderAll(doc.children), "subtitle")
    ensures var titles := Split(doc.children[0].text.value, '\n'); var g := GrabMetaOf(meta, Some(doc));
      && g.meta["title"] == titles[0]
      && (|titles| > 1 ==> g.meta["subtitle"] == titles[1])
      && (|titles| == 1 ==> ("subtitle" in g.meta <==> "subtitle" in meta))
      && (|titles| == 1 && "subtitle" in meta ==> g.meta["subtitle"] == meta["subtitle"])
  {
    var m := TitleMeta(meta, doc.children[0].text.value);
    var nodes := PreorderAll(doc.children);
    ScanMetaKeeps(m, nodes, "title");
    ScanMetaKeeps(m, nodes, "subtitle");
  }

  /** A `__meta__` entry that is not set again later decides its key in the final dictionary. */
  lemma GrabMetaOverride(meta: map<string, string>, doc: Node, i: nat, j: nat, k: string)
    requires GrabMetaOf(meta, Some(doc)).failure.None?
    requires var nodes := PreorderAll(doc.children);
      && i < |nodes| && nodes[i].text == Some(MetaMarker)
      && j < |nodes[i].children| && nodes[i].children[j].text == Some(k)
      && NoEntryFor(nodes[i].children[j + 1..], k) && NoMetaEntryFor(nodes[i + 1..], k)
    ensures var n := PreorderAll(doc.children)[i].children[j];
      && |n.children| > 0 && n.children[0].text.Some?
      && k in GrabMetaOf(meta, Some(doc)).meta
      && GrabMetaOf(meta, Some(doc)).meta[k] == n.children[0].text.value
  {
    var m := TitleMeta(meta, doc.children[0].text.value);
    ScanMetaLast(m, PreorderAll(doc.children), i, j, k);
  }

  /**
    Without a footer given, the footer is derived from the final company and
    title; a footer given beforehand or by an entry is kept.
   */
  lemma GrabMetaFooter(meta: map<string, string>, doc: Node)
    requires GrabMetaOf(meta, Some(doc)).failure.None?
    requires "footer" !in meta && NoMetaEntryFor(PreorderAll(doc.children), "footer")
    ensures var g := GrabMetaOf(meta, Some(doc)).meta;
      g["footer"] == "<h1>" + Field(g, "company") + "</h2><h2>" + Field(g, "title") + "</h2>"
  {
    var m := TitleMeta(meta, doc.children[0].text.value);
    var s := ScanMeta(m, PreorderAll(doc.children));
    ScanMetaKeeps(m, PreorderAll(doc.children), "footer");
    assert "footer" !in s.meta;
    var g := s.meta["footer" := DefaultFooter(s.meta)];
    assert Field(g, "company") == Field(s.meta, "company") && Field(g, "title") == Field(s.meta, "title");
  }

  // ---------------------------------------------------------------------
  // Slides

  /** Whether a page becomes a slide: it has text, is not `__meta__` and is not skipped. */
  predicate IsShown(page: Node) {
    page.text.Some? && page.text.value != MetaMarker && ListAttributes(page).Ok? && !ListAttributes(page).value.skip
  }

  /** The pages that become slides, in order. */
  function Shown(pages: seq<Node>): (r: seq<Node>)
    ensures forall k :: 0 <= k < |r| ==> IsShown(r[k])
  {
    if pages == [] then []
    else (if IsShown(pages[0]) then [pages[0]] else []) + Shown(pages[1..])
  }

  /**
    `convert` emits exactly one slide per shown page, in order, headed by
    the page text and holding the page's list.
   */
  lemma {:induction false} SlidesShape(pages: seq<Node>)
    requires Slides(pages).Ok?
    ensures var blocks := Slides(pages).value;
      && |blocks| == |Shown(pages)|
      && forall k :: 0 <= k < |blocks| ==>
           ListLines(Shown(pages)[k], 0).Ok?
           && blocks[k] == SlideBlock(Shown(pages)[k].text.value, ListLines(Shown(pages)[k], 0).value)
  {
    if pages != [] {
      SlidesShape(pages[1..]);
      if IsShown(pages[0]) {
        var blocks := Slides(pages).value;
        var rest := Slides(pages[1..]).value;
        assert blocks == [SlideBlock(pages[0].text.value, ListLines(pages[0], 0).value)] + rest;
        assert Shown(pages) == [pages[0]] + Shown(pages[1..]);
      } else {
        assert Shown(pages) == Shown(pages[1..]);
      }
    }
  }

  /** Every slide opens with the slide `div` and its `<h1>` title. */
  lemma SlideHeading(title: string, body: seq<string>)
    ensures var b := SlideBlock(title, body);
      |b| == |body| + 5 && b[0] == "  <div class=\"slide\">" && b[1] == "    <h1>" + title + "</h1>"
  {
  }

  // ---------------------------------------------------------------------
  // Lists, items and tables

  /** The list tag an attribute set selects. */
  function ListTag(attrs: ListAttrs): (g: Tag)
    ensures g == UL || g == OL
  {
    if attrs.ol then OL else UL
  }

  /**
    The opening line is `<ol` with `ol` and `<ul` otherwise, with the
    `incremental` class exactly when `ul_class` is set; the closing tag of
    the same list follows the items.
   */
  lemma ListOpenForm(attrs: ListAttrs)
    ensures ListOpen(attrs)
         == "<" + (if attrs.ol then "ol" else "ul") + (if attrs.ulClass then " class=\"incremental\"" else "") + ">"
    ensures ListClose(attrs) == "</" + (if attrs.ol then "ol" else "ul") + ">"
  {
  }

  /** The opening and closing lines of a list are the matching tags of its list kind. */
  lemma ListTagEvents(attrs: ListAttrs)
    ensures TagEvent(ListOpen(attrs)) == Some(Open(ListTag(attrs)))
    ensures TagEvent(ListClose(attrs)) == Some(Close(ListTag(attrs)))
  {
    if attrs.ol {
      OlCloseLine();
      if attrs.ulClass { OlClassOpenLine(); } else { OlOpenLine(); }
    } else {
      UlCloseLine();
      if attrs.ulClass { UlClassOpenLine(); } else { UlOpenLine(); }
    }
  }

  /**
    `_doList` emits nothing for a node without child elements; otherwise,
    unless `no_ul` is set, its first line opens the list and its last line
    closes it, both indented by `2*(depth+2)` spaces.
   */
  lemma ListFrame(sub: Node, depth: nat)
    requires ListLines(sub, depth).Ok?
    ensures |sub.children| + |sub.icons| == 0 ==> ListLines(sub, depth).value == []
    ensures |sub.children| + |sub.icons| > 0 && !ListAttributes(sub).value.noUl ==>
      var ls := ListLines(sub, depth).value; var attrs := ListAttributes(sub).value;
      && |ls| >= 2
      && ls[0] == Spaces(2 * (depth + 2)) + ListOpen(attrs)
      && ls[|ls| - 1] == Spaces(2 * (depth + 2)) + ListClose(attrs)
      && TagEvent(ls[0]) == Some(Open(ListTag(attrs)))
      && TagEvent(ls[|ls| - 1]) == Some(Close(ListTag(attrs)))
  {
    if |sub.children| + |sub.icons| > 0 && !ListAttributes(sub).value.noUl {
      var attrs := ListAttributes(sub).value;
      ListTagEvents(attrs);
      IndentedEvent(2 * (depth + 2), ListOpen(attrs));
      IndentedEvent(2 * (depth + 2), ListClose(attrs));
    }
  }

  /** The text of an item after `<html>` is removed and a link wrapped around it. */
  function ItemBody(text: string, line: Node): string {
    var t := Replace(text, "<html>", "");
    if line.link.Some? then "<a href=\"" + line.link.value + "\">" + t + "</a>" else t
  }

  /**
    `_insert_line_item`: nothing for empty text; otherwise one line, in list
    mode the `<li>` item indented `2*(depth+3)` spaces with each newline
    followed by a break, with `no_ul` the bare text.
   */
  lemma LineItemShape(text: string, line: Node, depth: nat, attrs: ListAttrs)
    ensures text == "" ==> LineItem(text, line, depth, attrs) == []
    ensures text != "" && !attrs.noUl ==>
      LineItem(text, line, depth, attrs)
      == [Spaces(2 * (depth + 3)) + "<li>" + Replace(ItemBody(text, line), "\n", "<br/>\n") + "</li>"]
    ensures text != "" && attrs.noUl ==> LineItem(text, line, depth, attrs) == [ItemBody(text, line)]
  {
  }

  /** The item line in list mode is content, whatever the text. */
  lemma ItemLineContent(depth: nat, body: string)
    ensures TagEvent(Spaces(2 * (depth + 3)) + "<li>" + body + "</li>") == None
  {
    var u := "<li>" + body + "</li>";
    assert Spaces(2 * (depth + 3)) + "<li>" + body + "</li>" == Spaces(2 * (depth + 3)) + u;
    IndentedEvent(2 * (depth + 3), u);
    NotTagText(u);
  }

  /**
    A child of a list whose parent has attributes `attrs` is not written
    bare as a tag line: with `no_ul` set and no LINK, its text without
    `<html>` is not one of the list or table tags on a line of its own.
   */
  predicate BareContent(line: Node, attrs: ListAttrs) {
    attrs.noUl && line.link.None? && line.text.Some? ==> TagEvent(Replace(line.text.value, "<html>", "")) == None
  }

  /** No child anywhere in the subtree of `sub` is written bare as a tag line. */
  predicate NoBareTags(sub: Node) {
    && (ListAttributes(sub).Ok? ==> forall i :: 0 <= i < |sub.children| ==> BareContent(sub.children[i], ListAttributes(sub).value))
    && forall i :: 0 <= i < |sub.children| ==> NoBareTags(sub.children[i])
  }

  /**
    The lines of an item are all content exactly when it is not a bare
    text that is itself a tag line: an `<li>` line and a link are content
    whatever the text holds.
   */
  lemma LineItemContent(text: string, line: Node, depth: nat, attrs: ListAttrs)
    requires text != ""
    ensures (forall i :: 0 <= i < |LineItem(text, line, depth, attrs)| ==> TagEvent(LineItem(text, line, depth, attrs)[i]) == None)
            <==> !(attrs.noUl && line.link.None?) || TagEvent(Replace(text, "<html>", "")) == None
  {
    var b := ItemBody(text, line);
    if !attrs.noUl {
      ItemLineContent(depth, Replace(b, "\n", "<br/>\n"));
    } else if line.link.Some? {
      NotTagText(b);
    } else {
      assert LineItem(text, line, depth, attrs)[0] == b;
    }
  }

  lemma FourSpaces(s: string)
    ensures "    " + s == Spaces(4) + s
  {
    assert Spaces(4) == " " + (" " + (" " + (" " + Spaces(0))));
  }

  /** A cell line is content, whatever the cell text. */
  lemma CellLineContent(indent: string, n: nat, t: string)
    requires indent == Spaces(n)
    ensures TagEvent(indent + "    <td>" + t + "</td>") == None
  {
    var u := "<td>" + t + "</td>";
    CellTextContent(t);
    FourSpaces(u);
    IndentedEvent(4, u);
    IndentedEvent(n, "    " + u);
    CellLineSplit(indent, t);
  }

  /** A cell without its indentation is not a tag line. */
  lemma CellTextContent(t: string)
    ensures TagEvent("<td>" + t + "</td>") == None
  {
    var u := "<td>" + t + "</td>";
    assert u[0] == '<' && u[1] == 't' && u[2] == 'd';
    NotTagText(u);
  }

  lemma CellLineSplit(indent: string, t: string)
    ensures indent + "    <td>" + t + "</td>" == indent + ("    " + ("<td>" + t + "</td>"))
  {
    assert "    <td>" == "    " + "<td>";
  }

  lemma {:induction false} CellsContent(indent: string, n: nat, cells: seq<Node>)
    requires indent == Spaces(n)
    ensures CellLines(indent, cells).Ok? ==>
      forall i :: 0 <= i < |CellLines(indent, cells).value| ==> TagEvent(CellLines(indent, cells).value[i]) == None
  {
    if cells != [] && CellLines(indent, cells).Ok? {
      CellsContent(indent, n, cells[1..]);
      CellLineContent(indent, n, cells[0].text.value);
      var rest := CellLines(indent, cells[1..]).value;
      var ls := CellLines(indent, cells).value;
      forall i | 0 <= i < |ls| ensures TagEvent(ls[i]) == None {
        if i > 0 { assert ls[i] == rest[i - 1]; }
      }
    }
  }

  /** The rows of a table, each a `<tr>` around content cells, are balanced. */
  lemma {:induction false} RowsBalanced(indent: string, n: nat, rows: seq<Node>)
    requires indent == Spaces(n)
    ensures RowLines(indent, rows).Ok? ==> Balanced(RowLines(indent, rows).value)
  {
    if rows != [] && RowLines(indent, rows).Ok? {
      var cells := CellLines(indent, Preorder(rows[0])).value;
      CellsContent(indent, n, Preorder(rows[0]));
      AllContentBalanced(cells, []);
      assert indent + "  <tr>" == Spaces(n) + ("  " + "<tr>");
      assert indent + "  </tr>" == Spaces(n) + ("  " + "</tr>");
      TrOpenLine(n);
      TrCloseLine(n);
      BalancedWrap(indent + "  <tr>", cells, indent + "  </tr>", TR);
      RowsBalanced(indent, n, rows[1..]);
      BalancedAppend([indent + "  <tr>"] + cells + [indent + "  </tr>"], RowLines(indent, rows[1..]).value);
    }
  }

  /** `_insert_table` opens and closes `table`, `tr` and `td` properly. */
  lemma TableBalanced(table: Node, depth: nat)
    ensures TableLines(table, depth).Ok? ==> Balanced(TableLines(table, depth).value)
  {
    var indent := Indent(depth + 2);
    if TableLines(table, depth).Ok? {
      RowsBalanced(indent, 2 * (depth + 2), table.children);
      IndentedEvent(2 * (depth + 2), "<table>");
      IndentedEvent(2 * (depth + 2), "</table>");
      TableOpenLine();
      TableCloseLine();
      BalancedWrap(indent + "<table>", RowLines(indent, table.children).value, indent + "</table>", TABLE);
    }
  }

  /**
    The list `_doList` emits is balanced: every `<ul>`, `<ol>`, `<table>`
    and `<tr>` it opens it closes, innermost first, unless a child's text
    is written bare as a lone tag line.  The unit is an element of `lines`.
   */
  lemma {:induction false} ListLinesBalanced(sub: Node, depth: nat)
    requires NoBareTags(sub)
    ensures ListLines(sub, depth).Ok? ==> Balanced(ListLines(sub, depth).value)
    decreases sub, 1
  {
    if |sub.children| + |sub.icons| > 0 && ListLines(sub, depth).Ok? {
      var attrs := ListAttributes(sub).value;
      var items := ItemsLines(sub.children, depth, attrs).value;
      ItemsLinesBalanced(sub.children, depth, attrs);
      if !attrs.noUl {
        var indent := Indent(depth + 2);
        ListTagEvents(attrs);
        IndentedEvent(2 * (depth + 2), ListOpen(attrs));
        IndentedEvent(2 * (depth + 2), ListClose(attrs));
        BalancedWrap(indent + ListOpen(attrs), items, indent + ListClose(attrs), ListTag(attrs));
      }
    }
  }

  lemma {:induction false} ItemsLinesBalanced(lines: seq<Node>, depth: nat, attrs: ListAttrs)
    requires forall i :: 0 <= i < |lines| ==> BareContent(lines[i], attrs) && NoBareTags(lines[i])
    ensures ItemsLines(lines, depth, attrs).Ok? ==> Balanced(ItemsLines(lines, depth, attrs).value)
    decreases lines, 0
  {
    if lines != [] && ItemsLines(lines, depth, attrs).Ok? {
      ItemLinesBalanced(lines[0], depth, attrs);
      ItemsLinesBalanced(lines[1..], depth, attrs);
      BalancedAppend(ItemLines(lines[0], depth, attrs).value, ItemsLines(lines[1..], depth, attrs).value);
    }
  }

  lemma {:induction false} ItemLinesBalanced(line: Node, depth: nat, attrs: ListAttrs)
    requires BareContent(line, attrs) && NoBareTags(line)
    ensures ItemLines(line, depth, attrs).Ok? ==> Balanced(ItemLines(line, depth, attrs).value)
    decreases line, 2
  {
    if ItemLines(line, depth, attrs).Ok? {
      var text := ItemText(line).value;
      if text == TableMarker {
        TableBalanced(line, depth);
      } else {
        var item := LineItem(text, line, depth, attrs);
        LineItemContent(text, line, depth, attrs);
        AllContentBalanced(item, []);
        ListLinesBalanced(line, depth + 1);
        BalancedAppend(item, ListLines(line, depth + 1).value);
      }
    }
  }
}
