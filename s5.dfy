/**
  The S5 slide converter as the object it is: the parsed document and the
  metadata dictionary as fields, `convert` and its helpers as methods that
  append lines step by step.  Each method is proved to compute what the
  corresponding function of `S5Spec` describes.
 */
module S5 {

  import opened Wrappers
  import opened Text
  import opened MindMap
  import opened S5Spec

  /** The slides of `pages` as one list of lines. */
  function FlatSlides(pages: seq<Node>): Result<seq<string>, Failure> {
    match Slides(pages)
    case Ok(blocks) => Ok(Flatten(blocks))
    case Err(e) => Err(e)
  }

  /** The lines of a list, given what is appended before and after its items. */
  function Closed(r: Result<seq<string>, Failure>, attrs: ListAttrs, indent: string): Result<seq<string>, Failure> {
    if attrs.noUl then r else FollowedBy(r, [indent + ListClose(attrs)])
  }

  /** One metadata entry taken from the front of what is left. */
  lemma ApplyEntriesAt(meta: map<string, string>, subs: seq<Node>, j: nat)
    requires j < |subs|
    ensures subs[j].text.None? ==> ApplyEntries(meta, subs[j..]) == MetaRun(meta, Some(MissingText))
    ensures subs[j].text.Some? && |subs[j].children| == 0 ==>
      ApplyEntries(meta, subs[j..]) == MetaRun(meta, Some(MissingMetaValue))
    ensures subs[j].text.Some? && |subs[j].children| > 0 && subs[j].children[0].text.None? ==>
      ApplyEntries(meta, subs[j..]) == MetaRun(meta, Some(MissingText))
    ensures subs[j].text.Some? && |subs[j].children| > 0 && subs[j].children[0].text.Some? ==>
      ApplyEntries(meta, subs[j..])
      == ApplyEntries(meta[subs[j].text.value := subs[j].children[0].text.value], subs[j + 1..])
  {
    assert subs[j..][0] == subs[j] && subs[j..][1..] == subs[j + 1..];
  }

  /** One node of the metadata scan taken from the front of what is left. */
  lemma ScanMetaAt(meta: map<string, string>, nodes: seq<Node>, i: nat)
    requires i < |nodes|
    ensures nodes[i].text == Some(MetaMarker) ==>
      ScanMeta(meta, nodes[i..]) == ThenScan(ApplyEntries(meta, nodes[i].children), nodes[i + 1..])
    ensures nodes[i].text != Some(MetaMarker) ==> ScanMeta(meta, nodes[i..]) == ScanMeta(meta, nodes[i + 1..])
  {
    assert nodes[i..][0] == nodes[i] && nodes[i..][1..] == nodes[i + 1..];
  }

  /** One cell of a row taken from the front of what is left. */
  lemma CellLinesAt(indent: string, cells: seq<Node>, j: nat, pre: seq<string>)
    requires j < |cells|
    ensures cells[j].text.None? ==> Extended(pre, CellLines(indent, cells[j..])) == Err(MissingText)
    ensures cells[j].text.Some? ==>
      Extended(pre, CellLines(indent, cells[j..]))
      == Extended(pre + [indent + "    <td>" + cells[j].text.value + "</td>"], CellLines(indent, cells[j + 1..]))
  {
    assert cells[j..][0] == cells[j] && cells[j..][1..] == cells[j + 1..];
    var rest := CellLines(indent, cells[j + 1..]);
    if cells[j].text.Some? && rest.Ok? {
      var line := indent + "    <td>" + cells[j].text.value + "</td>";
      assert pre + ([line] + rest.value) == (pre + [line]) + rest.value;
    }
  }

  /** One row of a table taken from the front of what is left. */
  lemma RowLinesAt(indent: string, rows: seq<Node>, i: nat, pre: seq<string>)
    requires i < |rows|
    ensures Extended(pre, RowLines(indent, rows[i..]))
         == Concat(FollowedBy(Extended(pre + [indent + "  <tr>"], CellLines(indent, Preorder(rows[i]))), [indent + "  </tr>"]),
                 RowLines(indent, rows[i + 1..]))
  {
    assert rows[i..][0] == rows[i] && rows[i..][1..] == rows[i + 1..];
    var cells := CellLines(indent, Preorder(rows[i]));
    var rest := RowLines(indent, rows[i + 1..]);
    if cells.Ok? && rest.Ok? {
      assert pre + ([indent + "  <tr>"] + cells.value + [indent + "  </tr>"] + rest.value)
          == (pre + [indent + "  <tr>"] + cells.value + [indent + "  </tr>"]) + rest.value;
    }
  }

  /** One child of a list taken from the front of what is left. */
  lemma ItemsLinesAt(kids: seq<Node>, i: nat, depth: nat, attrs: ListAttrs, pre: seq<string>)
    requires i < |kids|
    ensures Extended(pre, ItemsLines(kids[i..], depth, attrs))
         == Concat(Extended(pre, ItemLines(kids[i], depth, attrs)), ItemsLines(kids[i + 1..], depth, attrs))
  {
    assert kids[i..][0] == kids[i] && kids[i..][1..] == kids[i + 1..];
    var head := ItemLines(kids[i], depth, attrs);
    var rest := ItemsLines(kids[i + 1..], depth, attrs);
    if head.Ok? && rest.Ok? {
      assert pre + (head.value + rest.value) == (pre + head.value) + rest.value;
    }
  }

  /** The item of one child, in the two forms `_doList` appends it. */
  lemma ItemLinesSplit(line: Node, depth: nat, attrs: ListAttrs, pre: seq<string>)
    requires ItemText(line).Ok? && ItemText(line).value != TableMarker
    ensures Extended(pre, ItemLines(line, depth, attrs))
         == Extended(pre + LineItem(ItemText(line).value, line, depth, attrs), ListLines(line, depth + 1))
  {
    var item := LineItem(ItemText(line).value, line, depth, attrs);
    var sub := ListLines(line, depth + 1);
    if sub.Ok? {
      assert pre + (item + sub.value) == (pre + item) + sub.value;
    }
  }

  /** The document once its dictionary is read: head, title slide, slides, tail. */
  lemma S5OfLoaded(meta: map<string, string>, etIn: Option<Node>)
    requires GrabMetaOf(meta, etIn).failure.None?
    ensures
      var g := GrabMetaOf(meta, etIn);
      S5Of(meta, etIn)
      == S5Run(FollowedBy(Extended(HeadLines(g.meta) + TitleSlide(g.meta), FlatSlides(etIn.value.children[0].children)),
                          TailLines),
               g.meta)
  {
    var g := GrabMetaOf(meta, etIn);
    FramedSlides(HeadLines(g.meta) + TitleSlide(g.meta), etIn.value.children[0].children);
  }

  /** The slides between a fixed head `h` and the document tail. */
  lemma FramedSlides(h: seq<string>, pages: seq<Node>)
    ensures FollowedBy(Extended(h, FlatSlides(pages)), TailLines)
         == if Slides(pages).Ok? then Ok(h + Flatten(Slides(pages).value) + TailLines) else Err(Slides(pages).error)
  {
  }

  /** After child `i` of a list: its error is the list's, or the children from `i + 1` on remain. */
  lemma ItemsStep(target: Result<seq<string>, Failure>, before: seq<string>, step: Result<seq<string>, Failure>,
                  kids: seq<Node>, i: nat, depth: nat, attrs: ListAttrs, indent: string)
    requires i < |kids|
    requires target == Closed(Extended(before, ItemsLines(kids[i..], depth, attrs)), attrs, indent)
    requires step == Extended(before, ItemLines(kids[i], depth, attrs))
    ensures step.Err? ==> target == Err(step.error)
    ensures step.Ok? ==> target == Closed(Extended(step.value, ItemsLines(kids[i + 1..], depth, attrs)), attrs, indent)
  {
    ItemsLinesAt(kids, i, depth, attrs, before);
  }

  lemma ListLinesSplit(sub: Node, depth: nat, attrs: ListAttrs, pre: seq<string>)
    requires |sub.children| + |sub.icons| > 0 && ListAttributes(sub) == Ok(attrs)
    ensures
      var indent := Indent(depth + 2);
      Extended(pre, ListLines(sub, depth))
      == Closed(Extended(pre + (if attrs.noUl then [] else [indent + ListOpen(attrs)]), ItemsLines(sub.children, depth, attrs)),
                attrs, indent)
  {
    var indent := Indent(depth + 2);
    var items := ItemsLines(sub.children, depth, attrs);
    if items.Ok? {
      if attrs.noUl {
        assert pre + [] == pre;
      } else {
        assert pre + ([indent + ListOpen(attrs)] + items.value + [indent + ListClose(attrs)])
            == (pre + [indent + ListOpen(attrs)]) + items.value + [indent + ListClose(attrs)];
      }
    }
  }

  /** One page of the presentation taken from the front of what is left. */
  lemma SlidesAt(pages: seq<Node>, i: nat, pre: seq<string>)
    requires i < |pages|
    ensures pages[i].text.None? ==> Extended(pre, FlatSlides(pages[i..])) == Err(MissingText)
    ensures pages[i].text == Some(MetaMarker) ==>
      Extended(pre, FlatSlides(pages[i..])) == Extended(pre, FlatSlides(pages[i + 1..]))
    ensures pages[i].text.Some? && pages[i].text != Some(MetaMarker) && ListAttributes(pages[i]).Err? ==>
      Extended(pre, FlatSlides(pages[i..])) == Err(ListAttributes(pages[i]).error)
    ensures (pages[i].text.Some? && pages[i].text != Some(MetaMarker) && ListAttributes(pages[i]).Ok?
             && ListAttributes(pages[i]).value.skip) ==>
      Extended(pre, FlatSlides(pages[i..])) == Extended(pre, FlatSlides(pages[i + 1..]))
    ensures (pages[i].text.Some? && pages[i].text != Some(MetaMarker) && ListAttributes(pages[i]).Ok?
             && !ListAttributes(pages[i]).value.skip) ==>
      Extended(pre, FlatSlides(pages[i..]))
      == Concat(FollowedBy(Extended(pre + SlideHead(pages[i].text.value), ListLines(pages[i], 0)), SlideTail),
              FlatSlides(pages[i + 1..]))
  {
    assert pages[i..][0] == pages[i] && pages[i..][1..] == pages[i + 1..];
    if pages[i].text.Some? && pages[i].text != Some(MetaMarker) && ListAttributes(pages[i]).Ok?
       && !ListAttributes(pages[i]).value.skip {
      SlideKept(pages[i..], pre);
    }
  }

  /** A page that is shown: its block, then the blocks of the pages after it. */
  lemma SlideKept(pages: seq<Node>, pre: seq<string>)
    requires |pages| > 0 && pages[0].text.Some? && pages[0].text != Some(MetaMarker)
    requires ListAttributes(pages[0]).Ok? && !ListAttributes(pages[0]).value.skip
    ensures Extended(pre, FlatSlides(pages))
      == Concat(FollowedBy(Extended(pre + SlideHead(pages[0].text.value), ListLines(pages[0], 0)), SlideTail),
                FlatSlides(pages[1..]))
  {
    var t := pages[0].text.value;
    var body := ListLines(pages[0], 0);
    var rest := Slides(pages[1..]);
    if body.Ok? && rest.Ok? {
      var b := SlideBlock(t, body.value);
      FlattenCons(b, rest.value);
      AppendBlock(pre, SlideHead(t), body.value, SlideTail, Flatten(rest.value));
    }
  }

  lemma AppendBlock(pre: seq<string>, head: seq<string>, body: seq<string>, tail: seq<string>, after: seq<string>)
    ensures pre + (head + body + tail + after) == (pre + head + body + tail) + after
  {
  }

  lemma FlattenCons(b: seq<string>, blocks: seq<seq<string>>)
    ensures Flatten([b] + blocks) == b + Flatten(blocks)
  {
    assert ([b] + blocks)[1..] == blocks;
  }

  class Mm2S5 {
    var etIn: Option<Node>
    /** The metadata dictionary; `footer` is absent while it is None. */
    var meta: map<string, string>

    constructor ()
      ensures etIn == None && meta == DefaultMeta
    {
      etIn := None;
      meta := DefaultMeta;
    }

    /** `open`: the parsed document becomes `et_in`, and it is converted. */
    method Open(doc: Node) returns (r: Result<seq<string>, Failure>)
      modifies this
      ensures etIn == Some(doc)
      ensures var run := S5Of(old(meta), Some(doc)); r == run.result && meta == run.meta
    {
      etIn := Some(doc);
      r := Convert();
    }

    /** `convert`: the document head, the title slide, one slide per shown page, the tail. */
    method Convert() returns (r: Result<seq<string>, Failure>)
      modifies this
      ensures etIn == old(etIn)
      ensures var run := S5Of(old(meta), etIn); r == run.result && meta == run.meta
    {
      var f := GrabMeta();
      if f.Some? {
        r := Err(f.value);
        return;
      }
      S5OfLoaded(old(meta), etIn);
      var presentation := etIn.value.children[0];
      var lines := HeadLines(meta) + TitleSlide(meta);
      lines :- WriteSlides(lines, presentation.children);
      r := Ok(lines + TailLines);
    }

    /** The loop of `convert` over the pages, appending to `lines`. */
    method WriteSlides(lines: seq<string>, pages: seq<Node>) returns (r: Result<seq<string>, Failure>)
      ensures r == Extended(lines, FlatSlides(pages))
    {
      var acc := lines;
      var i := 0;
      assert pages[i..] == pages;
      while i < |pages|
        invariant 0 <= i <= |pages|
        invariant Extended(lines, FlatSlides(pages)) == Extended(acc, FlatSlides(pages[i..]))
      {
        var page := pages[i];
        SlidesAt(pages, i, acc);
        if page.text.None? {
          r := Err(MissingText);
          return;
        }
        if page.text.value != MetaMarker {
          var attrs :- GetListAttributes(page);
          if !attrs.skip {
            acc := acc + SlideHead(page.text.value);
            acc :- DoList(acc, page, 0);
            acc := acc + SlideTail;
          }
        }
        i := i + 1;
      }
      assert pages[i..] == [] && acc + [] == acc;
      r := Ok(acc);
    }

    /** `_get_list_attributes`: one flag per recognised icon, `no_ul` also for a raw-markup first child. */
    method GetListAttributes(page: Node) returns (r: Result<ListAttrs, Failure>)
      ensures r == ListAttributes(page)
    {
      var noUl, ulClass, skip, ol := false, false, false, false;
      var icons := page.icons;
      var i := 0;
      while i < |icons|
        invariant 0 <= i <= |icons|
        invariant noUl == ("button_ok" in icons[..i]) && ulClass == ("stop" in icons[..i])
        invariant skip == ("button_cancel" in icons[..i]) && ol == ("full-1" in icons[..i])
      {
        var iconType := icons[i];
        assert icons[..i + 1] == icons[..i] + [iconType];
        if iconType == "button_ok" {
          noUl := true;
        } else if iconType == "stop" {
          ulClass := true;
        } else if iconType == "button_cancel" {
          skip := true;
        } else if iconType == "full-1" {
          ol := true;
        }
        i := i + 1;
      }
      assert icons[..i] == page.icons;
      if |page.children| > 0 {
        var t :- TextOf(page.children[0]);
        if StartsWith(t, "<") || t == TableMarker {
          noUl := true;
        }
      }
      r := Ok(ListAttrs(noUl, ulClass, skip, ol));
    }

    /** `_grab_meta`: title and subtitle from the root, the `__meta__` entries, then the default footer. */
    method GrabMeta() returns (f: Option<Failure>)
      modifies this
      ensures etIn == old(etIn)
      ensures var g := GrabMetaOf(old(meta), etIn); meta == g.meta && f == g.failure
    {
      if etIn.None? {
        return Some(NotLoaded);
      }
      if |etIn.value.children| == 0 {
        return Some(NoPresentation);
      }
      var root := etIn.value.children[0];
      if root.text.None? {
        return Some(MissingText);
      }
      var titles := Split(root.text.value, '\n');
      meta := meta["title" := titles[0]];
      if |titles| > 1 {
        meta := meta["subtitle" := titles[1]];
      }
      assert meta == TitleMeta(old(meta), root.text.value);
      var nodes := PreorderAll(etIn.value.children);
      ghost var m0 := meta;
      var i := 0;
      assert nodes[i..] == nodes;
      while i < |nodes|
        invariant 0 <= i <= |nodes|
        invariant etIn == old(etIn)
        invariant ScanMeta(m0, nodes) == ScanMeta(meta, nodes[i..])
      {
        var cur := nodes[i];
        ScanMetaAt(meta, nodes, i);
        if cur.text == Some(MetaMarker) {
          f := ApplyMeta(cur.children);
          if f.Some? {
            return;
          }
        }
        i := i + 1;
      }
      if "footer" !in meta {
        meta := meta["footer" := DefaultFooter(meta)];
      }
      f := None;
    }

    /** The inner loop of `_grab_meta`: the key/value entries under one `__meta__` node. */
    method ApplyMeta(subs: seq<Node>) returns (f: Option<Failure>)
      modifies this
      ensures etIn == old(etIn)
      ensures var a := ApplyEntries(old(meta), subs); meta == a.meta && f == a.failure
    {
      var j := 0;
      assert subs[j..] == subs;
      while j < |subs|
        invariant 0 <= j <= |subs|
        invariant etIn == old(etIn)
        invariant ApplyEntries(old(meta), subs) == ApplyEntries(meta, subs[j..])
      {
        var sub := subs[j];
        ApplyEntriesAt(meta, subs, j);
        if sub.text.None? {
          return Some(MissingText);
        }
        if |sub.children| == 0 {
          return Some(MissingMetaValue);
        }
        var subValue := sub.children[0];
        if subValue.text.None? {
          return Some(MissingText);
        }
        meta := meta[sub.text.value := subValue.text.value];
        j := j + 1;
      }
      f := None;
    }

    /**
      `_doList(lines, sub, depth)`: what `lines` becomes.  The source appends
      to the caller's list; here the list is passed in and the extended list
      returned.
     */
    method DoList(lines: seq<string>, sub: Node, depth: nat) returns (r: Result<seq<string>, Failure>)
      ensures r == Extended(lines, ListLines(sub, depth))
      decreases sub, 1
    {
      if |sub.children| + |sub.icons| == 0 {
        assert lines + [] == lines;
        r := Ok(lines);
        return;
      }
      var attrs :- GetListAttributes(sub);
      var indent := Indent(depth + 2);
      ListLinesSplit(sub, depth, attrs, lines);
      var acc := lines;
      if !attrs.noUl {
        acc := acc + [indent + ListOpen(attrs)];
      }
      var kids := sub.children;
      var i := 0;
      assert kids[i..] == kids;
      while i < |kids|
        invariant 0 <= i <= |kids|
        invariant Extended(lines, ListLines(sub, depth)) == Closed(Extended(acc, ItemsLines(kids[i..], depth, attrs)), attrs, indent)
      {
        var step := DoItem(acc, kids[i], depth, attrs);
        ItemsStep(Extended(lines, ListLines(sub, depth)), acc, step, kids, i, depth, attrs, indent);
        acc :- step;
        i := i + 1;
      }
      assert kids[i..] == [] && acc + [] == acc;
      if !attrs.noUl {
        acc := acc + [indent + ListClose(attrs)];
      }
      r := Ok(acc);
    }

    /** The body of `_doList`'s loop for one child `line`: a table, or an item and its sub-list. */
    method DoItem(lines: seq<string>, line: Node, depth: nat, attrs: ListAttrs) returns (r: Result<seq<string>, Failure>)
      ensures r == Extended(lines, ItemLines(line, depth, attrs))
      decreases line, 2
    {
      var text :- ItemText(line);
      if text == TableMarker {
        var table :- InsertTable(line, depth);
        r := Ok(lines + table);
      } else {
        ItemLinesSplit(line, depth, attrs, lines);
        r := DoList(lines + LineItem(text, line, depth, attrs), line, depth + 1);
      }
    }

    /** `_insert_table`: a `<tr>` per child, a `<td>` per node of that child's subtree. */
    method InsertTable(line: Node, depth: nat) returns (r: Result<seq<string>, Failure>)
      ensures r == TableLines(line, depth)
    {
      var indent := Indent(depth + 2);
      var lines := [indent + "<table>"];
      var rows := line.children;
      var i := 0;
      assert rows[i..] == rows;
      ExtendedEmpty(RowLines(indent, rows));
      while i < |rows|
        invariant 0 <= i <= |rows|
        invariant TableLines(line, depth) == FollowedBy(Extended(lines, RowLines(indent, rows[i..])), [indent + "</table>"])
      {
        var row := rows[i];
        RowLinesAt(indent, rows, i, lines);
        lines := lines + [indent + "  <tr>"];
        ghost var rowStart := lines;
        ghost var rest := RowLines(indent, rows[i + 1..]);
        var cells := Preorder(row);
        var j := 0;
        assert cells[j..] == cells;
        while j < |cells|
          invariant 0 <= j <= |cells|
          invariant TableLines(line, depth)
                 == FollowedBy(Concat(FollowedBy(Extended(rowStart, CellLines(indent, cells)), [indent + "  </tr>"]), rest),
                               [indent + "</table>"])
          invariant Extended(rowStart, CellLines(indent, cells)) == Extended(lines, CellLines(indent, cells[j..]))
        {
          CellLinesAt(indent, cells, j, lines);
          var col := cells[j];
          if col.text.None? {
            r := Err(MissingText);
            return;
          }
          lines := lines + [indent + "    <td>" + col.text.value + "</td>"];
          j := j + 1;
        }
        assert cells[j..] == [] && lines + [] == lines;
        lines := lines + [indent + "  </tr>"];
        i := i + 1;
      }
      assert rows[i..] == [] && lines + [] == lines;
      r := Ok(lines + [indent + "</table>"]);
    }
  }
}
