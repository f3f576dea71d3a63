/**
  The simple Markdown emitter (`MMTransform.mm2md` and `_mm2SimpleMd`) and
  the blog front matter (`MakeBlogInGithub.md2blog`).  Every node with a
  non-empty TEXT whose ancestors below the presentation node all have one
  becomes one entry, which the emitter appends to a shared list in
  preorder; a node without TEXT hides its whole subtree.  The entries are
  joined with blank lines.
 */
module Markdown {

  import opened Wrappers
  import opened Text
  import opened MindMap

  /** The separator `mm2md` and `md2blog` join their pieces with. */
  const Separator := "\r\n\r\n"

  // ---------------------------------------------------------------------
  // Specification
  // ---------------------------------------------------------------------

  /** `node.get('TEXT')` is truthy: present and not empty. */
  predicate Texted(n: Node) {
    n.text.Some? && n.text.value != ""
  }

  /** The marker for a node at depth `num`: a heading, a bullet, or a deeper indent. */
  function Prefix(num: nat): (p: string)
    ensures |p| > 0 && p[0] != '<'
  {
    if num == 1 then "- " else if num == 0 then "# " else Spaces(8)
  }

  /** The entry for `text` at depth `num`: the marker first, unless `find('<')` is 0. */
  function MdEntry(text: string, num: nat): string {
    if Find(text, '<') != 0 then Prefix(num) + text else text
  }

  /** The entries `_mm2SimpleMd(node, md, num)` appends to `md`. */
  function MdLines(n: Node, num: nat): seq<string>
    decreases n, 1
  {
    if Texted(n) then [MdEntry(n.text.value, num)] + MdAll(n.children, num + 1) else []
  }

  /** The entries for the nodes `ns`, one after the other, all at depth `num`. */
  function MdAll(ns: seq<Node>, num: nat): seq<string>
    decreases ns, 0
  {
    if ns == [] then [] else MdLines(ns[0], num) + MdAll(ns[1..], num)
  }

  /** `mm2md`: the entries for the children of the first node, joined with blank lines. */
  function Mm2MdOf(doc: Node): (r: Result<string, Failure>)
    ensures r.Ok? <==> |doc.children| > 0
    ensures r.Err? ==> r.error == NoPresentation
  {
    match Presentation(doc)
    case Err(e) => Err(e)
    case Ok(top) => Ok(Join(Separator, MdAll(top.children, 0)))
  }

  // ---------------------------------------------------------------------
  // The emitter
  // ---------------------------------------------------------------------

  /** `_mm2SimpleMd`: the entry for `node`, then its children's, one level deeper. */
  method SimpleMd(node: Node, md: seq<string>, num: nat) returns (r: seq<string>)
    ensures r == md + MdLines(node, num)
    decreases node
  {
    r := md;
    if !Texted(node) {
      assert md + [] == md;
      return;
    }
    MdLinesTexted(md, node, num);
    r := r + [MdEntry(node.text.value, num)];
    var kids := node.children;
    var i := 0;
    assert kids[i..] == kids;
    while i < |kids|
      invariant 0 <= i <= |kids|
      invariant md + MdLines(node, num) == r + MdAll(kids[i..], num + 1)
    {
      ghost var before := r;
      r := SimpleMd(kids[i], r, num + 1);
      MdStep(md + MdLines(node, num), before, r, kids, i, num + 1);
      i := i + 1;
    }
    assert kids[i..] == [] && r + [] == r;
  }

  /** A node with TEXT appends its entry, then its children's entries one level deeper. */
  lemma MdLinesTexted(md: seq<string>, n: Node, num: nat)
    requires Texted(n)
    ensures md + MdLines(n, num) == (md + [MdEntry(n.text.value, num)]) + MdAll(n.children, num + 1)
  {
  }

  /** Appending child `i`'s entries leaves the entries from child `i + 1` on still to come. */
  lemma MdStep(target: seq<string>, before: seq<string>, after: seq<string>, ns: seq<Node>, i: nat, num: nat)
    requires i < |ns|
    requires target == before + MdAll(ns[i..], num)
    requires after == before + MdLines(ns[i], num)
    ensures target == after + MdAll(ns[i + 1..], num)
  {
    assert ns[i..][0] == ns[i] && ns[i..][1..] == ns[i + 1..];
  }

  /** `mm2md`: emit every child of the presentation node at depth 0, then join. */
  method Mm2Md(doc: Node) returns (r: Result<string, Failure>)
    ensures r == Mm2MdOf(doc)
  {
    var top :- Presentation(doc);
    var md := [];
    var kids := top.children;
    var i := 0;
    assert kids[i..] == kids;
    while i < |kids|
      invariant 0 <= i <= |kids|
      invariant MdAll(kids, 0) == md + MdAll(kids[i..], 0)
    {
      ghost var before := md;
      md := SimpleMd(kids[i], md, 0);
      MdStep(MdAll(kids, 0), before, md, kids, i, 0);
      i := i + 1;
    }
    assert kids[i..] == [] && md + [] == md;
    r := Ok(Join(Separator, md));
  }

  // ---------------------------------------------------------------------
  // Properties of an entry
  // ---------------------------------------------------------------------

  /** An entry is its text verbatim exactly when the text starts with '<'. */
  lemma VerbatimIffAngle(text: string, num: nat)
    ensures MdEntry(text, num) == text <==> |text| > 0 && text[0] == '<'
  {
    if !(|text| > 0 && text[0] == '<') {
      assert Find(text, '<') != 0;
      assert |MdEntry(text, num)| > |text|;
    }
  }

  /** A '<' after the first character does not suppress the marker. */
  lemma LaterAngleKeepsPrefix(text: string, num: nat, k: nat)
    requires 0 < k < |text| && text[k] == '<' && text[0] != '<'
    ensures MdEntry(text, num) == Prefix(num) + text
  {
  }

  /** The marker's inverse: dropping it again gives back the node's text. */
  function Unprefixed(entry: string, num: nat): string {
    if |entry| > 0 && entry[0] == '<' then entry
    else if |Prefix(num)| <= |entry| then entry[|Prefix(num)|..]
    else entry
  }

  lemma UnprefixedRoundTrip(text: string, num: nat)
    ensures Unprefixed(MdEntry(text, num), num) == text
  {
    if Find(text, '<') != 0 {
      var e := Prefix(num) + text;
      assert e[0] == Prefix(num)[0];
      assert e[|Prefix(num)|..] == text;
    }
  }

  /** Two depths get the same marker exactly when they are equal or both at least 2. */
  lemma PrefixByDepth(a: nat, b: nat)
    ensures Prefix(a) == Prefix(b) <==> a == b || (a >= 2 && b >= 2)
  {
    if Prefix(a) == Prefix(b) && a != b {
      assert Prefix(a)[0] == Prefix(b)[0];
    }
  }

  // ---------------------------------------------------------------------
  // The output is a preorder of the texted nodes
  // ---------------------------------------------------------------------

  /** The depth each node of `n`'s subtree is visited at, in preorder, when `n` is visited at `num`. */
  function Depths(n: Node, num: nat): seq<nat>
    decreases n, 1
  {
    [num] + DepthsAll(n.children, num + 1)
  }

  function DepthsAll(ns: seq<Node>, num: nat): seq<nat>
    decreases ns, 0
  {
    if ns == [] then [] else Depths(ns[0], num) + DepthsAll(ns[1..], num)
  }

  /** Every node in `ns` has a non-empty TEXT. */
  predicate AllTexted(ns: seq<Node>) {
    forall k :: 0 <= k < |ns| ==> Texted(ns[k])
  }

  /** Entry `k` is the entry of node `k`, at depth `k`. */
  predicate EntriesOf(lines: seq<string>, nodes: seq<Node>, depths: seq<nat>) {
    && |lines| == |nodes| == |depths|
    && forall k :: 0 <= k < |lines| ==> nodes[k].text.Some? && lines[k] == MdEntry(nodes[k].text.value, depths[k])
  }

  lemma EntriesOfAppend(l1: seq<string>, n1: seq<Node>, d1: seq<nat>, l2: seq<string>, n2: seq<Node>, d2: seq<nat>)
    requires EntriesOf(l1, n1, d1) && EntriesOf(l2, n2, d2)
    ensures EntriesOf(l1 + l2, n1 + n2, d1 + d2)
  {
    forall k | 0 <= k < |l1| + |l2|
      ensures (n1 + n2)[k].text.Some? && (l1 + l2)[k] == MdEntry((n1 + n2)[k].text.value, (d1 + d2)[k])
    {
      if k >= |l1| {
        assert (l1 + l2)[k] == l2[k - |l1|] && (n1 + n2)[k] == n2[k - |l1|] && (d1 + d2)[k] == d2[k - |l1|];
      }
    }
  }

  lemma AllTextedSplit(a: seq<Node>, b: seq<Node>)
    requires AllTexted(a + b)
    ensures AllTexted(a) && AllTexted(b)
  {
    forall k | 0 <= k < |a| ensures Texted(a[k]) {
      assert a[k] == (a + b)[k];
    }
    forall k | 0 <= k < |b| ensures Texted(b[k]) {
      assert b[k] == (a + b)[|a| + k];
    }
  }

  /**
    When every node of the subtree has text, there is one entry per node of
    `getiterator` order (the node, then its descendants in document order),
    each marked for the depth it is reached at.
   */
  lemma {:induction false} EntriesFollowPreorder(n: Node, num: nat)
    requires AllTexted(Preorder(n))
    ensures EntriesOf(MdLines(n, num), Preorder(n), Depths(n, num))
    decreases n, 1
  {
    AllTextedSplit([n], PreorderAll(n.children));
    EntriesAllFollowPreorder(n.children, num + 1);
    assert Texted(Preorder(n)[0]);
    EntriesOfAppend([MdEntry(n.text.value, num)], [n], [num],
                    MdAll(n.children, num + 1), PreorderAll(n.children), DepthsAll(n.children, num + 1));
  }

  lemma {:induction false} EntriesAllFollowPreorder(ns: seq<Node>, num: nat)
    requires AllTexted(PreorderAll(ns))
    ensures EntriesOf(MdAll(ns, num), PreorderAll(ns), DepthsAll(ns, num))
    decreases ns, 0
  {
    if ns != [] {
      AllTextedSplit(Preorder(ns[0]), PreorderAll(ns[1..]));
      EntriesFollowPreorder(ns[0], num);
      EntriesAllFollowPreorder(ns[1..], num);
      EntriesOfAppend(MdLines(ns[0], num), Preorder(ns[0]), Depths(ns[0], num),
                      MdAll(ns[1..], num), PreorderAll(ns[1..]), DepthsAll(ns[1..], num));
    }
  }

  /** A node reached at depth `num` has its descendants reached deeper. */
  lemma {:induction false} DepthsBelow(n: Node, num: nat)
    ensures |Depths(n, num)| > 0 && Depths(n, num)[0] == num
    ensures forall k :: 1 <= k < |Depths(n, num)| ==> Depths(n, num)[k] > num
    decreases n, 1
  {
    DepthsAllAtLeast(n.children, num + 1);
  }

  lemma {:induction false} DepthsAllAtLeast(ns: seq<Node>, num: nat)
    ensures forall k :: 0 <= k < |DepthsAll(ns, num)| ==> DepthsAll(ns, num)[k] >= num
    decreases ns, 0
  {
    if ns != [] {
      DepthsBelow(ns[0], num);
      DepthsAllAtLeast(ns[1..], num);
      var a, b := Depths(ns[0], num), DepthsAll(ns[1..], num);
      forall k | 0 <= k < |a + b| ensures (a + b)[k] >= num {
        if k >= |a| { assert (a + b)[k] == b[k - |a|]; }
      }
    }
  }

  /** A node without text emits nothing, not even for its children; no subtree emits more entries than it has nodes. */
  lemma {:induction false} MdLinesBound(n: Node, num: nat)
    ensures !Texted(n) ==> MdLines(n, num) == []
    ensures |MdLines(n, num)| <= Size(n)
    decreases n, 1
  {
    MdAllBound(n.children, num + 1);
  }

  lemma {:induction false} MdAllBound(ns: seq<Node>, num: nat)
    ensures |MdAll(ns, num)| <= SizeAll(ns)
    decreases ns, 0
  {
    if ns != [] {
      MdLinesBound(ns[0], num);
      MdAllBound(ns[1..], num);
    }
  }

  // ---------------------------------------------------------------------
  // Maps with untexted nodes: the pruned preorder
  // ---------------------------------------------------------------------

  /**
    What `_mm2SimpleMd` visits of a subtree: nothing when the node has no
    text (its descendants are never reached), otherwise the node with each
    child subtree pruned in the same way.
   */
  function Pruned(n: Node): seq<Node>
    decreases n, 1
  {
    if Texted(n) then [n.(children := PrunedAll(n.children))] else []
  }

  function PrunedAll(ns: seq<Node>): seq<Node>
    decreases ns, 0
  {
    if ns == [] then [] else Pruned(ns[0]) + PrunedAll(ns[1..])
  }

  lemma {:induction false} MdAllAppend(a: seq<Node>, b: seq<Node>, num: nat)
    ensures MdAll(a + b, num) == MdAll(a, num) + MdAll(b, num)
  {
    if a == [] {
      assert a + b == b;
    } else {
      assert (a + b)[0] == a[0] && (a + b)[1..] == a[1..] + b;
      MdAllAppend(a[1..], b, num);
    }
  }

  lemma AllTextedJoin(a: seq<Node>, b: seq<Node>)
    requires AllTexted(a) && AllTexted(b)
    ensures AllTexted(a + b)
  {
    forall k | 0 <= k < |a + b| ensures Texted((a + b)[k]) {
      if k >= |a| { assert (a + b)[k] == b[k - |a|]; } else { assert (a + b)[k] == a[k]; }
    }
  }

  /** Pruning changes no entry: the emitter writes for a subtree exactly what it writes for its pruned form. */
  lemma {:induction false} MdPruned(n: Node, num: nat)
    ensures MdAll(Pruned(n), num) == MdLines(n, num)
    decreases n, 1
  {
    if Texted(n) {
      var p := n.(children := PrunedAll(n.children));
      MdAllPruned(n.children, num + 1);
      assert [p][0] == p && [p][1..] == [];
      assert MdAll([p], num) == MdLines(p, num) + [];
    }
  }

  lemma {:induction false} MdAllPruned(ns: seq<Node>, num: nat)
    ensures MdAll(PrunedAll(ns), num) == MdAll(ns, num)
    decreases ns, 0
  {
    if ns != [] {
      MdPruned(ns[0], num);
      MdAllPruned(ns[1..], num);
      MdAllAppend(Pruned(ns[0]), PrunedAll(ns[1..]), num);
    }
  }

  /** Every node left after pruning has a non-empty TEXT. */
  lemma {:induction false} PrunedTexted(n: Node)
    ensures AllTexted(PreorderAll(Pruned(n)))
    decreases n, 1
  {
    if Texted(n) {
      var p := n.(children := PrunedAll(n.children));
      PrunedAllTexted(n.children);
      assert [p][0] == p && [p][1..] == [];
      assert PreorderAll([p]) == [p] + PreorderAll(PrunedAll(n.children)) + [];
      AllTextedJoin([p], PreorderAll(PrunedAll(n.children)));
    }
  }

  lemma {:induction false} PrunedAllTexted(ns: seq<Node>)
    ensures AllTexted(PreorderAll(PrunedAll(ns)))
    decreases ns, 0
  {
    if ns != [] {
      PrunedTexted(ns[0]);
      PrunedAllTexted(ns[1..]);
      PreorderAllAppend(Pruned(ns[0]), PrunedAll(ns[1..]));
      AllTextedJoin(PreorderAll(Pruned(ns[0])), PreorderAll(PrunedAll(ns[1..])));
    }
  }

  /** A fully texted forest is its own pruned form. */
  lemma {:induction false} PruneKeepsTexted(ns: seq<Node>)
    requires AllTexted(PreorderAll(ns))
    ensures PrunedAll(ns) == ns
    decreases ns
  {
    if ns != [] {
      AllTextedSplit(Preorder(ns[0]), PreorderAll(ns[1..]));
      AllTextedSplit([ns[0]], PreorderAll(ns[0].children));
      assert Texted(Preorder(ns[0])[0]);
      PruneKeepsTexted(ns[0].children);
      PruneKeepsTexted(ns[1..]);
      assert ns[0].(children := ns[0].children) == ns[0];
      assert [ns[0]] + ns[1..] == ns;
    }
  }

  /**
    `mm2md` on any document with a presentation node: the entries are, one
    per node, the preorder of the presentation's descendants with every
    untexted node and its subtree left out, each marked for the depth it is
    reached at.
   */
  lemma Mm2MdPreorder(doc: Node)
    requires |doc.children| > 0
    ensures Mm2MdOf(doc).Ok?
    ensures var kids := doc.children[0].children;
            var kept := PrunedAll(kids);
            Mm2MdOf(doc).value == Join(Separator, MdAll(kids, 0))
            && EntriesOf(MdAll(kids, 0), PreorderAll(kept), DepthsAll(kept, 0))
  {
    var kids := doc.children[0].children;
    PrunedAllTexted(kids);
    EntriesAllFollowPreorder(PrunedAll(kids), 0);
    MdAllPruned(kids, 0);
  }

  /** When every descendant has text nothing is left out: the entries follow the full preorder. */
  lemma Mm2MdPreorderTexted(doc: Node)
    requires |doc.children| > 0 && AllTexted(PreorderAll(doc.children[0].children))
    ensures Mm2MdOf(doc).Ok?
    ensures var kids := doc.children[0].children;
            Mm2MdOf(doc).value == Join(Separator, MdAll(kids, 0))
            && EntriesOf(MdAll(kids, 0), PreorderAll(kids), DepthsAll(kids, 0))
  {
    Mm2MdPreorder(doc);
    PruneKeepsTexted(doc.children[0].children);
  }

  // ---------------------------------------------------------------------
  // md2blog
  // ---------------------------------------------------------------------

  /** The entry of the blog list for one post; `mmLink` is None for a post without a download. */
  datatype BlogConfig = BlogConfig(
    layout: string,
    category: string,
    tags: string,
    title: string,
    mmLink: Option<string>)

  /** The download link's label and opening of its target. */
  const DownloadLabel := "[思维导图文件下载]("

  /** The tags line's list: the comma-separated tags with a space after each comma. */
  function TagList(tags: string): (r: string)
    ensures r == "[" + Replace(tags, ",", ", ") + "]"
  {
    ReplaceIsJoinSplit(tags, ',', ", ");
    "[" + Join(", ", Split(tags, ',')) + "]"
  }

  /** The front matter lines before the markdown. */
  function FrontMatter(cfg: BlogConfig, link: string): seq<string> {
    [ "---",
      "layout : " + cfg.layout,
      "category : " + cfg.category,
      "tags : " + TagList(cfg.tags),
      "title : " + cfg.title,
      "---",
      DownloadLabel + link + ")" ]
  }

  /** `md2blog`: the front matter and the markdown, joined with blank lines. */
  function Md2Blog(md: string, cfg: BlogConfig): (r: Result<string, Failure>)
    ensures r.Ok? <==> cfg.mmLink.Some?
    ensures r.Err? ==> r.error == LinkUnset
  {
    match cfg.mmLink
    case None => Err(LinkUnset)
    case Some(link) => Ok(Join(Separator, FrontMatter(cfg, link) + [md]))
  }

  /** The blog post is the front matter, each line followed by a blank line, then the markdown. */
  lemma Md2BlogText(md: string, cfg: BlogConfig)
    requires cfg.mmLink.Some?
    ensures Md2Blog(md, cfg).Ok?
    ensures Md2Blog(md, cfg).value == Terminated(Separator, FrontMatter(cfg, cfg.mmLink.value)) + md
  {
    JoinLast(Separator, FrontMatter(cfg, cfg.mmLink.value), md);
  }

  /** The markdown can be read back from the post: it is everything after the front matter. */
  lemma Md2BlogRoundTrip(md: string, cfg: BlogConfig)
    requires cfg.mmLink.Some?
    ensures Md2Blog(md, cfg).Ok?
    ensures var h := Terminated(Separator, FrontMatter(cfg, cfg.mmLink.value));
            StartsWith(Md2Blog(md, cfg).value, h) && Md2Blog(md, cfg).value[|h|..] == md
  {
    Md2BlogText(md, cfg);
    var h := Terminated(Separator, FrontMatter(cfg, cfg.mmLink.value));
    assert (h + md)[..|h|] == h && (h + md)[|h|..] == md;
  }

  /** The tags line lists one more tag than the config has commas, none holding a comma. */
  lemma TagCount(tags: string)
    ensures TagList(tags) == "[" + Join(", ", Split(tags, ',')) + "]"
    ensures |Split(tags, ',')| == Count(',', tags) + 1
    ensures forall k :: 0 <= k < |Split(tags, ',')| ==> ',' !in Split(tags, ',')[k]
  {
    SplitPieces(tags, ',');
  }
}
