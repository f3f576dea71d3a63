/**
  The parsed FreeMind document.  A `Node` stands for one `<node>` element:
  its TEXT, LINK and CREATED attributes, the BUILTIN names of its `<icon>`
  children and its `<node>` children in document order.  A whole document
  is the Node of the `<map>` element, whose children are the top-level
  `<node>` elements (normally exactly one, the presentation node).
 */
module MindMap {

  import opened Wrappers

  datatype Node = Node(
    text: Option<string>,
    children: seq<Node>,
    icons: seq<string>,
    link: Option<string>,
    created: Option<int>)

  /** The ways a conversion stops early; each is an exception in the Python program. */
  datatype Failure =
    | NoPresentation    // `find('node')` found nothing and its result was dereferenced
    | MissingText       // `attrib['TEXT']` on a node without TEXT (KeyError)
    | MissingCreated    // `attrib['CREATED']` on an utterance without CREATED (KeyError)
    | EmptyDiscussion   // `people_time[0]` on an empty list (IndexError)
    | LocationUnset     // `meetinglocation` read but never assigned (UnboundLocalError)
    | MissingMetaValue  // a `__meta__` key without a value child (None has no attrib)
    | RichContent       // a FreeMind 0.9 rich-text node, which this model does not read
    | NotLoaded         // `et_in` is still None
    | LinkUnset         // `'...' + None` in the blog prefix (TypeError)

  /** `node.attrib['TEXT']`. */
  function TextOf(n: Node): (r: Result<string, Failure>)
    ensures r.Ok? <==> n.text.Some?
    ensures r.Ok? ==> r.value == n.text.value
    ensures r.Err? ==> r.error == MissingText
  {
    match n.text
    case Some(t) => Ok(t)
    case None => Err(MissingText)
  }

  /** `element.find('node')`: the first child node, if any. */
  function FirstChild(n: Node): (r: Option<Node>)
    ensures r.Some? <==> |n.children| > 0
    ensures r.Some? ==> r.value == n.children[0]
  {
    if |n.children| == 0 then None else Some(n.children[0])
  }

  /** The presentation node: `find('node')` on the document, dereferenced. */
  function Presentation(doc: Node): (r: Result<Node, Failure>)
    ensures r.Ok? <==> |doc.children| > 0
    ensures r.Ok? ==> r.value == doc.children[0]
    ensures r.Err? ==> r.error == NoPresentation
  {
    if |doc.children| == 0 then Err(NoPresentation) else Ok(doc.children[0])
  }

  /** Number of nodes in the subtree rooted at `n`. */
  function Size(n: Node): nat {
    1 + SizeAll(n.children)
  }

  function SizeAll(ns: seq<Node>): nat {
    if ns == [] then 0 else Size(ns[0]) + SizeAll(ns[1..])
  }

  /**
    `n.getiterator('node')` on a node element: the element itself, then every
    descendant node, in document order.
   */
  function Preorder(n: Node): (r: seq<Node>)
    ensures |r| > 0 && r[0] == n
  {
    [n] + PreorderAll(n.children)
  }

  /** The preorders of `ns`, one after the other (`getiterator` on their parent, minus the parent). */
  function PreorderAll(ns: seq<Node>): seq<Node> {
    if ns == [] then [] else Preorder(ns[0]) + PreorderAll(ns[1..])
  }

  /** The preorder of a subtree visits each of its nodes once. */
  lemma {:induction false} PreorderSize(n: Node)
    ensures |Preorder(n)| == Size(n)
  {
    PreorderAllSize(n.children);
  }

  lemma {:induction false} PreorderAllSize(ns: seq<Node>)
    ensures |PreorderAll(ns)| == SizeAll(ns)
  {
    if ns != [] {
      PreorderSize(ns[0]);
      PreorderAllSize(ns[1..]);
    }
  }

  /** A child's preorder is a contiguous block in its parent's, right after the earlier siblings' blocks. */
  lemma {:induction false} PreorderAllAppend(a: seq<Node>, b: seq<Node>)
    ensures PreorderAll(a + b) == PreorderAll(a) + PreorderAll(b)
  {
    if a == [] {
      assert a + b == b;
    } else {
      assert (a + b)[1..] == a[1..] + b;
      PreorderAllAppend(a[1..], b);
    }
  }
}
