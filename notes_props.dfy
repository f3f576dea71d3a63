/**
  Properties of the meeting-notes converter, proved about the functions of
  `NotesSpec`: the attendee depth probe, the last-writer-wins dispatch of
  `convert` and the fixed order of the page, when `convert` fails, the
  time order and speaker runs of the discussion, the balance of the list
  markup, and what `format_time` tells.
 */
module NotesProps {

  import opened Wrappers
  import opened Text
  import opened MindMap
  import opened Markup
  import opened NotesSpec

  // ---------------------------------------------------------------------
  // maxdepth

  /** No list is deeper than 0, a non-empty one is at least 1 deep, and each node bounds it from below. */
  lemma {:induction false} MaxDepthBounds(ns: seq<Node>)
    ensures MaxDepth(ns) == 0 <==> ns == []
    ensures forall i :: 0 <= i < |ns| ==> MaxDepth(ns) >= 1 + MaxDepth(ns[i].children)
    ensures ns != [] ==> exists i :: 0 <= i < |ns| && MaxDepth(ns) == 1 + MaxDepth(ns[i].children)
  {
    if ns != [] {
      MaxDepthBounds(ns[1..]);
      var rest := ns[1..];
      forall i | 0 < i < |ns| ensures MaxDepth(ns) >= 1 + MaxDepth(ns[i].children) {
        assert ns[i] == rest[i - 1];
      }
      if MaxDepth(ns) != 1 + MaxDepth(ns[0].children) {
        var j :| 0 <= j < |rest| && MaxDepth(rest) == 1 + MaxDepth(rest[j].children);
        assert ns[j + 1] == rest[j];
      }
    }
  }

  /** Depth 1 is a non-empty list of leaves: the flat layout of `handleAttendees`. */
  lemma MaxDepthOne(ns: seq<Node>)
    ensures MaxDepth(ns) == 1 <==> ns != [] && forall i :: 0 <= i < |ns| ==> ns[i].children == []
  {
    MaxDepthBounds(ns);
    forall i | 0 <= i < |ns| {
      MaxDepthBounds(ns[i].children);
    }
  }

  /** Depth 2: some node has children, and no node has grandchildren (the name / email layout). */
  lemma MaxDepthTwo(ns: seq<Node>)
    ensures MaxDepth(ns) == 2 <==>
      (exists i :: 0 <= i < |ns| && ns[i].children != [])
      && forall i :: 0 <= i < |ns| ==> MaxDepth(ns[i].children) <= 1
  {
    MaxDepthBounds(ns);
    forall i | 0 <= i < |ns| {
      MaxDepthBounds(ns[i].children);
    }
  }

  /**
    `handleAttendees` names one entry per child in every layout, and fails
    exactly when the layout it picks reads a TEXT that is missing.
   */
  lemma AttendeeNamesCount(node: Node)
    ensures AttendeeNames(node).Ok? ==> |AttendeeNames(node).value| == |node.children|
    ensures MaxDepth(node.children) == 1 ==>
      (AttendeeNames(node).Ok? <==> forall i :: 0 <= i < |node.children| ==> node.children[i].text.Some?)
  {
    MaxDepthBounds(node.children);
  }

  /** A `twoLevelAttendees` entry: the name, with the first sub-node's text in parentheses if there is one. */
  lemma AttendeeEntryShape(line: Node)
    ensures AttendeeEntry(line).Ok? <==>
      line.text.Some? && (|line.children| > 0 ==> line.children[0].text.Some?)
    ensures AttendeeEntry(line).Ok? ==>
      var email := if |line.children| > 0 then line.children[0].text.value else "";
      AttendeeEntry(line).value == (if |email| > 0 then line.text.value + " (" + email + ")" else line.text.value)
  {
  }

  // ---------------------------------------------------------------------
  // convert: dispatch, last writer wins, fixed order

  /** The lines of the renderer, or none if it fails. */
  function HandleLines(cfg: Config, c: Section, n: Node): seq<string> {
    match Handle(cfg, c, n)
    case Ok(ls) => ls
    case Err(_) => []
  }

  /** Whether a node is classified as `c`. */
  predicate InSection(c: Section, n: Node) {
    n.text.Some? && Classify(n.text.value) == c
  }

  /**
    An independent account of a section: the rendering of the LAST node of
    `nodes` classified into `c`, or None if there is none.
   */
  function Latest(cfg: Config, c: Section, nodes: seq<Node>): Option<seq<string>> {
    if nodes == [] then None
    else
      var n := nodes[|nodes| - 1];
      if InSection(c, n) then Some(HandleLines(cfg, c, n))
      else Latest(cfg, c, nodes[..|nodes| - 1])
  }

  /** Where `convert` keeps a section's lines. */
  function Slot(acc: Acc, c: Section): Option<seq<string>> {
    match c
    case Attendees => Some(acc.attendees)
    case Topic => Some(acc.topic)
    case Discussion => Some(acc.discussed)
    case ActionItems => Some(acc.actionItems)
    case MeetingDay => Some(acc.meetingDay)
    case MeetingLocation => acc.meetingLocation
    case Unclassified => None
  }

  /** One step succeeds exactly when the node has TEXT and its section's renderer succeeds. */
  lemma StepOk(cfg: Config, acc: Acc, n: Node)
    ensures Step(cfg, acc, n).Ok? <==>
      n.text.Some? && Handle(cfg, Classify(n.text.value), n).Ok?
  {
  }

  /** One step only writes the slot of the node's own section, with that section's rendering. */
  lemma StepSlot(cfg: Config, acc: Acc, n: Node, c: Section)
    requires Step(cfg, acc, n).Ok?
    ensures Slot(Step(cfg, acc, n).value, c) ==
      if c != Unclassified && InSection(c, n) then Some(HandleLines(cfg, c, n)) else Slot(acc, c)
  {
    match Classify(n.text.value)
    case Attendees =>
    case Topic =>
    case Discussion =>
    case ActionItems =>
    case MeetingDay =>
    case MeetingLocation =>
    case Unclassified =>
  }

  /** Walking `a + [n]` is walking `a`, then one step. */
  lemma {:induction false} WalkSnoc(cfg: Config, acc: Acc, a: seq<Node>, n: Node)
    ensures Walk(cfg, acc, a + [n]) ==
      var w := Walk(cfg, acc, a);
      if w.failure.Some? then w
      else match Step(cfg, w.acc, n)
        case Err(e) => Walked(w.acc, Some(e))
        case Ok(next) => Walked(next, None)
    decreases |a|
  {
    if a == [] {
      assert a + [n] == [n];
      assert [n][1..] == [];
    } else {
      assert (a + [n])[0] == a[0];
      assert (a + [n])[1..] == a[1..] + [n];
      var s := Step(cfg, acc, a[0]);
      if s.Ok? {
        WalkSnoc(cfg, s.value, a[1..], n);
      }
    }
  }

  /** The loop of `convert` runs to the end exactly when every child has TEXT and its renderer succeeds. */
  lemma {:induction false} WalkOk(cfg: Config, acc: Acc, nodes: seq<Node>)
    ensures Walk(cfg, acc, nodes).failure.None? <==>
      forall i :: 0 <= i < |nodes| ==>
        nodes[i].text.Some? && Handle(cfg, Classify(nodes[i].text.value), nodes[i]).Ok?
    decreases |nodes|
  {
    if nodes != [] {
      StepOk(cfg, acc, nodes[0]);
      var s := Step(cfg, acc, nodes[0]);
      if s.Ok? {
        WalkOk(cfg, s.value, nodes[1..]);
        assert forall i :: 0 < i < |nodes| ==> nodes[i] == nodes[1..][i - 1];
      }
    }
  }

  /**
    Last writer wins: after a complete loop each section holds the rendering
    of its last child, or what it held before if it had none; children of no
    section change nothing.
   */
  lemma {:induction false} WalkLatest(cfg: Config, acc: Acc, nodes: seq<Node>, c: Section)
    requires c != Unclassified
    requires Walk(cfg, acc, nodes).failure.None?
    ensures Slot(Walk(cfg, acc, nodes).acc, c) ==
      match Latest(cfg, c, nodes)
      case Some(ls) => Some(ls)
      case None => Slot(acc, c)
    decreases |nodes|
  {
    if nodes != [] {
      var a := nodes[..|nodes| - 1];
      var n := nodes[|nodes| - 1];
      assert nodes == a + [n];
      WalkSnoc(cfg, acc, a, n);
      var w := Walk(cfg, acc, a);
      assert w.failure.None?;
      WalkLatest(cfg, acc, a, c);
      StepSlot(cfg, w.acc, n, c);
    }
  }

  /** The lines of a section on the page: its last child's rendering, or nothing. */
  function SectionLines(cfg: Config, c: Section, nodes: seq<Node>): seq<string> {
    Latest(cfg, c, nodes).GetOr([])
  }

  /** After a complete loop from the initial variables, each variable holds its section's lines. */
  lemma WalkedSections(cfg: Config, startTime: Option<int>, kids: seq<Node>)
    requires Walk(cfg, InitialAcc(startTime), kids).failure.None?
    ensures
      var acc := Walk(cfg, InitialAcc(startTime), kids).acc;
      acc.meetingDay == SectionLines(cfg, MeetingDay, kids)
      && acc.meetingLocation == Latest(cfg, MeetingLocation, kids)
      && acc.attendees == SectionLines(cfg, Attendees, kids)
      && acc.topic == SectionLines(cfg, Topic, kids)
      && acc.actionItems == SectionLines(cfg, ActionItems, kids)
      && acc.discussed == SectionLines(cfg, Discussion, kids)
  {
    WalkedSection(cfg, startTime, kids, MeetingDay);
    WalkLatest(cfg, InitialAcc(startTime), kids, MeetingLocation);
    WalkedSection(cfg, startTime, kids, Attendees);
    WalkedSection(cfg, startTime, kids, Topic);
    WalkedSection(cfg, startTime, kids, ActionItems);
    WalkedSection(cfg, startTime, kids, Discussion);
  }

  /** A section other than the location, which starts empty, ends holding its lines. */
  lemma WalkedSection(cfg: Config, startTime: Option<int>, kids: seq<Node>, c: Section)
    requires Walk(cfg, InitialAcc(startTime), kids).failure.None?
    requires c != Unclassified && c != MeetingLocation
    ensures Slot(Walk(cfg, InitialAcc(startTime), kids).acc, c) == Some(SectionLines(cfg, c, kids))
  {
    WalkLatest(cfg, InitialAcc(startTime), kids, c);
  }

  /**
    `convert` succeeds exactly when the document is loaded, has a
    presentation node with TEXT, every child of it has TEXT and renders,
    and some child is a meeting location.
   */
  lemma ConvertSucceeds(cfg: Config, fullHtml: bool, etIn: Option<Node>, titleText: string, startTime: Option<int>)
    ensures
      ConvertOf(cfg, fullHtml, etIn, titleText, startTime).result.Ok? <==>
        etIn.Some? && |etIn.value.children| > 0
        && var p := etIn.value.children[0];
           p.text.Some?
           && (forall i :: 0 <= i < |p.children| ==>
                 p.children[i].text.Some? && Handle(cfg, Classify(p.children[i].text.value), p.children[i]).Ok?)
           && Latest(cfg, MeetingLocation, p.children).Some?
  {
    if etIn.Some? && |etIn.value.children| > 0 && etIn.value.children[0].text.Some? {
      var p := etIn.value.children[0];
      WalkOk(cfg, InitialAcc(startTime), p.children);
      if Walk(cfg, InitialAcc(startTime), p.children).failure.None? {
        WalkedSections(cfg, startTime, p.children);
      }
    }
  }

  /**
    A page `convert` produces is the title, meeting day, location,
    attendees, topic, action items and discussion, in that order whatever
    the order of the children, each section being its last child's
    rendering; the title is recorded in `title_text`.
   */
  lemma ConvertPage(cfg: Config, fullHtml: bool, etIn: Option<Node>, titleText: string, startTime: Option<int>)
    requires ConvertOf(cfg, fullHtml, etIn, titleText, startTime).result.Ok?
    ensures
      var run := ConvertOf(cfg, fullHtml, etIn, titleText, startTime);
      var p := etIn.value.children[0];
      var title := p.text.value;
      var kids := p.children;
      run.titleText == title
      && run.result.value == HtmlWrapper(fullHtml, title,
           TitleLines(cfg.html, title)
           + SectionLines(cfg, MeetingDay, kids) + SectionLines(cfg, MeetingLocation, kids)
           + SectionLines(cfg, Attendees, kids) + SectionLines(cfg, Topic, kids)
           + SectionLines(cfg, ActionItems, kids) + SectionLines(cfg, Discussion, kids))
  {
    WalkedSections(cfg, startTime, etIn.value.children[0].children);
  }

  // ---------------------------------------------------------------------
  // The discussion

  /** Python's string order is total. */
  lemma {:induction false} StrLeTotal(a: string, b: string)
    ensures StrLe(a, b) || StrLe(b, a)
  {
    if a != [] && b != [] && a[0] == b[0] {
      StrLeTotal(a[1..], b[1..]);
    }
  }

  lemma {:induction false} StrLeTrans(a: string, b: string, c: string)
    requires StrLe(a, b) && StrLe(b, c)
    ensures StrLe(a, c)
  {
    if a != [] && a[0] == b[0] && b[0] == c[0] {
      StrLeTrans(a[1..], b[1..], c[1..]);
    }
  }

  lemma {:induction false} StrLeAntisym(a: string, b: string)
    requires StrLe(a, b) && StrLe(b, a)
    ensures a == b
  {
    if a != [] {
      StrLeAntisym(a[1..], b[1..]);
      assert a == [a[0]] + a[1..] && b == [b[0]] + b[1..];
    }
  }

  lemma UtteranceLeTotal(x: Utterance, y: Utterance)
    ensures UtteranceLe(x, y) || UtteranceLe(y, x)
  {
    StrLeTotal(x.speaker, y.speaker);
    StrLeTotal(x.text, y.text);
  }

  lemma UtteranceLeTrans(x: Utterance, y: Utterance, z: Utterance)
    requires UtteranceLe(x, y) && UtteranceLe(y, z)
    ensures UtteranceLe(x, z)
  {
    if x.time == y.time == z.time {
      if x.speaker == y.speaker == z.speaker {
        StrLeTrans(x.text, y.text, z.text);
      } else if x.speaker == z.speaker {
        StrLeAntisym(x.speaker, y.speaker);
      } else if x.speaker == y.speaker || y.speaker == z.speaker {
      } else {
        StrLeTrans(x.speaker, y.speaker, z.speaker);
      }
    }
  }

  /** Two tuples each at most the other are the same tuple. */
  lemma UtteranceLeAntisym(x: Utterance, y: Utterance)
    requires UtteranceLe(x, y) && UtteranceLe(y, x)
    ensures x == y
  {
    if x.speaker != y.speaker {
      StrLeAntisym(x.speaker, y.speaker);
    } else {
      StrLeAntisym(x.text, y.text);
    }
  }

  predicate SortedUtterances(s: seq<Utterance>) {
    forall i, j :: 0 <= i < j < |s| ==> UtteranceLe(s[i], s[j])
  }

  lemma SortedCons(y: Utterance, r: seq<Utterance>)
    requires SortedUtterances(r)
    requires forall j :: 0 <= j < |r| ==> UtteranceLe(y, r[j])
    ensures SortedUtterances([y] + r)
  {
    forall i, j | 0 <= i < j < |r| + 1 ensures UtteranceLe(([y] + r)[i], ([y] + r)[j]) {
      assert ([y] + r)[j] == r[j - 1];
      if i > 0 {
        assert ([y] + r)[i] == r[i - 1];
      }
    }
  }

  /** Everything in a sorted list is at least its head. */
  lemma HeadLeast(x: Utterance, s: seq<Utterance>)
    requires SortedUtterances(s) && s != [] && UtteranceLe(x, s[0])
    ensures forall j :: 0 <= j < |s| ==> UtteranceLe(x, s[j])
  {
    forall j | 0 < j < |s| ensures UtteranceLe(x, s[j]) {
      UtteranceLeTrans(x, s[0], s[j]);
    }
  }

  lemma LeastOfInserted(y: Utterance, x: Utterance, t: seq<Utterance>, r: seq<Utterance>)
    requires UtteranceLe(y, x)
    requires forall j :: 0 <= j < |t| ==> UtteranceLe(y, t[j])
    requires multiset(r) == multiset(t) + multiset{x}
    ensures forall j :: 0 <= j < |r| ==> UtteranceLe(y, r[j])
  {
    forall j | 0 <= j < |r| ensures UtteranceLe(y, r[j]) {
      assert r[j] in multiset(r);
      if r[j] != x {
        assert r[j] in multiset(t);
        var k :| 0 <= k < |t| && t[k] == r[j];
      }
    }
  }

  lemma {:induction false} InsertSorted(x: Utterance, s: seq<Utterance>)
    requires SortedUtterances(s)
    ensures SortedUtterances(Insert(x, s))
    ensures multiset(Insert(x, s)) == multiset(s) + multiset{x}
  {
    if s == [] {
      assert Insert(x, s) == [x];
    } else if UtteranceLe(x, s[0]) {
      HeadLeast(x, s);
      SortedCons(x, s);
      assert Insert(x, s) == [x] + s;
    } else {
      UtteranceLeTotal(x, s[0]);
      SortedTail(s);
      InsertSorted(x, s[1..]);
      var r := Insert(x, s[1..]);
      forall j | 0 <= j < |s[1..]| ensures UtteranceLe(s[0], s[1..][j]) {
        assert s[1..][j] == s[j + 1];
      }
      LeastOfInserted(s[0], x, s[1..], r);
      SortedCons(s[0], r);
      assert Insert(x, s) == [s[0]] + r;
      assert s == [s[0]] + s[1..];
    }
  }

  /** `people_time.sort()` orders the utterances ascending and keeps each one. */
  lemma {:induction false} SortUtterancesCorrect(s: seq<Utterance>)
    ensures SortedUtterances(SortUtterances(s))
    ensures multiset(SortUtterances(s)) == multiset(s)
  {
    if s != [] {
      SortUtterancesCorrect(s[1..]);
      InsertSorted(s[0], SortUtterances(s[1..]));
      assert s == [s[0]] + s[1..];
    }
  }

  lemma SortedTail(s: seq<Utterance>)
    requires SortedUtterances(s) && s != []
    ensures SortedUtterances(s[1..])
  {
    forall i, j | 0 <= i < j < |s| - 1 ensures UtteranceLe(s[1..][i], s[1..][j]) {
      assert s[1..][i] == s[i + 1] && s[1..][j] == s[j + 1];
    }
  }

  /** Two sorted lists of the same tuples start with the same one. */
  lemma SortedSameHead(a: seq<Utterance>, b: seq<Utterance>)
    requires SortedUtterances(a) && SortedUtterances(b) && multiset(a) == multiset(b) && a != []
    ensures b != [] && a[0] == b[0]
  {
    assert a[0] in multiset(b) by { assert a[0] in multiset(a); }
    assert b[0] in multiset(a) by { assert b[0] in multiset(b); }
    var i :| 0 <= i < |b| && b[i] == a[0];
    var j :| 0 <= j < |a| && a[j] == b[0];
    if i > 0 && j > 0 {
      assert UtteranceLe(a[0], a[j]);
      assert UtteranceLe(b[0], b[i]);
      UtteranceLeAntisym(a[0], b[0]);
    }
  }

  lemma MultisetTails(a: seq<Utterance>, b: seq<Utterance>)
    requires a != [] && b != [] && a[0] == b[0] && multiset(a) == multiset(b)
    ensures multiset(a[1..]) == multiset(b[1..])
  {
    assert a == [a[0]] + a[1..] && b == [b[0]] + b[1..];
    assert multiset(a) == multiset{a[0]} + multiset(a[1..]);
    assert multiset(b) == multiset{b[0]} + multiset(b[1..]);
    assert multiset(a[1..]) == multiset(a) - multiset{a[0]};
    assert multiset(b[1..]) == multiset(b) - multiset{b[0]};
  }

  /** The order is total on tuples, so there is only one sorting of a collection of them. */
  lemma {:induction false} SortedUnique(a: seq<Utterance>, b: seq<Utterance>)
    requires SortedUtterances(a) && SortedUtterances(b) && multiset(a) == multiset(b)
    ensures a == b
  {
    if a != [] {
      SortedSameHead(a, b);
      MultisetTails(a, b);
      SortedTail(a);
      SortedTail(b);
      SortedUnique(a[1..], b[1..]);
      assert a == [a[0]] + a[1..] && b == [b[0]] + b[1..];
    } else {
      assert |multiset(b)| == 0;
    }
  }

  /** The block an utterance contributes: a speaker block start exactly where the speaker changes. */
  function Block(cfg: Config, start: int, us: seq<Utterance>, i: nat): seq<string>
    requires i < |us|
  {
    var header :=
      if i == 0 || us[i - 1].speaker != us[i].speaker then
        (if i > 0 then CloseTag(cfg.html, "ul") + CloseTag(cfg.html, "li") else [])
        + OpenTag(cfg.html, "li") + [SpeakerHeader(cfg, start, us[i])] + OpenTag(cfg.html, "ul")
      else [];
    header + OpenTag(cfg.html, "li") + [us[i].text] + CloseTag(cfg.html, "li")
  }

  /** The blocks of the utterances from `i` on. */
  function Blocks(cfg: Config, start: int, us: seq<Utterance>, i: nat): seq<string>
    requires i <= |us|
    decreases |us| - i
  {
    if i == |us| then [] else Block(cfg, start, us, i) + Blocks(cfg, start, us, i + 1)
  }

  /**
    The loop of `handleDiscussed`, which tracks `last_name`, starts a
    speaker block exactly at the first utterance and at each one whose
    speaker differs from the one before.
   */
  lemma {:induction false} RunsAtSpeakerChanges(cfg: Config, start: int, us: seq<Utterance>, i: nat)
    requires i <= |us|
    ensures RunLines(cfg, start, us[i..], if i == 0 then None else Some(us[i - 1].speaker))
            == Blocks(cfg, start, us, i)
    decreases |us| - i
  {
    if i < |us| {
      RunsAtSpeakerChanges(cfg, start, us, i + 1);
      assert us[i..][0] == us[i];
      assert us[i..][1..] == us[i + 1..];
    }
  }

  /**
    Every utterance kept by `handleDiscussed` has non-empty text and is
    said by one of the speaker nodes; in HTML mode its text, escaped, is
    not a tag line.
   */
  lemma {:induction false} SpeakerUtterancesShape(html: bool, name: string, subs: seq<Node>)
    requires SpeakerUtterances(html, name, subs).Ok?
    ensures forall i :: 0 <= i < |SpeakerUtterances(html, name, subs).value| ==>
      var u := SpeakerUtterances(html, name, subs).value[i];
      |u.text| > 0 && u.speaker == name && (html ==> TagEvent(u.text) == None)
  {
    if subs != [] {
      SpeakerUtterancesShape(html, name, subs[1..]);
      var cur := NestLines(html, subs[0]).value;
      if html {
        EscapedLeadIsContent(subs[0].text.value, cur);
      }
    }
  }

  /** `Join("\n", ...)` of the lines `nest_text` writes in HTML mode starts with escaped text and is content. */
  lemma EscapedLeadIsContent(t: string, cur: seq<string>)
    requires |cur| > 0 && cur[0] == Escape(t)
    ensures TagEvent(Join("\n", cur)) == None
  {
    var rest := if |cur| == 1 then "" else "\n" + Join("\n", cur[1..]);
    assert Join("\n", cur) == Escape(t) + rest;
    StripAppend(Escape(t), rest);
    if StripSpaces(Escape(t)) != [] {
      var k := |Escape(t)| - |StripSpaces(Escape(t))|;
      assert StripSpaces(Escape(t))[0] == Escape(t)[k];
    }
  }

  lemma {:induction false} UtterancesText(html: bool, speakers: seq<Node>)
    requires Utterances(html, speakers).Ok?
    ensures forall i :: 0 <= i < |Utterances(html, speakers).value| ==>
      |Utterances(html, speakers).value[i].text| > 0
      && (html ==> TagEvent(Utterances(html, speakers).value[i].text) == None)
  {
    if speakers != [] {
      var name := speakers[0].text.value;
      SpeakerUtterancesShape(html, name, speakers[0].children);
      UtterancesText(html, speakers[1..]);
      var first := SpeakerUtterances(html, name, speakers[0].children).value;
      var rest := Utterances(html, speakers[1..]).value;
      assert Utterances(html, speakers).value == first + rest;
    }
  }

  /** Every utterance is said by one of the speaker nodes: its speaker is that node's TEXT. */
  lemma {:induction false} UtterancesSpeaker(html: bool, speakers: seq<Node>)
    requires Utterances(html, speakers).Ok?
    ensures forall i :: 0 <= i < |Utterances(html, speakers).value| ==>
      exists k :: 0 <= k < |speakers| && speakers[k].text == Some(Utterances(html, speakers).value[i].speaker)
  {
    if speakers != [] {
      var name := speakers[0].text.value;
      var first := SpeakerUtterances(html, name, speakers[0].children).value;
      var rest := Utterances(html, speakers[1..]).value;
      SpeakerUtterancesShape(html, name, speakers[0].children);
      UtterancesSpeaker(html, speakers[1..]);
      assert Utterances(html, speakers).value == first + rest;
      SpeakersAppend(speakers, name, first, rest);
    }
  }

  /** Utterances of the first speaker node followed by ones said by the later nodes are all said by some node. */
  lemma SpeakersAppend(speakers: seq<Node>, name: string, first: seq<Utterance>, rest: seq<Utterance>)
    requires |speakers| > 0 && speakers[0].text == Some(name)
    requires forall i :: 0 <= i < |first| ==> first[i].speaker == name
    requires forall i :: 0 <= i < |rest| ==>
      exists k :: 0 <= k < |speakers[1..]| && speakers[1..][k].text == Some(rest[i].speaker)
    ensures forall i :: 0 <= i < |first + rest| ==>
      exists k :: 0 <= k < |speakers| && speakers[k].text == Some((first + rest)[i].speaker)
  {
    var us := first + rest;
    forall i | 0 <= i < |us|
      ensures exists k :: 0 <= k < |speakers| && speakers[k].text == Some(us[i].speaker)
    {
      if i < |first| {
        assert us[i] == first[i];
        assert speakers[0].text == Some(us[i].speaker);
      } else {
        assert us[i] == rest[i - |first|];
        var k :| 0 <= k < |speakers[1..]| && speakers[1..][k].text == Some(rest[i - |first|].speaker);
        assert speakers[k + 1] == speakers[1..][k];
      }
    }
  }

  /**
    `handleDiscussed` keeps exactly the non-empty utterances: when ordering
    by time they come sorted by `(created, speaker, text)`, and it fails
    only on an empty list once every TEXT and CREATED has been read.
   */
  lemma DiscussedOrder(cfg: Config, node: Node)
    ensures DiscussedOf(cfg, node).Ok? <==>
      Utterances(cfg.html, node.children).Ok? && Utterances(cfg.html, node.children).value != []
    ensures Utterances(cfg.html, node.children).Ok? ==>
      var us := Utterances(cfg.html, node.children).value;
      var es := Ordered(cfg.byTime, us);
      multiset(es) == multiset(us)
      && (cfg.byTime ==> SortedUtterances(es))
      && (DiscussedOf(cfg, node).Ok? ==> DiscussedOf(cfg, node).value.start == es[0].time)
  {
    if Utterances(cfg.html, node.children).Ok? {
      var us := Utterances(cfg.html, node.children).value;
      SortUtterancesCorrect(us);
      if cfg.byTime && us != [] {
        assert |SortUtterances(us)| == |us| by {
          assert |multiset(SortUtterances(us))| == |multiset(us)|;
        }
      } else if cfg.byTime {
        assert SortUtterances(us) == [];
      }
    }
  }

  // ---------------------------------------------------------------------
  // Balanced markup in HTML mode

  lemma UlOpenTag()
    ensures OpenTag(true, "ul") == ["<ul>"]
  {
    var s := "<" + "ul" + ">";
    assert |s| == 4 && s[0] == '<' && s[1] == 'u' && s[2] == 'l' && s[3] == '>';
    assert s == "<ul>";
  }

  lemma UlCloseTag()
    ensures CloseTag(true, "ul") == ["</ul>"]
  {
    var s := "</" + "ul" + ">";
    assert |s| == 5 && s[0] == '<' && s[1] == '/' && s[2] == 'u' && s[3] == 'l' && s[4] == '>';
    assert s == "</ul>";
  }

  lemma LiOpenTag()
    ensures OpenTag(true, "li") == ["<li>"]
  {
    var s := "<" + "li" + ">";
    assert |s| == 4 && s[0] == '<' && s[1] == 'l' && s[2] == 'i' && s[3] == '>';
    assert s == "<li>";
  }

  lemma LiCloseTag()
    ensures CloseTag(true, "li") == ["</li>"]
  {
    var s := "</" + "li" + ">";
    assert |s| == 5 && s[0] == '<' && s[1] == '/' && s[2] == 'l' && s[3] == 'i' && s[4] == '>';
    assert s == "</li>";
  }

  /** The four list tags `open_tag` and `close_tag` write in HTML mode, and what they stand for. */
  lemma ListTags()
    ensures OpenTag(true, "ul") == ["<ul>"] && TagEvent("<ul>") == Some(Open(UL))
    ensures CloseTag(true, "ul") == ["</ul>"] && TagEvent("</ul>") == Some(Close(UL))
    ensures OpenTag(true, "li") == ["<li>"] && TagEvent("<li>") == Some(Open(LI))
    ensures CloseTag(true, "li") == ["</li>"] && TagEvent("</li>") == Some(Close(LI))
  {
    UlOpenTag(); UlCloseTag(); LiOpenTag(); LiCloseTag();
    UlOpenLine(); UlCloseLine(); LiOpenLine(); LiCloseLine();
  }

  /** A `title` line in HTML mode is bold text, not a list tag. */
  lemma TitleLineContent(name: string)
    ensures TagEvent(TitleLine(true, name)) == None
  {
    var t := TitleLine(true, name);
    assert t[0] == '<' && t[1] == 'b';
    assert StripSpaces(t) == t;
  }

  /** `nest_text` writes a balanced nested list. */
  lemma {:induction false} NestLinesBalanced(n: Node)
    requires NestLines(true, n).Ok?
    ensures Balanced(NestLines(true, n).value)
    decreases n, 1
  {
    ListTags();
    var t := Escape(n.text.value);
    NoAngleIsContent(t);
    ContentBalanced(t);
    var sub := NestChildren(true, n.children).value;
    if |n.children| > 0 {
      NestChildrenBalanced(n.children);
      BalancedWrap("<ul>", sub, "</ul>", UL);
      BalancedAppend([t], ["<ul>"] + sub + ["</ul>"]);
      assert NestLines(true, n).value == [t] + (["<ul>"] + sub + ["</ul>"]);
    } else {
      assert NestLines(true, n).value == [t] + [];
    }
  }

  lemma {:induction false} NestChildrenBalanced(ns: seq<Node>)
    requires NestChildren(true, ns).Ok?
    ensures Balanced(NestChildren(true, ns).value)
    decreases ns, 0
  {
    if ns != [] {
      ListTags();
      var a := NestLines(true, ns[0]).value;
      var b := NestChildren(true, ns[1..]).value;
      NestLinesBalanced(ns[0]);
      NestChildrenBalanced(ns[1..]);
      BalancedWrap("<li>", a, "</li>", LI);
      BalancedAppend(["<li>"] + a + ["</li>"], b);
      assert NestChildren(true, ns).value == (["<li>"] + a + ["</li>"]) + b;
    }
  }

  /** `handleActionItems` writes balanced markup. */
  lemma ActionLinesBalanced(node: Node)
    requires ActionLines(true, node).Ok?
    ensures Balanced(ActionLines(true, node).value)
  {
    UlOpenLine();
    UlCloseLine();
    var items := NestChildren(true, node.children).value;
    var title := TitleLine(true, ActionTitle);
    NestChildrenBalanced(node.children);
    BalancedWrap("<ul>", items, "</ul>", UL);
    TitleLineContent(ActionTitle);
    ContentBalanced(title);
    BalancedAppend([title], ["<ul>"] + items + ["</ul>"]);
    ActionLinesShape(node);
  }

  lemma ActionLinesShape(node: Node)
    requires ActionLines(true, node).Ok?
    ensures ActionLines(true, node).value ==
      [TitleLine(true, ActionTitle)] + (["<ul>"] + NestChildren(true, node.children).value + ["</ul>"])
  {
    UlOpenTag();
    UlCloseTag();
  }

  /** An opening line, a content line and the matching closing line leave the stack as it was. */
  lemma OpenContentClose(a: string, t: Tag, text: string, c: string, rest: seq<string>, stack: seq<Tag>)
    requires TagEvent(a) == Some(Open(t)) && TagEvent(text) == None && TagEvent(c) == Some(Close(t))
    ensures Run([a, text, c] + rest, stack) == Run(rest, stack)
  {
    assert [a, text, c] + rest == [a] + ([text] + ([c] + rest));
    RunOpen(a, t, [text] + ([c] + rest), stack);
    RunContent(text, [c] + rest, [t] + stack);
    RunClose(c, t, rest, stack);
  }

  /** One utterance as a list item leaves the stack as it is. */
  lemma ItemStack(text: string, rest: seq<string>, stack: seq<Tag>)
    requires TagEvent(text) == None
    ensures Run(["<li>", text, "</li>"] + rest, stack) == Run(rest, stack)
  {
    LiOpenLine();
    LiCloseLine();
    OpenContentClose("<li>", LI, text, "</li>", rest, stack);
  }

  /** An opening line, a content line and another opening line push both tags. */
  lemma OpenContentOpen(a: string, t: Tag, text: string, b: string, u: Tag, rest: seq<string>, stack: seq<Tag>)
    requires TagEvent(a) == Some(Open(t)) && TagEvent(text) == None && TagEvent(b) == Some(Open(u))
    ensures Run([a, text, b] + rest, stack) == Run(rest, [u] + ([t] + stack))
  {
    assert [a, text, b] + rest == [a] + ([text] + ([b] + rest));
    RunOpen(a, t, [text] + ([b] + rest), stack);
    RunContent(text, [b] + rest, [t] + stack);
    RunOpen(b, u, rest, [t] + stack);
  }

  /** Two closing lines pop the two innermost tags. */
  lemma CloseClose(a: string, t: Tag, b: string, u: Tag, rest: seq<string>, stack: seq<Tag>)
    requires TagEvent(a) == Some(Close(t)) && TagEvent(b) == Some(Close(u))
    ensures Run([a, b] + rest, [t, u] + stack) == Run(rest, stack)
  {
    assert [a, b] + rest == [a] + ([b] + rest);
    assert [t, u] + stack == [t] + ([u] + stack);
    RunClose(a, t, [b] + rest, [u] + stack);
    RunClose(b, u, rest, stack);
  }

  /** A speaker header opens `<li>` and, after the name, `<ul>`. */
  lemma HeaderStack(h: string, rest: seq<string>, below: seq<Tag>)
    requires TagEvent(h) == None
    ensures Run(["<li>", h, "<ul>"] + rest, below) == Run(rest, [UL, LI] + below)
  {
    LiOpenLine();
    UlOpenLine();
    OpenContentOpen("<li>", LI, h, "<ul>", UL, rest, below);
    assert [UL] + ([LI] + below) == [UL, LI] + below;
  }

  /** Closing the previous speaker's block pops its `<ul>` and `<li>`. */
  lemma CloseBlockStack(rest: seq<string>, below: seq<Tag>)
    ensures Run(["</ul>", "</li>"] + rest, [UL, LI] + below) == Run(rest, below)
  {
    UlCloseLine();
    LiCloseLine();
    CloseClose("</ul>", UL, "</li>", LI, rest, below);
  }

  /** The lines a speaker change writes before the utterance: close the previous block, open a new one. */
  function HeaderLines(last: Option<string>, speaker: string, h: string): seq<string> {
    if last == Some(speaker) then []
    else (if last.Some? then ["</ul>", "</li>"] else []) + ["<li>", h, "<ul>"]
  }

  lemma RunLinesCons(cfg: Config, start: int, us: seq<Utterance>, last: Option<string>)
    requires cfg.html && us != []
    ensures RunLines(cfg, start, us, last) ==
      HeaderLines(last, us[0].speaker, SpeakerHeader(cfg, start, us[0]))
      + (["<li>", us[0].text, "</li>"] + RunLines(cfg, start, us[1..], Some(us[0].speaker)))
  {
    UlOpenTag(); UlCloseTag(); LiOpenTag(); LiCloseTag();
  }

  lemma HeaderLinesSame(last: Option<string>, speaker: string, h: string, rest: seq<string>)
    requires last == Some(speaker)
    ensures HeaderLines(last, speaker, h) + rest == rest
  {
  }

  lemma HeaderLinesChange(last: Option<string>, speaker: string, h: string, rest: seq<string>)
    requires last.Some? && last != Some(speaker)
    ensures HeaderLines(last, speaker, h) + rest == ["</ul>", "</li>"] + (["<li>", h, "<ul>"] + rest)
  {
  }

  lemma HeaderLinesFirst(last: Option<string>, speaker: string, h: string, rest: seq<string>)
    requires last.None?
    ensures HeaderLines(last, speaker, h) + rest == ["<li>", h, "<ul>"] + rest
  {
  }

  /** A speaker change closes the previous speaker's block and opens the new one. */
  lemma ChangeStack(last: Option<string>, speaker: string, h: string, rest: seq<string>, below: seq<Tag>)
    requires TagEvent(h) == None && last.Some? && last != Some(speaker)
    ensures Run(HeaderLines(last, speaker, h) + rest, [UL, LI] + below) == Run(rest, [UL, LI] + below)
  {
    var started := ["<li>", h, "<ul>"] + rest;
    HeaderLinesChange(last, speaker, h, rest);
    CloseBlockStack(started, below);
    HeaderStack(h, rest, below);
  }

  /** The same speaker again: no header lines, the block stays open. */
  lemma SameStack(last: Option<string>, speaker: string, h: string, rest: seq<string>, below: seq<Tag>)
    requires last == Some(speaker)
    ensures Run(HeaderLines(last, speaker, h) + rest, [UL, LI] + below) == Run(rest, [UL, LI] + below)
  {
    HeaderLinesSame(last, speaker, h, rest);
  }

  /** The first speaker: a block is opened on an empty stack of list tags. */
  lemma FirstStack(last: Option<string>, speaker: string, h: string, rest: seq<string>, below: seq<Tag>)
    requires TagEvent(h) == None && last.None?
    ensures Run(HeaderLines(last, speaker, h) + rest, below) == Run(rest, [UL, LI] + below)
  {
    HeaderLinesFirst(last, speaker, h, rest);
    HeaderStack(h, rest, below);
  }

  /** One utterance of the loop, after the head lines `head` have moved the stack from `s0` to the open block. */
  lemma ItemAfterHead(cfg: Config, start: int, us: seq<Utterance>, last: Option<string>, below: seq<Tag>, s0: seq<Tag>)
    requires cfg.html && us != []
    requires TagEvent(us[0].text) == None
    requires Run(RunLines(cfg, start, us[1..], Some(us[0].speaker)), [UL, LI] + below) == Some([UL, LI] + below)
    requires var rest := RunLines(cfg, start, us[1..], Some(us[0].speaker));
      Run(HeaderLines(last, us[0].speaker, SpeakerHeader(cfg, start, us[0])) + (["<li>", us[0].text, "</li>"] + rest), s0)
      == Run(["<li>", us[0].text, "</li>"] + rest, [UL, LI] + below)
    ensures Run(RunLines(cfg, start, us, last), s0) == Some([UL, LI] + below)
  {
    var rest := RunLines(cfg, start, us[1..], Some(us[0].speaker));
    RunLinesCons(cfg, start, us, last);
    ItemStack(us[0].text, rest, [UL, LI] + below);
  }

  /** One utterance of the loop: from the stack before it to the stack after the rest. */
  lemma RunLinesStep(cfg: Config, start: int, us: seq<Utterance>, last: Option<string>, below: seq<Tag>)
    requires cfg.html && us != []
    requires TagEvent(us[0].text) == None && TagEvent(SpeakerHeader(cfg, start, us[0])) == None
    requires Run(RunLines(cfg, start, us[1..], Some(us[0].speaker)), [UL, LI] + below) == Some([UL, LI] + below)
    ensures Run(RunLines(cfg, start, us, last), (if last.Some? then [UL, LI] else []) + below) == Some([UL, LI] + below)
  {
    var u := us[0];
    var item := ["<li>", u.text, "</li>"] + RunLines(cfg, start, us[1..], Some(u.speaker));
    var h := SpeakerHeader(cfg, start, u);
    if last == Some(u.speaker) {
      SameStack(last, u.speaker, h, item, below);
      ItemAfterHead(cfg, start, us, last, below, [UL, LI] + below);
    } else if last.Some? {
      ChangeStack(last, u.speaker, h, item, below);
      ItemAfterHead(cfg, start, us, last, below, [UL, LI] + below);
    } else {
      FirstStack(last, u.speaker, h, item, below);
      ItemAfterHead(cfg, start, us, last, below, below);
      assert [] + below == below;
    }
  }

  /**
    How the loop of `handleDiscussed` moves the stack of open tags: it
    closes the previous speaker's `<li><ul>` and leaves the last one's open.
   */
  lemma {:induction false} RunLinesStack(cfg: Config, start: int, us: seq<Utterance>, last: Option<string>, below: seq<Tag>)
    requires cfg.html
    requires forall i :: 0 <= i < |us| ==>
      TagEvent(us[i].text) == None && TagEvent(SpeakerHeader(cfg, start, us[i])) == None
    ensures Run(RunLines(cfg, start, us, last), (if last.Some? then [UL, LI] else []) + below)
            == Some((if last.Some? || us != [] then [UL, LI] else []) + below)
  {
    if us != [] {
      assert forall i :: 0 <= i < |us[1..]| ==> us[1..][i] == us[i + 1];
      RunLinesStack(cfg, start, us[1..], Some(us[0].speaker), below);
      RunLinesStep(cfg, start, us, last, below);
    } else {
      assert RunLines(cfg, start, us, last) == [];
    }
  }

  /** A speaker line with a time ends in `)`, so it is not a tag line. */
  lemma TimedHeaderContent(cfg: Config, start: int, u: Utterance)
    requires cfg.byTime
    ensures TagEvent(SpeakerHeader(cfg, start, u)) == None
  {
    var h := SpeakerHeader(cfg, start, u);
    assert h[|h| - 1] == ')';
  }

  /** Every line `handleDiscussed` writes for an utterance is content, speaker lines included. */
  lemma DiscussedContent(cfg: Config, node: Node, start: int)
    requires cfg.html && Utterances(cfg.html, node.children).Ok?
    requires !cfg.byTime ==>
      forall k :: 0 <= k < |node.children| && node.children[k].text.Some? ==>
        TagEvent(node.children[k].text.value) == None
    ensures
      var es := Ordered(cfg.byTime, Utterances(cfg.html, node.children).value);
      forall i :: 0 <= i < |es| ==>
        TagEvent(es[i].text) == None && TagEvent(SpeakerHeader(cfg, start, es[i])) == None
  {
    var us := Utterances(cfg.html, node.children).value;
    var es := Ordered(cfg.byTime, us);
    UtterancesText(cfg.html, node.children);
    UtterancesSpeaker(cfg.html, node.children);
    SortUtterancesCorrect(us);
    forall i | 0 <= i < |es|
      ensures TagEvent(es[i].text) == None && TagEvent(SpeakerHeader(cfg, start, es[i])) == None
    {
      assert es[i] in multiset(us) by { assert es[i] in multiset(es); }
      var j :| 0 <= j < |us| && us[j] == es[i];
      if cfg.byTime {
        TimedHeaderContent(cfg, start, es[i]);
      }
    }
  }

  lemma FrameShape(title: string, body: seq<string>)
    ensures [title] + OpenTag(true, "ul") + body + CloseTag(true, "ul") + CloseTag(true, "li") + CloseTag(true, "ul")
            == [title] + (["<ul>"] + (body + (["</ul>"] + (["</li>"] + (["</ul>"] + []))))) 
  {
    UlOpenTag();
    UlCloseTag();
    LiCloseTag();
  }

  lemma StackShape()
    ensures [UL, LI, UL] == [UL] + ([LI] + [UL]) && [UL] == [UL] + []
    ensures [] + [UL] == [UL] && [UL, LI] + [UL] == [UL, LI, UL]
  {
  }

  /** A bold title, `<ul>`, a body that leaves `<ul><li>` open inside it, then the three closing tags. */
  lemma DiscussedFrame(title: string, body: seq<string>)
    requires TagEvent(title) == None
    requires Run(body, [UL]) == Some([UL, LI, UL])
    ensures Balanced([title] + OpenTag(true, "ul") + body
                     + CloseTag(true, "ul") + CloseTag(true, "li") + CloseTag(true, "ul"))
  {
    UlOpenLine();
    UlCloseLine();
    LiCloseLine();
    StackShape();
    var t3 := ["</ul>"] + [];
    var t2 := ["</li>"] + t3;
    var tail := ["</ul>"] + t2;
    RunAppend(body, tail, [UL]);
    RunClose("</ul>", UL, t2, [LI] + [UL]);
    RunClose("</li>", LI, t3, [UL]);
    RunClose("</ul>", UL, [], []);
    RunContent(title, ["<ul>"] + (body + tail), []);
    RunOpen("<ul>", UL, body + tail, []);
    FrameShape(title, body);
  }

  /**
    In HTML mode a successful `handleDiscussed` returns balanced markup,
    element by element, provided no speaker's name is itself a tag line
    when the names are written without times (they are written unescaped).
    A joined utterance is one content element here; the nested lists inside
    it are covered by `DiscussedWrittenBalanced`.
   */
  lemma DiscussedBalanced(cfg: Config, node: Node)
    requires cfg.html && DiscussedOf(cfg, node).Ok?
    requires !cfg.byTime ==>
      forall k :: 0 <= k < |node.children| && node.children[k].text.Some? ==>
        TagEvent(node.children[k].text.value) == None
    ensures Balanced(DiscussedOf(cfg, node).value.lines)
  {
    DiscussedLines(cfg, node);
    var es := Ordered(cfg.byTime, Utterances(cfg.html, node.children).value);
    var start := es[0].time;
    DiscussedContent(cfg, node, start);
    RunLinesStack(cfg, start, es, None, [UL]);
    StackShape();
    TitleLineContent(DiscussionTitle);
    DiscussedFrame(TitleLine(true, DiscussionTitle), RunLines(cfg, start, es, None));
  }

  lemma DiscussedLines(cfg: Config, node: Node)
    requires cfg.html && DiscussedOf(cfg, node).Ok?
    ensures Utterances(cfg.html, node.children).Ok?
    ensures |Ordered(cfg.byTime, Utterances(cfg.html, node.children).value)| > 0
    ensures
      var es := Ordered(cfg.byTime, Utterances(cfg.html, node.children).value);
      DiscussedOf(cfg, node).value.lines ==
        [TitleLine(true, DiscussionTitle)] + OpenTag(true, "ul") + RunLines(cfg, es[0].time, es, None)
        + CloseTag(true, "ul") + CloseTag(true, "li") + CloseTag(true, "ul")
  {
  }

  // ---------------------------------------------------------------------
  // The written text: an utterance or a name may hold newlines

  lemma ListTagsUnfold()
    ensures Unfolds("<ul>") && Unfolds("</ul>") && Unfolds("<li>") && Unfolds("</li>")
  {
    SingleLineUnfolds("<ul>");
    SingleLineUnfolds("</ul>");
    SingleLineUnfolds("<li>");
    SingleLineUnfolds("</li>");
  }

  /** One element that unfolds, as a line list. */
  lemma OneUnfolds(e: string)
    requires Unfolds(e)
    ensures AllUnfold([e])
  {
    assert [e][0] == e;
  }

  /** The lines `a`, wrapped between two list tag lines, unfold. */
  lemma WrapUnfolds(open: string, a: seq<string>, close: string)
    requires Unfolds(open) && AllUnfold(a) && Unfolds(close)
    ensures AllUnfold([open] + a + [close])
  {
    OneUnfolds(open);
    OneUnfolds(close);
    AllUnfoldAppend([open], a);
    AllUnfoldAppend([open] + a, [close]);
  }

  /** Every element `nest_text` writes in HTML mode unfolds: it is escaped text or a list tag. */
  lemma {:induction false} NestLinesUnfold(n: Node)
    requires NestLines(true, n).Ok?
    ensures AllUnfold(NestLines(true, n).value)
    decreases n, 1
  {
    ListTags();
    ListTagsUnfold();
    var t := Escape(n.text.value);
    UnfoldsNoAngle(t);
    OneUnfolds(t);
    var sub := NestChildren(true, n.children).value;
    if |n.children| > 0 {
      NestChildrenUnfold(n.children);
      WrapUnfolds("<ul>", sub, "</ul>");
      AllUnfoldAppend([t], ["<ul>"] + sub + ["</ul>"]);
      assert NestLines(true, n).value == [t] + (["<ul>"] + sub + ["</ul>"]);
    } else {
      assert NestLines(true, n).value == [t] + [];
    }
  }

  lemma {:induction false} NestChildrenUnfold(ns: seq<Node>)
    requires NestChildren(true, ns).Ok?
    ensures AllUnfold(NestChildren(true, ns).value)
    decreases ns, 0
  {
    if ns != [] {
      ListTags();
      ListTagsUnfold();
      var a := NestLines(true, ns[0]).value;
      var b := NestChildren(true, ns[1..]).value;
      NestLinesUnfold(ns[0]);
      NestChildrenUnfold(ns[1..]);
      WrapUnfolds("<li>", a, "</li>");
      AllUnfoldAppend(["<li>"] + a + ["</li>"], b);
      assert NestChildren(true, ns).value == (["<li>"] + a + ["</li>"]) + b;
    }
  }

  /** The text of an utterance, `nest_text`'s lines joined by newlines, unfolds. */
  lemma {:induction false} SpeakerUtterancesUnfold(name: string, subs: seq<Node>)
    requires SpeakerUtterances(true, name, subs).Ok?
    ensures forall i :: 0 <= i < |SpeakerUtterances(true, name, subs).value| ==>
      Unfolds(SpeakerUtterances(true, name, subs).value[i].text)
  {
    if subs != [] {
      SpeakerUtterancesUnfold(name, subs[1..]);
      var cur := NestLines(true, subs[0]).value;
      EscapedLeadIsContent(subs[0].text.value, cur);
      NestLinesUnfold(subs[0]);
      NestLinesBalanced(subs[0]);
      UnfoldsJoined(cur);
    }
  }

  lemma {:induction false} UtterancesUnfold(speakers: seq<Node>)
    requires Utterances(true, speakers).Ok?
    ensures forall i :: 0 <= i < |Utterances(true, speakers).value| ==>
      Unfolds(Utterances(true, speakers).value[i].text)
  {
    if speakers != [] {
      var name := speakers[0].text.value;
      SpeakerUtterancesUnfold(name, speakers[0].children);
      UtterancesUnfold(speakers[1..]);
      var first := SpeakerUtterances(true, name, speakers[0].children).value;
      var rest := Utterances(true, speakers[1..]).value;
      assert Utterances(true, speakers).value == first + rest;
    }
  }

  lemma {:induction false} NatDigitsNoNewline(n: nat)
    ensures '\n' !in NatDigits(n)
  {
    var d := NatDigits(n);
    forall i | 0 <= i < |d| ensures d[i] != '\n' { }
  }

  lemma DecimalNoNewline(n: int)
    ensures '\n' !in Decimal(n)
  {
    if n < 0 {
      NatDigitsNoNewline(-n);
      assert Decimal(n) == "-" + NatDigits(-n);
    } else {
      NatDigitsNoNewline(n);
    }
  }

  /** `format_time` writes no newline unless the host's clock reading of the start does. */
  lemma FormatTimeNoNewline(clock: int -> string, start: int, t: int)
    requires '\n' !in clock(start)
    ensures '\n' !in FormatTime(clock, start, t)
  {
    var timesecs := (t - start) / 1000;
    DecimalNoNewline(timesecs / 60);
    DecimalNoNewline(timesecs % 60);
  }

  /** The pieces of a name with a tail ending in `)` appended to its last line are all content. */
  lemma TailedPiecesContent(p: seq<string>, tail: string)
    requires |p| > 0 && forall k :: 0 <= k < |p| ==> TagEvent(p[k]) == None
    requires |tail| > 0 && tail[|tail| - 1] == ')'
    ensures var q := p[..|p| - 1] + [p[|p| - 1] + tail];
            forall k :: 0 <= k < |q| ==> TagEvent(q[k]) == None
  {
    var q := p[..|p| - 1] + [p[|p| - 1] + tail];
    forall k | 0 <= k < |q|
      ensures TagEvent(q[k]) == None
    {
      if k < |p| - 1 {
        assert q[k] == p[k];
      } else {
        var last := p[|p| - 1] + tail;
        assert q[k] == last && last[|last| - 1] == ')';
      }
    }
  }

  /**
    A speaker line unfolds when no line of the speaker's name is a tag
    line and, in time order, the clock reading of the start holds no newline.
   */
  lemma HeaderUnfolds(cfg: Config, start: int, u: Utterance)
    requires NoTagLine(u.speaker)
    requires cfg.byTime ==> '\n' !in cfg.clock(start)
    ensures Unfolds(SpeakerHeader(cfg, start, u))
  {
    if cfg.byTime {
      var tail := " (" + FormatTime(cfg.clock, start, u.time) + ")";
      FormatTimeNoNewline(cfg.clock, start, u.time);
      assert '\n' !in tail;
      var h := SpeakerHeader(cfg, start, u);
      assert h == u.speaker + tail;
      TimedHeaderContent(cfg, start, u);
      SplitAppendTail(u.speaker, '\n', tail);
      TailedPiecesContent(Split(u.speaker, '\n'), tail);
      UnfoldsContent(h);
    } else {
      NoTagLineContent(u.speaker);
      UnfoldsContent(u.speaker);
    }
  }

  /** Every element of the loop of `handleDiscussed` unfolds when the texts and speaker lines do. */
  lemma {:induction false} RunLinesUnfold(cfg: Config, start: int, us: seq<Utterance>, last: Option<string>)
    requires cfg.html
    requires forall i :: 0 <= i < |us| ==> Unfolds(us[i].text) && Unfolds(SpeakerHeader(cfg, start, us[i]))
    ensures AllUnfold(RunLines(cfg, start, us, last))
  {
    if us != [] {
      assert forall i :: 0 <= i < |us[1..]| ==> us[1..][i] == us[i + 1];
      var rest := RunLines(cfg, start, us[1..], Some(us[0].speaker));
      var h := SpeakerHeader(cfg, start, us[0]);
      RunLinesUnfold(cfg, start, us[1..], Some(us[0].speaker));
      RunLinesCons(cfg, start, us, last);
      ListTagsUnfold();
      OneUnfolds(h);
      assert AllUnfold(HeaderLines(last, us[0].speaker, h)) by {
        if last != Some(us[0].speaker) {
          WrapUnfolds("<li>", [h], "<ul>");
          assert ["<li>", h, "<ul>"] == ["<li>"] + [h] + ["<ul>"];
          if last.Some? {
            WrapUnfolds("</ul>", [], "</li>");
            assert ["</ul>", "</li>"] == ["</ul>"] + [] + ["</li>"];
            AllUnfoldAppend(["</ul>", "</li>"], ["<li>", h, "<ul>"]);
          } else {
            assert [] + ["<li>", h, "<ul>"] == ["<li>", h, "<ul>"];
          }
        }
      }
      WrapUnfolds("<li>", [us[0].text], "</li>");
      assert ["<li>", us[0].text, "</li>"] == ["<li>"] + [us[0].text] + ["</li>"];
      AllUnfoldAppend(["<li>", us[0].text, "</li>"], rest);
      AllUnfoldAppend(HeaderLines(last, us[0].speaker, h), ["<li>", us[0].text, "</li>"] + rest);
    } else {
      assert RunLines(cfg, start, us, last) == [];
    }
  }

  /** Every utterance text and speaker line `handleDiscussed` writes unfolds. */
  lemma DiscussedUnfold(cfg: Config, node: Node, start: int)
    requires cfg.html && Utterances(cfg.html, node.children).Ok?
    requires forall k :: 0 <= k < |node.children| && node.children[k].text.Some? ==>
      NoTagLine(node.children[k].text.value)
    requires cfg.byTime ==> '\n' !in cfg.clock(start)
    ensures
      var es := Ordered(cfg.byTime, Utterances(cfg.html, node.children).value);
      forall i :: 0 <= i < |es| ==> Unfolds(es[i].text) && Unfolds(SpeakerHeader(cfg, start, es[i]))
  {
    var us := Utterances(cfg.html, node.children).value;
    var es := Ordered(cfg.byTime, us);
    UtterancesUnfold(node.children);
    UtterancesSpeaker(cfg.html, node.children);
    SortUtterancesCorrect(us);
    forall i | 0 <= i < |es|
      ensures Unfolds(es[i].text) && Unfolds(SpeakerHeader(cfg, start, es[i]))
    {
      assert es[i] in multiset(us) by { assert es[i] in multiset(es); }
      var j :| 0 <= j < |us| && us[j] == es[i];
      HeaderUnfolds(cfg, start, es[i]);
    }
  }

  /** A `title` line in HTML mode holds no newline when the title does not. */
  lemma TitleUnfolds(name: string)
    requires '\n' !in name
    ensures Unfolds(TitleLine(true, name))
  {
  }

  /** The frame of the discussion section around lines that unfold. */
  lemma FrameUnfolds(title: string, body: seq<string>)
    requires Unfolds(title) && AllUnfold(body)
    ensures AllUnfold([title] + OpenTag(true, "ul") + body
                      + CloseTag(true, "ul") + CloseTag(true, "li") + CloseTag(true, "ul"))
  {
    ListTagsUnfold();
    FrameShape(title, body);
    var t3 := ["</ul>"] + [];
    var t2 := ["</li>"] + t3;
    var tail := ["</ul>"] + t2;
    OneUnfolds("</ul>");
    OneUnfolds("</li>");
    OneUnfolds(title);
    OneUnfolds("<ul>");
    AllUnfoldAppend(["</li>"], t3);
    AllUnfoldAppend(["</ul>"], t2);
    AllUnfoldAppend(body, tail);
    AllUnfoldAppend(["<ul>"], body + tail);
    AllUnfoldAppend([title], ["<ul>"] + (body + tail));
  }

  /**
    In HTML mode the discussion section `handleDiscussed` returns, joined
    by newlines as the page is written and read back line by line, is
    balanced, provided no line of a speaker's name is a tag line and, in
    time order, the host's clock reading of the start holds no newline.
   */
  lemma DiscussedWrittenBalanced(cfg: Config, node: Node)
    requires cfg.html && DiscussedOf(cfg, node).Ok?
    requires forall k :: 0 <= k < |node.children| && node.children[k].text.Some? ==>
      NoTagLine(node.children[k].text.value)
    requires cfg.byTime ==> '\n' !in cfg.clock(DiscussedOf(cfg, node).value.start)
    ensures Balanced(Split(Join("\n", DiscussedOf(cfg, node).value.lines), '\n'))
  {
    forall k | 0 <= k < |node.children| && node.children[k].text.Some?
      ensures TagEvent(node.children[k].text.value) == None
    {
      NoTagLineContent(node.children[k].text.value);
    }
    DiscussedBalanced(cfg, node);
    DiscussedLines(cfg, node);
    var es := Ordered(cfg.byTime, Utterances(cfg.html, node.children).value);
    var start := es[0].time;
    DiscussedUnfold(cfg, node, start);
    RunLinesUnfold(cfg, start, es, None);
    TitleUnfolds(DiscussionTitle);
    FrameUnfolds(TitleLine(true, DiscussionTitle), RunLines(cfg, start, es, None));
    WrittenBalanced(DiscussedOf(cfg, node).value.lines);
  }

  /** In HTML mode the action items section, written out and read back line by line, is balanced. */
  lemma ActionWrittenBalanced(node: Node)
    requires ActionLines(true, node).Ok?
    ensures Balanced(Split(Join("\n", ActionLines(true, node).value), '\n'))
  {
    ActionLinesBalanced(node);
    ActionLinesShape(node);
    ListTagsUnfold();
    NestChildrenUnfold(node.children);
    TitleUnfolds(ActionTitle);
    OneUnfolds(TitleLine(true, ActionTitle));
    WrapUnfolds("<ul>", NestChildren(true, node.children).value, "</ul>");
    AllUnfoldAppend([TitleLine(true, ActionTitle)], ["<ul>"] + NestChildren(true, node.children).value + ["</ul>"]);
    WrittenBalanced(ActionLines(true, node).value);
  }

  // ---------------------------------------------------------------------
  // format_time

  /** Reads back the elapsed seconds from the text of `format_time`. */
  function ParseElapsed(s: string): Option<int> {
    var w := Split(s, ' ');
    if |w| == 2 && w[1] == "secs" then ParseDecimal(w[0])
    else if |w| == 2 && w[1] == "min" then
      (match ParseDecimal(w[0]) case Some(m) => Some(m * 60) case None => None)
    else if |w| == 4 && w[1] == "min" && w[3] == "sec" then
      (match (ParseDecimal(w[0]), ParseDecimal(w[2]))
       case (Some(m), Some(sec)) => Some(m * 60 + sec)
       case _ => None)
    else None
  }

  lemma {:induction false} NatDigitsNoSpace(n: nat)
    ensures ' ' !in NatDigits(n)
  {
    var d := NatDigits(n);
    forall i | 0 <= i < |d| ensures d[i] != ' ' { }
  }

  lemma DecimalNoSpace(n: int)
    ensures ' ' !in Decimal(n)
  {
    if n < 0 {
      NatDigitsNoSpace(-n);
      assert Decimal(n) == "-" + NatDigits(-n);
    } else {
      NatDigitsNoSpace(n);
    }
  }

  /** A word followed by ' ' and a tail splits into the word and the tail's pieces. */
  lemma SplitWord(a: string, b: string)
    requires ' ' !in a
    ensures Split(a + " " + b, ' ') == [a] + Split(b, ' ')
  {
    SplitAtFirst(a, ' ', b);
  }

  lemma SecsWord()
    ensures " secs" == [' '] + "secs"
  {
    var s := [' '] + "secs";
    assert |s| == 5 && s[0] == ' ' && s[1] == 's' && s[2] == 'e' && s[3] == 'c' && s[4] == 's';
  }

  lemma MinWord()
    ensures " min" == [' '] + "min"
  {
    var s := [' '] + "min";
    assert |s| == 4 && s[0] == ' ' && s[1] == 'm' && s[2] == 'i' && s[3] == 'n';
  }

  lemma MinSpaceWord()
    ensures " min " == [' '] + "min" + [' ']
  {
    var s := [' '] + "min" + [' '];
    assert |s| == 5 && s[0] == ' ' && s[1] == 'm' && s[2] == 'i' && s[3] == 'n' && s[4] == ' ';
  }

  lemma SecWord()
    ensures " sec" == [' '] + "sec"
  {
    var s := [' '] + "sec";
    assert |s| == 4 && s[0] == ' ' && s[1] == 's' && s[2] == 'e' && s[3] == 'c';
  }

  lemma ParseSecs(sec: int)
    ensures ParseElapsed(Decimal(sec) + " secs") == Some(sec)
  {
    DecimalNoSpace(sec);
    DecimalRoundTrip(sec);
    SecsWord();
    SplitNoSeparator("secs", ' ');
    SplitAtFirst(Decimal(sec), ' ', "secs");
    assert Decimal(sec) + " secs" == Decimal(sec) + [' '] + "secs";
  }

  lemma ParseMin(m: int)
    ensures ParseElapsed(Decimal(m) + " min") == Some(m * 60)
  {
    DecimalNoSpace(m);
    DecimalRoundTrip(m);
    MinWord();
    SplitNoSeparator("min", ' ');
    SplitAtFirst(Decimal(m), ' ', "min");
    assert Decimal(m) + " min" == Decimal(m) + [' '] + "min";
  }

  lemma MinSecText(m: int, sec: int)
    ensures Decimal(m) + " min " + Decimal(sec) + " sec"
            == Decimal(m) + [' '] + ("min" + [' '] + (Decimal(sec) + [' '] + "sec"))
  {
    MinSpaceWord();
    SecWord();
  }

  lemma SplitMinSec(m: int, sec: int)
    ensures Split(Decimal(m) + " min " + Decimal(sec) + " sec", ' ') == [Decimal(m), "min", Decimal(sec), "sec"]
  {
    DecimalNoSpace(m);
    DecimalNoSpace(sec);
    SplitNoSeparator("sec", ' ');
    var t3 := Decimal(sec) + [' '] + "sec";
    var t2 := "min" + [' '] + t3;
    SplitAtFirst(Decimal(sec), ' ', "sec");
    SplitAtFirst("min", ' ', t3);
    SplitAtFirst(Decimal(m), ' ', t2);
    MinSecText(m, sec);
  }

  lemma ParseMinSec(m: int, sec: int)
    ensures ParseElapsed(Decimal(m) + " min " + Decimal(sec) + " sec") == Some(m * 60 + sec)
  {
    DecimalRoundTrip(m);
    DecimalRoundTrip(sec);
    SplitMinSec(m, sec);
  }

  /**
    After the first second, `format_time` tells the elapsed whole seconds
    without loss: minutes and seconds, and only the non-zero ones.  At the
    start it shows the start's clock time.
   */
  lemma FormatTimeElapsed(clock: int -> string, start: int, t: int)
    ensures (t - start) / 1000 == 0 ==> FormatTime(clock, start, t) == clock(start)
    ensures (t - start) / 1000 != 0 ==> ParseElapsed(FormatTime(clock, start, t)) == Some((t - start) / 1000)
  {
    var e := (t - start) / 1000;
    var m := e / 60;
    var sec := e % 60;
    assert e == m * 60 + sec;
    if e != 0 {
      if m == 0 {
        ParseSecs(sec);
      } else if sec == 0 {
        ParseMin(m);
      } else {
        ParseMinSec(m, sec);
      }
    }
  }
}
