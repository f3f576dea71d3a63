/**
  The meeting-notes converter as the object it is: its settings and
  `title_text`/`start_time` as fields, its handlers as methods that build
  their lists of lines step by step.  Each method is proved to compute what
  the corresponding function of `NotesSpec` describes.
 */
module Notes {

  import opened Wrappers
  import opened Text
  import opened MindMap
  import opened NotesSpec

  /** One element of `MapAll` taken from the front of what is left. */
  lemma MapAllAt<X, Y>(f: X -> Result<Y, Failure>, xs: seq<X>, i: nat, pre: seq<Y>)
    requires i < |xs|
    ensures f(xs[i]).Err? ==> Extended(pre, MapAll(f, xs[i..])) == Err(f(xs[i]).error)
    ensures f(xs[i]).Ok? ==>
      Extended(pre, MapAll(f, xs[i..])) == Extended(pre + [f(xs[i]).value], MapAll(f, xs[i + 1..]))
  {
    assert xs[i..][0] == xs[i] && xs[i..][1..] == xs[i + 1..];
    var rest := MapAll(f, xs[i + 1..]);
    if f(xs[i]).Ok? && rest.Ok? {
      assert pre + ([f(xs[i]).value] + rest.value) == (pre + [f(xs[i]).value]) + rest.value;
    }
  }

  /** `nest_text` of a node with text: its line, then its children as a list. */
  lemma NestLinesSplit(html: bool, n: Node, pre: seq<string>)
    requires n.text.Some?
    ensures Extended(pre, NestLines(html, n))
         == if |n.children| > 0
            then FollowedBy(Extended(pre + [EscapeIf(html, n.text.value)] + OpenTag(html, "ul"), NestChildren(html, n.children)),
                      CloseTag(html, "ul"))
            else Ok(pre + [EscapeIf(html, n.text.value)])
  {
    var t := EscapeIf(html, n.text.value);
    if |n.children| == 0 {
      assert NestChildren(html, n.children) == Ok([]);
      assert [t] + [] == [t];
    } else {
      match NestChildren(html, n.children)
      case Err(e) =>
      case Ok(sub) =>
        assert pre + ([t] + (OpenTag(html, "ul") + sub + CloseTag(html, "ul")))
            == (pre + [t] + OpenTag(html, "ul")) + sub + CloseTag(html, "ul");
    }
  }

  /** One list item of `NestChildren` taken from the front of what is left. */
  lemma NestChildrenAt(html: bool, ns: seq<Node>, i: nat, pre: seq<string>, tail: seq<string>)
    requires i < |ns|
    ensures NestLines(html, ns[i]).Err? ==>
      FollowedBy(Extended(pre, NestChildren(html, ns[i..])), tail) == Err(NestLines(html, ns[i]).error)
    ensures NestLines(html, ns[i]).Ok? ==>
      FollowedBy(Extended(pre, NestChildren(html, ns[i..])), tail)
      == FollowedBy(Extended(pre + OpenTag(html, "li") + NestLines(html, ns[i]).value + CloseTag(html, "li"),
                             NestChildren(html, ns[i + 1..])), tail)
  {
    assert ns[i..][0] == ns[i] && ns[i..][1..] == ns[i + 1..];
    var a := NestLines(html, ns[i]);
    var b := NestChildren(html, ns[i + 1..]);
    if a.Ok? && b.Ok? {
      assert pre + (OpenTag(html, "li") + a.value + CloseTag(html, "li") + b.value)
          == (pre + OpenTag(html, "li") + a.value + CloseTag(html, "li")) + b.value;
    }
  }

  /** `handleActionItems` is its title and opening tag, the nested items, and the closing tag. */
  lemma ActionLinesSplit(html: bool, node: Node)
    ensures ActionLines(html, node)
         == FollowedBy(Extended([TitleLine(html, ActionTitle)] + OpenTag(html, "ul"), NestChildren(html, node.children)),
                       CloseTag(html, "ul"))
  {
  }

  /** The utterances of one speaker node taken from the front of what is left. */
  lemma UtterancesAt(html: bool, sp: seq<Node>, i: nat, pre: seq<Utterance>)
    requires i < |sp|
    ensures sp[i].text.None? ==> Extended(pre, Utterances(html, sp[i..])) == Err(MissingText)
    ensures sp[i].text.Some? ==>
      Extended(pre, Utterances(html, sp[i..]))
      == Extended(pre, Concat(SpeakerUtterances(html, sp[i].text.value, sp[i].children), Utterances(html, sp[i + 1..])))
  {
    assert sp[i..][0] == sp[i] && sp[i..][1..] == sp[i + 1..];
  }

  /** One utterance of a speaker taken from the front of what is left. */
  lemma SpeakerUtterancesAt(html: bool, name: string, subs: seq<Node>, j: nat, pre: seq<Utterance>,
                            rest: Result<seq<Utterance>, Failure>)
    requires j < |subs|
    ensures subs[j].created.None? ==>
      Extended(pre, Concat(SpeakerUtterances(html, name, subs[j..]), rest)) == Err(MissingCreated)
    ensures subs[j].created.Some? && NestLines(html, subs[j]).Err? ==>
      Extended(pre, Concat(SpeakerUtterances(html, name, subs[j..]), rest)) == Err(NestLines(html, subs[j]).error)
    ensures subs[j].created.Some? && NestLines(html, subs[j]).Ok? ==>
      var text := Join("\n", NestLines(html, subs[j]).value);
      Extended(pre, Concat(SpeakerUtterances(html, name, subs[j..]), rest))
      == Extended(pre + (if |text| > 0 then [Utterance(subs[j].created.value, name, text)] else []),
                  Concat(SpeakerUtterances(html, name, subs[j + 1..]), rest))
  {
    assert subs[j..][0] == subs[j] && subs[j..][1..] == subs[j + 1..];
    if subs[j].created.Some? && NestLines(html, subs[j]).Ok? {
      var text := Join("\n", NestLines(html, subs[j]).value);
      var u := if |text| > 0 then [Utterance(subs[j].created.value, name, text)] else [];
      var more := SpeakerUtterances(html, name, subs[j + 1..]);
      if more.Ok? && rest.Ok? {
        assert pre + ((u + more.value) + rest.value) == (pre + u) + (more.value + rest.value);
      }
    }
  }

  /** A speaker with no utterances left adds nothing before the other speakers. */
  lemma SpeakerUtterancesEnd(html: bool, name: string, subs: seq<Node>, pre: seq<Utterance>,
                             rest: Result<seq<Utterance>, Failure>)
    ensures Extended(pre, Concat(SpeakerUtterances(html, name, subs[|subs|..]), rest)) == Extended(pre, rest)
  {
    assert subs[|subs|..] == [];
    if rest.Ok? {
      assert [] + rest.value == rest.value;
    }
  }

  /** One section of the loop of `convert` taken from the front of what is left. */
  lemma WalkAt(cfg: Config, acc: Acc, kids: seq<Node>, i: nat, s: Result<Acc, Failure>)
    requires i < |kids| && s == Step(cfg, acc, kids[i])
    ensures Walk(cfg, acc, kids[i..]) == if s.Err? then Walked(acc, Some(s.error)) else Walk(cfg, s.value, kids[i + 1..])
  {
    assert kids[i..][0] == kids[i] && kids[i..][1..] == kids[i + 1..];
  }

  /** The lines `RunLines` writes for the utterance `u` when `last` spoke before it. */
  function RunBlock(cfg: Config, start: int, u: Utterance, last: Option<string>): seq<string> {
    (if last != Some(u.speaker) then
       (if last.Some? then CloseTag(cfg.html, "ul") + CloseTag(cfg.html, "li") else [])
       + OpenTag(cfg.html, "li") + [SpeakerHeader(cfg, start, u)] + OpenTag(cfg.html, "ul")
     else [])
    + OpenTag(cfg.html, "li") + [u.text] + CloseTag(cfg.html, "li")
  }

  /** One utterance of the `handleDiscussed` output loop taken from the front of what is left. */
  lemma RunLinesAt(cfg: Config, start: int, es: seq<Utterance>, i: nat, last: Option<string>)
    requires i < |es|
    ensures RunLines(cfg, start, es[i..], last)
         == RunBlock(cfg, start, es[i], last) + RunLines(cfg, start, es[i + 1..], Some(es[i].speaker))
  {
    assert es[i..][0] == es[i] && es[i..][1..] == es[i + 1..];
  }

  /** `len(ret) > 2` picks the same closing tags as "a speaker came before": in text mode there are none. */
  lemma ClosingMatches(cfg: Config, big: bool, last: Option<string>)
    requires cfg.html ==> (big <==> last.Some?)
    ensures (if big then CloseTag(cfg.html, "ul") + CloseTag(cfg.html, "li") else [])
         == (if last.Some? then CloseTag(cfg.html, "ul") + CloseTag(cfg.html, "li") else [])
  {
  }

  lemma AppendAssoc<T>(a: seq<T>, b: seq<T>, c: seq<T>)
    ensures a + (b + c) == (a + b) + c
  {
  }

  class Mm2Notes {
    var etIn: Option<Node>
    var asHtml: bool
    var titleText: string
    var fullHtml: bool
    var orderByTime: bool
    /** None until a discussion has been handled (the attribute does not exist before). */
    var startTime: Option<int>

    constructor ()
      ensures etIn == None && asHtml && titleText == "" && fullHtml && !orderByTime
      ensures startTime == None
    {
      etIn := None;
      asHtml := true;
      titleText := "";
      fullHtml := true;
      orderByTime := false;
      startTime := None;
    }

    method SetOrderByTime(b: bool)
      modifies this
      ensures orderByTime == b
      ensures etIn == old(etIn) && asHtml == old(asHtml) && titleText == old(titleText)
      ensures fullHtml == old(fullHtml) && startTime == old(startTime)
    {
      orderByTime := b;
    }

    /** `open`: the parsed document becomes `et_in`, and it is converted. */
    method Open(doc: Node, clock: int -> string) returns (r: Result<seq<string>, Failure>)
      modifies this
      ensures etIn == Some(doc)
      ensures asHtml == old(asHtml) && fullHtml == old(fullHtml) && orderByTime == old(orderByTime)
      ensures
        var run := ConvertOf(Config(asHtml, orderByTime, clock), fullHtml, Some(doc), old(titleText), old(startTime));
        r == run.result && titleText == run.titleText && startTime == run.startTime
    {
      etIn := Some(doc);
      r := Convert(clock);
    }

    /** `convert`: the presentation node's children, each dispatched by its keyword. */
    method Convert(clock: int -> string) returns (r: Result<seq<string>, Failure>)
      modifies this
      ensures etIn == old(etIn) && asHtml == old(asHtml) && fullHtml == old(fullHtml)
      ensures orderByTime == old(orderByTime)
      ensures
        var run := ConvertOf(Config(asHtml, orderByTime, clock), fullHtml, etIn, old(titleText), old(startTime));
        r == run.result && titleText == run.titleText && startTime == run.startTime
    {
      if etIn.None? {
        r := Err(NotLoaded);
        return;
      }
      if |etIn.value.children| == 0 {
        r := Err(NoPresentation);
        return;
      }
      var presentation := etIn.value.children[0];
      if presentation.text.None? {
        r := Err(MissingText);
        return;
      }
      ghost var cfg := Config(asHtml, orderByTime, clock);
      ghost var w0 := Walk(cfg, InitialAcc(startTime), presentation.children);
      assert ConvertOf(cfg, fullHtml, etIn, titleText, startTime) == Finished(cfg, fullHtml, presentation.text.value, w0);
      titleText := presentation.text.value;
      var w := WalkSections(presentation.children, clock);
      assert w == w0;
      if w.failure.Some? {
        r := Err(w.failure.value);
        return;
      }
      if w.acc.meetingLocation.None? {
        r := Err(LocationUnset);
        return;
      }
      var title := titleText;
      var body := TitleLines(asHtml, title) + w.acc.meetingDay + w.acc.meetingLocation.value + w.acc.attendees
                  + w.acc.topic + w.acc.actionItems + w.acc.discussed;
      r := Ok(HtmlWrapper(fullHtml, title, body));
    }

    /**
      The loop of `convert`: `acc` holds its local variables, the object's
      `start_time` is kept in `acc.startTime` too.
     */
    method WalkSections(kids: seq<Node>, clock: int -> string) returns (w: Walked)
      modifies this
      ensures etIn == old(etIn) && asHtml == old(asHtml) && fullHtml == old(fullHtml)
      ensures orderByTime == old(orderByTime) && titleText == old(titleText)
      ensures w == Walk(Config(asHtml, orderByTime, clock), InitialAcc(old(startTime)), kids)
      ensures startTime == w.acc.startTime
    {
      var cfg := Config(asHtml, orderByTime, clock);
      var acc := InitialAcc(startTime);
      var i := 0;
      assert kids[i..] == kids;
      while i < |kids|
        invariant 0 <= i <= |kids|
        invariant cfg == Config(asHtml, orderByTime, clock)
        invariant etIn == old(etIn) && asHtml == old(asHtml) && fullHtml == old(fullHtml)
        invariant orderByTime == old(orderByTime) && titleText == old(titleText)
        invariant acc.startTime == startTime
        invariant Walk(cfg, InitialAcc(old(startTime)), kids) == Walk(cfg, acc, kids[i..])
      {
        var s := HandleSection(kids[i], clock, acc);
        WalkAt(cfg, acc, kids, i, s);
        if s.Err? {
          w := Walked(acc, Some(s.error));
          return;
        }
        acc := s.value;
        i := i + 1;
      }
      assert kids[i..] == [];
      assert Walk(cfg, acc, []) == Walked(acc, None);
      w := Walked(acc, None);
    }

    /** One iteration of the loop of `convert`: the chain of keyword tests and the handler it picks. */
    method HandleSection(node: Node, clock: int -> string, acc: Acc) returns (r: Result<Acc, Failure>)
      requires acc.startTime == startTime
      modifies this
      ensures etIn == old(etIn) && asHtml == old(asHtml) && fullHtml == old(fullHtml)
      ensures orderByTime == old(orderByTime) && titleText == old(titleText)
      ensures r == Step(Config(asHtml, orderByTime, clock), acc, node)
      ensures startTime == if r.Ok? then r.value.startTime else old(startTime)
    {
      if node.text.None? {
        r := Err(MissingText);
        return;
      }
      var name := node.text.value;
      match Classify(name) {
        case Attendees =>
          var ls := HandleAttendees(node);
          r := if ls.Err? then Err(ls.error) else Ok(acc.(attendees := ls.value));
        case Topic =>
          var ls := HandleLabelled(TopicLabel, node);
          r := if ls.Err? then Err(ls.error) else Ok(acc.(topic := ls.value));
        case Discussion =>
          var ls := HandleDiscussed(node, clock);
          r := if ls.Err? then Err(ls.error) else Ok(acc.(discussed := ls.value, startTime := startTime));
        case ActionItems =>
          var ls := HandleActionItems(node);
          r := if ls.Err? then Err(ls.error) else Ok(acc.(actionItems := ls.value));
        case MeetingDay =>
          var ls := HandleLabelled(DayLabel, node);
          r := if ls.Err? then Err(ls.error) else Ok(acc.(meetingDay := ls.value));
        case MeetingLocation =>
          var ls := HandleLabelled(LocationLabel, node);
          r := if ls.Err? then Err(ls.error) else Ok(acc.(meetingLocation := Some(ls.value)));
        case Unclassified =>
          r := Ok(acc);
      }
    }

    /** `handleAttendees`: the layout is picked by the depth of the attendee tree. */
    method HandleAttendees(node: Node) returns (r: Result<seq<string>, Failure>)
      ensures r == AttendeeLines(asHtml, node)
    {
      var topnodes := node.children;
      var mxd := MaxDepth(topnodes);
      var names: seq<string>;
      if mxd >= 3 {
        names :- ThreeLevelAttendees(node);
      } else if mxd == 2 {
        names :- TwoLevelAttendees(node);
      } else if mxd == 1 {
        names :- MapAll(TextOf, topnodes);
      } else {
        names := [];
      }
      r := Ok([OpenClose(asHtml, "b", AttendeesLabel) + Join(", ", names) + Nl(asHtml)]);
    }

    /** `twoLevelAttendees`: one entry per child, the name and the first sub-node's text. */
    method TwoLevelAttendees(node: Node) returns (r: Result<seq<string>, Failure>)
      ensures r == MapAll(AttendeeEntry, node.children)
    {
      var lines := node.children;
      var names: seq<string> := [];
      var i := 0;
      assert lines[i..] == lines;
      ExtendedEmpty(MapAll(AttendeeEntry, lines));
      while i < |lines|
        invariant 0 <= i <= |lines|
        invariant MapAll(AttendeeEntry, lines) == Extended(names, MapAll(AttendeeEntry, lines[i..]))
      {
        var line := lines[i];
        MapAllAt(AttendeeEntry, lines, i, names);
        var fullname :- TextOf(line);
        var emailnodes := line.children;
        var email;
        if |emailnodes| > 0 {
          email :- TextOf(emailnodes[0]);
        } else {
          email := "";
        }
        var entry := if |email| > 0 then fullname + " (" + email + ")" else fullname;
        assert AttendeeEntry(line) == Ok(entry);
        names := names + [entry];
        i := i + 1;
      }
      assert lines[i..] == [] && names + [] == names;
      r := Ok(names);
    }

    /** `threeLevelAttendees`: one entry per location, listing its people. */
    method ThreeLevelAttendees(node: Node) returns (r: Result<seq<string>, Failure>)
      ensures r == MapAll(LocationEntry, node.children)
    {
      var kids := node.children;
      var locations: seq<string> := [];
      var i := 0;
      assert kids[i..] == kids;
      ExtendedEmpty(MapAll(LocationEntry, kids));
      while i < |kids|
        invariant 0 <= i <= |kids|
        invariant MapAll(LocationEntry, kids) == Extended(locations, MapAll(LocationEntry, kids[i..]))
      {
        var location := kids[i];
        MapAllAt(LocationEntry, kids, i, locations);
        var locName :- TextOf(location);
        var names :- TwoLevelAttendees(location);
        var entry := locName + " [" + Join(", ", names) + "]";
        assert LocationEntry(location) == Ok(entry);
        locations := locations + [entry];
        i := i + 1;
      }
      assert kids[i..] == [] && locations + [] == locations;
      r := Ok(locations);
    }

    /** `handleTopic`, `handleMeetingDay` and `handleMeetingLocation`, which differ only in the label. */
    method HandleLabelled(caption: string, node: Node) returns (r: Result<seq<string>, Failure>)
      ensures r == LabelledLines(asHtml, caption, node)
    {
      var kids := node.children;
      var text: seq<string> := [];
      var i := 0;
      assert kids[i..] == kids;
      ExtendedEmpty(MapAll(TextOf, kids));
      while i < |kids|
        invariant 0 <= i <= |kids|
        invariant MapAll(TextOf, kids) == Extended(text, MapAll(TextOf, kids[i..]))
      {
        MapAllAt(TextOf, kids, i, text);
        var t :- TextOf(kids[i]);
        text := text + [t];
        i := i + 1;
      }
      assert kids[i..] == [] && text + [] == text;
      r := Ok([OpenClose(asHtml, "b", caption) + Join(" ", text) + Nl(asHtml)]);
    }

    /** `nest_text`: appends the node's text and its children as a nested list to `ret`. */
    method NestText(node: Node, ret: seq<string>) returns (r: Result<seq<string>, Failure>)
      ensures r == Extended(ret, NestLines(asHtml, node))
      decreases node
    {
      var t :- TextOf(node);
      NestLinesSplit(asHtml, node, ret);
      var acc := ret + [EscapeIf(asHtml, t)];
      var subnodes := node.children;
      if |subnodes| > 0 {
        acc := acc + OpenTag(asHtml, "ul");
        var i := 0;
        assert subnodes[i..] == subnodes;
        while i < |subnodes|
          invariant 0 <= i <= |subnodes|
          invariant Extended(ret, NestLines(asHtml, node))
                 == FollowedBy(Extended(acc, NestChildren(asHtml, subnodes[i..])), CloseTag(asHtml, "ul"))
        {
          var sub := subnodes[i];
          NestChildrenAt(asHtml, subnodes, i, acc, CloseTag(asHtml, "ul"));
          acc :- NestText(sub, acc + OpenTag(asHtml, "li"));
          acc := acc + CloseTag(asHtml, "li");
          i := i + 1;
        }
        assert subnodes[i..] == [] && acc + [] == acc;
        acc := acc + CloseTag(asHtml, "ul");
      }
      r := Ok(acc);
    }

    /** `handleActionItems`: a titled list with one nested item per child. */
    method HandleActionItems(node: Node) returns (r: Result<seq<string>, Failure>)
      ensures r == ActionLines(asHtml, node)
    {
      var ret := [TitleLine(asHtml, ActionTitle)];
      ret := ret + OpenTag(asHtml, "ul");
      var kids := node.children;
      var i := 0;
      assert kids[i..] == kids;
      ActionLinesSplit(asHtml, node);
      while i < |kids|
        invariant 0 <= i <= |kids|
        invariant ActionLines(asHtml, node)
               == FollowedBy(Extended(ret, NestChildren(asHtml, kids[i..])), CloseTag(asHtml, "ul"))
      {
        var sub := kids[i];
        NestChildrenAt(asHtml, kids, i, ret, CloseTag(asHtml, "ul"));
        ret :- NestText(sub, ret + OpenTag(asHtml, "li"));
        ret := ret + CloseTag(asHtml, "li");
        i := i + 1;
      }
      assert kids[i..] == [] && ret + [] == ret;
      r := Ok(ret + CloseTag(asHtml, "ul"));
    }

    /**
      `handleDiscussed`: collects the utterances speaker by speaker, sorts
      them when ordering by time, records the first one's time in
      `start_time` and writes one block per run of one speaker.
     */
    method HandleDiscussed(node: Node, clock: int -> string) returns (r: Result<seq<string>, Failure>)
      modifies this
      ensures etIn == old(etIn) && asHtml == old(asHtml) && titleText == old(titleText)
      ensures fullHtml == old(fullHtml) && orderByTime == old(orderByTime)
      ensures
        var d := DiscussedOf(Config(asHtml, orderByTime, clock), node);
        (d.Ok? ==> r == Ok(d.value.lines) && startTime == Some(d.value.start))
        && (d.Err? ==> r == Err(d.error) && startTime == old(startTime))
    {
      var cfg := Config(asHtml, orderByTime, clock);
      var pt := CollectUtterances(node);
      if pt.Err? {
        r := Err(pt.error);
        return;
      }
      var es := Ordered(orderByTime, pt.value);
      if |es| == 0 {
        r := Err(EmptyDiscussion);
        return;
      }
      startTime := Some(es[0].time);
      var ret := WriteRuns(cfg, es[0].time, es);
      r := Ok(ret);
    }

    /** The output loop of `handleDiscussed`: one block per run of utterances by one speaker. */
    method WriteRuns(cfg: Config, start: int, es: seq<Utterance>) returns (lines: seq<string>)
      requires cfg.html == asHtml && cfg.byTime == orderByTime
      ensures lines == [TitleLine(asHtml, DiscussionTitle)] + OpenTag(asHtml, "ul") + RunLines(cfg, start, es, None)
                       + CloseTag(asHtml, "ul") + CloseTag(asHtml, "li") + CloseTag(asHtml, "ul")
    {
      var openUl, closeUl := OpenTag(cfg.html, "ul"), CloseTag(cfg.html, "ul");
      var openLi, closeLi := OpenTag(cfg.html, "li"), CloseTag(cfg.html, "li");
      var ret := [TitleLine(cfg.html, DiscussionTitle)] + openUl;
      ghost var want := ret + RunLines(cfg, start, es, None);
      var lastName: Option<string> := None;
      var i := 0;
      assert es[i..] == es;
      while i < |es|
        invariant 0 <= i <= |es|
        invariant lastName == if i == 0 then None else Some(es[i - 1].speaker)
        invariant cfg.html ==> |ret| >= 2 && (|ret| > 2 <==> i > 0)
        invariant ret + RunLines(cfg, start, es[i..], lastName) == want
      {
        var u := es[i];
        RunLinesAt(cfg, start, es, i, lastName);
        var closing: seq<string> := [];
        if |ret| > 2 {
          closing := closeUl + closeLi;
        }
        ClosingMatches(cfg, |ret| > 2, lastName);
        var header: seq<string> := [];
        if Some(u.speaker) != lastName {
          header := closing + openLi + [SpeakerHeader(cfg, start, u)] + openUl;
        }
        var block := header + openLi + [u.text] + closeLi;
        assert block == RunBlock(cfg, start, u, lastName);
        AppendAssoc(ret, block, RunLines(cfg, start, es[i + 1..], Some(u.speaker)));
        lastName := Some(u.speaker);
        ret := ret + block;
        i := i + 1;
      }
      assert es[i..] == [];
      assert RunLines(cfg, start, es[i..], lastName) == [];
      assert ret == want by { assert ret + [] == ret; }
      lines := ret + closeUl + closeLi + closeUl;
    }

    /** The nested loops of `handleDiscussed` that fill `people_time`. */
    method CollectUtterances(node: Node) returns (r: Result<seq<Utterance>, Failure>)
      ensures r == Utterances(asHtml, node.children)
    {
      var speakers := node.children;
      var pt: seq<Utterance> := [];
      var i := 0;
      assert speakers[i..] == speakers;
      ExtendedEmpty(Utterances(asHtml, speakers));
      while i < |speakers|
        invariant 0 <= i <= |speakers|
        invariant Utterances(asHtml, speakers) == Extended(pt, Utterances(asHtml, speakers[i..]))
      {
        var sub := speakers[i];
        UtterancesAt(asHtml, speakers, i, pt);
        if sub.text.None? {
          r := Err(MissingText);
          return;
        }
        var name := sub.text.value;
        var subs := sub.children;
        var rest := Utterances(asHtml, speakers[i + 1..]);
        var j := 0;
        assert subs[j..] == subs;
        while j < |subs|
          invariant 0 <= j <= |subs|
          invariant Utterances(asHtml, speakers) == Extended(pt, Concat(SpeakerUtterances(asHtml, name, subs[j..]), rest))
        {
          var subsub := subs[j];
          SpeakerUtterancesAt(asHtml, name, subs, j, pt, rest);
          if subsub.created.None? {
            r := Err(MissingCreated);
            return;
          }
          var time := subsub.created.value;
          var nested := NestText(subsub, []);
          if nested.Err? {
            r := Err(nested.error);
            return;
          }
          ExtendedEmpty(NestLines(asHtml, subsub));
          var cur := nested.value;
          var text := Join("\n", cur);
          if |text| > 0 {
            pt := pt + [Utterance(time, name, text)];
          } else {
            assert pt + [] == pt;
          }
          j := j + 1;
        }
        SpeakerUtterancesEnd(asHtml, name, subs, pt, rest);
        i := i + 1;
      }
      assert speakers[i..] == [] && pt + [] == pt;
      r := Ok(pt);
    }
  }
}
