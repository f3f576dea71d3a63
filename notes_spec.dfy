/**
  What the meeting-notes converter computes, as functions of the document:
  classification of the presentation node's children by keyword, the
  renderers of each section, and the assembly of the whole page.  The class
  `Notes.Mm2Notes` computes the same things step by step and is proved
  equal to these functions; the properties are proved about these
  functions in `NotesProps`.
 */
module NotesSpec {

  import opened Wrappers
  import opened Text
  import opened MindMap

  // ---------------------------------------------------------------------
  // Classification of the top-level children

  datatype Section = Attendees | Topic | Discussion | ActionItems | MeetingDay | MeetingLocation | Unclassified

  /** The keyword prefixes of each section, as the chain of tests in `convert` lists them. */
  function Keys(c: Section): seq<string> {
    match c
    case Attendees => ["attendee", "people", "人员"]
    case Topic => ["topic", "subject", "议题"]
    case Discussion => ["discus", "minutes", "meeting", "notes", "记录"]
    case ActionItems => ["action", "a.i", "ai", "下一步工作"]
    case MeetingDay => ["时间"]
    case MeetingLocation => ["地点"]
    case Unclassified => []
  }

  /** Position of a section's test in the chain; earlier tests take precedence. */
  function Rank(c: Section): nat {
    match c
    case Attendees => 0
    case Topic => 1
    case Discussion => 2
    case ActionItems => 3
    case MeetingDay => 4
    case MeetingLocation => 5
    case Unclassified => 6
  }

  /** `starts_with(name, keys)`: the lower-cased name begins with one of the keys. */
  function KeyPrefixed(name: string, keys: seq<string>): (b: bool)
    ensures b <==> exists k :: k in keys && StartsWith(Lower(name), k)
  {
    if keys == [] then false
    else if StartsWith(Lower(name), keys[0]) then
      assert keys[0] in keys;
      true
    else
      assert forall k :: k in keys <==> k == keys[0] || k in keys[1..];
      KeyPrefixed(name, keys[1..])
  }

  /** The section a top-level child with this text is rendered into. */
  function Classify(name: string): (c: Section)
    ensures c != Unclassified ==> KeyPrefixed(name, Keys(c))
    ensures forall d :: Rank(d) < Rank(c) ==> !KeyPrefixed(name, Keys(d))
  {
    if KeyPrefixed(name, Keys(Attendees)) then Attendees
    else if KeyPrefixed(name, Keys(Topic)) then Topic
    else if KeyPrefixed(name, Keys(Discussion)) then Discussion
    else if KeyPrefixed(name, Keys(ActionItems)) then ActionItems
    else if KeyPrefixed(name, Keys(MeetingDay)) then MeetingDay
    else if KeyPrefixed(name, Keys(MeetingLocation)) then MeetingLocation
    else Unclassified
  }

  // ---------------------------------------------------------------------
  // HTML helpers (`nl`, `title`, `open_tag`, `close_tag`, `_open_close`, `escape`)

  function Nl(html: bool): string {
    if html then "<br/>\n" else "\n"
  }

  function TitleLine(html: bool, name: string): string {
    if html then "<b>" + name + "</b><br/>" else name
  }

  /** The lines `open_tag` appends: the tag in HTML mode, nothing otherwise. */
  function OpenTag(html: bool, tag: string): seq<string> {
    if html then ["<" + tag + ">"] else []
  }

  function CloseTag(html: bool, tag: string): seq<string> {
    if html then ["</" + tag + ">"] else []
  }

  function OpenClose(html: bool, tag: string, text: string): string {
    if html then "<" + tag + ">" + Escape(text) + "</" + tag + ">" else text
  }

  function EscapeIf(html: bool, text: string): string {
    if html then Escape(text) else text
  }

  // ---------------------------------------------------------------------
  // nest_text: a node's text, then its children as a nested list

  function NestLines(html: bool, n: Node): Result<seq<string>, Failure>
    decreases n, 1
  {
    var t :- TextOf(n);
    var sub :- NestChildren(html, n.children);
    Ok([EscapeIf(html, t)]
       + (if |n.children| > 0 then OpenTag(html, "ul") + sub + CloseTag(html, "ul") else []))
  }

  /** Each node as a list item: `<li>`, its nested text, `</li>`. */
  function NestChildren(html: bool, ns: seq<Node>): Result<seq<string>, Failure>
    decreases ns, 0
  {
    if ns == [] then Ok([])
    else
      var a :- NestLines(html, ns[0]);
      var b :- NestChildren(html, ns[1..]);
      Ok(OpenTag(html, "li") + a + CloseTag(html, "li") + b)
  }

  // ---------------------------------------------------------------------
  // Attendees

  /** `maxdepth`: 0 for no nodes, otherwise one more than the deepest child list. */
  function MaxDepth(ns: seq<Node>): nat {
    if ns == [] then 0
    else
      var first := 1 + MaxDepth(ns[0].children);
      var rest := MaxDepth(ns[1..]);
      if first < rest then rest else first
  }

  /** One `twoLevelAttendees` entry: `name (x)` for a non-empty first sub-node text `x`. */
  function AttendeeEntry(line: Node): Result<string, Failure> {
    var fullname :- TextOf(line);
    var email :- if |line.children| > 0 then TextOf(line.children[0]) else Ok("");
    Ok(if |email| > 0 then fullname + " (" + email + ")" else fullname)
  }

  /** One `threeLevelAttendees` entry: `location [name, name]`. */
  function LocationEntry(location: Node): Result<string, Failure> {
    var locName :- TextOf(location);
    var names :- MapAll(AttendeeEntry, location.children);
    Ok(locName + " [" + Join(", ", names) + "]")
  }

  /** The names `handleAttendees` lists, by the layout the maximum depth selects. */
  function AttendeeNames(node: Node): Result<seq<string>, Failure> {
    var mxd := MaxDepth(node.children);
    if mxd >= 3 then MapAll(LocationEntry, node.children)
    else if mxd == 2 then MapAll(AttendeeEntry, node.children)
    else if mxd == 1 then MapAll(TextOf, node.children)
    else Ok([])
  }

  const AttendeesLabel: string := "人员: "

  function AttendeeLines(html: bool, node: Node): Result<seq<string>, Failure> {
    var names :- AttendeeNames(node);
    Ok([OpenClose(html, "b", AttendeesLabel) + Join(", ", names) + Nl(html)])
  }

  // ---------------------------------------------------------------------
  // Topic, meeting day, meeting location

  const TopicLabel: string := "议题: "
  const DayLabel: string := "时间: "
  const LocationLabel: string := "地点: "

  /** `handleTopic`, `handleMeetingDay`, `handleMeetingLocation`: the label and the child texts. */
  function LabelledLines(html: bool, caption: string, node: Node): Result<seq<string>, Failure> {
    var texts :- MapAll(TextOf, node.children);
    Ok([OpenClose(html, "b", caption) + Join(" ", texts) + Nl(html)])
  }

  // ---------------------------------------------------------------------
  // Discussion

  /** One `people_time` tuple: when it was said, by whom, and its rendered text. */
  datatype Utterance = Utterance(time: int, speaker: string, text: string)

  /** `int(node.attrib['CREATED'])`. */
  function CreatedOf(n: Node): (r: Result<int, Failure>)
    ensures r.Ok? <==> n.created.Some?
  {
    match n.created
    case Some(t) => Ok(t)
    case None => Err(MissingCreated)
  }

  /** The utterances under one speaker node whose rendered text is not empty. */
  function SpeakerUtterances(html: bool, name: string, subs: seq<Node>): Result<seq<Utterance>, Failure> {
    if subs == [] then Ok([])
    else
      var time :- CreatedOf(subs[0]);
      var cur :- NestLines(html, subs[0]);
      var text := Join("\n", cur);
      var rest :- SpeakerUtterances(html, name, subs[1..]);
      Ok((if |text| > 0 then [Utterance(time, name, text)] else []) + rest)
  }

  /** All utterances of the discussion node, speaker by speaker. */
  function Utterances(html: bool, speakers: seq<Node>): Result<seq<Utterance>, Failure> {
    if speakers == [] then Ok([])
    else
      var name :- TextOf(speakers[0]);
      var first :- SpeakerUtterances(html, name, speakers[0].children);
      var rest :- Utterances(html, speakers[1..]);
      Ok(first + rest)
  }

  /** Python's ordering of strings: code point by code point, a prefix first. */
  predicate StrLe(a: string, b: string) {
    a == [] || (b != [] && (a[0] < b[0] || (a[0] == b[0] && StrLe(a[1..], b[1..]))))
  }

  /** Python's ordering of `(time, name, text)` tuples. */
  predicate UtteranceLe(x: Utterance, y: Utterance) {
    x.time < y.time
    || (x.time == y.time
        && ((x.speaker != y.speaker && StrLe(x.speaker, y.speaker))
            || (x.speaker == y.speaker && StrLe(x.text, y.text))))
  }

  function Insert(x: Utterance, s: seq<Utterance>): seq<Utterance> {
    if s == [] then [x]
    else if UtteranceLe(x, s[0]) then [x] + s
    else [s[0]] + Insert(x, s[1..])
  }

  /** `people_time.sort()`. */
  function SortUtterances(s: seq<Utterance>): seq<Utterance> {
    if s == [] then [] else Insert(s[0], SortUtterances(s[1..]))
  }

  /** How the converter is set up: HTML or plain text, time order or not, and the host's clock. */
  datatype Config = Config(html: bool, byTime: bool, clock: int -> string)

  /**
    `format_time`: the time since the first utterance, in seconds rounded
    down; a point less than a second after the start is shown as the host's
    wall-clock reading of the start (`clock`).
   */
  function FormatTime(clock: int -> string, start: int, curtime: int): string {
    var timesecs := (curtime - start) / 1000;
    var minutes := timesecs / 60;
    var sec := timesecs % 60;
    if minutes == 0 && sec == 0 then clock(start)
    else if minutes == 0 then Decimal(sec) + " secs"
    else if sec == 0 then Decimal(minutes) + " min"
    else Decimal(minutes) + " min " + Decimal(sec) + " sec"
  }

  /** The speaker line of a run: the name, and in time order `show_user_time`'s elapsed time. */
  function SpeakerHeader(cfg: Config, start: int, u: Utterance): string {
    if cfg.byTime then u.speaker + " (" + FormatTime(cfg.clock, start, u.time) + ")" else u.speaker
  }

  /**
    The loop of `handleDiscussed` over the utterances `us`, `last` being the
    speaker of the utterance before them.
   */
  function RunLines(cfg: Config, start: int, us: seq<Utterance>, last: Option<string>): seq<string> {
    if us == [] then []
    else
      var u := us[0];
      var header :=
        if last != Some(u.speaker) then
          (if last.Some? then CloseTag(cfg.html, "ul") + CloseTag(cfg.html, "li") else [])
          + OpenTag(cfg.html, "li") + [SpeakerHeader(cfg, start, u)] + OpenTag(cfg.html, "ul")
        else [];
      header + OpenTag(cfg.html, "li") + [u.text] + CloseTag(cfg.html, "li")
      + RunLines(cfg, start, us[1..], Some(u.speaker))
  }

  function Ordered(byTime: bool, us: seq<Utterance>): seq<Utterance> {
    if byTime then SortUtterances(us) else us
  }

  /** What `handleDiscussed` returns, and the `start_time` it records. */
  datatype Discussed = Discussed(lines: seq<string>, start: int)

  const DiscussionTitle: string := "记录"

  function DiscussedOf(cfg: Config, node: Node): Result<Discussed, Failure> {
    var us :- Utterances(cfg.html, node.children);
    var es := Ordered(cfg.byTime, us);
    if es == [] then Err(EmptyDiscussion)
    else
      var start := es[0].time;
      Ok(Discussed(
        [TitleLine(cfg.html, DiscussionTitle)] + OpenTag(cfg.html, "ul")
        + RunLines(cfg, start, es, None)
        + CloseTag(cfg.html, "ul") + CloseTag(cfg.html, "li") + CloseTag(cfg.html, "ul"),
        start))
  }

  // ---------------------------------------------------------------------
  // Action items

  const ActionTitle: string := "下一步工作"

  function ActionLines(html: bool, node: Node): Result<seq<string>, Failure> {
    var items :- NestChildren(html, node.children);
    Ok([TitleLine(html, ActionTitle)] + OpenTag(html, "ul") + items + CloseTag(html, "ul"))
  }

  // ---------------------------------------------------------------------
  // convert

  /** The renderer the chain of tests in `convert` dispatches a section to. */
  function Handle(cfg: Config, c: Section, node: Node): Result<seq<string>, Failure> {
    match c
    case Attendees => AttendeeLines(cfg.html, node)
    case Topic => LabelledLines(cfg.html, TopicLabel, node)
    case Discussion => var d :- DiscussedOf(cfg, node); Ok(d.lines)
    case ActionItems => ActionLines(cfg.html, node)
    case MeetingDay => LabelledLines(cfg.html, DayLabel, node)
    case MeetingLocation => LabelledLines(cfg.html, LocationLabel, node)
    case Unclassified => Ok([])
  }

  /**
    The local variables of `convert` (`meetinglocation` starts unassigned)
    and the object's `start_time` (None while the attribute does not exist).
   */
  datatype Acc = Acc(
    attendees: seq<string>,
    topic: seq<string>,
    discussed: seq<string>,
    actionItems: seq<string>,
    meetingDay: seq<string>,
    meetingLocation: Option<seq<string>>,
    startTime: Option<int>)

  function InitialAcc(startTime: Option<int>): Acc {
    Acc([], [], [], [], [], None, startTime)
  }

  /** One iteration of the loop of `convert`. */
  function Step(cfg: Config, acc: Acc, node: Node): Result<Acc, Failure> {
    var name :- TextOf(node);
    match Classify(name)
    case Attendees => var ls :- AttendeeLines(cfg.html, node); Ok(acc.(attendees := ls))
    case Topic => var ls :- LabelledLines(cfg.html, TopicLabel, node); Ok(acc.(topic := ls))
    case Discussion => var d :- DiscussedOf(cfg, node); Ok(acc.(discussed := d.lines, startTime := Some(d.start)))
    case ActionItems => var ls :- ActionLines(cfg.html, node); Ok(acc.(actionItems := ls))
    case MeetingDay => var ls :- LabelledLines(cfg.html, DayLabel, node); Ok(acc.(meetingDay := ls))
    case MeetingLocation =>
      var ls :- LabelledLines(cfg.html, LocationLabel, node); Ok(acc.(meetingLocation := Some(ls)))
    case Unclassified => Ok(acc)
  }

  /** Where the loop stopped: the variables then, and the exception that stopped it, if any. */
  datatype Walked = Walked(acc: Acc, failure: Option<Failure>)

  function Walk(cfg: Config, acc: Acc, nodes: seq<Node>): Walked
    decreases |nodes|
  {
    if nodes == [] then Walked(acc, None)
    else
      var s := Step(cfg, acc, nodes[0]);
      if s.Err? then Walked(acc, Some(s.error)) else Walk(cfg, s.value, nodes[1..])
  }

  /** `handleTitle`. */
  function TitleLines(html: bool, title: string): seq<string> {
    if html then ["<h3>" + title + "</h3>"] else [title]
  }

  /** `html_wrapper`: the XHTML head and tail around the body when `full_html` is set. */
  function HtmlWrapper(fullHtml: bool, title: string, body: seq<string>): seq<string> {
    if fullHtml then
      [ "<?xml version=\"1.0\" encoding=\"UTF-8\"?>",
        "<!DOCTYPE html PUBLIC \"-//W3C//DTD XHTML 1.0 Strict//EN\" ",
        "\"http://www.w3.org/TR/xhtml1/DTD/xhtml1-strict.dtd\">",
        "<html xmlns=\"http://www.w3.org/1999/xhtml\">",
        "<head>",
        "<title>" + title + "</title>",
        "</head>",
        "<body>" ]
      + body + ["</body>", "</html>"]
    else body
  }

  /** The sections in the order the page shows them. */
  function Body(html: bool, title: string, acc: Acc): seq<string>
    requires acc.meetingLocation.Some?
  {
    TitleLines(html, title) + acc.meetingDay + acc.meetingLocation.value + acc.attendees
    + acc.topic + acc.actionItems + acc.discussed
  }

  /** The outcome of `convert`, and the object's `title_text` and `start_time` afterwards. */
  datatype NotesRun = NotesRun(result: Result<seq<string>, Failure>, titleText: string, startTime: Option<int>)

  function ConvertOf(cfg: Config, fullHtml: bool, etIn: Option<Node>, titleText: string, startTime: Option<int>): NotesRun {
    if etIn.None? then NotesRun(Err(NotLoaded), titleText, startTime)
    else if |etIn.value.children| == 0 then NotesRun(Err(NoPresentation), titleText, startTime)
    else
      var presentation := etIn.value.children[0];
      match presentation.text
      case None => NotesRun(Err(MissingText), titleText, startTime)
      case Some(title) => Finished(cfg, fullHtml, title, Walk(cfg, InitialAcc(startTime), presentation.children))
  }

  /** What `convert` does once its loop has stopped at `w`. */
  function Finished(cfg: Config, fullHtml: bool, title: string, w: Walked): NotesRun {
    if w.failure.Some? then NotesRun(Err(w.failure.value), title, w.acc.startTime)
    else if w.acc.meetingLocation.None? then NotesRun(Err(LocationUnset), title, w.acc.startTime)
    else NotesRun(Ok(HtmlWrapper(fullHtml, title, Body(cfg.html, title, w.acc))), title, w.acc.startTime)
  }
}
