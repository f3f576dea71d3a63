/**
  Well-nested list and table markup in a sequence of output lines.  A line
  is a tag line when, after its leading spaces, it is exactly one of the
  opening or closing tags the converters write on a line of their own;
  every other line is content.  The lines are balanced when reading them
  with a stack of open tags never closes a tag that is not the innermost
  one open and leaves nothing open.

  The unit is an element of the converters' line lists, and an element
  may hold newlines (a joined utterance, a multi-line item).  `SplitAll`
  and `WrittenBalanced` relate that to the text as written, joined by
  newlines and read back one line at a time.
 */
module Markup {

  import opened Wrappers
  import opened Text

  datatype Tag = UL | OL | LI | TABLE | TR

  datatype Event = Open(tag: Tag) | Close(tag: Tag)

  /** `s` without its leading spaces. */
  function StripSpaces(s: string): (r: string)
    ensures |r| <= |s| && r == s[|s| - |r|..]
    ensures r == [] || r[0] != ' '
  {
    if s != [] && s[0] == ' ' then StripSpaces(s[1..]) else s
  }

  /** The tag a line stands for, if it is a tag line. */
  function TagEvent(line: string): (e: Option<Event>)
    ensures e.Some? ==> line != [] && line[|line| - 1] == '>'
  {
    TagText(StripSpaces(line))
  }

  /** The tag a line's text after its indentation stands for, if any. */
  function TagText(t: string): (e: Option<Event>)
    ensures e.Some? ==> t != [] && t[0] == '<' && t[|t| - 1] == '>'
  {
    if |t| < 3 || t[0] != '<' || t[|t| - 1] != '>' then None
    else if t[1] == '/' then
      match CloseName(t[2..|t| - 1])
      case Some(g) => Some(Close(g))
      case None => None
    else
      match OpenName(t[1..|t| - 1])
      case Some(g) => Some(Open(g))
      case None => None
  }

  /** The tag an opening tag's name (and class) stands for, dispatched on its first letter. */
  function OpenName(n: string): Option<Tag> {
    if n == [] then None
    else if n[0] == 'u' then (if n == "ul" || n == "ul class=\"incremental\"" then Some(UL) else None)
    else if n[0] == 'o' then (if n == "ol" || n == "ol class=\"incremental\"" then Some(OL) else None)
    else if n[0] == 'l' then (if n == "li" then Some(LI) else None)
    else if n[0] == 't' then (if n == "table" then Some(TABLE) else if n == "tr" then Some(TR) else None)
    else None
  }

  /** The tag a closing tag's name stands for, dispatched on its first letter. */
  function CloseName(n: string): Option<Tag> {
    if n == [] then None
    else if n[0] == 'u' then (if n == "ul" then Some(UL) else None)
    else if n[0] == 'o' then (if n == "ol" then Some(OL) else None)
    else if n[0] == 'l' then (if n == "li" then Some(LI) else None)
    else if n[0] == 't' then (if n == "table" then Some(TABLE) else if n == "tr" then Some(TR) else None)
    else None
  }

  lemma UlOpenLine()
    ensures TagEvent("<ul>") == Some(Open(UL))
  {
    OpenTagLine("ul", UL);
    assert "<" + "ul" + ">" == "<ul>";
  }

  lemma UlCloseLine()
    ensures TagEvent("</ul>") == Some(Close(UL))
  {
    CloseTagLine("ul", UL);
    assert "</" + "ul" + ">" == "</ul>";
  }

  lemma LiOpenLine()
    ensures TagEvent("<li>") == Some(Open(LI))
  {
    OpenTagLine("li", LI);
    assert "<" + "li" + ">" == "<li>";
  }

  lemma LiCloseLine()
    ensures TagEvent("</li>") == Some(Close(LI))
  {
    CloseTagLine("li", LI);
    assert "</" + "li" + ">" == "</li>";
  }

  /**
    Reads `lines` with `stack` open (innermost first); the stack left open at
    the end, or None if a closing tag does not match the innermost open one.
   */
  function Run(lines: seq<string>, stack: seq<Tag>): Option<seq<Tag>>
  {
    if lines == [] then Some(stack)
    else match TagEvent(lines[0])
      case None => Run(lines[1..], stack)
      case Some(Open(t)) => Run(lines[1..], [t] + stack)
      case Some(Close(t)) =>
        if stack != [] && stack[0] == t then Run(lines[1..], stack[1..]) else None
  }

  predicate Balanced(lines: seq<string>) {
    Run(lines, []) == Some([])
  }

  /** Reading a content line leaves the stack as it is. */
  lemma RunContent(line: string, rest: seq<string>, stack: seq<Tag>)
    requires TagEvent(line) == None
    ensures Run([line] + rest, stack) == Run(rest, stack)
  {
    assert ([line] + rest)[0] == line && ([line] + rest)[1..] == rest;
  }

  /** Reading an opening tag line pushes its tag. */
  lemma RunOpen(line: string, t: Tag, rest: seq<string>, stack: seq<Tag>)
    requires TagEvent(line) == Some(Open(t))
    ensures Run([line] + rest, stack) == Run(rest, [t] + stack)
  {
    assert ([line] + rest)[0] == line && ([line] + rest)[1..] == rest;
  }

  /** Reading the closing tag line of the innermost open tag pops it. */
  lemma RunClose(line: string, t: Tag, rest: seq<string>, stack: seq<Tag>)
    requires TagEvent(line) == Some(Close(t))
    ensures Run([line] + rest, [t] + stack) == Run(rest, stack)
  {
    assert ([line] + rest)[0] == line && ([line] + rest)[1..] == rest;
    assert ([t] + stack)[1..] == stack;
  }

  /** A content line on its own is balanced. */
  lemma ContentBalanced(line: string)
    requires TagEvent(line) == None
    ensures Balanced([line])
  {
    RunContent(line, [], []);
    assert [line] + [] == [line];
  }

  /** Reading `a + b` is reading `a`, then reading `b` from where `a` left off. */
  lemma {:induction false} RunAppend(a: seq<string>, b: seq<string>, stack: seq<Tag>)
    ensures Run(a + b, stack) == (match Run(a, stack) case None => None case Some(s) => Run(b, s))
  {
    if a != [] {
      assert (a + b)[0] == a[0];
      assert (a + b)[1..] == a[1..] + b;
      match TagEvent(a[0])
      case None => RunAppend(a[1..], b, stack);
      case Some(Open(t)) => RunAppend(a[1..], b, [t] + stack);
      case Some(Close(t)) =>
        if stack != [] && stack[0] == t { RunAppend(a[1..], b, stack[1..]); }
    } else {
      assert a + b == b;
    }
  }

  /** What is open below the stack is untouched by lines that only reach into the top of it. */
  lemma {:induction false} RunBelow(a: seq<string>, stack: seq<Tag>, below: seq<Tag>, after: seq<Tag>)
    requires Run(a, stack) == Some(after)
    ensures Run(a, stack + below) == Some(after + below)
  {
    if a != [] {
      match TagEvent(a[0])
      case None => RunBelow(a[1..], stack, below, after);
      case Some(Open(t)) =>
        assert [t] + (stack + below) == ([t] + stack) + below;
        RunBelow(a[1..], [t] + stack, below, after);
      case Some(Close(t)) =>
        assert (stack + below)[1..] == stack[1..] + below;
        RunBelow(a[1..], stack[1..], below, after);
    }
  }

  /** Balanced lines leave any enclosing stack as they found it. */
  lemma BalancedInside(a: seq<string>, stack: seq<Tag>)
    requires Balanced(a)
    ensures Run(a, stack) == Some(stack)
  {
    RunBelow(a, [], stack, []);
    assert [] + stack == stack;
  }

  /** Two balanced blocks in a row are balanced. */
  lemma BalancedAppend(a: seq<string>, b: seq<string>)
    requires Balanced(a) && Balanced(b)
    ensures Balanced(a + b)
  {
    RunAppend(a, b, []);
  }

  /** A balanced block between an opening tag line and the matching closing tag line is balanced. */
  lemma BalancedWrap(open: string, body: seq<string>, close: string, t: Tag)
    requires TagEvent(open) == Some(Open(t)) && TagEvent(close) == Some(Close(t))
    requires Balanced(body)
    ensures Balanced([open] + body + [close])
  {
    BalancedInside(body, [t]);
    assert Run([open], []) == Some([t]) by { assert [t] + [] == [t]; }
    RunAppend([open], body, []);
    assert Run([close], [t]) == Some([]);
    RunAppend([open] + body, [close], []);
  }

  /** A line without `<` is content, whatever its indentation. */
  lemma {:induction false} NoAngleIsContent(line: string)
    requires '<' !in line
    ensures TagEvent(line) == None
  {
    StripSpacesSuffix(line);
  }

  lemma {:induction false} StripSpacesSuffix(s: string)
    ensures exists k :: 0 <= k <= |s| && StripSpaces(s) == s[k..]
  {
    if s != [] && s[0] == ' ' {
      StripSpacesSuffix(s[1..]);
      var k :| 0 <= k <= |s[1..]| && StripSpaces(s[1..]) == s[1..][k..];
      assert s[1..][k..] == s[k + 1..];
    } else {
      assert s == s[0..];
    }
  }

  /** Leading spaces of an indentation are stripped. */
  lemma StripIndent(n: nat, s: string)
    ensures StripSpaces(Spaces(n) + s) == StripSpaces(s)
  {
    StripAppend(Spaces(n), s);
  }

  /** Stripping a concatenation whose first part holds something other than spaces. */
  lemma {:induction false} StripAppend(a: string, b: string)
    ensures StripSpaces(a + b) == if StripSpaces(a) == [] then StripSpaces(b) else StripSpaces(a) + b
  {
    if a == [] {
      assert a + b == b;
    } else if a[0] == ' ' {
      assert (a + b)[1..] == a[1..] + b;
      StripAppend(a[1..], b);
    }
  }

  /** A line whose text after indentation starts with `c` that is not `<` is content. */
  lemma NotAngleStartIsContent(line: string)
    requires StripSpaces(line) == [] || StripSpaces(line)[0] != '<'
    ensures TagEvent(line) == None
  {
  }

  lemma OlOpenLine()
    ensures TagEvent("<ol>") == Some(Open(OL))
  {
    OpenTagLine("ol", OL);
    assert "<" + "ol" + ">" == "<ol>";
  }

  lemma OlCloseLine()
    ensures TagEvent("</ol>") == Some(Close(OL))
  {
    CloseTagLine("ol", OL);
    assert "</" + "ol" + ">" == "</ol>";
  }

  /** `<n>` is an opening tag line when `n` names a tag. */
  lemma OpenTagLine(n: string, g: Tag)
    requires OpenName(n) == Some(g)
    ensures TagEvent("<" + n + ">") == Some(Open(g))
  {
    var t := "<" + n + ">";
    assert StripSpaces(t) == t;
    assert t[1..|t| - 1] == n;
  }

  /** `</n>` is a closing tag line when `n` names a tag. */
  lemma CloseTagLine(n: string, g: Tag)
    requires CloseName(n) == Some(g)
    ensures TagEvent("</" + n + ">") == Some(Close(g))
  {
    var t := "</" + n + ">";
    assert StripSpaces(t) == t;
    assert t[2..|t| - 1] == n;
  }

  lemma UlClassOpenLine()
    ensures TagEvent("<ul class=\"incremental\">") == Some(Open(UL))
  {
    OpenTagLine("ul class=\"incremental\"", UL);
    UlClassText();
  }

  lemma UlClassText()
    ensures "<" + "ul class=\"incremental\"" + ">" == "<ul class=\"incremental\">"
  {
  }

  lemma OlClassOpenLine()
    ensures TagEvent("<ol class=\"incremental\">") == Some(Open(OL))
  {
    OpenTagLine("ol class=\"incremental\"", OL);
    OlClassText();
  }

  lemma OlClassText()
    ensures "<" + "ol class=\"incremental\"" + ">" == "<ol class=\"incremental\">"
  {
  }

  lemma TableOpenLine()
    ensures TagEvent("<table>") == Some(Open(TABLE))
  {
    OpenTagLine("table", TABLE);
    assert "<" + "table" + ">" == "<table>";
  }

  lemma TableCloseLine()
    ensures TagEvent("</table>") == Some(Close(TABLE))
  {
    CloseTagLine("table", TABLE);
    assert "</" + "table" + ">" == "</table>";
  }

  lemma TrLine()
    ensures TagEvent("<tr>") == Some(Open(TR))
  {
    OpenTagLine("tr", TR);
    assert "<" + "tr" + ">" == "<tr>";
  }

  lemma TrEndLine()
    ensures TagEvent("</tr>") == Some(Close(TR))
  {
    CloseTagLine("tr", TR);
    assert "</" + "tr" + ">" == "</tr>";
  }

  lemma TwoSpaces(s: string)
    ensures "  " + s == Spaces(2) + s
  {
    assert Spaces(2) == " " + Spaces(1);
  }

  lemma TrOpenLine(n: nat)
    ensures TagEvent(Spaces(n) + ("  " + "<tr>")) == Some(Open(TR))
  {
    TwoSpaces("<tr>");
    IndentedEvent(2, "<tr>");
    IndentedEvent(n, "  " + "<tr>");
    TrLine();
  }

  lemma TrCloseLine(n: nat)
    ensures TagEvent(Spaces(n) + ("  " + "</tr>")) == Some(Close(TR))
  {
    TwoSpaces("</tr>");
    IndentedEvent(2, "</tr>");
    IndentedEvent(n, "  " + "</tr>");
    TrEndLine();
  }

  /** Indentation does not change what a line stands for. */
  lemma IndentedEvent(n: nat, s: string)
    ensures TagEvent(Spaces(n) + s) == TagEvent(s)
  {
    StripIndent(n, s);
  }

  /**
    A line starting with `<` is content unless its second character is one
    a list or table tag starts with (`u`, `o`, `l`, `t`, `/`); starting `<l`
    it must be exactly `<li>`, starting `<t` it must continue with `a` or `r`.
   */
  lemma NotTagText(t: string)
    requires |t| >= 3 && t[0] == '<'
    requires (t[1] != 'u' && t[1] != 'o' && t[1] != 'l' && t[1] != 't' && t[1] != '/')
             || (t[1] == 'l' && |t| != 4)
             || (t[1] == 't' && t[2] != 'a' && t[2] != 'r')
    ensures TagEvent(t) == None
  {
    assert StripSpaces(t) == t;
  }

  /** Lines that are all content are balanced. */
  lemma {:induction false} AllContentBalanced(lines: seq<string>, stack: seq<Tag>)
    requires forall i :: 0 <= i < |lines| ==> TagEvent(lines[i]) == None
    ensures Run(lines, stack) == Some(stack)
  {
    if lines != [] {
      AllContentBalanced(lines[1..], stack);
    }
  }

  // ---------------------------------------------------------------------
  // Written text: an element of a line list may itself hold newlines

  /** The lines a reader of the written text sees: every element broken at its newlines. */
  function SplitAll(lines: seq<string>): seq<string> {
    if lines == [] then [] else Split(lines[0], '\n') + SplitAll(lines[1..])
  }

  /** Joining `lines` with newlines and breaking the text at newlines again gives `SplitAll(lines)`. */
  lemma {:induction false} JoinSplitAll(lines: seq<string>)
    requires |lines| > 0
    ensures Split(Join("\n", lines), '\n') == SplitAll(lines)
  {
    if |lines| == 1 {
      assert SplitAll(lines) == Split(lines[0], '\n') + SplitAll(lines[1..]);
      assert Split(lines[0], '\n') + [] == Split(lines[0], '\n');
    } else {
      var rest := Join("\n", lines[1..]);
      assert Join("\n", lines) == lines[0] + ['\n'] + rest;
      SplitAtSeparator(lines[0], '\n', rest);
      JoinSplitAll(lines[1..]);
    }
  }

  /**
    An element that reads the same whether or not its newlines break it:
    one without newlines, or a content line whose lines are balanced.
   */
  predicate Unfolds(e: string) {
    '\n' !in e || (TagEvent(e) == None && Balanced(Split(e, '\n')))
  }

  predicate AllUnfold(lines: seq<string>) {
    forall i :: 0 <= i < |lines| ==> Unfolds(lines[i])
  }

  lemma AllUnfoldAppend(a: seq<string>, b: seq<string>)
    requires AllUnfold(a) && AllUnfold(b)
    ensures AllUnfold(a + b)
  {
    forall i | 0 <= i < |a + b|
      ensures Unfolds((a + b)[i])
    {
      if i < |a| {
        assert (a + b)[i] == a[i];
      } else {
        assert (a + b)[i] == b[i - |a|];
      }
    }
  }

  lemma SingleLineUnfolds(e: string)
    requires forall i :: 0 <= i < |e| ==> e[i] != '\n'
    ensures Unfolds(e)
  {
  }

  /** Breaking one element that unfolds at its newlines does not change how it reads. */
  lemma RunUnfolds(e: string, stack: seq<Tag>)
    requires Unfolds(e)
    ensures Run(Split(e, '\n'), stack) == Run([e], stack)
  {
    assert [e] + [] == [e];
    if '\n' !in e {
      SplitNoSeparator(e, '\n');
    } else {
      BalancedInside(Split(e, '\n'), stack);
      RunContent(e, [], stack);
    }
  }

  /** Breaking every element at its newlines does not change how the lines read. */
  lemma {:induction false} RunSplitAll(lines: seq<string>, stack: seq<Tag>)
    requires AllUnfold(lines)
    ensures Run(SplitAll(lines), stack) == Run(lines, stack)
  {
    if lines != [] {
      var e := lines[0];
      var rest := lines[1..];
      assert lines == [e] + rest;
      assert AllUnfold(rest) by {
        forall i | 0 <= i < |rest|
          ensures Unfolds(rest[i])
        {
          assert rest[i] == lines[i + 1];
        }
      }
      RunAppend([e], rest, stack);
      RunAppend(Split(e, '\n'), SplitAll(rest), stack);
      RunUnfolds(e, stack);
      match Run([e], stack)
      case None =>
      case Some(s) => RunSplitAll(rest, s);
    }
  }

  /** Balanced lines whose elements unfold stay balanced once written out and read back line by line. */
  lemma WrittenBalanced(lines: seq<string>)
    requires |lines| > 0 && AllUnfold(lines) && Balanced(lines)
    ensures Balanced(Split(Join("\n", lines), '\n'))
  {
    JoinSplitAll(lines);
    RunSplitAll(lines, []);
  }

  /** A content element whose lines are all content unfolds. */
  lemma UnfoldsContent(e: string)
    requires TagEvent(e) == None
    requires forall k :: 0 <= k < |Split(e, '\n')| ==> TagEvent(Split(e, '\n')[k]) == None
    ensures Unfolds(e)
  {
    AllContentBalanced(Split(e, '\n'), []);
  }

  /** An element without `<` unfolds. */
  lemma UnfoldsNoAngle(e: string)
    requires '<' !in e
    ensures Unfolds(e)
  {
    NoAngleIsContent(e);
    SplitAbsent(e, '\n', '<');
    forall k | 0 <= k < |Split(e, '\n')|
      ensures TagEvent(Split(e, '\n')[k]) == None
    {
      NoAngleIsContent(Split(e, '\n')[k]);
    }
    UnfoldsContent(e);
  }

  /** Lines joined into one content element unfold when they unfold and are balanced. */
  lemma UnfoldsJoined(cur: seq<string>)
    requires |cur| > 0 && TagEvent(Join("\n", cur)) == None
    requires AllUnfold(cur) && Balanced(cur)
    ensures Unfolds(Join("\n", cur))
  {
    WrittenBalanced(cur);
  }

  /** No line of `s`, once broken at its newlines, is a tag line. */
  predicate NoTagLine(s: string) {
    forall k :: 0 <= k < |Split(s, '\n')| ==> TagEvent(Split(s, '\n')[k]) == None
  }

  /** Without newlines, `s` has no tag line exactly when it is not one. */
  lemma NoTagLineSingle(s: string)
    requires '\n' !in s
    ensures NoTagLine(s) <==> TagEvent(s) == None
  {
    SplitNoSeparator(s, '\n');
    var p := Split(s, '\n');
    if TagEvent(s) == None {
      forall k | 0 <= k < |p|
        ensures TagEvent(p[k]) == None
      {
        assert p[k] == s;
      }
    } else {
      assert p[0] == s;
    }
  }

  /** No tag line holds a newline. */
  lemma NewlineNotTag(s: string)
    requires '\n' in s
    ensures TagEvent(s) == None
  {
    StripKeeps(s, '\n');
    if TagText(StripSpaces(s)).Some? {
      TagTextNoNewline(StripSpaces(s));
    }
  }

  lemma TagTextNoNewline(t: string)
    requires TagText(t).Some?
    ensures '\n' !in t
  {
    var m := if t[1] == '/' then 2 else 1;
    var n := t[m..|t| - 1];
    if m == 2 {
      CloseNameNoNewline(n);
    } else {
      OpenNameNoNewline(n);
    }
    forall i | 0 <= i < |t|
      ensures t[i] != '\n'
    {
      if m <= i < |t| - 1 {
        assert t[i] == n[i - m];
      }
    }
  }

  /** Stripping leading spaces keeps every other character. */
  lemma {:induction false} StripKeeps(s: string, c: char)
    requires c != ' ' && c in s
    ensures c in StripSpaces(s)
  {
    if s[0] == ' ' {
      assert s == [s[0]] + s[1..];
      StripKeeps(s[1..], c);
    }
  }

  lemma OpenNameNoNewline(n: string)
    requires OpenName(n).Some?
    ensures '\n' !in n
  {
  }

  lemma CloseNameNoNewline(n: string)
    requires CloseName(n).Some?
    ensures '\n' !in n
  {
  }

  /** A text with no tag line is not a tag line itself. */
  lemma NoTagLineContent(s: string)
    requires NoTagLine(s)
    ensures TagEvent(s) == None
  {
    if '\n' in s {
      NewlineNotTag(s);
    } else {
      NoTagLineSingle(s);
    }
  }
}
