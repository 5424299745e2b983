/** What the printer does to the layout: the lines of nested blocks come out indented by
    their depth, whatever indentation they were written with. */
module SourceLayout {
  import opened Source

  // ----- nested code, and how it should look -----

  /** A line: text with white space before and after it. */
  datatype Row = Row(pad: string, text: string, tail: string)

  datatype Item = Empty | Plain(row: Row) | Comment(row: Row) | Block(open: Row, body: seq<Item>, end: End)

  /** A block is closed, or goes on as in `} else {`. */
  datatype End = Close(row: Row) | Turn(row: Row, body: seq<Item>, end: End)

  predicate AllWhite(s: string) {
    forall c | c in s :: White(c)
  }

  /** One line of text with nothing around it. */
  predicate Tight(s: string) {
    s != [] && !White(s[0]) && !White(s[|s| - 1]) && '\n' !in s
  }

  predicate IsComment(s: string) {
    |s| >= 2 && s[0] == '/' && s[1] == '/'
  }

  predicate IsRow(r: Row) {
    && AllWhite(r.pad) && '\n' !in r.pad && Tight(r.text)
    && AllWhite(r.tail) && '\n' !in r.tail && (r.tail != "" ==> r.tail[|r.tail| - 1] != '\r')
  }

  /** The line as it is written. */
  function Raw(r: Row): string {
    r.pad + Shown(r)
  }

  /** What is printed of it. */
  function Shown(r: Row): string {
    r.text + r.tail
  }

  predicate PlainRow(r: Row) {
    IsRow(r) && !IsComment(r.text) && r.text[0] != '}' && r.text[|r.text| - 1] != '{'
  }

  predicate OpenRow(r: Row) {
    IsRow(r) && !IsComment(r.text) && r.text[0] != '}' && r.text[|r.text| - 1] == '{'
  }

  predicate CloseRow(r: Row) {
    IsRow(r) && r.text[0] == '}' && r.text[|r.text| - 1] != '{'
  }

  predicate TurnRow(r: Row) {
    IsRow(r) && r.text[0] == '}' && r.text[|r.text| - 1] == '{'
  }

  predicate IsItem(i: Item)
    decreases i
  {
    match i
    case Empty => true
    case Plain(r) => PlainRow(r)
    case Comment(r) => IsRow(r) && IsComment(r.text)
    case Block(o, b, e) => OpenRow(o) && AreItems(b) && IsEnd(e)
  }

  predicate IsEnd(e: End)
    decreases e
  {
    match e
    case Close(r) => CloseRow(r)
    case Turn(r, b, e') => TurnRow(r) && AreItems(b) && IsEnd(e')
  }

  predicate AreItems(items: seq<Item>)
    decreases items
  {
    items == [] || (IsItem(items[0]) && AreItems(items[1..]))
  }

  /** The lines as they are written. */
  function Written(items: seq<Item>): seq<string>
    decreases items
  {
    if items == [] then [] else WrittenItem(items[0]) + Written(items[1..])
  }

  function WrittenItem(i: Item): seq<string>
    decreases i
  {
    match i
    case Empty => [""]
    case Plain(r) => [Raw(r)]
    case Comment(r) => [Raw(r)]
    case Block(o, b, e) => [Raw(o)] + Written(b) + WrittenEnd(e)
  }

  function WrittenEnd(e: End): seq<string>
    decreases e
  {
    match e
    case Close(r) => [Raw(r)]
    case Turn(r, b, e') => [Raw(r)] + Written(b) + WrittenEnd(e')
  }

  function Blanks(n: nat): string {
    if n == 0 then "" else Blanks(n - 1) + " "
  }

  /** A line after `n` blanks. */
  function Printed(n: nat, text: string): string {
    Blanks(n) + text + "\n"
  }

  /** The same lines, each after two blanks for every block around it; empty lines stay empty. */
  function Laid(items: seq<Item>, depth: nat): string
    decreases items
  {
    if items == [] then "" else LaidItem(items[0], depth) + Laid(items[1..], depth)
  }

  function LaidItem(i: Item, depth: nat): string
    decreases i
  {
    match i
    case Empty => "\n"
    case Plain(r) => Printed(2 * depth, Shown(r))
    case Comment(r) => Printed(2 * depth, Shown(r))
    case Block(o, b, e) => Printed(2 * depth, Shown(o)) + Laid(b, depth + 1) + LaidEnd(e, depth)
  }

  function LaidEnd(e: End, depth: nat): string
    decreases e
  {
    match e
    case Close(r) => Printed(2 * depth, Shown(r))
    case Turn(r, b, e') => Printed(2 * depth, Shown(r)) + Laid(b, depth + 1) + LaidEnd(e', depth)
  }

  /** Every line with its line break. */
  function AsText(lines: seq<string>): string {
    if lines == [] then "" else lines[0] + "\n" + AsText(lines[1..])
  }

  // ----- trimming -----

  lemma {:induction false} PadTrimmed(pad: string, rest: string)
    requires AllWhite(pad) && rest != [] && !White(rest[0])
    ensures TrimStart(pad + rest) == rest
  {
    hide White;
    if pad == [] {
      assert pad + rest == rest;
    } else {
      assert (pad + rest)[0] == pad[0] && pad[0] in pad && (pad + rest)[1..] == pad[1..] + rest;
      assert forall c | c in pad[1..] :: c in pad;
      PadTrimmed(pad[1..], rest);
    }
  }

  lemma {:induction false} TailTrimmed(text: string, tail: string)
    requires AllWhite(tail) && text != [] && !White(text[|text| - 1])
    ensures TrimEnd(text + tail) == text
    decreases |tail|
  {
    hide White;
    if tail == [] {
      assert text + tail == text;
    } else {
      var n, s := |tail| - 1, text + tail;
      assert s[|s| - 1] == tail[n] && tail[n] in tail && s[..|s| - 1] == text + tail[..n];
      assert forall c | c in tail[..n] :: c in tail;
      TailTrimmed(text, tail[..n]);
    }
  }

  lemma RowTrimmed(r: Row)
    requires IsRow(r)
    ensures TrimStart(Raw(r)) == Shown(r) && Trim(Raw(r)) == r.text && '\n' !in Raw(r) && Raw(r) != []
  {
    hide White, TrimStart, TrimEnd;
    assert Shown(r)[0] == r.text[0];
    PadTrimmed(r.pad, Shown(r));
    TailTrimmed(r.text, r.tail);
  }

  /** Of the first 128 characters, white space is the blank and the control characters from
      the tab to the carriage return. */
  lemma AsciiWhite(c: char)
    requires c as int < 128
    ensures White(c) <==> c == ' ' || '\t' <= c <= '\r'
  {
  }

  lemma {:induction false} SpacesAreBlanks(n: nat)
    ensures Spaces(n) == Blanks(2 * n)
  {
    if n > 0 {
      SpacesAreBlanks(n - 1);
      assert Blanks(2 * n) == Blanks(2 * n - 1) + " " == (Blanks(2 * n - 2) + " ") + " ";
      assert (Blanks(2 * n - 2) + " ") + " " == Blanks(2 * n - 2) + "  ";
    }
  }

  // ----- one line on a fresh line -----

  /** At the beginning of a line. */
  predicate Fresh(t: Text) {
    !t.continuing && !t.comment && (t.s == "" || t.s[|t.s| - 1] == '\n')
  }

  /** Line by line. */
  function Steps(t: Text, lines: seq<string>): Text
    decreases |lines|
  {
    if lines == [] then t else Steps(Broken(Line(t, lines[0], false, true)), lines[1..])
  }

  function After(t: Text, printed: string, indent: nat): Text {
    Text(t.s + printed, indent, false, false)
  }

  lemma LineLaid(t: Text, r: Row, depth: nat, indent: nat)
    requires Fresh(t) && IsRow(r)
    requires if IsComment(r.text) then t.indent == depth == indent
             else if r.text[0] == '}' then t.indent == depth + 1 && indent == if r.text[|r.text| - 1] == '{' then depth + 1 else depth
             else t.indent == depth && indent == if r.text[|r.text| - 1] == '{' then depth + 1 else depth
    ensures Broken(Line(t, Raw(r), false, true)) == After(t, Printed(2 * depth, Shown(r)), indent)
    ensures Fresh(After(t, Printed(2 * depth, Shown(r)), indent))
  {
    hide White, TrimStart, TrimEnd, Trim, Blanks, Begun, Outdented, Levelled, IsComment;
    RowTrimmed(r);
    var line := Raw(r);
    LineBegins(t, r, depth);
    var o := Outdented(Begun(t, line), line, true);
    LineLevels(o.(s := o.s + Shown(r)), r);
    assert t.s + Blanks(2 * depth) + Shown(r) + "\n" == t.s + (Blanks(2 * depth) + Shown(r) + "\n");
  }

  /** The blanks before a line: a closing brace takes two of them away. */
  lemma LineBegins(t: Text, r: Row, depth: nat)
    requires Fresh(t) && IsRow(r) && t.indent == if !IsComment(r.text) && r.text[0] == '}' then depth + 1 else depth
    ensures Outdented(Begun(t, Raw(r)), Raw(r), true) == Text(t.s + Blanks(2 * depth), t.indent, IsComment(r.text), true)
  {
    hide White, TrimStart, TrimEnd, Trim, Spaces, Blanks;
    RowTrimmed(r);
    Signs(r.text);
    SpacesAreBlanks(t.indent);
    if r.text[0] == '}' {
      TwoMore(t.s, 2 * depth);
      var b := t.s + Blanks(2 * depth) + "  ";
      assert b[|b| - 2..] == "  " && b[..|b| - 2] == t.s + Blanks(2 * depth);
    }
  }

  lemma LineLevels(t: Text, r: Row)
    requires IsRow(r) && t.comment == IsComment(r.text)
    ensures var n := if r.text[|r.text| - 1] == '{' then t.indent + 1 else t.indent;
            Levelled(t, Raw(r), true)
            == t.(indent := if t.comment then t.indent else if r.text[0] == '}' && n > 0 then n - 1 else n)
  {
    hide White, TrimStart, TrimEnd, Trim, Starts, Ends, IsComment, Raw, Shown;
    RowTrimmed(r);
    Signs(r.text);
  }

  lemma TwoMore(s: string, n: nat)
    ensures s + Blanks(n + 2) == s + Blanks(n) + "  "
  {
    assert Blanks(n + 2) == Blanks(n + 1) + " " == (Blanks(n) + " ") + " ";
    assert s + ((Blanks(n) + " ") + " ") == s + Blanks(n) + "  ";
  }

  /** What the printer looks at. */
  lemma Signs(s: string)
    requires s != []
    ensures Starts(s, "//") <==> IsComment(s)
    ensures Starts(s, "}") <==> s[0] == '}'
    ensures Ends(s, "{") <==> s[|s| - 1] == '{'
  {
    assert s[|s| - 1..] == [s[|s| - 1]];
  }

  lemma EmptyLaid(t: Text)
    requires Fresh(t)
    ensures Broken(Line(t, "", false, true)) == After(t, "\n", t.indent) && Fresh(After(t, "\n", t.indent))
  {
    assert TrimStart("") == "" && Trim("") == "";
  }

  // ----- nested blocks -----

  lemma {:induction false} StepsConcat(t: Text, a: seq<string>, b: seq<string>)
    ensures Steps(t, a + b) == Steps(Steps(t, a), b)
    decreases |a|
  {
    hide Line, Broken;
    if a == [] {
      assert a + b == b;
    } else {
      assert (a + b)[0] == a[0] && (a + b)[1..] == a[1..] + b;
      StepsConcat(Broken(Line(t, a[0], false, true)), a[1..], b);
    }
  }

  lemma OneStep(t: Text, line: string)
    ensures Steps(t, [line]) == Broken(Line(t, line, false, true))
  {
    hide Line, Broken;
    assert [line][1..] == [];
  }

  lemma AfterTwice(t: Text, a: string, i: nat, b: string, j: nat)
    ensures After(After(t, a, i), b, j) == After(t, a + b, j)
  {
    assert (t.s + a) + b == t.s + (a + b);
  }

  lemma {:induction false} ItemsLaid(t: Text, items: seq<Item>)
    requires Fresh(t) && AreItems(items)
    ensures Steps(t, Written(items)) == After(t, Laid(items, t.indent), t.indent) && Fresh(After(t, Laid(items, t.indent), t.indent))
    decreases items
  {
    hide LaidItem, WrittenItem, Steps, IsItem;
    if items == [] {
      assert t.s + "" == t.s;
      NoSteps(t);
    } else {
      ItemLaid(t, items[0]);
      var t1 := After(t, LaidItem(items[0], t.indent), t.indent);
      ItemsLaid(t1, items[1..]);
      StepsConcat(t, WrittenItem(items[0]), Written(items[1..]));
      AfterTwice(t, LaidItem(items[0], t.indent), t.indent, Laid(items[1..], t.indent), t.indent);
    }
  }

  lemma NoSteps(t: Text)
    ensures Steps(t, []) == t
  {
  }

  lemma {:induction false} ItemLaid(t: Text, i: Item)
    requires Fresh(t) && IsItem(i)
    ensures Steps(t, WrittenItem(i)) == After(t, LaidItem(i, t.indent), t.indent) && Fresh(After(t, LaidItem(i, t.indent), t.indent))
    decreases i
  {
    hide Steps, Laid, Written, LaidEnd, WrittenEnd, Line, Broken, AreItems, IsEnd, White, Printed;
    match i
    case Empty => EmptyLaid(t); OneStep(t, "");
    case Plain(r) => LineLaid(t, r, t.indent, t.indent); OneStep(t, Raw(r));
    case Comment(r) => LineLaid(t, r, t.indent, t.indent); OneStep(t, Raw(r));
    case Block(o, b, e) =>
      var head := Printed(2 * t.indent, Shown(o));
      LineLaid(t, o, t.indent, t.indent + 1);
      OneStep(t, Raw(o));
      var d := t.indent;
      var t1 := After(t, head, d + 1);
      ItemsLaid(t1, b);
      var t2 := After(t1, Laid(b, d + 1), d + 1);
      EndLaid(t2, e);
      StepsConcat(t, [Raw(o)], Written(b));
      StepsConcat(t, [Raw(o)] + Written(b), WrittenEnd(e));
      AfterTwice(t, head, d + 1, Laid(b, d + 1), d + 1);
      AfterTwice(t, head + Laid(b, d + 1), d + 1, LaidEnd(e, d), d);
  }

  lemma {:induction false} EndLaid(t: Text, e: End)
    requires Fresh(t) && IsEnd(e) && t.indent > 0
    ensures Steps(t, WrittenEnd(e)) == After(t, LaidEnd(e, t.indent - 1), t.indent - 1) && Fresh(After(t, LaidEnd(e, t.indent - 1), t.indent - 1))
    decreases e
  {
    hide Steps, Laid, Written, Line, Broken, AreItems, White, Printed;
    var d := t.indent - 1;
    match e
    case Close(r) => LineLaid(t, r, d, d); OneStep(t, Raw(r));
    case Turn(r, b, e') =>
      var head := Printed(2 * d, Shown(r));
      LineLaid(t, r, d, d + 1);
      OneStep(t, Raw(r));
      var t1 := After(t, head, d + 1);
      ItemsLaid(t1, b);
      var t2 := After(t1, Laid(b, d + 1), d + 1);
      EndLaid(t2, e');
      StepsConcat(t, [Raw(r)], Written(b));
      StepsConcat(t, [Raw(r)] + Written(b), WrittenEnd(e'));
      AfterTwice(t, head, d + 1, Laid(b, d + 1), d + 1);
      AfterTwice(t, head + Laid(b, d + 1), d + 1, LaidEnd(e', d), d);
  }

  // ----- whole pushes -----

  predicate IsLine(s: string) {
    '\n' !in s && (s == "" || s[|s| - 1] != '\r')
  }

  predicate AreLines(lines: seq<string>) {
    forall l | l in lines :: IsLine(l)
  }

  lemma LineEndIs(s: string, n: nat)
    requires n < |s| && s[n] == '\n' && '\n' !in s[..n]
    ensures LineEnd(s) == n
  {
    var m := LineEnd(s);
    assert forall k | 0 <= k < n :: s[k] == s[..n][k];
    assert forall k | 0 <= k < m :: s[k] == s[..m][k];
  }

  lemma {:induction false} LinesOfText(lines: seq<string>)
    requires AreLines(lines)
    ensures Lines(AsText(lines)) == lines && (lines != [] ==> Ends(AsText(lines), "\n"))
  {
    hide LineEnd, Lines, Ends, AreLines, IsLine;
    if lines == [] {
      NoLines();
    } else {
      FirstOfLines(lines);
      LinesOfText(lines[1..]);
      OneMoreLine(lines[0], AsText(lines[1..]));
      NothingEnds(lines[1..]);
      assert [lines[0]] + lines[1..] == lines;
    }
  }

  lemma FirstOfLines(lines: seq<string>)
    requires AreLines(lines) && lines != []
    ensures IsLine(lines[0]) && AreLines(lines[1..])
  {
    hide IsLine;
    assert lines[0] in lines;
  }

  lemma NoLines()
    ensures Lines("") == []
  {
  }

  lemma NothingEnds(lines: seq<string>)
    ensures lines == [] <==> AsText(lines) == ""
  {
  }

  lemma OneMoreLine(l: string, rest: string)
    requires IsLine(l)
    ensures Lines(l + "\n" + rest) == [l] + Lines(rest)
    ensures rest == "" || Ends(rest, "\n") ==> Ends(l + "\n" + rest, "\n")
  {
    var s := l + "\n" + rest;
    assert s[..|l|] == l && s[|l| + 1..] == rest;
    LineEndIs(s, |l|);
    assert rest == "" ==> s[|s| - 1..] == "\n";
    assert rest != "" ==> rest[|rest| - 1..] == s[|s| - 1..];
  }

  lemma {:induction false} FromIsSteps(t: Text, lines: seq<string>, i: nat)
    requires i <= |lines| && |lines| != 1
    ensures LinesFrom(t, lines, i, true, true) == Steps(t, lines[i..])
    decreases |lines| - i
  {
    hide Line, Broken;
    if i < |lines| {
      assert lines[i..][0] == lines[i] && lines[i..][1..] == lines[i + 1..];
      FromIsSteps(Broken(Line(t, lines[i], false, true)), lines, i + 1);
    }
  }

  lemma RowIsLine(r: Row)
    requires IsRow(r)
    ensures IsLine(Raw(r))
  {
  }

  lemma {:induction false} WrittenAreLines(items: seq<Item>)
    requires AreItems(items)
    ensures AreLines(Written(items))
    decreases items
  {
    hide IsItem, WrittenItem, IsLine;
    if items != [] {
      ItemIsLines(items[0]);
      WrittenAreLines(items[1..]);
    }
  }

  lemma {:induction false} ItemIsLines(i: Item)
    requires IsItem(i)
    ensures AreLines(WrittenItem(i))
    decreases i
  {
    hide Written, WrittenEnd, AreItems, IsEnd, IsRow, IsLine, White;
    match i
    case Empty => assert IsLine("") by { NoLine(); }
    case Plain(r) => RowIsLine(r);
    case Comment(r) => RowIsLine(r);
    case Block(o, b, e) => RowIsLine(o); WrittenAreLines(b); EndIsLines(e);
  }

  lemma NoLine()
    ensures IsLine("")
  {
  }

  lemma {:induction false} EndIsLines(e: End)
    requires IsEnd(e)
    ensures AreLines(WrittenEnd(e))
    decreases e
  {
    hide Written, AreItems, IsRow, IsLine, White;
    match e
    case Close(r) => RowIsLine(r);
    case Turn(r, b, e') => RowIsLine(r); WrittenAreLines(b); EndIsLines(e');
  }

  /** However deep blocks are nested, and however their lines were indented: pushed at once,
      every line comes out after two blanks for every block around it and for every level the
      printer was at, empty lines come out empty, and the level is what it was. */
  lemma BlocksAreIndented(t: Text, items: seq<Item>)
    requires Fresh(t) && AreItems(items) && |Written(items)| > 1
    ensures Pushed(t, AsText(Written(items)), true) == Text(t.s + Laid(items, t.indent), t.indent, false, false)
  {
    hide Laid, Written, AreItems, Steps, Lines, AsText;
    WrittenAreLines(items);
    LinesOfText(Written(items));
    FromIsSteps(t, Written(items), 0);
    assert Written(items)[0..] == Written(items);
    ItemsLaid(t, items);
  }

  /** One push for every line. */
  function Pushes(lines: seq<string>): seq<Op> {
    if lines == [] then [] else [Push(lines[0] + "\n")] + Pushes(lines[1..])
  }

  /** A line on its own is not trimmed; nothing else is different. */
  predicate Unpadded(lines: seq<string>) {
    forall l | l in lines :: TrimStart(l) == l
  }

  lemma PushedAlone(t: Text, line: string)
    requires IsLine(line) && TrimStart(line) == line
    ensures Pushed(t, line + "\n", true) == Broken(Line(t, line, false, true))
  {
    hide White, TrimStart, TrimEnd, Trim, Begun, Outdented, Levelled;
    assert [line][1..] == [] && AsText([]) == "" && AsText([line]) == line + "\n";
    LinesOfText([line]);
    var l := Line(t, line, true, true);
    assert LinesFrom(Broken(l), [line], 1, true, true) == Broken(l);
  }

  /** Pushed line by line, the same text comes out as when pushed at once. */
  lemma {:induction false} LineByLine(t: Text, lines: seq<string>)
    requires AreLines(lines) && Unpadded(lines)
    ensures ApplyAll(t, Pushes(lines)) == Steps(t, lines)
    decreases |lines|
  {
    hide Pushed, Line, Broken, TrimStart;
    if lines != [] {
      assert lines[0] in lines && forall l | l in lines[1..] :: l in lines;
      PushedAlone(t, lines[0]);
      LineByLine(Broken(Line(t, lines[0], false, true)), lines[1..]);
      assert Pushes(lines)[0] == Push(lines[0] + "\n") && Pushes(lines)[1..] == Pushes(lines[1..]);
    }
  }

  lemma BlocksLineByLine(t: Text, items: seq<Item>)
    requires Fresh(t) && AreItems(items) && Unpadded(Written(items))
    ensures ApplyAll(t, Pushes(Written(items))) == Text(t.s + Laid(items, t.indent), t.indent, false, false)
  {
    hide Laid, Written, AreItems, Steps, AsText;
    WrittenAreLines(items);
    LineByLine(t, Written(items));
    ItemsLaid(t, items);
  }

  // ----- literal text -----

  /** Literal lines, whatever they hold. */
  function LaidLiteral(lines: seq<string>, depth: nat): string {
    if lines == [] then ""
    else (if lines[0] == "" then "\n" else Printed(2 * depth, TrimStart(lines[0]))) + LaidLiteral(lines[1..], depth)
  }

  lemma LiteralLine(t: Text, line: string)
    requires Fresh(t)
    ensures Broken(Line(t, line, false, false))
         == After(t, if line == "" then "\n" else Printed(2 * t.indent, TrimStart(line)), t.indent)
    ensures Fresh(Broken(Line(t, line, false, false)))
  {
    hide White, Trim, Spaces, Blanks;
    SpacesAreBlanks(t.indent);
    if line == "" {
      assert TrimStart(line) == "";
    } else {
      assert t.s + Blanks(2 * t.indent) + TrimStart(line) + "\n" == t.s + (Blanks(2 * t.indent) + TrimStart(line) + "\n");
    }
  }

  lemma {:induction false} LiteralLines(t: Text, lines: seq<string>, i: nat)
    requires Fresh(t) && i <= |lines| && |lines| != 1
    ensures LinesFrom(t, lines, i, false, true) == After(t, LaidLiteral(lines[i..], t.indent), t.indent)
    decreases |lines| - i
  {
    hide Line, Broken, TrimStart, Printed;
    if i == |lines| {
      assert t.s + "" == t.s;
    } else {
      var one := if lines[i] == "" then "\n" else Printed(2 * t.indent, TrimStart(lines[i]));
      assert lines[i..][0] == lines[i] && lines[i..][1..] == lines[i + 1..];
      LiteralLine(t, lines[i]);
      LiteralLines(After(t, one, t.indent), lines, i + 1);
      AfterTwice(t, one, t.indent, LaidLiteral(lines[i + 1..], t.indent), t.indent);
    }
  }

  /** Braces and comments in literal text are ordinary text: every line comes out at the
      printer's level. */
  lemma LiteralsAreLaid(t: Text, lines: seq<string>)
    requires Fresh(t) && AreLines(lines) && |lines| > 1
    ensures Pushed(t, AsText(lines), false) == Text(t.s + LaidLiteral(lines, t.indent), t.indent, false, false)
  {
    hide LaidLiteral, Lines, AsText;
    LinesOfText(lines);
    LiteralLines(t, lines, 0);
    assert lines[0..] == lines;
  }

  // ----- a line in pieces -----

  /** Nothing in it that the printer interprets. */
  predicate Neutral(s: string) {
    s != [] && IsLine(s) && !Starts(Trim(s), "//") && !Starts(Trim(s), "}") && !Ends(Trim(s), "{")
  }

  lemma PushedPiece(t: Text, p: string)
    requires Neutral(p) && !t.comment
    ensures Pushed(t, p, true) == Text((if t.continuing then t.s else t.s + Blanks(2 * t.indent)) + p, t.indent, false, true)
  {
    hide White, TrimStart, TrimEnd, Trim, Spaces, Blanks;
    SpacesAreBlanks(t.indent);
    NoBreak(p);
    assert LinesFrom(Line(t, p, true, true), [p], 1, true, false) == Line(t, p, true, true);
  }

  lemma NoBreak(p: string)
    requires p != [] && '\n' !in p
    ensures Lines(p) == [p] && !Ends(p, "\n")
  {
    assert forall k | 0 <= k < |p| :: p[k] in p;
    assert p[..|p|] == p && p[|p| - 1..] == [p[|p| - 1]] && p[|p| - 1] in p;
  }

  /** A line pushed in pieces is the line pushed at once: only its beginning is indented. */
  lemma PiecesJoin(t: Text, p: string, q: string)
    requires Neutral(p) && Neutral(q) && Neutral(p + q) && !t.comment
    ensures Pushed(Pushed(t, p, true), q, true) == Pushed(t, p + q, true)
  {
    hide Pushed, Blanks, Neutral;
    PushedPiece(t, p);
    PushedPiece(Pushed(t, p, true), q);
    PushedPiece(t, p + q);
    var s := if t.continuing then t.s else t.s + Blanks(2 * t.indent);
    assert (s + p) + q == s + (p + q);
  }
}
