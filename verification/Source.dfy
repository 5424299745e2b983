/** The indenting printer of generated source text. */
module Source {

  /** Unicode white space. */
  predicate White(c: char) {
    || 0x9 <= c as int <= 0xD || c as int in {0x20, 0x85, 0xA0, 0x1680, 0x2028, 0x2029, 0x202F, 0x205F, 0x3000}
    || 0x2000 <= c as int <= 0x200A
  }

  /** Everything but white space; line breaks count. */
  function Content(s: string): string {
    if s == [] then []
    else (if White(s[0]) && s[0] != '\n' then [] else [s[0]]) + Content(s[1..])
  }

  lemma {:induction false} ContentConcat(a: string, b: string)
    ensures Content(a + b) == Content(a) + Content(b)
  {
    hide White;
    if a == [] {
      assert a + b == b;
    } else {
      assert (a + b)[0] == a[0] && (a + b)[1..] == a[1..] + b;
      ContentConcat(a[1..], b);
      var head := if White(a[0]) && a[0] != '\n' then [] else [a[0]];
      assert Content(a + b) == head + (Content(a[1..]) + Content(b));
      assert head + (Content(a[1..]) + Content(b)) == (head + Content(a[1..])) + Content(b);
    }
  }

  // ----- lines -----

  /** The end of the first line. */
  function LineEnd(s: string): (n: nat)
    ensures n <= |s| && (n < |s| ==> s[n] == '\n') && '\n' !in s[..n]
  {
    if s == [] || s[0] == '\n' then 0
    else
      var n := 1 + LineEnd(s[1..]);
      assert s[..n] == [s[0]] + s[1..][..n - 1];
      n
  }

  /** A carriage return before the line break is not part of the line. */
  function DropReturn(line: string): string {
    if line != [] && line[|line| - 1] == '\r' then line[..|line| - 1] else line
  }

  function Lines(s: string): seq<string>
    decreases |s|
  {
    if s == [] then []
    else
      var n := LineEnd(s);
      if n == |s| then [s] else [DropReturn(s[..n])] + Lines(s[n + 1..])
  }

  function TrimStart(s: string): string {
    if s != [] && White(s[0]) then TrimStart(s[1..]) else s
  }

  function TrimEnd(s: string): string {
    if s != [] && White(s[|s| - 1]) then TrimEnd(s[..|s| - 1]) else s
  }

  function Trim(s: string): string {
    TrimEnd(TrimStart(s))
  }

  predicate Starts(s: string, prefix: string) {
    prefix <= s
  }

  predicate Ends(s: string, suffix: string) {
    |suffix| <= |s| && s[|s| - |suffix|..] == suffix
  }

  function Spaces(indent: nat): string {
    if indent == 0 then "" else Spaces(indent - 1) + "  "
  }

  // ----- one line -----

  /** The printer's state. */
  datatype Text = Text(s: string, indent: nat, comment: bool, continuing: bool)

  /** Indentation before a line that starts afresh; empty lines get none. */
  function Begun(t: Text, line: string): Text {
    if t.continuing then t
    else t.(s := if line == [] then t.s else t.s + Spaces(t.indent), continuing := true)
  }

  /** A closing brace is moved one level out. */
  function Outdented(t: Text, line: string, syntax: bool): Text {
    var comment := t.comment || (syntax && Starts(Trim(line), "//"));
    t.(comment := comment,
       s := if syntax && !comment && Starts(Trim(line), "}") && Ends(t.s, "  ") then t.s[..|t.s| - 2] else t.s)
  }

  /** A brace at the end of a line opens a level; one at its start closes one. */
  function Levelled(t: Text, line: string, syntax: bool): Text {
    if !syntax || t.comment then t
    else
      var deeper := if Ends(Trim(line), "{") then t.indent + 1 else t.indent;
      t.(indent := if Starts(Trim(line), "}") && deeper > 0 then deeper - 1 else deeper)
  }

  function Broken(t: Text): Text {
    t.(s := t.s + "\n", comment := false, continuing := false)
  }

  /** One line of a push of several, or of one (`alone`). */
  function Line(t: Text, line: string, alone: bool, syntax: bool): Text {
    var o := Outdented(Begun(t, line), line, syntax);
    Levelled(o.(s := o.s + (if alone then line else TrimStart(line))), line, syntax)
  }

  /** The lines from `i` on; `ended` tells whether the text ends with a line break. */
  function LinesFrom(t: Text, lines: seq<string>, i: nat, syntax: bool, ended: bool): Text
    requires i <= |lines|
    decreases |lines| - i
  {
    if i == |lines| then t
    else
      var l := Line(t, lines[i], |lines| == 1, syntax);
      LinesFrom(if i != |lines| - 1 || ended then Broken(l) else l, lines, i + 1, syntax, ended)
  }

  function Pushed(t: Text, src: string, syntax: bool): Text {
    LinesFrom(t, Lines(src), 0, syntax, Ends(src, "\n"))
  }

  class Source {
    var s: string
    var indent: nat
    var inLineComment: bool
    var continuingLine: bool

    ghost function Value(): Text
      reads this
    {
      Text(s, indent, inLineComment, continuingLine)
    }

    constructor ()
      ensures Value() == Text("", 0, false, false)
    {
      s, indent, inLineComment, continuingLine := "", 0, false, false;
    }

    method AppendSrc(src: Source)
      modifies this
      ensures Value() == Text(old(s) + old(src.s), old(indent) + old(src.indent), old(src.inLineComment), old(continuingLine))
    {
      var text, level, comment := src.s, src.indent, src.inLineComment;
      s := s + text;
      indent := indent + level;
      inLineComment := comment;
    }

    method PushStr(src: string)
      modifies this
      ensures Value() == Pushed(old(Value()), src, true)
    {
      PushStrImpl(src, true);
    }

    /** Braces and comments are not interpreted. */
    method PushStrLiteral(src: string)
      modifies this
      ensures Value() == Pushed(old(Value()), src, false)
    {
      PushStrImpl(src, false);
    }

    method PushStrImpl(src: string, interpretSyntax: bool)
      modifies this
      ensures Value() == Pushed(old(Value()), src, interpretSyntax)
    {
      hide White, Lines, TrimStart, TrimEnd, Spaces, Line;
      var lines := Lines(src);
      var ended := Ends(src, "\n");
      for i := 0 to |lines|
        invariant LinesFrom(Value(), lines, i, interpretSyntax, ended) == Pushed(old(Value()), src, interpretSyntax)
      {
        PushLine(lines[i], |lines| == 1, interpretSyntax);
        if i != |lines| - 1 || ended {
          Newline();
        }
      }
    }

    method PushLine(line: string, alone: bool, interpretSyntax: bool)
      modifies this
      ensures Value() == Line(old(Value()), line, alone, interpretSyntax)
    {
      hide White, TrimStart, Trim, Begun, Outdented, Levelled;
      BeginLine(line);
      Outdent(line, interpretSyntax);
      s := s + if alone then line else TrimStart(line);
      Level(line, interpretSyntax);
    }

    method BeginLine(line: string)
      modifies this
      ensures Value() == Begun(old(Value()), line)
    {
      if !continuingLine {
        if line != [] {
          PushIndent();
        }
        continuingLine := true;
      }
    }

    method Outdent(line: string, interpretSyntax: bool)
      modifies this
      ensures Value() == Outdented(old(Value()), line, interpretSyntax)
    {
      hide White, TrimStart, TrimEnd;
      var trimmed := Trim(line);
      if interpretSyntax && Starts(trimmed, "//") {
        inLineComment := true;
      }
      if interpretSyntax && !inLineComment {
        if Starts(trimmed, "}") && Ends(s, "  ") {
          s := s[..|s| - 1];
          s := s[..|s| - 1];
        }
      }
    }

    method Level(line: string, interpretSyntax: bool)
      modifies this
      ensures Value() == Levelled(old(Value()), line, interpretSyntax)
    {
      hide White, TrimStart, TrimEnd;
      var trimmed := Trim(line);
      if interpretSyntax && !inLineComment {
        if Ends(trimmed, "{") {
          indent := indent + 1;
        }
        if Starts(trimmed, "}") {
          indent := if indent > 0 then indent - 1 else 0;
        }
      }
    }

    method PushIndent()
      modifies this`s
      ensures s == old(s) + Spaces(indent)
    {
      for i := 0 to indent
        invariant s == old(s) + Spaces(i)
      {
        s := s + "  ";
      }
    }

    method Indent(amt: nat)
      modifies this
      ensures Value() == old(Value()).(indent := old(indent) + amt)
    {
      indent := indent + amt;
    }

    /** Deindenting below zero overflows. */
    method Deindent(amt: nat)
      requires amt <= indent
      modifies this
      ensures Value() == old(Value()).(indent := old(indent) - amt)
    {
      indent := indent - amt;
    }

    /** Returns the old level. */
    method SetIndent(amt: nat) returns (was: nat)
      modifies this
      ensures was == old(indent) && Value() == old(Value()).(indent := amt)
    {
      was := indent;
      indent := amt;
    }

    method Newline()
      modifies this
      ensures Value() == Broken(old(Value()))
    {
      inLineComment := false;
      continuingLine := false;
      s := s + "\n";
    }
  }

  // ----- content is conserved -----

  lemma {:induction false} TrimStartKeeps(s: string)
    requires '\n' !in s
    ensures Content(TrimStart(s)) == Content(s)
  {
    if s != [] && White(s[0]) {
      assert s[0] in s;
      TrimStartKeeps(s[1..]);
    }
  }

  lemma DropReturnKeeps(line: string)
    ensures Content(DropReturn(line)) == Content(line) && ('\n' !in line ==> '\n' !in DropReturn(line))
  {
    if line != [] && line[|line| - 1] == '\r' {
      assert line == DropReturn(line) + "\r";
      ContentConcat(DropReturn(line), "\r");
      assert Content("\r") == [] by { assert "\r"[1..] == []; }
    }
  }

  lemma {:induction false} SpacesAreBlank(n: nat)
    ensures Content(Spaces(n)) == []
  {
    if n > 0 {
      SpacesAreBlank(n - 1);
      TwoSpaces();
      ContentConcat(Spaces(n - 1), "  ");
    }
  }

  lemma TwoSpaces()
    ensures Content("  ") == []
  {
    assert "  "[1..] == " " && " "[1..] == [];
    assert Content(" ") == [];
  }

  lemma LineConserves(t: Text, line: string, alone: bool, syntax: bool)
    requires '\n' !in line
    ensures Content(Line(t, line, alone, syntax).s) == Content(t.s) + Content(line)
  {
    hide White, Content, Trim, TrimStart, Spaces;
    var b := Begun(t, line);
    assert Content(b.s) == Content(t.s) by {
      ContentConcat(t.s, Spaces(t.indent));
      SpacesAreBlank(t.indent);
      assert Content(t.s) + [] == Content(t.s);
    }
    var o := Outdented(b, line, syntax);
    assert Content(o.s) == Content(b.s) by {
      if o.s != b.s {
        assert b.s == o.s + "  ";
        TwoSpaces();
        ContentConcat(o.s, "  ");
        assert Content(o.s) + [] == Content(o.s);
      }
    }
    ContentConcat(o.s, if alone then line else TrimStart(line));
    TrimStartKeeps(line);
  }

  /** The contents of the lines, with their line breaks. */
  function Joined(lines: seq<string>, i: nat, ended: bool): string
    requires i <= |lines|
    decreases |lines| - i
  {
    if i == |lines| then []
    else Content(lines[i]) + (if i != |lines| - 1 || ended then "\n" else "") + Joined(lines, i + 1, ended)
  }

  lemma BreakIsContent(t: Text)
    ensures Content(Broken(t).s) == Content(t.s) + "\n"
  {
    ContentConcat(t.s, "\n");
    assert "\n"[1..] == [];
    assert Content("\n") == "\n" + Content([]);
  }

  lemma {:induction false} LinesConserve(t: Text, lines: seq<string>, i: nat, syntax: bool, ended: bool)
    requires i <= |lines| && forall l | l in lines :: '\n' !in l
    ensures Content(LinesFrom(t, lines, i, syntax, ended).s) == Content(t.s) + Joined(lines, i, ended)
    decreases |lines| - i
  {
    hide White, Content, Line, Broken;
    if i < |lines| {
      var l := Line(t, lines[i], |lines| == 1, syntax);
      LineConserves(t, lines[i], |lines| == 1, syntax);
      BreakIsContent(l);
      var next := if i != |lines| - 1 || ended then Broken(l) else l;
      LinesConserve(next, lines, i + 1, syntax, ended);
      var mark := if i != |lines| - 1 || ended then "\n" else "";
      assert Content(next.s) == Content(t.s) + Content(lines[i]) + mark;
      assert Content(t.s) + (Content(lines[i]) + mark + Joined(lines, i + 1, ended))
          == Content(t.s) + Content(lines[i]) + mark + Joined(lines, i + 1, ended);
    } else {
      assert Content(t.s) + [] == Content(t.s);
    }
  }

  lemma {:induction false} LinesHaveNoBreaks(s: string)
    ensures forall l | l in Lines(s) :: '\n' !in l
    decreases |s|
  {
    hide White, Content;
    if s != [] {
      var n := LineEnd(s);
      if n < |s| {
        DropReturnKeeps(s[..n]);
        LinesHaveNoBreaks(s[n + 1..]);
      } else {
        assert s[..n] == s;
      }
    }
  }

  lemma JoinedTail(line: string, rest: seq<string>, i: nat, ended: bool)
    requires i <= |rest|
    ensures Joined([line] + rest, i + 1, ended) == Joined(rest, i, ended)
    decreases |rest| - i
  {
    hide Content;
    if i < |rest| {
      JoinedTail(line, rest, i + 1, ended);
    }
  }

  /** Splitting into lines loses nothing but carriage returns. */
  lemma {:induction false} LinesAreContent(s: string)
    ensures Joined(Lines(s), 0, Ends(s, "\n")) == Content(s)
    decreases |s|
  {
    hide White, DropReturn, Ends;
    if s != [] {
      var n := LineEnd(s);
      if n == |s| {
        assert s[..n] == s;
        NotEnded(s);
        assert Joined([s], 1, false) == [];
        assert Content(s) + "" + [] == Content(s);
      } else {
        FirstLine(s, n);
        LinesAreContent(s[n + 1..]);
        RestEnds(s, n);
        JoinedTail(DropReturn(s[..n]), Lines(s[n + 1..]), 0, Ends(s, "\n"));
      }
    }
  }

  lemma NotEnded(s: string)
    requires '\n' !in s
    ensures !Ends(s, "\n")
  {
    assert s != [] ==> s[|s| - 1..] == [s[|s| - 1]] && s[|s| - 1] in s;
  }

  lemma FirstLine(s: string, n: nat)
    requires n < |s| && s[n] == '\n'
    ensures Content(s) == Content(DropReturn(s[..n])) + "\n" + Content(s[n + 1..])
  {
    hide DropReturn;
    assert s == s[..n] + ("\n" + s[n + 1..]);
    ContentConcat(s[..n], "\n" + s[n + 1..]);
    ContentConcat("\n", s[n + 1..]);
    BreakIsContent(Text("", 0, false, false));
    DropReturnKeeps(s[..n]);
    assert "" + "\n" == "\n" && Content("") + "\n" == "\n";
  }

  /** Whether the text after the first line break ends with one; if nothing follows, the
      text itself does. */
  lemma RestEnds(s: string, n: nat)
    requires n < |s| && s[n] == '\n'
    ensures s[n + 1..] == [] ==> Ends(s, "\n") && Lines(s[n + 1..]) == []
    ensures s[n + 1..] != [] ==> (Ends(s[n + 1..], "\n") <==> Ends(s, "\n")) && Lines(s[n + 1..]) != []
  {
    var rest := s[n + 1..];
    if rest == [] {
      assert s[|s| - 1..] == [s[|s| - 1]];
    } else {
      assert rest[|rest| - 1..] == [rest[|rest| - 1]] && s[|s| - 1..] == [s[|s| - 1]];
    }
  }

  /** Every push appends its content, whatever the indentation does. */
  lemma PushConserves(t: Text, src: string, syntax: bool)
    ensures Content(Pushed(t, src, syntax).s) == Content(t.s) + Content(src)
  {
    hide Content, Line, Lines, Ends;
    LinesHaveNoBreaks(src);
    LinesConserve(t, Lines(src), 0, syntax, Ends(src, "\n"));
    LinesAreContent(src);
  }

  /** A literal push never changes the indentation level. */
  lemma {:induction false} LiteralKeepsLevel(t: Text, lines: seq<string>, i: nat, ended: bool)
    requires i <= |lines|
    ensures LinesFrom(t, lines, i, false, ended).indent == t.indent
    decreases |lines| - i
  {
    hide Trim, TrimStart, Spaces;
    if i < |lines| {
      var l := Line(t, lines[i], |lines| == 1, false);
      LiteralKeepsLevel(if i != |lines| - 1 || ended then Broken(l) else l, lines, i + 1, ended);
    }
  }

  // ----- whole runs -----

  datatype Op = Push(src: string) | PushLiteral(src: string) | In(amt: nat) | Out(amt: nat) | Set(amt: nat)

  function Apply(t: Text, op: Op): Text {
    match op
    case Push(src) => Pushed(t, src, true)
    case PushLiteral(src) => Pushed(t, src, false)
    case In(n) => t.(indent := t.indent + n)
    case Out(n) => t.(indent := if n <= t.indent then t.indent - n else 0)
    case Set(n) => t.(indent := n)
  }

  function ApplyAll(t: Text, ops: seq<Op>): Text
    decreases |ops|
  {
    if ops == [] then t else ApplyAll(Apply(t, ops[0]), ops[1..])
  }

  function Input(ops: seq<Op>): string {
    if ops == [] then [] else (if ops[0].Push? || ops[0].PushLiteral? then ops[0].src else "") + Input(ops[1..])
  }

  /** Over every run, the printed text is the concatenated input up to white space. */
  lemma {:induction false} RunConserves(t: Text, ops: seq<Op>)
    ensures Content(ApplyAll(t, ops).s) == Content(t.s) + Content(Input(ops))
    decreases |ops|
  {
    hide Content, Pushed;
    if ops == [] {
      assert Content("") == [] by { EmptyContent(); }
      assert Content(t.s) + [] == Content(t.s);
    } else {
      var src := if ops[0].Push? || ops[0].PushLiteral? then ops[0].src else "";
      var next := Apply(t, ops[0]);
      EmptyContent();
      if ops[0].Push? || ops[0].PushLiteral? { PushConserves(t, src, ops[0].Push?); }
      assert Content(next.s) == Content(t.s) + Content(src);
      RunConserves(next, ops[1..]);
      ContentConcat(src, Input(ops[1..]));
      assert Content(t.s) + Content(src) + Content(Input(ops[1..])) == Content(t.s) + (Content(src) + Content(Input(ops[1..])));
    }
  }

  lemma EmptyContent()
    ensures Content("") == []
  {
  }
}
