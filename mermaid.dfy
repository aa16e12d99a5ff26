/** The line-level reading of a Mermaid flowchart that the generated diagrams
    must satisfy: a line whose first word is `subgraph` opens a block, a line
    that reads `end` closes the innermost open block, and every other line is
    a node or edge statement. Indentation is ignored, as Mermaid ignores it. */
module Mermaid {
  import opened Text

  datatype Option<T> = None | Some(value: T)

  /** The line opens a `subgraph` block. */
  predicate IsOpener(line: string) {
    StartsWith(TrimStart(line), "subgraph ")
  }

  /** The line closes the innermost open block. */
  predicate IsCloser(line: string) {
    TrimStart(line) == "end"
  }

  /** A title with its surrounding double quotes removed, when it has them. */
  function Unquote(s: string): string {
    if |s| >= 2 && s[0] == '"' && s[|s| - 1] == '"' then s[1..|s| - 1] else s
  }

  /** The title that follows `subgraph ` on an opener line. */
  function TitleOf(line: string): string {
    var t := TrimStart(line);
    if |t| >= 9 then Unquote(t[9..]) else ""
  }

  /** The titles of the blocks opened by `ls`, in order; one per opener line. */
  function Titles(ls: seq<string>): seq<string> {
    if ls == [] then []
    else (if IsOpener(ls[0]) then [TitleOf(ls[0])] else []) + Titles(ls[1..])
  }

  /** The number of `end` lines in `ls`. */
  function Closers(ls: seq<string>): nat {
    if ls == [] then 0
    else (if IsCloser(ls[0]) then 1 else 0) + Closers(ls[1..])
  }

  /** Reads `ls` from nesting depth `depth`: the depth after the last line, or
      None when an `end` arrives with no block open. */
  function Nesting(ls: seq<string>, depth: nat): Option<nat> {
    if ls == [] then Some(depth)
    else if IsOpener(ls[0]) then Nesting(ls[1..], depth + 1)
    else if IsCloser(ls[0]) then
      (if depth == 0 then None else Nesting(ls[1..], depth - 1))
    else Nesting(ls[1..], depth)
  }

  /** Every block is closed, and no `end` closes a block that was never opened. */
  predicate Balanced(ls: seq<string>) {
    Nesting(ls, 0) == Some(0)
  }

  /** Text that Mermaid reads as a node or edge statement on its own line. */
  type StatementText = t: string | (t == [] || t[0] != ' ') && '\n' !in t
    && !StartsWith(t, "subgraph ") && t != "end"

  /** A subgraph title: one line of text. */
  type Title = t: string | '\n' !in t

  /** One line of a flowchart, with its indentation. */
  datatype Line =
    | Stmt(indent: nat, text: StatementText)
    | Open(indent: nat, title: Title)
    | Close(indent: nat)

  /** The text of a line: `text`, `subgraph "title"` or `end`, indented. */
  function Render(l: Line): string {
    match l
    case Stmt(n, t) => Indent(n) + t
    case Open(n, title) => Indent(n) + ("subgraph \"" + title + "\"")
    case Close(n) => Indent(n) + "end"
  }

  /** Mermaid reads a rendered line as what it was built as: one line, an
      opener exactly for `Open` (with its title), a closer exactly for
      `Close`. */
  lemma RenderReading(l: Line)
    ensures '\n' !in Render(l)
    ensures IsOpener(Render(l)) <==> l.Open?
    ensures IsCloser(Render(l)) <==> l.Close?
    ensures l.Open? ==> TitleOf(Render(l)) == l.title
  {
    match l
    case Stmt(n, t) =>
      TrimStartIndent(n, t);
    case Open(n, title) =>
      var t := "subgraph \"" + title + "\"";
      assert Render(l) == Indent(n) + t;
      StartsWithSlice(t, "subgraph ");
      assert t[..9] == "subgraph ";
      assert t[9..] == "\"" + title + "\"";
      TrimStartIndent(n, t);
    case Close(n) =>
      TrimStartIndent(n, "end");
  }

  /** The texts of a run of lines. */
  function RenderAll(ls: seq<Line>): (rs: seq<string>)
    ensures |rs| == |ls| && forall i :: 0 <= i < |ls| ==> rs[i] == Render(ls[i])
  {
    seq(|ls|, i requires 0 <= i < |ls| => Render(ls[i]))
  }

  lemma RenderAllAppend(a: seq<Line>, b: seq<Line>)
    ensures RenderAll(a + b) == RenderAll(a) + RenderAll(b)
  {
    var l, r := RenderAll(a + b), RenderAll(a) + RenderAll(b);
    forall i | 0 <= i < |a + b|
      ensures l[i] == r[i]
    {
      if i < |a| {
        assert (a + b)[i] == a[i];
      } else {
        assert (a + b)[i] == b[i - |a|];
      }
    }
  }

  /** Every line of the run is a node or edge statement. */
  predicate AllStatements(ls: seq<Line>) {
    forall l :: l in ls ==> l.Stmt?
  }

  /** Rendered lines never contain a line feed. */
  lemma RenderedSingle(ls: seq<Line>)
    ensures SingleLines(RenderAll(ls))
  {
    forall l | l in RenderAll(ls)
      ensures '\n' !in l
    {
      var i :| 0 <= i < |ls| && RenderAll(ls)[i] == l;
      RenderReading(ls[i]);
    }
  }

  /** Rendered statements leave the nesting depth alone and open and close
      nothing. */
  lemma {:induction false} StatementsNesting(ls: seq<Line>, depth: nat)
    requires AllStatements(ls)
    ensures var rs := RenderAll(ls);
      Nesting(rs, depth) == Some(depth) && Titles(rs) == [] && Closers(rs) == 0
  {
    if ls != [] {
      assert ls[0] in ls;
      assert forall l :: l in ls[1..] ==> l in ls;
      RenderReading(ls[0]);
      StatementsNesting(ls[1..], depth);
      assert RenderAll(ls)[1..] == RenderAll(ls[1..]);
    }
  }

  /** Statements, one `subgraph "title"` block of statements, statements: the
      shape of every fragment that contributes a subsystem to a diagram. */
  function Section(before: seq<Line>, n: nat, title: Title, body: seq<Line>, after: seq<Line>)
    : seq<Line>
  {
    before + [Open(n, title)] + body + [Close(n)] + after
  }

  /** A section is balanced and opens exactly one subgraph, with its title. */
  lemma SectionShape(before: seq<Line>, n: nat, title: Title, body: seq<Line>, after: seq<Line>)
    requires AllStatements(before) && AllStatements(body) && AllStatements(after)
    ensures var rs := RenderAll(Section(before, n, title, body, after));
      Balanced(rs) && Titles(rs) == [title] && Closers(rs) == 1
  {
    var b, o, m, c, a := RenderAll(before), RenderAll([Open(n, title)]), RenderAll(body),
      RenderAll([Close(n)]), RenderAll(after);
    RenderAllAppend(before, [Open(n, title)]);
    RenderAllAppend(before + [Open(n, title)], body);
    RenderAllAppend(before + [Open(n, title)] + body, [Close(n)]);
    RenderAllAppend(before + [Open(n, title)] + body + [Close(n)], after);
    StatementsNesting(before, 0);
    StatementsNesting(body, 1);
    StatementsNesting(after, 0);
    RenderReading(Open(n, title));
    RenderReading(Close(n));
    assert Nesting(o, 0) == Some(1) && Nesting(c, 1) == Some(0);
    assert Titles(o) == [title] && Titles(c) == [] && Closers(o) == 0 && Closers(c) == 1;
    NestingAppend(b, o, 0);
    NestingAppend(b + o, m, 0);
    NestingAppend(b + o + m, c, 0);
    NestingAppend(b + o + m + c, a, 0);
    TitlesAppend(b, o);
    TitlesAppend(b + o, m);
    TitlesAppend(b + o + m, c);
    TitlesAppend(b + o + m + c, a);
    ClosersAppend(b, o);
    ClosersAppend(b + o, m);
    ClosersAppend(b + o + m, c);
    ClosersAppend(b + o + m + c, a);
  }

  lemma {:induction false} TitlesAppend(a: seq<string>, b: seq<string>)
    ensures Titles(a + b) == Titles(a) + Titles(b)
  {
    if a != [] {
      assert (a + b)[1..] == a[1..] + b;
      TitlesAppend(a[1..], b);
    } else {
      assert a + b == b;
    }
  }

  lemma {:induction false} ClosersAppend(a: seq<string>, b: seq<string>)
    ensures Closers(a + b) == Closers(a) + Closers(b)
  {
    if a != [] {
      assert (a + b)[1..] == a[1..] + b;
      ClosersAppend(a[1..], b);
    } else {
      assert a + b == b;
    }
  }

  /** Reading `a + b` is reading `a`, then reading `b` from where `a` left off. */
  lemma {:induction false} NestingAppend(a: seq<string>, b: seq<string>, depth: nat)
    ensures Nesting(a + b, depth) ==
      match Nesting(a, depth)
      case None => None
      case Some(d) => Nesting(b, d)
  {
    if a != [] {
      assert (a + b)[1..] == a[1..] + b;
      assert (a + b)[0] == a[0];
      if IsOpener(a[0]) {
        NestingAppend(a[1..], b, depth + 1);
      } else if IsCloser(a[0]) {
        if depth > 0 {
          NestingAppend(a[1..], b, depth - 1);
        }
      } else {
        NestingAppend(a[1..], b, depth);
      }
    } else {
      assert a + b == b;
    }
  }

  /** Two balanced runs of lines make a balanced run. */
  lemma BalancedAppend(a: seq<string>, b: seq<string>)
    requires Balanced(a) && Balanced(b)
    ensures Balanced(a + b)
  {
    NestingAppend(a, b, 0);
  }

  /** Reading from `depth` to `final` opens and closes blocks in matching
      numbers: every opened block that is not still open was closed. */
  lemma {:induction false} NestingCounts(ls: seq<string>, depth: nat, final: nat)
    requires Nesting(ls, depth) == Some(final)
    ensures depth + |Titles(ls)| == final + Closers(ls)
  {
    if ls != [] {
      if IsOpener(ls[0]) {
        NestingCounts(ls[1..], depth + 1, final);
      } else if IsCloser(ls[0]) {
        NestingCounts(ls[1..], depth - 1, final);
      } else {
        NestingCounts(ls[1..], depth, final);
      }
    }
  }

  /** A balanced diagram has exactly as many `end` lines as `subgraph` lines. */
  lemma BalancedCounts(ls: seq<string>)
    requires Balanced(ls)
    ensures |Titles(ls)| == Closers(ls)
  {
    NestingCounts(ls, 0, 0);
  }
}
