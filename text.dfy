/** String operations. The route handler itself only lower-cases
    (`String.prototype.toLowerCase`, here its ASCII part) and searches
    (`String.prototype.includes`). Indentation, `Lines` and `Join` split text
    at line feeds and rejoin it, so that the model can state how Mermaid
    reads the diagram text line by line. */
module Text {

  /** Lower-cases one ASCII letter; every other character is left alone. */
  function LowerChar(c: char): char {
    if 'A' <= c <= 'Z' then (c as int + 32) as char else c
  }

  /** `s.toLowerCase()`, restricted to ASCII case mapping. */
  function ToLower(s: string): (r: string)
    ensures |r| == |s|
    ensures forall i :: 0 <= i < |s| ==> r[i] == LowerChar(s[i])
  {
    if s == [] then [] else [LowerChar(s[0])] + ToLower(s[1..])
  }

  /** Lower-casing distributes over concatenation. */
  lemma ToLowerAppend(a: string, b: string)
    ensures ToLower(a + b) == ToLower(a) + ToLower(b)
  {
    assert forall i :: 0 <= i < |a + b| ==> ToLower(a + b)[i] == (ToLower(a) + ToLower(b))[i];
  }

  /** `s` begins with `p`, checked character by character. */
  predicate StartsWith(s: string, p: string) {
    p == [] || (s != [] && s[0] == p[0] && StartsWith(s[1..], p[1..]))
  }

  /** `s.includes(w)`: some suffix of `s` begins with `w`. */
  predicate Contains(s: string, w: string) {
    StartsWith(s, w) || (s != [] && Contains(s[1..], w))
  }

  /** `w` occurs in `s` starting at index `i`. */
  predicate OccursAt(s: string, w: string, i: int) {
    0 <= i && i + |w| <= |s| && s[i..i + |w|] == w
  }

  lemma {:induction false} StartsWithSlice(s: string, p: string)
    ensures StartsWith(s, p) <==> OccursAt(s, p, 0)
  {
    if p != [] && s != [] {
      StartsWithSlice(s[1..], p[1..]);
      if OccursAt(s, p, 0) {
        assert s[1..][..|p| - 1] == p[1..];
      }
    }
  }

  /** The recursive search agrees with the index-based definition, both ways. */
  lemma {:induction false} ContainsIffOccurs(s: string, w: string)
    ensures Contains(s, w) <==> exists i :: OccursAt(s, w, i)
  {
    StartsWithSlice(s, w);
    if s != [] {
      ContainsIffOccurs(s[1..], w);
      if j :| OccursAt(s[1..], w, j) {
        assert s[j + 1..j + 1 + |w|] == s[1..][j..j + |w|];
        assert OccursAt(s, w, j + 1);
      }
      if i :| OccursAt(s, w, i) {
        if i > 0 {
          assert s[1..][i - 1..i - 1 + |w|] == s[i..i + |w|];
          assert OccursAt(s[1..], w, i - 1);
        }
      }
    } else {
      if i :| OccursAt(s, w, i) {
        assert w == [];
      }
    }
  }

  /** A word occurs in any text built around it. */
  lemma ContainsInfix(a: string, w: string, b: string)
    ensures Contains(a + w + b, w)
  {
    assert OccursAt(a + w + b, w, |a|) by {
      assert (a + w + b)[|a|..|a| + |w|] == w;
    }
    ContainsIffOccurs(a + w + b, w);
  }

  /** Search is monotone: what occurs in `s` occurs in any text containing `s`. */
  lemma ContainsWithin(a: string, s: string, b: string, w: string)
    requires Contains(s, w)
    ensures Contains(a + s + b, w)
  {
    ContainsIffOccurs(s, w);
    var i :| OccursAt(s, w, i);
    assert (a + s + b)[|a| + i..|a| + i + |w|] == s[i..i + |w|];
    assert OccursAt(a + s + b, w, |a| + i);
    ContainsIffOccurs(a + s + b, w);
  }

  /** A word one of whose characters is missing from `s` does not occur in `s`. */
  lemma {:induction false} MissingCharNotContained(s: string, w: string, c: char)
    requires c in w && c !in s
    ensures !Contains(s, w)
  {
    ContainsIffOccurs(s, w);
  }

  /** An occurrence of a word that lacks `sep` cannot straddle a `sep`. */
  lemma SplitAtSeparator(a: string, sep: char, b: string, w: string)
    requires sep !in w
    requires Contains(a + [sep] + b, w)
    ensures Contains(a, w) || Contains(b, w)
  {
    var s := a + [sep] + b;
    ContainsIffOccurs(s, w);
    var i :| OccursAt(s, w, i);
    if i + |w| <= |a| {
      assert a[i..i + |w|] == s[i..i + |w|];
      assert OccursAt(a, w, i);
      ContainsIffOccurs(a, w);
    } else if i > |a| {
      var j := i - |a| - 1;
      assert s[|a| + 1..] == b;
      assert b[j..j + |w|] == s[|a| + 1..][j..j + |w|] == s[i..i + |w|];
      assert OccursAt(b, w, j);
      ContainsIffOccurs(b, w);
    } else {
      StraddleHitsSeparator(a, sep, b, w, i);
      assert false;
    }
  }

  lemma StraddleHitsSeparator(a: string, sep: char, b: string, w: string, i: int)
    requires OccursAt(a + [sep] + b, w, i) && i <= |a| < i + |w|
    ensures sep in w
  {
    assert w[|a| - i] == (a + [sep] + b)[|a|];
  }

  /** `n` spaces. */
  function Indent(n: nat): (r: string)
    ensures |r| == n && forall i :: 0 <= i < n ==> r[i] == ' '
  {
    seq(n, _ => ' ')
  }

  /** Drops the leading spaces of a line. */
  function TrimStart(s: string): (r: string)
    ensures |r| <= |s| && (r == [] || r[0] != ' ')
  {
    if s != [] && s[0] == ' ' then TrimStart(s[1..]) else s
  }

  lemma {:induction false} TrimStartIndent(n: nat, t: string)
    ensures t == [] || t[0] != ' ' ==> TrimStart(Indent(n) + t) == t
  {
    if n > 0 {
      assert (Indent(n) + t)[1..] == Indent(n - 1) + t;
      TrimStartIndent(n - 1, t);
    }
  }

  /** The pieces of a text between its line feeds: the lines Mermaid reads. */
  function Lines(s: string): (r: seq<string>)
    ensures |r| >= 1
  {
    if s == [] then [""]
    else if s[0] == '\n' then [""] + Lines(s[1..])
    else
      var rest := Lines(s[1..]);
      [[s[0]] + rest[0]] + rest[1..]
  }

  /** Lines joined with one line feed between each two. */
  function Join(ls: seq<string>): string {
    if ls == [] then ""
    else if |ls| == 1 then ls[0]
    else ls[0] + "\n" + Join(ls[1..])
  }

  /** No line of the sequence holds a line feed. */
  predicate SingleLines(ls: seq<string>) {
    forall l :: l in ls ==> '\n' !in l
  }

  lemma {:induction false} LinesOfLineThen(l: string, t: string)
    requires '\n' !in l
    ensures Lines(l + "\n" + t) == [l] + Lines(t)
  {
    if l != [] {
      assert (l + "\n" + t)[1..] == l[1..] + "\n" + t;
      LinesOfLineThen(l[1..], t);
      assert [l[0]] + l[1..] == l;
    }
  }

  lemma {:induction false} LinesOfLine(l: string)
    requires '\n' !in l
    ensures Lines(l) == [l]
  {
    if l != [] {
      LinesOfLine(l[1..]);
      assert [l[0]] + l[1..] == l;
    }
  }

  /** Splitting undoes joining, for lines without line feeds. */
  lemma {:induction false} LinesOfJoin(ls: seq<string>)
    requires |ls| >= 1 && SingleLines(ls)
    ensures Lines(Join(ls)) == ls
  {
    assert ls[0] in ls;
    if |ls| == 1 {
      LinesOfLine(ls[0]);
    } else {
      LinesOfJoin(ls[1..]);
      LinesOfLineThen(ls[0], Join(ls[1..]));
    }
  }

  /** Joining two non-empty runs of lines puts one line feed between them. */
  lemma {:induction false} JoinAppend(a: seq<string>, b: seq<string>)
    requires |a| >= 1 && |b| >= 1
    ensures Join(a) + "\n" + Join(b) == Join(a + b)
  {
    if |a| > 1 {
      JoinAppend(a[1..], b);
      assert (a + b)[1..] == a[1..] + b;
    } else {
      assert (a + b)[1..] == b;
    }
  }

  /** A run of lines as a template literal that begins with a line feed. */
  function Fragment(ls: seq<string>): string {
    "\n" + Join(ls)
  }

  /** Two fragments written one after the other are one fragment. */
  lemma FragmentAppend(a: seq<string>, b: seq<string>)
    requires |a| >= 1 && |b| >= 1
    ensures Fragment(a + b) == Fragment(a) + Fragment(b)
  {
    JoinAppend(a, b);
  }

  /** Splitting a fragment at its line feeds gives an empty first line and
      then the fragment's lines. */
  lemma FragmentLines(ls: seq<string>)
    requires |ls| >= 1 && SingleLines(ls)
    ensures Lines(Fragment(ls)) == [""] + ls
  {
    LinesOfJoin(ls);
    assert Fragment(ls)[1..] == Join(ls);
  }

  lemma SingleLinesAppend(a: seq<string>, b: seq<string>)
    requires SingleLines(a) && SingleLines(b)
    ensures SingleLines(a + b)
  {
  }

  /** Lines present only when the flag is set. */
  function When(present: bool, ls: seq<string>): seq<string> {
    if present then ls else []
  }

  /** Assembling fragments: the text of the whole is the fragments' texts in
      order, for any four fragments. */
  lemma AssembleText(a: seq<string>, m: seq<string>, p: seq<string>, c: seq<string>, mem: bool, ml: bool)
    requires |a| >= 1 && |m| >= 1 && |p| >= 1 && |c| >= 1
    ensures Fragment(a + When(mem, m) + When(ml, p) + c) ==
      Fragment(a) + (if mem then Fragment(m) else "")
        + (if ml then Fragment(p) else "") + Fragment(c)
  {
    var fa, fm, fp, fc := Fragment(a), Fragment(m), Fragment(p), Fragment(c);
    if mem && ml {
      FragmentAppend(p, c);
      FragmentAppend(m, p + c);
      FragmentAppend(a, m + (p + c));
      assert a + m + p + c == a + (m + (p + c));
      assert fa + (fm + (fp + fc)) == fa + fm + fp + fc;
    } else if mem {
      FragmentAppend(m, c);
      FragmentAppend(a, m + c);
      assert a + m + [] + c == a + (m + c);
      assert fa + (fm + fc) == fa + fm + "" + fc;
    } else if ml {
      FragmentAppend(p, c);
      FragmentAppend(a, p + c);
      assert a + [] + p + c == a + (p + c);
      assert fa + (fp + fc) == fa + "" + fp + fc;
    } else {
      FragmentAppend(a, c);
      assert a + [] + [] + c == a + c;
      assert fa + fc == fa + "" + "" + fc;
    }
  }
}
