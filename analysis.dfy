/** analyzePrompt (src/app/api/generate/route.ts): five requirement flags,
    each raised when the lower-cased prompt contains one of two keywords. */
module Analysis {
  import opened Text

  /** The requirement flags derived from a prompt. */
  datatype Requirements = Requirements(
    needsMemory: bool,
    needsAPI: bool,
    needsML: bool,
    needsNLP: bool,
    needsStreaming: bool)

  /** Each flag is set when the lower-cased prompt contains either of its two
      keywords. */
  function AnalyzePrompt(prompt: string): Requirements {
    var p := ToLower(prompt);
    Requirements(
      needsMemory := Contains(p, "memory") || Contains(p, "storage"),
      needsAPI := Contains(p, "api") || Contains(p, "endpoint"),
      needsML := Contains(p, "ml") || Contains(p, "machine learning"),
      needsNLP := Contains(p, "nlp") || Contains(p, "language"),
      needsStreaming := Contains(p, "stream") || Contains(p, "real-time"))
  }

  /** Each flag holds exactly when one of its keywords occurs at some index of
      the lower-cased prompt. */
  lemma AnalyzeByOccurrence(prompt: string)
    ensures var r, p := AnalyzePrompt(prompt), ToLower(prompt);
      && (r.needsMemory <==> exists i :: OccursAt(p, "memory", i) || OccursAt(p, "storage", i))
      && (r.needsAPI <==> exists i :: OccursAt(p, "api", i) || OccursAt(p, "endpoint", i))
      && (r.needsML <==> exists i :: OccursAt(p, "ml", i) || OccursAt(p, "machine learning", i))
      && (r.needsNLP <==> exists i :: OccursAt(p, "nlp", i) || OccursAt(p, "language", i))
      && (r.needsStreaming <==> exists i :: OccursAt(p, "stream", i) || OccursAt(p, "real-time", i))
  {
    var p := ToLower(prompt);
    ContainsIffOccurs(p, "memory");
    ContainsIffOccurs(p, "storage");
    ContainsIffOccurs(p, "api");
    ContainsIffOccurs(p, "endpoint");
    ContainsIffOccurs(p, "ml");
    ContainsIffOccurs(p, "machine learning");
    ContainsIffOccurs(p, "nlp");
    ContainsIffOccurs(p, "language");
    ContainsIffOccurs(p, "stream");
    ContainsIffOccurs(p, "real-time");
  }

  /** Matching ignores case: prompts that differ only in the case of their
      letters have the same requirements. */
  lemma AnalyzeIgnoresCase(p: string, q: string)
    requires |p| == |q| && forall i :: 0 <= i < |p| ==> LowerChar(p[i]) == LowerChar(q[i])
    ensures AnalyzePrompt(p) == AnalyzePrompt(q)
  {
    assert ToLower(p) == ToLower(q);
  }

  /** A keyword, written in any case, raises its flag wherever it stands in
      the prompt. */
  lemma KeywordRaisesFlag(before: string, keyword: string, after: string)
    ensures var k, r := ToLower(keyword), AnalyzePrompt(before + keyword + after);
      && (k == "memory" || k == "storage" ==> r.needsMemory)
      && (k == "api" || k == "endpoint" ==> r.needsAPI)
      && (k == "ml" || k == "machine learning" ==> r.needsML)
      && (k == "nlp" || k == "language" ==> r.needsNLP)
      && (k == "stream" || k == "real-time" ==> r.needsStreaming)
  {
    ToLowerAppend(before + keyword, after);
    ToLowerAppend(before, keyword);
    ContainsInfix(ToLower(before), ToLower(keyword), ToLower(after));
  }

  /** Matching is plain substring search: any prompt that mentions HTML, in
      either case, asks for the ML pipeline. */
  lemma HtmlRaisesML(before: string, after: string)
    ensures AnalyzePrompt(before + "html" + after).needsML
    ensures AnalyzePrompt(before + "HTML" + after).needsML
  {
    ToLowerAppend(before + "html", after);
    ToLowerAppend(before, "html");
    ToLowerAppend(before + "HTML", after);
    ToLowerAppend(before, "HTML");
    assert ToLower("HTML") == "html";
    ContainsWithin(ToLower(before), "html", ToLower(after), "ml");
  }

  /** The empty prompt raises no flag. */
  lemma EmptyPromptNeedsNothing()
    ensures AnalyzePrompt("") == Requirements(false, false, false, false, false)
  {
    assert ToLower("") == "";
  }

  /** Adding text around a prompt never clears a flag. */
  lemma AnalyzeMonotone(before: string, prompt: string, after: string)
    ensures var r, s := AnalyzePrompt(prompt), AnalyzePrompt(before + prompt + after);
      && (r.needsMemory ==> s.needsMemory)
      && (r.needsAPI ==> s.needsAPI)
      && (r.needsML ==> s.needsML)
      && (r.needsNLP ==> s.needsNLP)
      && (r.needsStreaming ==> s.needsStreaming)
  {
    ToLowerAppend(before + prompt, after);
    ToLowerAppend(before, prompt);
    var a, p, b := ToLower(before), ToLower(prompt), ToLower(after);
    KeywordWithin(a, p, b, "memory");
    KeywordWithin(a, p, b, "storage");
    KeywordWithin(a, p, b, "api");
    KeywordWithin(a, p, b, "endpoint");
    KeywordWithin(a, p, b, "ml");
    KeywordWithin(a, p, b, "machine learning");
    KeywordWithin(a, p, b, "nlp");
    KeywordWithin(a, p, b, "language");
    KeywordWithin(a, p, b, "stream");
    KeywordWithin(a, p, b, "real-time");
  }

  lemma KeywordWithin(a: string, p: string, b: string, w: string)
    ensures Contains(p, w) ==> Contains(a + p + b, w)
  {
    if Contains(p, w) {
      ContainsWithin(a, p, b, w);
    }
  }

  /** Words separated (and followed) by single spaces. */
  function Spaced(words: seq<string>): string {
    if words == [] then "" else words[0] + " " + Spaced(words[1..])
  }

  lemma {:induction false} SpacedContains(words: seq<string>, i: nat)
    requires i < |words|
    ensures Contains(Spaced(words), words[i])
  {
    if i == 0 {
      ContainsInfix([], words[0], " " + Spaced(words[1..]));
      assert Spaced(words) == [] + words[0] + (" " + Spaced(words[1..]));
    } else {
      SpacedContains(words[1..], i - 1);
      ContainsWithin(words[0] + " ", Spaced(words[1..]), [], words[i]);
      assert Spaced(words) == (words[0] + " ") + Spaced(words[1..]) + [];
    }
  }

  lemma {:induction false} SpacedAbsent(words: seq<string>, w: string)
    requires ' ' !in w && w != []
    requires forall x :: x in words ==> !Contains(x, w)
    ensures !Contains(Spaced(words), w)
  {
    if words != [] {
      assert words[0] in words;
      assert forall x :: x in words[1..] ==> x in words;
      SpacedAbsent(words[1..], w);
      if Contains(Spaced(words), w) {
        SplitAtSeparator(words[0], ' ', Spaced(words[1..]), w);
        assert false;
      }
    } else {
      ContainsIffOccurs("", w);
    }
  }

  lemma {:induction false} SpacedLower(words: seq<string>)
    requires forall x :: x in words ==> ToLower(x) == x
    ensures ToLower(Spaced(words)) == Spaced(words)
  {
    if words != [] {
      assert words[0] in words;
      assert forall x :: x in words[1..] ==> x in words;
      SpacedLower(words[1..]);
      ToLowerAppend(words[0] + " ", Spaced(words[1..]));
      ToLowerAppend(words[0], " ");
    }
  }

  /** One keyword for each flag set in `r`, in flag order. */
  function Words(r: Requirements): (words: seq<string>)
    ensures forall x :: x in words <==>
      || (x == "memory" && r.needsMemory) || (x == "api" && r.needsAPI)
      || (x == "ml" && r.needsML) || (x == "nlp" && r.needsNLP)
      || (x == "stream" && r.needsStreaming)
  {
    (if r.needsMemory then ["memory"] else []) + (if r.needsAPI then ["api"] else [])
      + (if r.needsML then ["ml"] else []) + (if r.needsNLP then ["nlp"] else [])
      + (if r.needsStreaming then ["stream"] else [])
  }

  /** A prompt that names one keyword for each flag set in `r`. */
  function PromptFor(r: Requirements): string {
    Spaced(Words(r))
  }

  /** The prompt built for `r` is already lower case. */
  lemma PromptForLower(r: Requirements)
    ensures ToLower(PromptFor(r)) == PromptFor(r)
  {
    assert ToLower("memory") == "memory" && ToLower("api") == "api" && ToLower("ml") == "ml";
    assert ToLower("nlp") == "nlp" && ToLower("stream") == "stream";
    SpacedLower(Words(r));
  }

  /** The prompt built for `r` contains `w` when `w` is one of its words. */
  lemma PromptForNames(r: Requirements, w: string)
    requires w in Words(r)
    ensures Contains(PromptFor(r), w)
  {
    var i :| 0 <= i < |Words(r)| && Words(r)[i] == w;
    SpacedContains(Words(r), i);
  }

  /** A character absent from every word, other than the space, is absent
      from the prompt. */
  lemma {:induction false} SpacedLacks(words: seq<string>, c: char)
    requires c != ' ' && forall x :: x in words ==> c !in x
    ensures c !in Spaced(words)
  {
    if words != [] {
      assert words[0] in words;
      assert forall x :: x in words[1..] ==> x in words;
      SpacedLacks(words[1..], c);
    }
  }

  /** A keyword with a character that no word of the prompt holds does not
      occur in the prompt. */
  lemma AbsentByChar(r: Requirements, w: string, c: char)
    requires c in w && c != ' ' && forall x :: x in Words(r) ==> c !in x
    ensures !Contains(PromptFor(r), w)
  {
    SpacedLacks(Words(r), c);
    MissingCharNotContained(PromptFor(r), w, c);
  }

  lemma MemoryReached(r: Requirements)
    ensures Contains(PromptFor(r), "memory") || Contains(PromptFor(r), "storage") <==> r.needsMemory
  {
    if r.needsMemory {
      PromptForNames(r, "memory");
    } else {
      AbsentByChar(r, "memory", 'y');
      AbsentByChar(r, "storage", 'g');
    }
  }

  lemma APIReached(r: Requirements)
    ensures Contains(PromptFor(r), "api") || Contains(PromptFor(r), "endpoint") <==> r.needsAPI
  {
    if r.needsAPI {
      PromptForNames(r, "api");
    } else {
      AbsentByChar(r, "api", 'i');
      AbsentByChar(r, "endpoint", 'd');
    }
  }

  /** No keyword of the other flags contains "ml". */
  lemma OtherWordsLackML()
    ensures !Contains("memory", "ml") && !Contains("api", "ml")
    ensures !Contains("nlp", "ml") && !Contains("stream", "ml")
  {
  }

  lemma WordsLackML(r: Requirements)
    requires !r.needsML
    ensures forall x :: x in Words(r) ==> !Contains(x, "ml")
  {
    OtherWordsLackML();
  }

  lemma MLReached(r: Requirements)
    ensures Contains(PromptFor(r), "ml") || Contains(PromptFor(r), "machine learning") <==> r.needsML
  {
    if r.needsML {
      PromptForNames(r, "ml");
    } else {
      WordsLackML(r);
      SpacedAbsent(Words(r), "ml");
      AbsentByChar(r, "machine learning", 'h');
    }
  }

  lemma NLPReached(r: Requirements)
    ensures Contains(PromptFor(r), "nlp") || Contains(PromptFor(r), "language") <==> r.needsNLP
  {
    if r.needsNLP {
      PromptForNames(r, "nlp");
    } else {
      AbsentByChar(r, "nlp", 'n');
      AbsentByChar(r, "language", 'g');
    }
  }

  lemma StreamingReached(r: Requirements)
    ensures Contains(PromptFor(r), "stream") || Contains(PromptFor(r), "real-time") <==> r.needsStreaming
  {
    if r.needsStreaming {
      PromptForNames(r, "stream");
    } else {
      AbsentByChar(r, "stream", 's');
      AbsentByChar(r, "real-time", '-');
    }
  }

  /** The five flags are independent: every combination of them is produced
      by some prompt. */
  lemma EveryCombinationReachable(r: Requirements)
    ensures AnalyzePrompt(PromptFor(r)) == r
  {
    PromptForLower(r);
    MemoryReached(r);
    APIReached(r);
    MLReached(r);
    NLPReached(r);
    StreamingReached(r);
  }
}
