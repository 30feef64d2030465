/** Splitting a text at its line breaks and joining lines into a text. */
module Lines {
  import opened Words

  /** `s.split("\n")`: at least one line, whatever the text. */
  function LinesOf(s: string): (ls: seq<string>)
    ensures ls != []
  {
    if s == [] then [""]
    else
      var n := |s| - 1;
      var before := LinesOf(s[..n]);
      if s[n] == '\n' then before + [""] else before[..|before| - 1] + [before[|before| - 1] + [s[n]]]
  }

  /** `"\n".join(ls)`. */
  function Unlines(ls: seq<string>): string {
    if ls == [] then ""
    else if |ls| == 1 then ls[0]
    else Unlines(ls[..|ls| - 1]) + "\n" + ls[|ls| - 1]
  }

  predicate OneLine(s: string) {
    '\n' !in s
  }

  /** No line of the text is empty. */
  predicate NoBlankLine(s: string) {
    forall i :: 0 <= i < |LinesOf(s)| ==> LinesOf(s)[i] != ""
  }

  function EachLines(parts: seq<string>): (r: seq<seq<string>>)
    ensures |r| == |parts| && forall i :: 0 <= i < |parts| ==> r[i] == LinesOf(parts[i])
  {
    seq(|parts|, i requires 0 <= i < |parts| => LinesOf(parts[i]))
  }

  lemma LastOfLines(s: string)
    requires s != []
    ensures var before := LinesOf(s[..|s| - 1]);
      LinesOf(s) == if s[|s| - 1] == '\n' then before + [""]
                    else before[..|before| - 1] + [before[|before| - 1] + [s[|s| - 1]]]
  {
  }

  lemma NoLines(s: string)
    requires s == []
    ensures LinesOf(s) == [""]
  {
  }

  lemma {:induction false} LinesSplit(a: string, b: string)
    ensures LinesOf(a + "\n" + b) == LinesOf(a) + LinesOf(b)
    decreases |b|
  {
    hide LinesOf;
    var s := a + "\n" + b;
    LastOfLines(s);
    if b == [] {
      NoLines(b);
      assert s[..|s| - 1] == a;
    } else {
      var rest := b[..|b| - 1];
      assert s[..|s| - 1] == a + "\n" + rest;
      LastOfLines(b);
      LinesSplit(a, rest);
      var before := LinesOf(a) + LinesOf(rest);
      assert before[..|before| - 1] == LinesOf(a) + LinesOf(rest)[..|LinesOf(rest)| - 1];
    }
  }

  lemma {:induction false} LineIsItself(s: string)
    requires OneLine(s)
    ensures LinesOf(s) == [s]
    decreases |s|
  {
    hide LinesOf;
    if s == [] {
      NoLines(s);
    } else {
      LastOfLines(s);
      LineIsItself(s[..|s| - 1]);
      assert s[..|s| - 1] + [s[|s| - 1]] == s;
    }
  }

  lemma UnlinesMore(ls: seq<string>, l: string)
    ensures Unlines(ls + [l]) == if ls == [] then l else Unlines(ls) + "\n" + l
  {
    assert (ls + [l])[..|ls|] == ls;
  }

  /** Joining the lines of a text gives the text back. */
  lemma {:induction false} UnlinesInvertsLines(s: string)
    ensures Unlines(LinesOf(s)) == s
    decreases |s|
  {
    hide LinesOf, Unlines;
    if s == [] {
      NoLines(s);
      UnlinesMore([], "");
      assert [] + [""] == [""];
    } else {
      var before, c := LinesOf(s[..|s| - 1]), s[|s| - 1];
      LastOfLines(s);
      UnlinesInvertsLines(s[..|s| - 1]);
      var front, last := before[..|before| - 1], before[|before| - 1];
      assert before == front + [last];
      UnlinesMore(before, "");
      UnlinesMore(front, last);
      UnlinesMore(front, last + [c]);
    }
  }

  /** Splitting joined parts gives the lines of every part, in order. */
  lemma {:induction false} LinesOfUnlines(parts: seq<string>)
    requires parts != []
    ensures LinesOf(Unlines(parts)) == Flatten(EachLines(parts))
    decreases |parts|
  {
    hide LinesOf, Unlines, Flatten;
    var rest, last := parts[..|parts| - 1], parts[|parts| - 1];
    assert parts == rest + [last];
    UnlinesMore(rest, last);
    assert EachLines(parts) == EachLines(rest) + [LinesOf(last)];
    FlattenMore(EachLines(rest), LinesOf(last));
    if rest == [] {
      FlattenNothing(EachLines(rest));
    } else {
      LinesOfUnlines(rest);
      LinesSplit(Unlines(rest), last);
    }
  }
}
