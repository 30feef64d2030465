/** Splitting a text into words and joining words into a text. */
module Words {
  import opened Texts

  /** The maximal runs of characters other than white space, as `split()` finds them. */
  function WordsOf(s: string): (ws: seq<string>)
    ensures s != [] && !Space(s[|s| - 1]) ==> ws != []
  {
    if s == [] then []
    else
      var n := |s| - 1;
      var before := WordsOf(s[..n]);
      if Space(s[n]) then before
      else if n == 0 || Space(s[n - 1]) then before + [[s[n]]]
      else before[..|before| - 1] + [before[|before| - 1] + [s[n]]]
  }

  predicate Word(w: string) {
    w != [] && forall i :: 0 <= i < |w| ==> !Space(w[i])
  }

  predicate AllWords(ws: seq<string>) {
    forall i :: 0 <= i < |ws| ==> Word(ws[i])
  }

  /** `" ".join(ws)`. */
  function Join(ws: seq<string>): string {
    if ws == [] then ""
    else if |ws| == 1 then ws[0]
    else Join(ws[..|ws| - 1]) + " " + ws[|ws| - 1]
  }

  function Flatten<T>(ss: seq<seq<T>>): seq<T> {
    if ss == [] then [] else Flatten(ss[..|ss| - 1]) + ss[|ss| - 1]
  }

  /** `s.strip()`. */
  function Strip(s: string): string {
    if s != [] && Space(s[|s| - 1]) then Strip(s[..|s| - 1])
    else if s != [] && Space(s[0]) then Strip(s[1..])
    else s
  }

  predicate Stripped(s: string) {
    s != [] ==> !Space(s[0]) && !Space(s[|s| - 1])
  }

  lemma NoWords(s: string)
    requires s == []
    ensures WordsOf(s) == []
  {
  }

  /** What the last character does to the words before it. */
  lemma LastCharacter(s: string)
    requires s != []
    ensures var n, before := |s| - 1, WordsOf(s[..|s| - 1]);
      WordsOf(s) ==
        if Space(s[n]) then before
        else if n == 0 || Space(s[n - 1]) then before + [[s[n]]]
        else before[..|before| - 1] + [before[|before| - 1] + [s[n]]]
  {
  }

  lemma TrailingSpace(s: string)
    requires s != [] && Space(s[|s| - 1])
    ensures WordsOf(s) == WordsOf(s[..|s| - 1])
  {
  }

  lemma JoinMore(ws: seq<string>, w: string)
    ensures Join(ws + [w]) == if ws == [] then w else Join(ws) + " " + w
  {
    assert (ws + [w])[..|ws|] == ws;
  }

  lemma {:induction false} WordsAreWords(s: string)
    ensures AllWords(WordsOf(s))
    decreases |s|
  {
    hide WordsOf;
    if s == [] {
      NoWords(s);
    } else {
      LastCharacter(s);
      WordsAreWords(s[..|s| - 1]);
    }
  }

  /** Words joined by single spaces are no longer than the text they come from. */
  lemma {:induction false} JoinedIsShorter(s: string)
    ensures |Join(WordsOf(s))| <= |s|
    decreases |s|
  {
    hide WordsOf, Join;
    if s == [] {
      NoWords(s);
      JoinOfNothing(WordsOf(s));
    } else {
      var n := |s| - 1;
      var before := WordsOf(s[..n]);
      LastCharacter(s);
      JoinedIsShorter(s[..n]);
      if Space(s[n]) {
      } else if n == 0 {
        NoWords(s[..n]);
        JoinMore(before, [s[n]]);
      } else if Space(s[n - 1]) {
        TrailingSpace(s[..n]);
        assert s[..n][..n - 1] == s[..n - 1];
        JoinedIsShorter(s[..n - 1]);
        JoinMore(before, [s[n]]);
      } else {
        var front, last := before[..|before| - 1], before[|before| - 1];
        assert before == front + [last];
        JoinMore(front, last);
        JoinMore(front, last + [s[n]]);
      }
    }
  }

  lemma JoinOfNothing(ws: seq<string>)
    requires ws == []
    ensures Join(ws) == ""
  {
  }

  /** White space separates words. */
  lemma {:induction false} WordsSplit(a: string, c: char, b: string)
    requires Space(c)
    ensures WordsOf(a + [c] + b) == WordsOf(a) + WordsOf(b)
    decreases |b|
  {
    hide WordsOf, Space;
    var s := a + [c] + b;
    LastCharacter(s);
    if b == [] {
      NoWords(b);
      assert s == a + [c] && s[..|s| - 1] == a;
    } else {
      var rest := b[..|b| - 1];
      assert s[..|s| - 1] == a + [c] + rest;
      LastCharacter(b);
      WordsSplit(a, c, rest);
      if !Space(b[|b| - 1]) && rest != [] && !Space(rest[|rest| - 1]) {
        WordsAreThere(rest);
        var before := WordsOf(a) + WordsOf(rest);
        assert before[..|before| - 1] == WordsOf(a) + WordsOf(rest)[..|WordsOf(rest)| - 1];
      }
    }
  }

  lemma WordsAreThere(s: string)
    requires s != [] && !Space(s[|s| - 1])
    ensures WordsOf(s) != []
  {
  }

  lemma {:induction false} WordIsItself(w: string)
    requires Word(w)
    ensures WordsOf(w) == [w]
    decreases |w|
  {
    hide WordsOf;
    var n := |w| - 1;
    LastCharacter(w);
    if n == 0 {
      NoWords(w[..n]);
    } else {
      WordIsItself(w[..n]);
    }
    assert w[..n] + [w[n]] == w;
  }

  lemma {:induction false} WordsOfStrip(s: string)
    ensures WordsOf(Strip(s)) == WordsOf(s)
    ensures Stripped(Strip(s)) && |Strip(s)| <= |s|
    decreases |s|
  {
    if s != [] && Space(s[|s| - 1]) {
      WordsOfStrip(s[..|s| - 1]);
    } else if s != [] && Space(s[0]) {
      assert s == "" + [s[0]] + s[1..];
      WordsSplit("", s[0], s[1..]);
      WordsOfStrip(s[1..]);
    }
  }

  /** The words of each text. */
  function Each(texts: seq<string>): (r: seq<seq<string>>)
    ensures |r| == |texts|
    ensures forall i :: 0 <= i < |texts| ==> r[i] == WordsOf(texts[i])
  {
    seq(|texts|, i requires 0 <= i < |texts| => WordsOf(texts[i]))
  }

  /** Joining words and splitting again gives the words back. */
  lemma {:induction false} SplitInvertsJoin(ws: seq<string>)
    requires AllWords(ws)
    ensures WordsOf(Join(ws)) == ws
    decreases |ws|
  {
    hide WordsOf, Join;
    if ws == [] {
      JoinOfNothing(ws);
      NoWords(Join(ws));
    } else {
      var rest, last := ws[..|ws| - 1], ws[|ws| - 1];
      assert ws == rest + [last];
      JoinMore(rest, last);
      WordIsItself(last);
      if rest != [] {
        SplitInvertsJoin(rest);
        WordsSplit(Join(rest), ' ', last);
        assert Join(rest) + " " + last == Join(rest) + [' '] + last;
      }
    }
  }

  lemma FlattenMore<T>(ss: seq<seq<T>>, s: seq<T>)
    ensures Flatten(ss + [s]) == Flatten(ss) + s
  {
    assert (ss + [s])[..|ss|] == ss;
  }

  lemma {:induction false} FlattenConcat<T>(a: seq<seq<T>>, b: seq<seq<T>>)
    ensures Flatten(a + b) == Flatten(a) + Flatten(b)
    decreases |b|
  {
    hide Flatten;
    if b == [] {
      assert a + b == a;
      FlattenNothing(b);
    } else {
      var rest, last := b[..|b| - 1], b[|b| - 1];
      assert a + b == (a + rest) + [last] && b == rest + [last];
      FlattenMore(a + rest, last);
      FlattenMore(rest, last);
      FlattenConcat(a, rest);
    }
  }

  lemma FlattenNothing<T>(ss: seq<seq<T>>)
    requires ss == []
    ensures Flatten(ss) == []
  {
  }
}
