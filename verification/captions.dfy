/** The captions agent: readable cues from the timestamps of a narration. Times are exact
    seconds; rounding is to whole milliseconds, halves to even. */
module Captions {
  import opened Words
  import opened Grouping

  const MAX_LINE_CHARS := 42
  const MAX_CAPTION_CHARS := 84

  datatype Timed = Timed(word: string, start: real, end: real)

  datatype Sentence = Sentence(text: string, start: real, end: real)

  datatype Cue = Cue(start: real, end: real, text: string)

  // ---------- Rounding ----------

  function HalfEven(x: real): (n: int)
    ensures x - 0.5 <= n as real <= x + 0.5
    ensures n as real == x - 0.5 || n as real == x + 0.5 ==> n % 2 == 0
  {
    var f := x.Floor;
    var d := x - f as real;
    if d < 0.5 || (d == 0.5 && f % 2 == 0) then f else f + 1
  }

  /** The whole milliseconds nearest to a time. */
  function Milliseconds(t: real): int {
    HalfEven(t * 1000.0)
  }

  /** `round(t, 3)`. */
  function Rounded(t: real): real {
    Milliseconds(t) as real / 1000.0
  }

  /** Rounding again, as the printer does, changes nothing. */
  lemma RoundedIsExact(t: real)
    ensures Milliseconds(Rounded(t)) == Milliseconds(t)
  {
    assert Rounded(t) * 1000.0 == Milliseconds(t) as real;
  }

  lemma RoundingIsMonotone(s: real, t: real)
    requires s <= t
    ensures Milliseconds(s) <= Milliseconds(t)
  {
    var x, y := s * 1000.0, t * 1000.0;
    assert x.Floor <= y.Floor;
  }

  lemma RoundedIsMonotone(s: real, t: real)
    requires s <= t
    ensures Rounded(s) <= Rounded(t)
  {
    RoundingIsMonotone(s, t);
  }

  // ---------- Wrapping ----------

  function TextFits(max: nat): (seq<string>, string) -> bool {
    (group: seq<string>, w: string) => |Join(group)| + |w| + 1 <= max
  }

  function FirstLine(lines: seq<seq<string>>): seq<string> {
    if lines == [] then [] else lines[0]
  }

  function SecondLine(lines: seq<seq<string>>): seq<string> {
    if |lines| <= 1 then [] else Flatten(lines[1..])
  }

  function TwoLines(first: seq<string>, second: seq<string>): string {
    if second == [] then Join(first) else Join(first) + "\n" + Join(second)
  }

  /** `_wrap`: the words that fit on the first line, and all others on the second. */
  function Wrapped(text: string): string {
    var lines := Grouped(WordsOf(text), TextFits(MAX_LINE_CHARS));
    if |text| <= MAX_LINE_CHARS then text else TwoLines(FirstLine(lines), SecondLine(lines))
  }

  lemma {:induction false} StripOfStripped(s: string)
    requires Stripped(s)
    ensures Strip(s) == s
  {
  }

  lemma {:induction false} JoinIsStripped(ws: seq<string>)
    requires AllWords(ws)
    ensures Stripped(Join(ws)) && (Join(ws) == "" <==> ws == [])
    decreases |ws|
  {
    if |ws| > 1 {
      JoinIsStripped(ws[..|ws| - 1]);
    }
  }

  /** One more word on a line, as the loops append it. */
  lemma AppendWord(ws: seq<string>, w: string)
    requires AllWords(ws) && Word(w)
    ensures Strip(Join(ws) + " " + w) == Join(ws + [w])
  {
    JoinMore(ws, w);
    JoinIsStripped(ws + [w]);
    if ws == [] {
      assert "" + " " + w == " " + w;
      assert (" " + w)[1..] == w;
      StripOfStripped(w);
    } else {
      StripOfStripped(Join(ws + [w]));
    }
  }

  lemma JoinSplit(a: seq<string>, b: seq<string>)
    requires AllWords(a) && AllWords(b)
    ensures WordsOf(Join(a) + "\n" + Join(b)) == a + b
    ensures |Join(a) + "\n" + Join(b)| == |Join(a)| + 1 + |Join(b)|
  {
    SplitInvertsJoin(a);
    SplitInvertsJoin(b);
    WordsSplit(Join(a), '\n', Join(b));
    assert Join(a) + "\n" + Join(b) == Join(a) + ['\n'] + Join(b);
  }

  lemma {:induction false} JoinConcat(a: seq<string>, b: seq<string>)
    requires a != [] && b != []
    ensures |Join(a + b)| == |Join(a)| + 1 + |Join(b)|
    decreases |b|
  {
    var rest, last := b[..|b| - 1], b[|b| - 1];
    assert a + b == (a + rest) + [last] && b == rest + [last];
    JoinMore(a + rest, last);
    JoinMore(rest, last);
    if rest != [] {
      JoinConcat(a, rest);
    } else {
      assert a + rest == a;
    }
  }

  /** The two lines hold all the words. */
  lemma LinesSplitWords(ws: seq<string>)
    requires AllWords(ws)
    ensures var lines := Grouped(ws, TextFits(MAX_LINE_CHARS));
      && FirstLine(lines) + SecondLine(lines) == ws
      && AllWords(FirstLine(lines)) && AllWords(SecondLine(lines))
      && (FirstLine(lines) == [] <==> lines == []) && (SecondLine(lines) == [] <==> |lines| <= 1)
  {
    hide Flatten, Grouped, Join;
    var fits := TextFits(MAX_LINE_CHARS);
    var lines := Grouped(ws, fits);
    GroupedKeeps(ws, fits);
    if lines == [] {
      FlattenNothing(lines);
    } else {
      assert Filled(lines[0], fits);
      FrontGroup(lines);
      FlattenNothing(lines[|lines|..]);
      if |lines| > 1 {
        FrontGroup(lines[1..]);
        assert Filled(lines[1], fits);
      }
      assert forall i :: 0 <= i < |FirstLine(lines)| ==> FirstLine(lines)[i] == ws[i];
      assert forall i :: 0 <= i < |SecondLine(lines)| ==> SecondLine(lines)[i] == ws[|FirstLine(lines)| + i];
    }
  }

  /** Wrapping keeps every word in order and never lengthens the text. */
  lemma WrapKeepsWords(text: string)
    ensures WordsOf(Wrapped(text)) == WordsOf(text)
    ensures |Wrapped(text)| <= |text|
  {
    var ws := WordsOf(text);
    var lines := Grouped(ws, TextFits(MAX_LINE_CHARS));
    var first, second := FirstLine(lines), SecondLine(lines);
    WordsAreWords(text);
    JoinedIsShorter(text);
    hide WordsOf, Grouped, Flatten, Join, FirstLine, SecondLine;
    LinesSplitWords(ws);
    if |text| > MAX_LINE_CHARS {
      if second == [] {
        SplitInvertsJoin(ws);
        assert first == ws;
      } else {
        JoinSplit(first, second);
        JoinConcat(first, second);
      }
    }
  }

  /** The first line is within the limit unless it is a single word, and it ends only where
      the next word did not fit. */
  lemma FirstLineIsFull(text: string)
    ensures var lines := Grouped(WordsOf(text), TextFits(MAX_LINE_CHARS));
      && (|FirstLine(lines)| > 1 ==> |Join(FirstLine(lines))| <= MAX_LINE_CHARS)
      && (SecondLine(lines) != [] ==> |Join(FirstLine(lines))| + 1 + |SecondLine(lines)[0]| > MAX_LINE_CHARS)
  {
    var ws, fits := WordsOf(text), TextFits(MAX_LINE_CHARS);
    var lines := Grouped(ws, fits);
    hide Flatten, Grouped, WordsOf, Join;
    GroupedKeeps(ws, fits);
    if lines != [] {
      assert Filled(lines[0], fits);
      FilledFits(lines[0], MAX_LINE_CHARS);
      if |lines| > 1 {
        FrontGroup(lines[1..]);
        assert Filled(lines[1], fits);
        assert SecondLine(lines)[0] == lines[1][0];
      }
    }
  }

  /** What `_wrap` returns: a text of at most 42 characters as it is; otherwise the first words
      on one line and all others on a second, where the first line has at most 42 characters or
      one word, and the first word of the second line would not have fitted on it. */
  lemma WrapBreaks(text: string) returns (k: nat)
    ensures |text| <= 42 ==> Wrapped(text) == text
    ensures k <= |WordsOf(text)| && (k == 0 <==> WordsOf(text) == [])
    ensures |text| > 42 ==>
      Wrapped(text) == Join(WordsOf(text)[..k]) + if k < |WordsOf(text)| then "\n" + Join(WordsOf(text)[k..]) else ""
    ensures k > 1 ==> |Join(WordsOf(text)[..k])| <= 42
    ensures k < |WordsOf(text)| ==> |Join(WordsOf(text)[..k])| + 1 + |WordsOf(text)[k]| > 42
  {
    hide WordsOf, Join, Grouped, Flatten, TextFits, FirstLine, SecondLine;
    var ws := WordsOf(text);
    var lines := Grouped(ws, TextFits(MAX_LINE_CHARS));
    GroupedKeeps(ws, TextFits(MAX_LINE_CHARS));
    FirstLineIsFull(text);
    k := |FirstLine(lines)|;
    LinesAreWords(lines, ws);
    NothingJoined(SecondLine(lines));
  }

  lemma NothingJoined(ws: seq<string>)
    ensures ws == [] ==> Join(ws) == ""
  {
  }

  lemma LinesAreWords(lines: seq<seq<string>>, ws: seq<string>)
    requires Flatten(lines) == ws && forall i :: 0 <= i < |lines| ==> lines[i] != []
    ensures FirstLine(lines) + SecondLine(lines) == ws
    ensures |FirstLine(lines)| <= |ws| && (FirstLine(lines) == [] <==> ws == [])
    ensures ws[..|FirstLine(lines)|] == FirstLine(lines) && ws[|FirstLine(lines)|..] == SecondLine(lines)
  {
    if lines != [] {
      FrontGroup(lines);
    }
  }

  lemma {:induction false} FilledFits(group: seq<string>, max: nat)
    requires Filled(group, TextFits(max))
    ensures |group| == 1 || |Join(group)| <= max
  {
    if |group| > 1 {
      var n := |group| - 1;
      assert TextFits(max)(group[..n], group[n]);
      assert group == group[..n] + [group[n]];
      JoinMore(group[..n], group[n]);
    }
  }

  /** Where one more word goes. */
  lemma OneMoreWord(ws: seq<string>, w: string)
    requires AllWords(ws) && Word(w)
    ensures var before := Grouped(ws, TextFits(MAX_LINE_CHARS));
      var after := Grouped(ws + [w], TextFits(MAX_LINE_CHARS));
      if SecondLine(before) == [] && (TextFits(MAX_LINE_CHARS)(FirstLine(before), w) || FirstLine(before) == [])
      then FirstLine(after) == FirstLine(before) + [w] && SecondLine(after) == []
      else FirstLine(after) == FirstLine(before) && SecondLine(after) == SecondLine(before) + [w]
  {
    hide Flatten, Grouped, Join;
    var fits := TextFits(MAX_LINE_CHARS);
    var before := Grouped(ws, fits);
    LinesSplitWords(ws);
    GroupedMore(ws, w, fits);
    if |before| == 1 {
      FlattenMore([], [w]);
      FlattenNothing(before[1..]);
      assert before[1..] + [[w]] == [[w]] && [] + [[w]] == [[w]];
      assert (before + [[w]])[1..] == [[w]];
    } else if |before| > 1 {
      var last := |before| - 1;
      LastGroup(before[1..], w);
      FlattenMore(before[1..], [w]);
      assert before[last := before[last] + [w]][1..] == before[1..][last - 1 := before[last] + [w]];
      assert (before + [[w]])[1..] == before[1..] + [[w]];
    }
  }

  /** The two lines of the words so far. */
  function LineOne(ws: seq<string>): string {
    Join(FirstLine(Grouped(ws, TextFits(MAX_LINE_CHARS))))
  }

  function LineTwo(ws: seq<string>): string {
    Join(SecondLine(Grouped(ws, TextFits(MAX_LINE_CHARS))))
  }

  lemma NothingWrapped(ws: seq<string>)
    requires ws == []
    ensures LineOne(ws) == "" == LineTwo(ws)
  {
    NoGroups(ws, TextFits(MAX_LINE_CHARS));
  }

  /** The two lines after one more word, as the loop computes them. */
  lemma WrapTurn(ws: seq<string>, w: string)
    requires AllWords(ws) && Word(w)
    ensures var line1, line2 := LineOne(ws), LineTwo(ws);
      var stays := line2 == "" && (|line1| + |w| + 1 <= MAX_LINE_CHARS || line1 == "");
      && LineOne(ws + [w]) == (if stays then Strip(line1 + " " + w) else line1)
      && LineTwo(ws + [w]) == (if stays then line2 else Strip(line2 + " " + w))
  {
    hide Strip, Join, Grouped, FirstLine, SecondLine, Word;
    var before := Grouped(ws, TextFits(MAX_LINE_CHARS));
    LinesSplitWords(ws);
    OneMoreWord(ws, w);
    JoinIsStripped(FirstLine(before));
    JoinIsStripped(SecondLine(before));
    AppendWord(FirstLine(before), w);
    AppendWord(SecondLine(before), w);
  }

  lemma WrapEnd(text: string)
    requires |text| > MAX_LINE_CHARS
    ensures var line1, line2 := LineOne(WordsOf(text)), LineTwo(WordsOf(text));
      Wrapped(text) == if line2 == "" then line1 else line1 + "\n" + line2
  {
    WordsAreWords(text);
    hide WordsOf, Join, Grouped, FirstLine, SecondLine, Word;
    LinesSplitWords(WordsOf(text));
    JoinIsStripped(SecondLine(Grouped(WordsOf(text), TextFits(MAX_LINE_CHARS))));
  }

  /** `_wrap`, as a loop over the words. */
  method Wrap(text: string) returns (r: string)
    ensures r == Wrapped(text)
  {
    hide WordsOf, Strip, LineOne, LineTwo, Wrapped;
    if |text| <= MAX_LINE_CHARS {
      WrapShort(text);
      return text;
    }
    var words := WordsOf(text);
    WordsAreWords(text);
    var line1, line2 := "", "";
    NothingWrapped(words[..0]);
    for i := 0 to |words|
      invariant line1 == LineOne(words[..i]) && line2 == LineTwo(words[..i])
    {
      WrapTurn(words[..i], words[i]);
      assert words[..i + 1] == words[..i] + [words[i]];
      if line2 == "" && (|line1| + |words[i]| + 1 <= MAX_LINE_CHARS || line1 == "") {
        line1 := Strip(line1 + " " + words[i]);
      } else {
        line2 := Strip(line2 + " " + words[i]);
      }
    }
    assert words[..|words|] == words;
    WrapEnd(text);
    r := if line2 == "" then line1 else line1 + "\n" + line2;
  }

  lemma WrapShort(text: string)
    requires |text| <= MAX_LINE_CHARS
    ensures Wrapped(text) == text
  {
  }

  // ---------- Cues from words ----------

  function Stems(ts: seq<Timed>): (r: seq<string>)
    ensures |r| == |ts| && forall i :: 0 <= i < |ts| ==> r[i] == Strip(ts[i].word)
  {
    seq(|ts|, i requires 0 <= i < |ts| => Strip(ts[i].word))
  }

  /** The loop's running length: every word and one separator. */
  function Length(group: seq<Timed>): nat {
    if group == [] then 0 else Length(group[..|group| - 1]) + |Strip(group[|group| - 1].word)| + 1
  }

  function WordFits(group: seq<Timed>, t: Timed): bool {
    Length(group) + |Strip(t.word)| + 1 <= MAX_CAPTION_CHARS
  }

  /** The groups of words that become cues. */
  function WordGroups(ts: seq<Timed>): seq<seq<Timed>> {
    Grouped(ts, WordFits)
  }

  /** The words of a stretch of the narration. */
  function Spoken(ts: seq<Timed>): seq<string> {
    if ts == [] then [] else Spoken(ts[..|ts| - 1]) + WordsOf(ts[|ts| - 1].word)
  }

  function Flushed(group: seq<Timed>): Cue
    requires group != []
  {
    Cue(Rounded(group[0].start), Rounded(group[|group| - 1].end), Wrapped(Strip(Join(Stems(group)))))
  }

  function FlushedAll(groups: seq<seq<Timed>>): seq<Cue>
    requires forall i :: 0 <= i < |groups| ==> groups[i] != []
  {
    seq(|groups|, i requires 0 <= i < |groups| => Flushed(groups[i]))
  }

  /** The words shown by a list of cues. */
  function Shown(cues: seq<Cue>): seq<string> {
    if cues == [] then [] else Shown(cues[..|cues| - 1]) + WordsOf(cues[|cues| - 1].text)
  }

  lemma {:induction false} LengthIsJoined(group: seq<Timed>)
    requires group != []
    ensures |Join(Stems(group))| + 1 == Length(group)
    decreases |group|
  {
    var rest, last := group[..|group| - 1], group[|group| - 1];
    assert Stems(group) == Stems(rest) + [Strip(last.word)];
    JoinMore(Stems(rest), Strip(last.word));
    if rest != [] {
      LengthIsJoined(rest);
    }
  }

  lemma {:induction false} JoinedIsSpoken(group: seq<Timed>)
    ensures WordsOf(Join(Stems(group))) == Spoken(group)
    decreases |group|
  {
    hide WordsOf, Strip, Join;
    if group == [] {
      JoinOfNothing(Stems(group));
      NoWords(Join(Stems(group)));
    } else {
      var rest, last := group[..|group| - 1], group[|group| - 1];
      assert Stems(group) == Stems(rest) + [Strip(last.word)];
      JoinMore(Stems(rest), Strip(last.word));
      JoinedIsSpoken(rest);
      WordsOfStrip(last.word);
      WordsSplit(Join(Stems(rest)), ' ', Strip(last.word));
      assert Join(Stems(rest)) + " " + Strip(last.word) == Join(Stems(rest)) + [' '] + Strip(last.word);
      if rest == [] {
        JoinOfNothing(Stems(rest));
        NoWords(Join(Stems(rest)));
      }
    }
  }

  /** A cue shows exactly the words of its group, from the start of the first to the end of
      the last, and exceeds the limit only when a single word does. */
  lemma FlushKeeps(group: seq<Timed>)
    requires Filled(group, WordFits)
    ensures WordsOf(Flushed(group).text) == Spoken(group)
    ensures |group| == 1 || |Flushed(group).text| < MAX_CAPTION_CHARS
    ensures Flushed(group).start == Rounded(group[0].start) && Flushed(group).end == Rounded(group[|group| - 1].end)
  {
    var joined := Join(Stems(group));
    JoinedIsSpoken(group);
    WordsOfStrip(joined);
    WrapKeepsWords(Strip(joined));
    LengthIsJoined(group);
    hide WordsOf, Strip, Join, Wrapped;
    if |group| > 1 {
      var n := |group| - 1;
      assert WordFits(group[..n], group[n]);
    }
  }

  lemma {:induction false} SpokenConcat(a: seq<Timed>, b: seq<Timed>)
    ensures Spoken(a + b) == Spoken(a) + Spoken(b)
    decreases |b|
  {
    if b == [] {
      assert a + b == a;
    } else {
      assert (a + b)[..|a + b| - 1] == a + b[..|b| - 1];
      SpokenConcat(a, b[..|b| - 1]);
    }
  }

  lemma {:induction false} ShownIsSpoken(groups: seq<seq<Timed>>)
    requires AllFilled(groups, WordFits)
    requires forall i :: 0 <= i < |groups| ==> groups[i] != []
    ensures Shown(FlushedAll(groups)) == Spoken(Flatten(groups))
    decreases |groups|
  {
    hide WordsOf, Flushed, Filled;
    if groups != [] {
      var rest, last := groups[..|groups| - 1], groups[|groups| - 1];
      ShownIsSpoken(rest);
      SpokenConcat(Flatten(rest), last);
      FlushKeeps(last);
      assert FlushedAll(groups)[..|groups| - 1] == FlushedAll(rest);
    }
  }

  lemma GroupsAreFilled(ts: seq<Timed>)
    ensures AllFilled(WordGroups(ts), WordFits) && Flatten(WordGroups(ts)) == ts
    ensures forall i :: 0 <= i < |WordGroups(ts)| ==> WordGroups(ts)[i] != []
  {
    GroupedKeeps(ts, WordFits);
    forall i | 0 <= i < |WordGroups(ts)| ensures WordGroups(ts)[i] != [] {
      assert Filled(WordGroups(ts)[i], WordFits);
    }
  }

  /** The cues of timed words show exactly the narrated words, in order; every cue longer than
      the limit is a single timed word; and no cue ends while the next word would still fit. */
  lemma WordCuesKeepWords(ts: seq<Timed>)
    ensures forall i :: 0 <= i < |WordGroups(ts)| ==> WordGroups(ts)[i] != []
    ensures var cues := FlushedAll(WordGroups(ts));
      && Shown(cues) == Spoken(ts)
      && (forall i :: 0 <= i < |cues| ==> |cues[i].text| < MAX_CAPTION_CHARS || |WordGroups(ts)[i]| == 1)
      && Greedy(WordGroups(ts), WordFits)
  {
    hide WordsOf, Flushed, Flatten, Grouped;
    GroupsAreFilled(ts);
    ShownIsSpoken(WordGroups(ts));
    GroupedKeeps(ts, WordFits);
    forall i | 0 <= i < |WordGroups(ts)|
      ensures |Flushed(WordGroups(ts)[i]).text| < MAX_CAPTION_CHARS || |WordGroups(ts)[i]| == 1
    {
      assert Filled(WordGroups(ts)[i], WordFits);
      FlushKeeps(WordGroups(ts)[i]);
    }
  }

  method FlushWords(group: seq<Timed>) returns (c: Cue)
    requires group != []
    ensures c == Flushed(group)
  {
    var text := Wrap(Strip(Join(Stems(group))));
    return Cue(Rounded(group[0].start), Rounded(group[|group| - 1].end), text);
  }

  lemma FlushedMore(groups: seq<seq<Timed>>, group: seq<Timed>)
    requires forall i :: 0 <= i < |groups| ==> groups[i] != []
    ensures groups == [] ==> FlushedAll(groups) == []
    ensures group != [] ==> FlushedAll(groups + [group]) == FlushedAll(groups) + [Flushed(group)]
  {
    hide Flushed;
  }

  /** `_build_cues_from_words`. */
  method BuildCuesFromWords(ts: seq<Timed>) returns (cues: seq<Cue>)
    ensures forall i :: 0 <= i < |WordGroups(ts)| ==> WordGroups(ts)[i] != []
    ensures cues == FlushedAll(WordGroups(ts))
  {
    hide Grouped, Flushed, Flatten, Strip, AllFilled, Wrapped, Join, FlushedAll;
    GroupsAreFilled(ts);
    cues := [];
    var current: seq<Timed> := [];
    var length := 0;
    ghost var done: seq<seq<Timed>> := [];
    NoGroups(ts[..0], WordFits);
    FlushedMore(done, current);
    for i := 0 to |ts|
      invariant current == [] <==> i == 0
      invariant Grouped(ts[..i], WordFits) == done + (if current == [] then [] else [current])
      invariant forall k :: 0 <= k < |done| ==> done[k] != []
      invariant cues == FlushedAll(done) && length == Length(current)
    {
      FlushedMore(done, current);
      var word := Strip(ts[i].word);
      assert ts[..i + 1] == ts[..i] + [ts[i]];
      GroupedMore(ts[..i], ts[i], WordFits);
      if length + |word| + 1 > MAX_CAPTION_CHARS && current != [] {
        var cue := FlushWords(current);
        cues := cues + [cue];
        done, current, length := done + [current], [], 0;
      }
      assert (current + [ts[i]])[..|current|] == current;
      current := current + [ts[i]];
      length := length + |word| + 1;
    }
    assert ts[..|ts|] == ts;
    FlushedMore(done, current);
    if current != [] {
      var cue := FlushWords(current);
      cues := cues + [cue];
    }
  }

  // ---------- Cues from sentences ----------

  function JoinEach(groups: seq<seq<string>>): (r: seq<string>)
    ensures |r| == |groups| && forall i :: 0 <= i < |groups| ==> r[i] == Join(groups[i])
  {
    seq(|groups|, i requires 0 <= i < |groups| => Join(groups[i]))
  }

  /** `_split_text`: as many words in every chunk as fit. */
  function Chunks(text: string, max: nat): seq<string> {
    JoinEach(Grouped(WordsOf(text), TextFits(max)))
  }

  lemma {:induction false} GroupsHoldWords(groups: seq<seq<string>>)
    requires AllWords(Flatten(groups))
    ensures forall i :: 0 <= i < |groups| ==> AllWords(groups[i])
    decreases |groups|
  {
    if groups != [] {
      var rest, last := groups[..|groups| - 1], groups[|groups| - 1];
      assert forall j :: 0 <= j < |Flatten(rest)| ==> Flatten(groups)[j] == Flatten(rest)[j];
      assert forall j :: 0 <= j < |last| ==> Flatten(groups)[|Flatten(rest)| + j] == last[j];
      GroupsHoldWords(rest);
    }
  }

  lemma {:induction false} SplitJoined(groups: seq<seq<string>>)
    requires forall i :: 0 <= i < |groups| ==> AllWords(groups[i])
    ensures Flatten(Each(JoinEach(groups))) == Flatten(groups)
    decreases |groups|
  {
    hide WordsOf, Join, AllWords;
    if groups != [] {
      var rest, last := groups[..|groups| - 1], groups[|groups| - 1];
      SplitJoined(rest);
      SplitInvertsJoin(last);
      assert Each(JoinEach(groups))[..|groups| - 1] == Each(JoinEach(rest));
    }
  }

  /** The chunks hold the words of the text, in order, and nothing else; a chunk over the limit
      is a single word; and no chunk ends while the next word would still fit. */
  lemma ChunksKeepWords(text: string, max: nat)
    ensures var groups := Grouped(WordsOf(text), TextFits(max));
      && Flatten(Each(Chunks(text, max))) == WordsOf(text)
      && (forall i :: 0 <= i < |groups| ==> groups[i] != [] && (|groups[i]| == 1 || |Chunks(text, max)[i]| <= max))
      && Greedy(groups, TextFits(max))
      && (WordsOf(text) != [] ==> groups != [])
  {
    var groups := Grouped(WordsOf(text), TextFits(max));
    WordsAreWords(text);
    hide WordsOf, Join, Flatten, Grouped, TextFits;
    GroupedKeeps(WordsOf(text), TextFits(max));
    GroupsHoldWords(groups);
    SplitJoined(groups);
    forall i | 0 <= i < |groups| ensures groups[i] != [] && (|groups[i]| == 1 || |Join(groups[i])| <= max) {
      assert Filled(groups[i], TextFits(max));
      FilledFits(groups[i], max);
    }
  }

  /** The chunk being filled, and those already closed. */
  function Open(groups: seq<seq<string>>): string {
    if groups == [] then "" else Join(groups[|groups| - 1])
  }

  function Closed(groups: seq<seq<string>>): seq<string> {
    if groups == [] then [] else JoinEach(groups[..|groups| - 1])
  }

  lemma CloseChunk(groups: seq<seq<string>>, w: string)
    requires groups != [] ==> AllWords(groups[|groups| - 1])
    ensures Open(groups + [[w]]) == w
    ensures Closed(groups + [[w]]) == if groups == [] then [] else Closed(groups) + [Strip(Open(groups))]
  {
    hide Strip, Join;
    JoinOfOne([w]);
    assert (groups + [[w]])[..|groups|] == groups;
    if groups != [] {
      var last := |groups| - 1;
      JoinIsStripped(groups[last]);
      StripOfStripped(Join(groups[last]));
      assert JoinEach(groups) == JoinEach(groups[..last]) + [Join(groups[last])];
    } else {
      assert JoinEach(groups) == [];
    }
  }

  lemma ExtendChunk(groups: seq<seq<string>>, w: string)
    requires groups != [] && AllWords(groups[|groups| - 1]) && Word(w)
    ensures var last := |groups| - 1;
      var after := groups[last := groups[last] + [w]];
      Open(after) == Strip(Open(groups) + " " + w) && Closed(after) == Closed(groups)
  {
    hide Strip, Join;
    var last := |groups| - 1;
    AppendWord(groups[last], w);
    assert groups[last := groups[last] + [w]][..last] == groups[..last];
  }

  lemma OpenIsText(ws: seq<string>, max: nat)
    requires AllWords(ws)
    ensures var groups := Grouped(ws, TextFits(max));
      && (Open(groups) == "" <==> groups == [])
      && (groups != [] ==> AllWords(groups[|groups| - 1]))
  {
    hide Strip, Join, Grouped, Flatten;
    var groups := Grouped(ws, TextFits(max));
    GroupedKeeps(ws, TextFits(max));
    GroupsHoldWords(groups);
    if groups != [] {
      assert Filled(groups[|groups| - 1], TextFits(max));
      JoinIsStripped(groups[|groups| - 1]);
    }
  }

  /** The chunks after one more word, as the loop computes them. */
  lemma SplitTurn(ws: seq<string>, w: string, max: nat)
    requires AllWords(ws) && Word(w)
    ensures var before, after := Grouped(ws, TextFits(max)), Grouped(ws + [w], TextFits(max));
      var cur := Open(before);
      var closes := |cur| + |w| + 1 > max && cur != "";
      && Open(after) == (if closes then w else Strip(cur + " " + w))
      && Closed(after) == (if closes then Closed(before) + [Strip(cur)] else Closed(before))
  {
    hide Strip, Join, Grouped, Closed;
    var before := Grouped(ws, TextFits(max));
    GroupedMore(ws, w, TextFits(max));
    OpenIsText(ws, max);
    CloseChunk(before, w);
    if before != [] {
      ExtendChunk(before, w);
    } else {
      NothingOpen(before);
      AppendWord([], w);
      JoinOfNothing([]);
      JoinOfOne([w]);
      assert [] + [w] == [w];
    }
  }

  method SplitText(text: string, max: nat) returns (chunks: seq<string>)
    ensures chunks == Chunks(text, max)
  {
    var words := WordsOf(text);
    WordsAreWords(text);
    hide WordsOf, Join, Grouped, Strip, Word, Open, Closed;
    chunks := [];
    var cur := "";
    NothingOpen(Grouped(words[..0], TextFits(max))) by {
      NoGroups(words[..0], TextFits(max));
    }
    for i := 0 to |words|
      invariant cur == Open(Grouped(words[..i], TextFits(max)))
      invariant chunks == Closed(Grouped(words[..i], TextFits(max)))
    {
      SplitTurn(words[..i], words[i], max);
      assert words[..i + 1] == words[..i] + [words[i]];
      if |cur| + |words[i]| + 1 > max && cur != "" {
        chunks := chunks + [Strip(cur)];
        cur := words[i];
      } else {
        cur := Strip(cur + " " + words[i]);
      }
    }
    assert words[..|words|] == words;
    LastChunk(words, max);
    if cur != "" {
      chunks := chunks + [Strip(cur)];
    }
  }

  lemma NothingOpen(groups: seq<seq<string>>)
    requires groups == []
    ensures Open(groups) == "" && Closed(groups) == []
  {
  }

  lemma LastChunk(ws: seq<string>, max: nat)
    requires AllWords(ws)
    ensures var groups := Grouped(ws, TextFits(max));
      JoinEach(groups) == if Open(groups) == "" then Closed(groups) else Closed(groups) + [Strip(Open(groups))]
  {
    hide Strip, Join, Grouped, Flatten;
    var groups := Grouped(ws, TextFits(max));
    OpenIsText(ws, max);
    if groups != [] {
      var last := |groups| - 1;
      JoinIsStripped(groups[last]);
      StripOfStripped(Join(groups[last]));
      assert JoinEach(groups) == JoinEach(groups[..last]) + [Join(groups[last])];
    }
  }

  lemma JoinOfOne(ws: seq<string>)
    requires |ws| == 1
    ensures Join(ws) == ws[0]
  {
  }

  /** The `i`-th of `n` equal parts of a window begins here. */
  function Part(s: Sentence, n: nat, i: nat): real
    requires n > 0
  {
    s.start + i as real * ((s.end - s.start) / n as real)
  }

  function SentenceCues(s: Sentence): seq<Cue> {
    var text := Strip(s.text);
    var chunks := Chunks(text, MAX_CAPTION_CHARS);
    if text == "" then []
    else if |text| <= MAX_CAPTION_CHARS then [Cue(s.start, s.end, Wrapped(text))]
    else
      seq(|chunks|, i requires 0 <= i < |chunks| =>
        Cue(Rounded(Part(s, |chunks|, i)), Rounded(Part(s, |chunks|, i + 1)), Wrapped(chunks[i])))
  }

  function CuesOf(ss: seq<Sentence>): seq<Cue> {
    if ss == [] then [] else CuesOf(ss[..|ss| - 1]) + SentenceCues(ss[|ss| - 1])
  }

  function SaidWords(ss: seq<Sentence>): seq<string> {
    if ss == [] then [] else SaidWords(ss[..|ss| - 1]) + WordsOf(ss[|ss| - 1].text)
  }

  lemma PartsCover(s: Sentence, n: nat)
    requires n > 0
    ensures Part(s, n, 0) == s.start && Part(s, n, n) == s.end
  {
    assert n as real * ((s.end - s.start) / n as real) == s.end - s.start;
  }

  lemma PartsRise(s: Sentence, n: nat, i: nat)
    requires n > 0 && s.start <= s.end
    ensures Part(s, n, i) <= Part(s, n, i + 1)
  {
    var step := (s.end - s.start) / n as real;
    assert step >= 0.0;
    assert (i + 1) as real * step == i as real * step + step;
  }

  /** The windows of a split sentence are contiguous and cover its window: each begins at the
      millisecond where the one before it ends, and none runs backwards. */
  lemma WindowsTile(s: Sentence)
    requires |Strip(s.text)| > MAX_CAPTION_CHARS
    ensures var cues := SentenceCues(s);
      && cues != []
      && cues[0].start == Rounded(s.start) && cues[|cues| - 1].end == Rounded(s.end)
      && (forall i :: 0 < i < |cues| ==> cues[i].start == cues[i - 1].end)
      && (s.start <= s.end ==> forall i :: 0 <= i < |cues| ==> cues[i].start <= cues[i].end)
  {
    var cues := SentenceCues(s);
    var n := |cues|;
    hide SentenceCues, Strip, Rounded, Part;
    WindowOfCue(s);
    PartsCover(s, n);
    if s.start <= s.end {
      forall i | 0 <= i < n ensures cues[i].start <= cues[i].end {
        PartsRise(s, n, i);
        RoundedIsMonotone(Part(s, n, i), Part(s, n, i + 1));
      }
    }
  }

  lemma WindowOfCue(s: Sentence)
    requires |Strip(s.text)| > MAX_CAPTION_CHARS
    ensures var cues := SentenceCues(s);
      && cues != []
      && forall i :: 0 <= i < |cues| ==>
           cues[i].start == Rounded(Part(s, |cues|, i)) && cues[i].end == Rounded(Part(s, |cues|, i + 1))
  {
    hide Strip, Chunks, Wrapped, Rounded, Part;
    LongHasChunks(s);
  }

  /** The windows are equal shares: each is as long as the sentence divided by the number of
      chunks, up to the rounding of its two ends, and begins where that many shares have gone. */
  lemma SharesAreEqual(s: Sentence, i: nat)
    requires |Strip(s.text)| > MAX_CAPTION_CHARS && i < |SentenceCues(s)|
    ensures var cues := SentenceCues(s);
      var share := (s.end - s.start) / |cues| as real;
      && -0.0005 <= cues[i].start - (s.start + i as real * share) <= 0.0005
      && -0.001 <= cues[i].end - cues[i].start - share <= 0.001
  {
    hide SentenceCues, Strip, Rounded, Part;
    var n := |SentenceCues(s)|;
    WindowOfCue(s);
    RoundedIsNear(Part(s, n, i));
    RoundedIsNear(Part(s, n, i + 1));
    PartsStep(s, n, i);
    PartBegins(s, n, i);
  }

  lemma PartBegins(s: Sentence, n: nat, i: nat)
    requires n > 0
    ensures Part(s, n, i) == s.start + i as real * ((s.end - s.start) / n as real)
  {
  }

  lemma PartsStep(s: Sentence, n: nat, i: nat)
    requires n > 0
    ensures Part(s, n, i + 1) == Part(s, n, i) + (s.end - s.start) / n as real
  {
    var step := (s.end - s.start) / n as real;
    assert (i + 1) as real * step == i as real * step + step;
  }

  lemma RoundedIsNear(t: real)
    ensures -0.0005 <= Rounded(t) - t <= 0.0005
  {
    assert Rounded(t) * 1000.0 == Milliseconds(t) as real;
  }

  lemma LongHasChunks(s: Sentence)
    requires |Strip(s.text)| > MAX_CAPTION_CHARS
    ensures Chunks(Strip(s.text), MAX_CAPTION_CHARS) != []
  {
    WordsOfStrip(s.text);
    WordsAreThere(Strip(s.text));
    ChunksKeepWords(Strip(s.text), MAX_CAPTION_CHARS);
  }

  lemma {:induction false} ShownConcat(a: seq<Cue>, b: seq<Cue>)
    ensures Shown(a + b) == Shown(a) + Shown(b)
    decreases |b|
  {
    hide WordsOf;
    if b == [] {
      assert a + b == a;
    } else {
      assert (a + b)[..|a + b| - 1] == a + b[..|b| - 1];
      ShownConcat(a, b[..|b| - 1]);
    }
  }

  lemma {:induction false} ShownChunks(cues: seq<Cue>, chunks: seq<string>)
    requires |cues| == |chunks| && forall i :: 0 <= i < |cues| ==> cues[i].text == Wrapped(chunks[i])
    ensures Shown(cues) == Flatten(Each(chunks))
    decreases |cues|
  {
    hide WordsOf, Wrapped;
    if cues != [] {
      var n := |cues| - 1;
      ShownChunks(cues[..n], chunks[..n]);
      WrapKeepsWords(chunks[n]);
      assert Each(chunks)[..n] == Each(chunks[..n]);
    }
  }

  /** A cue shows at most the limit, or a single word. */
  predicate Readable(c: Cue) {
    |c.text| <= MAX_CAPTION_CHARS || |WordsOf(c.text)| == 1
  }

  lemma SentenceCuesKeepWords(s: Sentence)
    ensures Shown(SentenceCues(s)) == WordsOf(s.text)
    ensures forall i :: 0 <= i < |SentenceCues(s)| ==> Readable(SentenceCues(s)[i])
  {
    var text, cues := Strip(s.text), SentenceCues(s);
    var chunks := Chunks(text, MAX_CAPTION_CHARS);
    WordsOfStrip(s.text);
    ChunkWords(text, MAX_CAPTION_CHARS);
    hide WordsOf, Strip, Flatten, Grouped, Wrapped, Rounded, Part, Chunks;
    if text == "" {
      NoWords(text);
    } else if |text| <= MAX_CAPTION_CHARS {
      WrapKeepsWords(text);
      assert cues == [Cue(s.start, s.end, Wrapped(text))];
      assert cues[..0] == [];
    } else {
      ShownChunks(cues, chunks);
      ChunksKeepWords(text, MAX_CAPTION_CHARS);
      forall i | 0 <= i < |cues| ensures Readable(cues[i]) {
        WrapKeepsWords(chunks[i]);
      }
    }
  }

  /** Every chunk is within the limit or a single word. */
  lemma ChunkWords(text: string, max: nat)
    ensures forall i :: 0 <= i < |Chunks(text, max)| ==> |Chunks(text, max)[i]| <= max || |WordsOf(Chunks(text, max)[i])| == 1
  {
    var groups := Grouped(WordsOf(text), TextFits(max));
    WordsAreWords(text);
    hide WordsOf, Flatten, Grouped, Join;
    ChunksKeepWords(text, max);
    GroupedKeeps(WordsOf(text), TextFits(max));
    GroupsHoldWords(groups);
    forall i | 0 <= i < |groups| && |groups[i]| == 1 ensures |WordsOf(Join(groups[i]))| == 1 {
      SplitInvertsJoin(groups[i]);
    }
  }

  /** The cues of a narration show exactly its words, in order, and each is readable. */
  lemma {:induction false} CuesKeepWords(ss: seq<Sentence>)
    ensures Shown(CuesOf(ss)) == SaidWords(ss)
    ensures forall i :: 0 <= i < |CuesOf(ss)| ==> Readable(CuesOf(ss)[i])
    decreases |ss|
  {
    hide WordsOf, SentenceCues, Readable;
    if ss != [] {
      var rest, last := ss[..|ss| - 1], ss[|ss| - 1];
      CuesKeepWords(rest);
      SentenceCuesKeepWords(last);
      ShownConcat(CuesOf(rest), SentenceCues(last));
    }
  }

  /** `_build_cues_from_sentences`. */
  method BuildCuesFromSentences(ss: seq<Sentence>) returns (cues: seq<Cue>)
    ensures cues == CuesOf(ss)
  {
    hide Strip, Wrapped, Rounded, Part, WordsOf;
    cues := [];
    for k := 0 to |ss|
      invariant cues == CuesOf(ss[..k])
    {
      assert ss[..k + 1][..k] == ss[..k];
      var more := CuesOfSentence(ss[k]);
      cues := cues + more;
    }
    assert ss[..|ss|] == ss;
  }

  /** The body of that loop. */
  method CuesOfSentence(s: Sentence) returns (cues: seq<Cue>)
    ensures cues == SentenceCues(s)
  {
    hide Strip, Chunks, Wrapped, Rounded, Part;
    var text := Strip(s.text);
    if text == "" {
      return [];
    }
    if |text| <= MAX_CAPTION_CHARS {
      var wrapped := Wrap(text);
      return [Cue(s.start, s.end, wrapped)];
    }
    LongHasChunks(s);
    var chunks := SplitText(text, MAX_CAPTION_CHARS);
    var n := |chunks|;
    cues := [];
    for i := 0 to n
      invariant |cues| == i
      invariant forall k :: 0 <= k < i ==>
        cues[k] == Cue(Rounded(Part(s, n, k)), Rounded(Part(s, n, k + 1)), Wrapped(chunks[k]))
    {
      var wrapped := Wrap(chunks[i]);
      cues := cues + [Cue(Rounded(Part(s, n, i)), Rounded(Part(s, n, i + 1)), wrapped)];
    }
  }
}
