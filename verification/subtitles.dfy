/** The two subtitle printers, and parsers that invert them. The WebVTT form follows section
    4.1, "WebVTT file structure", of the W3C WebVTT specification. */
module Subtitles {
  import opened Wrappers
  import opened Texts
  import opened Words
  import opened Grouping
  import opened Lines
  import opened Captions

  /** A cue at the precision of the files. */
  datatype FileCue = FileCue(start: int, end: int, text: string)

  function InFile(c: Cue): FileCue {
    FileCue(Milliseconds(c.start), Milliseconds(c.end), c.text)
  }

  function AllInFile(cues: seq<Cue>): (r: seq<FileCue>)
    ensures |r| == |cues| && forall i :: 0 <= i < |cues| ==> r[i] == InFile(cues[i])
  {
    seq(|cues|, i requires 0 <= i < |cues| => InFile(cues[i]))
  }

  // ---------- Timestamps ----------

  function Pad(n: nat, width: nat): string
    decreases width - |Decimal(n)|
  {
    Zeros(width - |Decimal(n)|) + Decimal(n)
  }

  function Zeros(n: int): (z: string)
    ensures |z| == if n > 0 then n else 0
    ensures forall c :: c in z ==> c == '0'
  {
    if n <= 0 then "" else Zeros(n - 1) + "0"
  }

  /** Hours below zero keep their sign and are not padded further. */
  function Hours(h: int): string {
    if h < 0 then "-" + Decimal(-h) else Pad(h, 2)
  }

  /** `_fmt_ts`, of a time in milliseconds. Divisions round down, also below zero. */
  function Stamp(ms: int, sep: char): string {
    var h, left := ms / 3_600_000, ms % 3_600_000;
    Hours(h) + ":" + Pad(left / 60_000, 2) + ":" + Pad(left % 60_000 / 1000, 2) + [sep] + Pad(left % 1000, 3)
  }

  function ParseHours(s: string): Option<int> {
    if s != "" && s[0] == '-' then if IsNumeral(s[1..]) then Some(0 - Value(s[1..])) else None
    else if IsNumeral(s) then Some(Value(s))
    else None
  }

  /** The last ten characters of a stamp are `:MM:SS,mmm`. */
  function ParseStamp(s: string, sep: char): Option<int> {
    if |s| < 10 then None
    else
      var tail := s[|s| - 10..];
      var h := ParseHours(s[..|s| - 10]);
      if h.None? || tail[0] != ':' || tail[3] != ':' || tail[6] != sep
         || !IsNumeral(tail[1..3]) || !IsNumeral(tail[4..6]) || !IsNumeral(tail[7..])
      then None
      else Some(h.value * 3_600_000 + Value(tail[1..3]) * 60_000 + Value(tail[4..6]) * 1000 + Value(tail[7..]))
  }

  lemma {:induction false} ZerosKeepValue(k: int, s: string)
    requires IsNumeral(s)
    ensures IsNumeral(Zeros(k) + s) && Value(Zeros(k) + s) == Value(s)
    decreases |s|
  {
    var n := |s| - 1;
    var padded := Zeros(k) + s;
    assert padded[..|padded| - 1] == Zeros(k) + s[..n];
    if n == 0 {
      assert s[..0] == [] && Zeros(k) + [] == Zeros(k);
      ZerosAreZero(k);
    } else {
      ZerosKeepValue(k, s[..n]);
    }
  }

  lemma {:induction false} ZerosAreZero(k: int)
    ensures Value(Zeros(k)) == 0
    decreases k
  {
    if k > 0 {
      ZerosAreZero(k - 1);
      assert Zeros(k)[..|Zeros(k)| - 1] == Zeros(k - 1);
    }
  }

  lemma PadRoundTrip(n: nat, width: nat)
    ensures IsNumeral(Pad(n, width)) && Value(Pad(n, width)) == n
    ensures |Decimal(n)| <= width ==> |Pad(n, width)| == width
  {
    DecimalRoundTrip(n);
    ZerosKeepValue(width - |Decimal(n)|, Decimal(n));
  }

  lemma {:induction false} DecimalWidth(n: nat)
    ensures n < 10 ==> |Decimal(n)| == 1
    ensures n < 100 ==> |Decimal(n)| <= 2
    ensures n < 1000 ==> |Decimal(n)| <= 3
    decreases n
  {
    if n >= 10 {
      DecimalWidth(n / 10);
    }
  }

  lemma HoursRoundTrip(h: int)
    ensures ParseHours(Hours(h)) == Some(h)
    ensures forall c :: c in Hours(h) ==> IsDigit(c) || c == '-'
  {
    hide Pad, Value, Decimal;
    if h < 0 {
      DecimalRoundTrip(-h);
      assert Hours(h)[1..] == Decimal(-h);
    } else {
      PadRoundTrip(h, 2);
      assert Hours(h)[0] in Hours(h);
    }
  }

  lemma SplitMilliseconds(ms: int)
    ensures var left := ms % 3_600_000;
      && 0 <= left / 60_000 < 60 && 0 <= left % 60_000 / 1000 < 60 && 0 <= left % 1000 < 1000
      && ms / 3_600_000 * 3_600_000 + left / 60_000 * 60_000 + left % 60_000 / 1000 * 1000 + left % 1000 == ms
  {
    var left := ms % 3_600_000;
    assert left % 60_000 % 1000 == left % 1000;
  }

  /** Reading a printed timestamp gives the milliseconds back, for every time. */
  lemma StampRoundTrip(ms: int, sep: char)
    ensures ParseStamp(Stamp(ms, sep), sep) == Some(ms)
  {
    hide Value, Decimal, Pad, Hours, ParseHours, IsNumeral;
    var h, left := ms / 3_600_000, ms % 3_600_000;
    SplitMilliseconds(ms);
    DecimalWidth(left / 60_000);
    DecimalWidth(left % 60_000 / 1000);
    DecimalWidth(left % 1000);
    PadRoundTrip(left / 60_000, 2);
    PadRoundTrip(left % 60_000 / 1000, 2);
    PadRoundTrip(left % 1000, 3);
    HoursRoundTrip(h);
    StampParts(Hours(h), Pad(left / 60_000, 2), Pad(left % 60_000 / 1000, 2), sep, Pad(left % 1000, 3));
  }

  lemma StampParts(h: string, m: string, s: string, sep: char, ms: string)
    requires |m| == 2 && |s| == 2 && |ms| == 3
    ensures var all := h + ":" + m + ":" + s + [sep] + ms;
      && |all| == |h| + 10 && all[..|h|] == h
      && var tail := all[|h|..];
         && tail[0] == ':' && tail[3] == ':' && tail[6] == sep
         && tail[1..3] == m && tail[4..6] == s && tail[7..] == ms
  {
  }

  // ---------- Timing lines ----------

  const ARROW := " --> "

  function Timing(start: int, end: int, sep: char): string {
    Stamp(start, sep) + ARROW + Stamp(end, sep)
  }

  function BeforeSpace(s: string): (n: nat)
    ensures n <= |s| && (n < |s| ==> s[n] == ' ') && forall i :: 0 <= i < n ==> s[i] != ' '
    decreases |s|
  {
    if s == "" || s[0] == ' ' then 0 else BeforeSpace(s[1..]) + 1
  }

  function ParseTiming(s: string, sep: char): Option<(int, int)> {
    var n := BeforeSpace(s);
    if n + 5 > |s| || s[n..n + 5] != ARROW then None
    else
      var start, end := ParseStamp(s[..n], sep), ParseStamp(s[n + 5..], sep);
      if start.None? || end.None? then None else Some((start.value, end.value))
  }

  lemma StampCharacters(ms: int, sep: char)
    ensures forall c :: c in Stamp(ms, sep) ==> IsDigit(c) || c in {'-', ':', sep}
  {
    hide Value, Decimal, Pad, Hours;
    HoursRoundTrip(ms / 3_600_000);
    PadRoundTrip(ms % 3_600_000 / 60_000, 2);
    PadRoundTrip(ms % 3_600_000 % 60_000 / 1000, 2);
    PadRoundTrip(ms % 3_600_000 % 1000, 3);
  }

  lemma SpaceIsFound(a: string, b: string)
    requires ' ' !in a
    ensures BeforeSpace(a + ARROW + b) == |a|
    ensures (a + ARROW + b)[..|a|] == a && (a + ARROW + b)[|a|..|a| + 5] == ARROW && (a + ARROW + b)[|a| + 5..] == b
  {
    var s := a + ARROW + b;
    var n := BeforeSpace(s);
    assert s[|a|] == ' ';
    assert forall i :: 0 <= i < |a| ==> s[i] == a[i] && a[i] in a;
  }

  lemma TimingRoundTrip(start: int, end: int, sep: char)
    requires sep in {',', '.'}
    ensures ParseTiming(Timing(start, end, sep), sep) == Some((start, end))
    ensures OneLine(Timing(start, end, sep)) && Timing(start, end, sep) != ""
  {
    hide Stamp, ParseStamp, BeforeSpace;
    StampCharacters(start, sep);
    StampCharacters(end, sep);
    SpaceIsFound(Stamp(start, sep), Stamp(end, sep));
    StampRoundTrip(start, sep);
    StampRoundTrip(end, sep);
  }

  // ---------- Files ----------

  /** The two forms: SRT numbers its cues and writes a comma, WebVTT does neither. */
  datatype Form = Srt | Vtt

  function Separator(form: Form): char {
    match form case Srt => ',' case Vtt => '.'
  }

  /** What the printer appends for the cue with this number. */
  function Part(form: Form, number: nat, c: FileCue): seq<string> {
    (if form == Srt then [Decimal(number)] else []) + [Timing(c.start, c.end, Separator(form)), c.text, ""]
  }

  function Parts(form: Form, cues: seq<FileCue>): seq<string> {
    if cues == [] then [] else Parts(form, cues[..|cues| - 1]) + Part(form, |cues|, cues[|cues| - 1])
  }

  function Heading(form: Form): seq<string> {
    match form case Srt => [] case Vtt => ["WEBVTT", ""]
  }

  /** `_to_srt` and `_to_vtt`. */
  function Printed(form: Form, cues: seq<FileCue>): string {
    Unlines(Heading(form) + Parts(form, cues))
  }

  /** What an SRT file is: for each cue its number, the two times with a comma and an arrow
      between them, its text, and an empty string, with line breaks between all of these. */
  lemma {:induction false} SrtParts(cues: seq<FileCue>, i: nat)
    requires i < |cues|
    ensures var parts := Parts(Srt, cues);
      && |parts| == 4 * |cues|
      && parts[4 * i] == Decimal(i + 1)
      && parts[4 * i + 1] == Stamp(cues[i].start, ',') + " --> " + Stamp(cues[i].end, ',')
      && parts[4 * i + 2] == cues[i].text && parts[4 * i + 3] == ""
    decreases |cues|
  {
    hide Stamp, Decimal;
    PartsLength(Srt, cues);
    PartsLength(Srt, cues[..|cues| - 1]);
    if i < |cues| - 1 {
      SrtParts(cues[..|cues| - 1], i);
    }
  }

  /** And a WebVTT file, after its heading: no numbers, and times with a full stop. */
  lemma {:induction false} VttParts(cues: seq<FileCue>, i: nat)
    requires i < |cues|
    ensures var parts := Parts(Vtt, cues);
      && Heading(Vtt) == ["WEBVTT", ""] && Heading(Srt) == []
      && |parts| == 3 * |cues|
      && parts[3 * i] == Stamp(cues[i].start, '.') + " --> " + Stamp(cues[i].end, '.')
      && parts[3 * i + 1] == cues[i].text && parts[3 * i + 2] == ""
    decreases |cues|
  {
    hide Stamp, Decimal;
    PartsLength(Vtt, cues);
    PartsLength(Vtt, cues[..|cues| - 1]);
    if i < |cues| - 1 {
      VttParts(cues[..|cues| - 1], i);
    }
  }

  lemma {:induction false} PartsLength(form: Form, cues: seq<FileCue>)
    ensures |Parts(form, cues)| == (if form == Srt then 4 else 3) * |cues|
    decreases |cues|
  {
    if cues != [] {
      PartsLength(form, cues[..|cues| - 1]);
    }
  }

  /** The nonempty lines in front. */
  function Body(ls: seq<string>): (n: nat)
    ensures n <= |ls| && (n < |ls| ==> ls[n] == "") && forall i :: 0 <= i < n ==> ls[i] != ""
  {
    if ls == [] || ls[0] == "" then 0 else Body(ls[1..]) + 1
  }

  /** Reads cues off the lines: a number, a timing line, text up to an empty line. */
  function ParseCues(form: Form, ls: seq<string>, number: nat): Option<seq<FileCue>>
    decreases |ls|
  {
    var skip := if form == Srt then 1 else 0;
    if ls == [] || ls == [""] then Some([])
    else if |ls| < skip + 1 || (form == Srt && ls[0] != Decimal(number)) then None
    else
      var timing := ParseTiming(ls[skip], Separator(form));
      var rest := ls[skip + 1..];
      var n := Body(rest);
      if timing.None? || n == 0 then None
      else
        var more := ParseCues(form, if n < |rest| then rest[n + 1..] else [], number + 1);
        if more.None? then None
        else Some([FileCue(timing.value.0, timing.value.1, Unlines(rest[..n]))] + more.value)
  }

  /** Reads a file of either form. */
  function Parsed(form: Form, s: string): Option<seq<FileCue>> {
    var ls, heading := LinesOf(s), Heading(form);
    if |heading| <= |ls| && ls[..|heading|] == heading then ParseCues(form, ls[|heading|..], 1) else None
  }

  predicate Printable(cues: seq<FileCue>) {
    forall i :: 0 <= i < |cues| ==> NoBlankLine(cues[i].text)
  }

  /** The lines of one printed cue. */
  function Block(form: Form, number: nat, c: FileCue): seq<string> {
    (if form == Srt then [Decimal(number)] else []) + [Timing(c.start, c.end, Separator(form))] + LinesOf(c.text) + [""]
  }

  /** The lines of printed cues numbered from `number`. */
  function Blocks(form: Form, number: nat, cues: seq<FileCue>): seq<string>
    decreases |cues|
  {
    if cues == [] then [] else Block(form, number, cues[0]) + Blocks(form, number + 1, cues[1..])
  }

  lemma {:induction false} BlocksMore(form: Form, number: nat, cues: seq<FileCue>, c: FileCue)
    ensures Blocks(form, number, cues + [c]) == Blocks(form, number, cues) + Block(form, number + |cues|, c)
    decreases |cues|
  {
    hide Block;
    if cues == [] {
      assert (cues + [c])[1..] == [];
    } else {
      assert (cues + [c])[1..] == cues[1..] + [c];
      BlocksMore(form, number + 1, cues[1..], c);
    }
  }

  lemma NumberIsLine(n: nat)
    ensures OneLine(Decimal(n)) && Decimal(n) != ""
  {
    DecimalRoundTrip(n);
  }

  lemma PartLines(form: Form, number: nat, c: FileCue)
    ensures Flatten(EachLines(Part(form, number, c))) == Block(form, number, c)
  {
    hide LinesOf, Timing, Decimal, OneLine, Flatten;
    var timing := Timing(c.start, c.end, Separator(form));
    NumberIsLine(number);
    TimingRoundTrip(c.start, c.end, Separator(form));
    LineIsItself(Decimal(number));
    LineIsItself(timing);
    NoLines("");
    FourParts(Decimal(number), timing, c.text, "");
    ThreeParts(timing, c.text, "");
    if form == Vtt {
      assert [] + [timing, c.text, ""] == [timing, c.text, ""];
      assert [] + [timing] == [timing];
    }
  }

  lemma ThreeParts(a: string, b: string, c: string)
    ensures Flatten(EachLines([a, b, c])) == LinesOf(a) + LinesOf(b) + LinesOf(c)
  {
    hide LinesOf, Flatten;
    var none: seq<seq<string>> := [];
    FlattenNothing(none);
    FlattenMore(none, LinesOf(a));
    FlattenMore(none + [LinesOf(a)], LinesOf(b));
    FlattenMore(none + [LinesOf(a)] + [LinesOf(b)], LinesOf(c));
    assert EachLines([a, b, c]) == none + [LinesOf(a)] + [LinesOf(b)] + [LinesOf(c)];
  }

  lemma FourParts(a: string, b: string, c: string, d: string)
    ensures Flatten(EachLines([a] + [b, c, d])) == LinesOf(a) + LinesOf(b) + LinesOf(c) + LinesOf(d)
  {
    hide LinesOf, Flatten;
    ThreeParts(a, b, c);
    FlattenMore(EachLines([a, b, c]), LinesOf(d));
    assert EachLines([a] + [b, c, d]) == EachLines([a, b, c]) + [LinesOf(d)];
  }

  lemma {:induction false} PartsLines(form: Form, cues: seq<FileCue>)
    ensures Flatten(EachLines(Parts(form, cues))) == Blocks(form, 1, cues)
    decreases |cues|
  {
    hide LinesOf, Flatten, Block, Part;
    if cues == [] {
      FlattenNothing(EachLines(Parts(form, cues)));
    } else {
      var rest, last := cues[..|cues| - 1], cues[|cues| - 1];
      PartsLines(form, rest);
      PartLines(form, |cues|, last);
      assert EachLines(Parts(form, cues)) == EachLines(Parts(form, rest)) + EachLines(Part(form, |cues|, last));
      FlattenConcat(EachLines(Parts(form, rest)), EachLines(Part(form, |cues|, last)));
      assert rest + [last] == cues;
      BlocksMore(form, 1, rest, last);
    }
  }

  lemma BodyOfText(text: seq<string>, rest: seq<string>)
    requires forall i :: 0 <= i < |text| ==> text[i] != ""
    ensures Body(text + [""] + rest) == |text|
  {
    var all := text + [""] + rest;
    assert all[|text|] == "";
    assert forall i :: 0 <= i < |text| ==> all[i] == text[i];
  }

  /** Reading one block off the lines. */
  lemma BlockRoundTrip(form: Form, number: nat, c: FileCue, rest: seq<string>)
    requires NoBlankLine(c.text)
    ensures var more := ParseCues(form, rest, number + 1);
      ParseCues(form, Block(form, number, c) + rest, number) ==
        if more.None? then None else Some([c] + more.value)
  {
    var text := LinesOf(c.text);
    var timing := Timing(c.start, c.end, Separator(form));
    var ls := Block(form, number, c) + rest;
    NumberIsLine(number);
    hide Timing, Decimal, LinesOf, Unlines, ParseTiming, Body, NoBlankLine;
    assert forall i :: 0 <= i < |text| ==> text[i] != "" by {
      LinesAreFull(c.text);
    }
    TimingRoundTrip(c.start, c.end, Separator(form));
    UnlinesInvertsLines(c.text);
    BodyOfText(text, rest);
    var skip := if form == Srt then 1 else 0;
    assert ls[skip] == timing;
    assert ls[skip + 1..] == text + [""] + rest;
    assert (text + [""] + rest)[|text| + 1..] == rest && (text + [""] + rest)[..|text|] == text;
  }

  lemma LinesAreFull(s: string)
    requires NoBlankLine(s)
    ensures forall i :: 0 <= i < |LinesOf(s)| ==> LinesOf(s)[i] != ""
  {
  }

  lemma {:induction false} BlocksRoundTrip(form: Form, number: nat, cues: seq<FileCue>)
    requires Printable(cues)
    ensures ParseCues(form, Blocks(form, number, cues), number) == Some(cues)
    decreases |cues|
  {
    hide Block, NoBlankLine, LinesOf;
    if cues == [] {
      NoBlocks(form, number, Blocks(form, number, cues));
    } else {
      BlocksRoundTrip(form, number + 1, cues[1..]);
      BlockRoundTrip(form, number, cues[0], Blocks(form, number + 1, cues[1..]));
      assert [cues[0]] + cues[1..] == cues;
    }
  }

  lemma NoBlocks(form: Form, number: nat, ls: seq<string>)
    requires ls == [] || ls == [""]
    ensures ParseCues(form, ls, number) == Some([])
  {
  }

  lemma PrintedLines(form: Form, cues: seq<FileCue>)
    ensures LinesOf(Printed(form, cues)) ==
      if form == Srt && cues == [] then [""] else Heading(form) + Blocks(form, 1, cues)
  {
    hide LinesOf, Unlines, Blocks, Part, Flatten;
    var parts := Heading(form) + Parts(form, cues);
    if form == Srt && cues == [] {
      NoLines(Unlines(parts)) by {
        UnlinesOfNothing(parts);
      }
    } else {
      LinesOfUnlines(parts) by {
        PartIsSomething(form, |cues|, if cues == [] then FileCue(0, 0, "") else cues[|cues| - 1]);
      }
      PartsLines(form, cues);
      assert EachLines(parts) == EachLines(Heading(form)) + EachLines(Parts(form, cues));
      FlattenConcat(EachLines(Heading(form)), EachLines(Parts(form, cues)));
      HeadingLines(form);
    }
  }

  lemma UnlinesOfNothing(ls: seq<string>)
    requires ls == []
    ensures Unlines(ls) == ""
  {
  }

  lemma PartIsSomething(form: Form, number: nat, c: FileCue)
    ensures Part(form, number, c) != []
  {
  }

  lemma HeadingLines(form: Form)
    ensures Flatten(EachLines(Heading(form))) == Heading(form)
  {
    hide LinesOf, Flatten;
    var none: seq<seq<string>> := [];
    FlattenNothing(none);
    if form == Vtt {
      LineIsItself("WEBVTT");
      NoLines("");
      FlattenMore(none, ["WEBVTT"]);
      FlattenMore(none + [["WEBVTT"]], [""]);
      assert EachLines(Heading(form)) == none + [["WEBVTT"]] + [[""]];
    } else {
      assert EachLines(Heading(form)) == none;
    }
  }

  /** The first cue of a successful parse, and the lines after it. */
  lemma FirstParsed(form: Form, ls: seq<string>, number: nat) returns (text: seq<string>, tail: seq<string>)
    requires ParseCues(form, ls, number).Some? && ls != [] && ls != [""]
    ensures text != [] && |tail| < |ls|
    ensures forall l :: l in text ==> l in ls && l != ""
    ensures forall l :: l in tail ==> l in ls
    ensures var cues, more := ParseCues(form, ls, number).value, ParseCues(form, tail, number + 1);
      more.Some? && cues != [] && cues[1..] == more.value && cues[0].text == Unlines(text)
  {
    hide Unlines, ParseTiming, Decimal;
    var skip := if form == Srt then 1 else 0;
    var rest := ls[skip + 1..];
    var n := Body(rest);
    text, tail := rest[..n], if n < |rest| then rest[n + 1..] else [];
  }

  lemma PrintableConcat(a: seq<FileCue>, b: seq<FileCue>)
    ensures Printable(a + b) <==> Printable(a) && Printable(b)
  {
    hide NoBlankLine;
    assert forall i :: 0 <= i < |a| ==> (a + b)[i] == a[i];
    assert forall i :: 0 <= i < |b| ==> (a + b)[|a| + i] == b[i];
  }

  /** No parsed text has an empty line. */
  lemma {:induction false} ParsedIsPrintable(form: Form, ls: seq<string>, number: nat)
    requires ParseCues(form, ls, number).Some?
    requires forall l :: l in ls ==> OneLine(l)
    ensures Printable(ParseCues(form, ls, number).value)
    decreases |ls|
  {
    hide ParseCues, Unlines, OneLine, NoBlankLine;
    if ls == [] || ls == [""] {
      NoBlocks(form, number, ls);
    } else {
      var cues := ParseCues(form, ls, number).value;
      var text, tail := FirstParsed(form, ls, number);
      ParsedIsPrintable(form, tail, number + 1);
      assert forall i :: 0 <= i < |text| ==> text[i] in text;
      UnlinesIsFull(text);
      assert cues == [cues[0]] + cues[1..];
      PrintableConcat([cues[0]], cues[1..]);
    }
  }

  lemma UnlinesIsFull(ls: seq<string>)
    requires ls != [] && forall i :: 0 <= i < |ls| ==> OneLine(ls[i]) && ls[i] != ""
    ensures NoBlankLine(Unlines(ls))
  {
    LinesOfUnlines(ls);
    SingleLines(ls);
  }

  lemma {:induction false} SingleLines(ls: seq<string>)
    requires forall i :: 0 <= i < |ls| ==> OneLine(ls[i])
    ensures Flatten(EachLines(ls)) == ls
    decreases |ls|
  {
    hide LinesOf;
    if ls != [] {
      var rest, last := ls[..|ls| - 1], ls[|ls| - 1];
      SingleLines(rest);
      LineIsItself(last);
      assert EachLines(ls)[..|ls| - 1] == EachLines(rest);
    }
  }

  lemma {:induction false} LinesAreLines(s: string)
    ensures forall i :: 0 <= i < |LinesOf(s)| ==> OneLine(LinesOf(s)[i])
  {
    if s != [] {
      LinesAreLines(s[..|s| - 1]);
    }
  }

  /** Reading a printed file gives the cues back, to the millisecond, exactly when no cue's text
      has an empty line. */
  lemma FileRoundTrip(form: Form, cues: seq<FileCue>)
    ensures Parsed(form, Printed(form, cues)) == Some(cues) <==> Printable(cues)
  {
    var s := Printed(form, cues);
    hide LinesOf, Printed, Blocks, NoBlankLine, OneLine;
    PrintedLines(form, cues);
    LinesAreLines(s);
    if Printable(cues) {
      BlocksRoundTrip(form, 1, cues);
      if form == Srt && cues == [] {
        NoBlocks(form, 1, [""]);
      }
    }
    if Parsed(form, s).Some? {
      assert forall l :: l in LinesOf(s) ==> OneLine(l);
      ParsedIsPrintable(form, LinesOf(s)[|Heading(form)|..], 1);
    }
  }

  // ---------- Whole narrations ----------

  lemma {:induction false} JoinIsOneLine(ws: seq<string>)
    requires AllWords(ws)
    ensures OneLine(Join(ws))
    decreases |ws|
  {
    if |ws| == 1 {
      assert Word(ws[0]);
    } else if ws != [] {
      JoinIsOneLine(ws[..|ws| - 1]);
      assert Word(ws[|ws| - 1]);
    }
  }

  lemma FullLine(s: string)
    requires OneLine(s) && s != ""
    ensures NoBlankLine(s)
  {
    LineIsItself(s);
  }

  lemma FullLines(a: string, b: string)
    requires OneLine(a) && a != "" && OneLine(b) && b != ""
    ensures NoBlankLine(a + "\n" + b)
  {
    LinesSplit(a, b);
    LineIsItself(a);
    LineIsItself(b);
  }

  /** A wrapped text has an empty line only if it was short enough to be left alone. */
  lemma WrappedHasNoBlankLine(text: string)
    requires |text| > MAX_LINE_CHARS ==> WordsOf(text) != []
    ensures NoBlankLine(Wrapped(text)) <==> |text| > MAX_LINE_CHARS || NoBlankLine(text)
  {
    var ws := WordsOf(text);
    var lines := Grouped(ws, TextFits(MAX_LINE_CHARS));
    WordsAreWords(text);
    hide WordsOf, Join, Grouped, Flatten, NoBlankLine, FirstLine, SecondLine;
    if |text| > MAX_LINE_CHARS {
      LinesSplitWords(ws);
      var first, second := FirstLine(lines), SecondLine(lines);
      JoinIsOneLine(first);
      JoinIsOneLine(second);
      JoinIsStripped(first);
      JoinIsStripped(second);
      if second == [] {
        FullLine(Join(first));
      } else {
        FullLines(Join(first), Join(second));
      }
    }
  }

  /** A sentence prints without an empty line unless it is short and contains one. */
  predicate PrintableSentence(s: Sentence) {
    var text := Strip(s.text);
    text == "" || |text| > MAX_LINE_CHARS || NoBlankLine(text)
  }

  lemma SomeWords(text: string)
    requires text != "" && Stripped(text)
    ensures WordsOf(text) != []
  {
  }

  lemma {:induction false} ChunkPrints(chunk: string)
    requires exists ws :: AllWords(ws) && ws != [] && chunk == Join(ws)
    ensures NoBlankLine(Wrapped(chunk))
  {
    var ws :| AllWords(ws) && ws != [] && chunk == Join(ws);
    hide WordsOf, Join, NoBlankLine, Wrapped;
    JoinIsOneLine(ws);
    JoinIsStripped(ws);
    FullLine(chunk);
    SomeWords(chunk);
    WrappedHasNoBlankLine(chunk);
  }

  lemma SentencePrints(s: Sentence)
    ensures Printable(AllInFile(SentenceCues(s))) <==> PrintableSentence(s)
  {
    var text := Strip(s.text);
    WordsOfStrip(s.text);
    hide WordsOf, NoBlankLine, Wrapped, Strip, Captions.Part, Rounded, Join, Grouped;
    if text != "" && |text| <= MAX_CAPTION_CHARS {
      SomeWords(text);
      WrappedHasNoBlankLine(text);
      assert SentenceCues(s)[0].text == Wrapped(text);
    } else if text != "" {
      var groups := Grouped(WordsOf(text), TextFits(MAX_CAPTION_CHARS));
      WordsAreWords(text);
      GroupedKeeps(WordsOf(text), TextFits(MAX_CAPTION_CHARS));
      GroupsHoldWords(groups);
      forall i | 0 <= i < |groups| ensures NoBlankLine(Wrapped(Join(groups[i]))) {
        assert Filled(groups[i], TextFits(MAX_CAPTION_CHARS));
        ChunkPrints(Join(groups[i]));
      }
    }
  }

  lemma {:induction false} SentencesPrint(ss: seq<Sentence>)
    ensures Printable(AllInFile(CuesOf(ss))) <==> forall i :: 0 <= i < |ss| ==> PrintableSentence(ss[i])
    decreases |ss|
  {
    hide SentenceCues, PrintableSentence, Printable, InFile;
    if ss != [] {
      var rest, last := ss[..|ss| - 1], ss[|ss| - 1];
      SentencesPrint(rest);
      SentencePrints(last);
      var all, a, b := AllInFile(CuesOf(ss)), AllInFile(CuesOf(rest)), AllInFile(SentenceCues(last));
      assert all == a + b;
      PrintableConcat(a, b);
      assert forall i :: 0 <= i < |rest| ==> ss[i] == rest[i];
    } else {
      NothingPrints(AllInFile(CuesOf(ss)));
    }
  }

  lemma NothingPrints(cues: seq<FileCue>)
    requires cues == []
    ensures Printable(cues)
  {
  }

  /** The subtitle file of any narration, read back, is its cues to the millisecond, exactly
      when no sentence short enough for one line contains an empty line. */
  lemma NarrationRoundTrip(form: Form, ss: seq<Sentence>)
    ensures Parsed(form, Printed(form, AllInFile(CuesOf(ss)))) == Some(AllInFile(CuesOf(ss))) <==>
      forall i :: 0 <= i < |ss| ==> PrintableSentence(ss[i])
  {
    FileRoundTrip(form, AllInFile(CuesOf(ss)));
    SentencesPrint(ss);
  }

  // ---------- The printers ----------

  method FormatTimestamp(seconds: real, sep: char) returns (r: string)
    ensures r == Stamp(Milliseconds(seconds), sep)
  {
    var ms := Milliseconds(seconds);
    var h := ms / 3_600_000;
    ms := ms % 3_600_000;
    var m := ms / 60_000;
    ms := ms % 60_000;
    var s := ms / 1000;
    var left := ms % 1000;
    assert ms % 1000 == Milliseconds(seconds) % 3_600_000 % 1000;
    return Hours(h) + ":" + Pad(m, 2) + ":" + Pad(s, 2) + [sep] + Pad(left, 3);
  }

  method ToSrt(cues: seq<Cue>) returns (r: string)
    ensures r == Printed(Srt, AllInFile(cues))
  {
    hide Stamp, Decimal, Milliseconds, Unlines;
    var lines := [];
    for i := 0 to |cues|
      invariant lines == Parts(Srt, AllInFile(cues)[..i])
    {
      assert AllInFile(cues)[..i + 1][..i] == AllInFile(cues)[..i];
      var start := FormatTimestamp(cues[i].start, ',');
      var end := FormatTimestamp(cues[i].end, ',');
      lines := lines + [Decimal(i + 1)] + [start + " --> " + end] + [cues[i].text] + [""];
    }
    assert AllInFile(cues)[..|cues|] == AllInFile(cues);
    assert [] + lines == lines;
    return Unlines(lines);
  }

  method ToVtt(cues: seq<Cue>) returns (r: string)
    ensures r == Printed(Vtt, AllInFile(cues))
  {
    hide Stamp, Decimal, Milliseconds, Unlines;
    var lines := ["WEBVTT", ""];
    for i := 0 to |cues|
      invariant lines == Heading(Vtt) + Parts(Vtt, AllInFile(cues)[..i])
    {
      assert AllInFile(cues)[..i + 1][..i] == AllInFile(cues)[..i];
      var start := FormatTimestamp(cues[i].start, '.');
      var end := FormatTimestamp(cues[i].end, '.');
      lines := lines + [start + " --> " + end] + [cues[i].text] + [""];
    }
    assert AllInFile(cues)[..|cues|] == AllInFile(cues);
    return Unlines(lines);
  }
}
