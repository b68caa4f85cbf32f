/** The text side of audio generation: recognising chapter headings, cutting a text into
    chapters, safe file names, chapter markers, and which voice speaks which part of a
    line. Speech synthesis itself is outside the model. */
module AudioUtils {
  import opened Wrappers
  import opened Strings
  import opened TextPreprocessing

  // ---------------------------------------------------------------- chapter headings

  /** The four patterns of `check_if_chapter_heading`, each an alternation of two labels. */
  const HeadingPatterns: seq<seq<string>> := [
    ["Chapter", "Cap\U{ED}tulo"], ["Part", "Parte"], ["Section", "Secci\U{F3}n"], ["Act", "Acto"]]

  /** `[\w-]`. */
  predicate IsTokenChar(c: char) {
    IsWordChar(c) || c == '-'
  }

  /** Length of the run of `[\w-]` characters starting at `p`. */
  function TokenRun(s: string, p: nat): (n: nat)
    requires p <= |s|
    ensures p + n <= |s|
    ensures forall i :: p <= i < p + n ==> IsTokenChar(s[i])
    ensures p + n < |s| ==> !IsTokenChar(s[p + n])
    decreases |s| - p
  {
    if p < |s| && IsTokenChar(s[p]) then 1 + TokenRun(s, p + 1) else 0
  }

  /** `^name\s+([\w-]+|\d+)` with IGNORECASE: the captured token. The space run and the
      token are maximal, since a shorter run would leave a character the next part cannot
      start with (and `\d+` never matches where `[\w-]+` does not). */
  function LabelToken(t: string, name: string): (r: Option<string>)
    ensures r.Some? ==> r.value != [] && forall i :: 0 <= i < |r.value| ==> IsTokenChar(r.value[i])
  {
    if !StartsWithIgnoreCase(t, name) then None
    else
      var n := SpaceRun(t, |name|);
      var m := TokenRun(t, |name| + n);
      if n > 0 && m > 0 then Some(t[|name| + n..|name| + n + m]) else None
  }

  /** A pattern's match: the first of its labels that matches, as the engine tries the
      alternatives in order. */
  function PatternToken(t: string, labels: seq<string>): Option<string> {
    if labels == [] then None
    else
      match LabelToken(t, labels[0])
      case Some(tok) => Some(tok)
      case None => PatternToken(t, labels[1..])
  }

  /** Roman numeral letters, `[IVXLCDM]`. */
  predicate IsRomanLetter(c: char) {
    c == 'I' || c == 'V' || c == 'X' || c == 'L' || c == 'C' || c == 'D' || c == 'M'
  }

  /** What makes a captured token a number: `isdigit()`, or, without word2number,
      upper-casing to `^[IVXLCDM]+$`. */
  predicate NumberToken(tok: string) {
    tok != []
    && ((forall i :: 0 <= i < |tok| ==> IsDigit(tok[i]))
        || (forall i :: 0 <= i < |Upper(tok)| ==> IsRomanLetter(Upper(tok)[i])))
  }

  /** One pattern accepts the stripped text. */
  predicate PatternAccepts(t: string, labels: seq<string>) {
    PatternToken(t, labels).Some? && NumberToken(PatternToken(t, labels).value)
  }

  /** The pattern loop of `check_if_chapter_heading` from pattern `k` on: the first pattern
      whose token is a number answers true; a pattern that matches with another token
      falls through to the next one. */
  function HeadingFrom(t: string, k: nat): bool
    requires k <= |HeadingPatterns|
    decreases |HeadingPatterns| - k
  {
    if k == |HeadingPatterns| then false
    else if PatternAccepts(t, HeadingPatterns[k]) then true
    else HeadingFrom(t, k + 1)
  }

  /** `check_if_chapter_heading`. */
  function CheckIfChapterHeading(text: string): bool {
    HeadingFrom(Strip(text), 0)
  }

  lemma {:induction false} HeadingFromMeaning(t: string, k: nat)
    requires k <= |HeadingPatterns|
    ensures HeadingFrom(t, k) <==> exists j :: k <= j < |HeadingPatterns| && PatternAccepts(t, HeadingPatterns[j])
    decreases |HeadingPatterns| - k
  {
    if k < |HeadingPatterns| {
      HeadingFromMeaning(t, k + 1);
    }
  }

  /** A text is a heading exactly when one of the patterns finds a label, then whitespace,
      then a digit string or a Roman numeral. */
  lemma HeadingMeaning(text: string)
    ensures CheckIfChapterHeading(text) <==>
      exists j :: 0 <= j < |HeadingPatterns| && PatternAccepts(Strip(text), HeadingPatterns[j])
  {
    HeadingFromMeaning(Strip(text), 0);
  }

  /** Numbers written with a vulgar fraction or a superscript digit are no headings: `\w`
      takes the ½ or the ² into the token, which is then neither an `int` nor a Roman
      numeral. */
  lemma LatinNumeralsNoHeading()
    ensures !CheckIfChapterHeading("Chapter 2\U{BD}")
    ensures !CheckIfChapterHeading("Chapter 1\U{B2}")
  {
    DigitThenOtherNoHeading('2', '\U{BD}');
    assert "Chapter 2\U{BD}" == "Chapter " + ['2', '\U{BD}'];
    DigitThenOtherNoHeading('1', '\U{B2}');
    assert "Chapter 1\U{B2}" == "Chapter " + ['1', '\U{B2}'];
  }

  /** "Chapter", a space, an ASCII digit and another word character is no heading. */
  lemma DigitThenOtherNoHeading(d: char, c: char)
    requires IsDigit(d) && IsWordChar(c) && !IsDigit(c) && !IsSpace(c)
    ensures !CheckIfChapterHeading("Chapter " + [d, c])
  {
    var tok := [d, c];
    assert Upper(tok)[0] == UpperChar(d) == d;
    assert !IsRomanLetter(Upper(tok)[0]) && !IsDigit(tok[1]);
    assert !NumberToken(tok);
    ChapterTokenNoHeading(tok);
  }

  /** "Chapter", one space and a whole token that is not a number is no heading. */
  lemma ChapterTokenNoHeading(tok: string)
    requires tok != [] && !IsSpace(tok[0]) && !IsSpace(tok[|tok| - 1])
    requires forall i :: 0 <= i < |tok| ==> IsTokenChar(tok[i])
    requires !NumberToken(tok)
    ensures !CheckIfChapterHeading("Chapter " + tok)
  {
    var t := "Chapter " + tok;
    StripNoop(t);
    ChapterLabelToken(tok);
    LabelledNoHeading(t, tok);
  }

  /** A stripped text starting with C whose "Chapter" token is not a number is no heading. */
  lemma LabelledNoHeading(t: string, tok: string)
    requires t != [] && t[0] == 'C' && Strip(t) == t
    requires LabelToken(t, "Chapter") == Some(tok) && !NumberToken(tok)
    ensures !CheckIfChapterHeading(t)
  {
    assert HeadingPatterns[0][0] == "Chapter";
    assert !PatternAccepts(t, HeadingPatterns[0]);
    OtherPatternsNoToken(t);
    assert !HeadingFrom(t, 3);
    assert !HeadingFrom(t, 2);
    assert !HeadingFrom(t, 1);
    assert !HeadingFrom(t, 0);
  }

  /** The label "Chapter" of "Chapter " + tok captures the whole token. */
  lemma ChapterLabelToken(tok: string)
    requires tok != [] && !IsSpace(tok[0])
    requires forall i :: 0 <= i < |tok| ==> IsTokenChar(tok[i])
    ensures LabelToken("Chapter " + tok, "Chapter") == Some(tok)
  {
    var t := "Chapter " + tok;
    assert t[..7] == "Chapter";
    assert SpaceRun(t, 7) == 1 by { assert t[7] == ' ' && t[8] == tok[0]; }
    TokenRunAll(t, 8);
    assert t[8..8 + |tok|] == tok;
  }

  /** The patterns after the first find no token in a text that starts with a C. */
  lemma OtherPatternsNoToken(t: string)
    requires t != [] && t[0] == 'C'
    ensures forall k :: 1 <= k < |HeadingPatterns| ==> PatternToken(t, HeadingPatterns[k]).None?
  {
    forall k | 1 <= k < |HeadingPatterns|
      ensures PatternToken(t, HeadingPatterns[k]).None?
    {
      var labels := HeadingPatterns[k];
      OtherLabelNoToken(t, labels[0]);
      OtherLabelNoToken(t, labels[1]);
      assert |labels| == 2 && labels[1..][0] == labels[1] && labels[1..][1..] == [];
      assert PatternToken(t, labels[1..]).None?;
    }
  }

  /** A label whose first letter is not a C, in any case, finds no token in a text that
      starts with a C. */
  lemma OtherLabelNoToken(t: string, name: string)
    requires t != [] && t[0] == 'C'
    requires name != [] && LowerChar(name[0]) != 'c'
    ensures LabelToken(t, name).None?
  {
    if |name| <= |t| {
      assert Lower(t[..|name|])[0] == 'c';
    }
  }

  /** A run of token characters up to the end of the text is all of it. */
  lemma {:induction false} TokenRunAll(s: string, p: nat)
    requires p <= |s|
    requires forall i :: p <= i < |s| ==> IsTokenChar(s[i])
    ensures TokenRun(s, p) == |s| - p
    decreases |s| - p
  {
    if p < |s| {
      TokenRunAll(s, p + 1);
    }
  }

  /** Every name of every pattern. */
  predicate BeginsWithLabelAndSpace(t: string) {
    exists j, i :: 0 <= j < |HeadingPatterns| && 0 <= i < |HeadingPatterns[j]| && LabelThenSpace(t, HeadingPatterns[j][i])
  }

  /** The name, in any case, followed by whitespace. */
  predicate LabelThenSpace(t: string, name: string) {
    StartsWithIgnoreCase(t, name) && SpaceRun(t, |name|) > 0
  }

  lemma {:induction false} PatternTokenLabel(t: string, labels: seq<string>)
    requires PatternToken(t, labels).Some?
    ensures exists i :: 0 <= i < |labels| && LabelThenSpace(t, labels[i])
  {
    if LabelToken(t, labels[0]).Some? {
      assert LabelThenSpace(t, labels[0]);
    } else {
      PatternTokenLabel(t, labels[1..]);
      var i :| 0 <= i < |labels[1..]| && LabelThenSpace(t, labels[1..][i]);
      assert labels[1..][i] == labels[i + 1];
    }
  }

  /** Text that does not begin with a name and whitespace is never a heading. */
  lemma HeadingNeedsLabel(text: string)
    requires !BeginsWithLabelAndSpace(Strip(text))
    ensures !CheckIfChapterHeading(text)
  {
    HeadingMeaning(text);
    if CheckIfChapterHeading(text) {
      var j :| 0 <= j < |HeadingPatterns| && PatternAccepts(Strip(text), HeadingPatterns[j]);
      PatternTokenLabel(Strip(text), HeadingPatterns[j]);
    }
  }

  /** A name, whitespace and a run of digits form a heading, whatever follows the run. */
  lemma DigitsMakeHeading(t: string, j: nat, i: nat)
    requires Strip(t) == t
    requires 0 <= j < |HeadingPatterns| && 0 <= i < |HeadingPatterns[j]|
    requires forall i' :: 0 <= i' < i ==> LabelToken(t, HeadingPatterns[j][i']).None?
    requires LabelToken(t, HeadingPatterns[j][i]).Some?
    requires forall c :: c in LabelToken(t, HeadingPatterns[j][i]).value ==> IsDigit(c)
    ensures CheckIfChapterHeading(t)
  {
    var labels := HeadingPatterns[j];
    FirstLabelToken(t, labels, i);
    var tok := LabelToken(t, labels[i]).value;
    assert forall k :: 0 <= k < |tok| ==> IsDigit(tok[k]) by {
      forall k | 0 <= k < |tok| ensures IsDigit(tok[k]) { assert tok[k] in tok; }
    }
    assert PatternAccepts(t, labels);
    StripIdempotent(t);
    HeadingMeaning(t);
  }

  lemma {:induction false} FirstLabelToken(t: string, labels: seq<string>, i: nat)
    requires 0 <= i < |labels|
    requires forall i' :: 0 <= i' < i ==> LabelToken(t, labels[i']).None?
    requires LabelToken(t, labels[i]).Some?
    ensures PatternToken(t, labels) == LabelToken(t, labels[i])
    decreases i
  {
    if i > 0 {
      assert forall i' :: 0 <= i' < i - 1 ==> labels[1..][i'] == labels[i' + 1];
      FirstLabelToken(t, labels[1..], i - 1);
    }
  }

  /** A line that opens a chapter: non-blank, and a heading once stripped. */
  predicate IsHeadingLine(line: string) {
    Strip(line) != [] && CheckIfChapterHeading(Strip(line))
  }

  // ---------------------------------------------------------------- chapter detection

  const Introduction: string := "Introducci\U{F3}n"

  /** One entry of the list `detect_chapters_in_text` returns. */
  datatype DetectedChapter = DetectedChapter(title: string, startLine: nat, lines: seq<string>)

  /** The loop state of `detect_chapters_in_text`: the chapters closed so far and the
      one being filled. */
  datatype Progress = Progress(done: seq<DetectedChapter>, current: DetectedChapter)

  /** The loop of `detect_chapters_in_text` over `lines`, where `isHeading` decides which
      lines open a chapter: a heading closes the current chapter (when it has lines) and
      opens one titled with the stripped heading; any other line joins the current one. */
  function Scan(lines: seq<string>, isHeading: string -> bool): Progress {
    if lines == [] then Progress([], DetectedChapter(Introduction, 0, []))
    else
      var p := Scan(lines[..|lines| - 1], isHeading);
      var line := lines[|lines| - 1];
      if isHeading(line) then
        Progress(if p.current.lines != [] then p.done + [p.current] else p.done,
                 DetectedChapter(Strip(line), |lines| - 1, [Strip(line)]))
      else Progress(p.done, p.current.(lines := p.current.lines + [line]))
  }

  /** The chapters after the loop: the last one is kept when it has lines. */
  function ChaptersBy(lines: seq<string>, isHeading: string -> bool): seq<DetectedChapter> {
    var p := Scan(lines, isHeading);
    if p.current.lines != [] then p.done + [p.current] else p.done
  }

  /** `detect_chapters_in_text`. */
  method DetectChaptersInText(text: string) returns (chapters: seq<DetectedChapter>)
    ensures chapters == ChaptersBy(Split(text, "\n"), IsHeadingLine)
  {
    var lines := Split(text, "\n");
    chapters := [];
    var current := DetectedChapter(Introduction, 0, []);
    var i := 0;
    while i < |lines|
      invariant 0 <= i <= |lines|
      invariant Progress(chapters, current) == Scan(lines[..i], IsHeadingLine)
    {
      assert lines[..i + 1][..i] == lines[..i];
      var line := lines[i];
      var lineStripped := Strip(line);
      if lineStripped != [] && CheckIfChapterHeading(lineStripped) {
        if current.lines != [] {
          chapters := chapters + [current];
        }
        current := DetectedChapter(lineStripped, i, [lineStripped]);
      } else {
        current := current.(lines := current.lines + [line]);
      }
      i := i + 1;
    }
    assert lines[..i] == lines;
    if current.lines != [] {
      chapters := chapters + [current];
    }
  }

  /** The lines of chapters, one after the other. */
  function Flatten(chapters: seq<DetectedChapter>): seq<string> {
    if chapters == [] then []
    else Flatten(chapters[..|chapters| - 1]) + chapters[|chapters| - 1].lines
  }

  lemma FlattenAppend(chapters: seq<DetectedChapter>, c: DetectedChapter)
    ensures Flatten(chapters + [c]) == Flatten(chapters) + c.lines
  {
    assert (chapters + [c])[..|chapters|] == chapters;
  }

  /** The input lines as the chapters hold them: a heading stripped, any other line as is. */
  function AsHeld(lines: seq<string>, isHeading: string -> bool): (r: seq<string>)
    ensures |r| == |lines|
    ensures forall i :: 0 <= i < |lines| ==> r[i] == if isHeading(lines[i]) then Strip(lines[i]) else lines[i]
  {
    seq(|lines|, i requires 0 <= i < |lines| => if isHeading(lines[i]) then Strip(lines[i]) else lines[i])
  }

  lemma AsHeldAppend(lines: seq<string>, isHeading: string -> bool)
    requires lines != []
    ensures AsHeld(lines, isHeading) == AsHeld(lines[..|lines| - 1], isHeading) + AsHeld([lines[|lines| - 1]], isHeading)
  {
  }

  /** The chapters together hold every input line once, in order: headings stripped, all
      other lines as they are. */
  lemma {:induction false} ScanHoldsLines(lines: seq<string>, isHeading: string -> bool)
    ensures var p := Scan(lines, isHeading); Flatten(p.done) + p.current.lines == AsHeld(lines, isHeading)
  {
    if lines != [] {
      var init := lines[..|lines| - 1];
      var line := lines[|lines| - 1];
      ScanHoldsLines(init, isHeading);
      AsHeldAppend(lines, isHeading);
      var p := Scan(init, isHeading);
      var held := AsHeld([line], isHeading);
      var q := Scan(lines, isHeading);
      if isHeading(line) {
        assert held == [Strip(line)];
        if p.current.lines != [] {
          FlattenAppend(p.done, p.current);
          assert q.done == p.done + [p.current];
        } else {
          assert q.done == p.done;
        }
        assert q.current.lines == [Strip(line)];
      } else {
        assert held == [line];
        assert q.done == p.done && q.current.lines == p.current.lines + [line];
      }
    }
  }

  /** Every chapter starts at the input line where its lines begin. */
  predicate StartsInPlace(chapters: seq<DetectedChapter>) {
    forall j :: 0 <= j < |chapters| ==> chapters[j].startLine == |Flatten(chapters[..j])|
  }

  lemma StartsInPlaceAppend(chapters: seq<DetectedChapter>, c: DetectedChapter)
    requires StartsInPlace(chapters) && c.startLine == |Flatten(chapters)|
    ensures StartsInPlace(chapters + [c])
  {
    var cs := chapters + [c];
    forall j | 0 <= j < |cs| ensures cs[j].startLine == |Flatten(cs[..j])| {
      if j < |chapters| {
        assert cs[..j] == chapters[..j];
      } else {
        assert cs[..j] == chapters;
      }
    }
  }

  lemma {:induction false} ScanStarts(lines: seq<string>, isHeading: string -> bool)
    ensures var p := Scan(lines, isHeading);
      StartsInPlace(p.done) && p.current.startLine == |Flatten(p.done)|
  {
    if lines != [] {
      var init := lines[..|lines| - 1];
      ScanStarts(init, isHeading);
      ScanHoldsLines(init, isHeading);
      var p := Scan(init, isHeading);
      if isHeading(lines[|lines| - 1]) && p.current.lines != [] {
        StartsInPlaceAppend(p.done, p.current);
        FlattenAppend(p.done, p.current);
      }
    }
  }

  /** The chapter being filled is empty only before the first line, and then nothing has
      been closed yet. */
  lemma {:induction false} ScanFilling(lines: seq<string>, isHeading: string -> bool)
    ensures var p := Scan(lines, isHeading);
      (p.current.lines == [] <==> lines == [])
      && (lines == [] ==> p.done == [] && p.current.title == Introduction && p.current.startLine == 0)
  {
    if lines != [] {
      ScanFilling(lines[..|lines| - 1], isHeading);
    }
  }

  /** How chapter `j` begins: either with the input heading at its start line, stripped,
      which is its title and first line; or, for the first chapter only, as the
      introduction at line 0 before any heading. */
  predicate Opens(c: DetectedChapter, j: nat, lines: seq<string>, isHeading: string -> bool) {
    c.lines != [] && c.startLine < |lines|
    && ((isHeading(lines[c.startLine]) && c.title == Strip(lines[c.startLine]) && c.lines[0] == c.title)
        || (j == 0 && c.title == Introduction && c.startLine == 0 && !isHeading(lines[0])))
  }

  /** Apart from its opening heading, none of a chapter's lines is a heading. */
  predicate NoInnerHeading(c: DetectedChapter, isHeading: string -> bool) {
    forall m :: 1 <= m < |c.lines| ==> !isHeading(c.lines[m])
  }

  predicate WellOpened(c: DetectedChapter, j: nat, lines: seq<string>, isHeading: string -> bool) {
    Opens(c, j, lines, isHeading) && NoInnerHeading(c, isHeading)
  }

  lemma WellOpenedExtends(c: DetectedChapter, j: nat, lines: seq<string>, more: seq<string>, isHeading: string -> bool)
    requires WellOpened(c, j, lines, isHeading)
    ensures WellOpened(c, j, lines + more, isHeading)
  {
    assert (lines + more)[c.startLine] == lines[c.startLine];
    assert (lines + more)[0] == lines[0];
  }

  lemma WellOpenedGrows(c: DetectedChapter, j: nat, lines: seq<string>, line: string, isHeading: string -> bool)
    requires WellOpened(c, j, lines, isHeading) && !isHeading(line)
    ensures WellOpened(c.(lines := c.lines + [line]), j, lines + [line], isHeading)
  {
    WellOpenedExtends(c, j, lines, [line], isHeading);
    var c' := c.(lines := c.lines + [line]);
    assert c'.lines[0] == c.lines[0];
    forall m | 1 <= m < |c'.lines| ensures !isHeading(c'.lines[m]) {
      if m < |c.lines| {
        assert c'.lines[m] == c.lines[m];
      }
    }
  }

  lemma {:induction false} ScanOpens(lines: seq<string>, isHeading: string -> bool)
    ensures var p := Scan(lines, isHeading);
      (forall j :: 0 <= j < |p.done| ==> WellOpened(p.done[j], j, lines, isHeading))
      && (p.current.lines != [] ==> WellOpened(p.current, |p.done|, lines, isHeading))
  {
    if lines != [] {
      var init := lines[..|lines| - 1];
      var line := lines[|lines| - 1];
      assert lines == init + [line];
      ScanOpens(init, isHeading);
      ScanFilling(init, isHeading);
      var p := Scan(init, isHeading);
      var q := Scan(lines, isHeading);
      forall j | 0 <= j < |p.done| ensures WellOpened(p.done[j], j, lines, isHeading) {
        WellOpenedExtends(p.done[j], j, init, [line], isHeading);
      }
      if p.current.lines != [] {
        WellOpenedExtends(p.current, |p.done|, init, [line], isHeading);
      }
      if isHeading(line) {
        var c := DetectedChapter(Strip(line), |lines| - 1, [Strip(line)]);
        assert q.current == c;
        assert WellOpened(c, |q.done|, lines, isHeading);
        if p.current.lines != [] {
          assert q.done == p.done + [p.current];
        } else {
          assert q.done == p.done;
        }
      } else if p.current.lines != [] {
        WellOpenedGrows(p.current, |p.done|, init, line, isHeading);
        assert q == Progress(p.done, p.current.(lines := p.current.lines + [line]));
      } else {
        assert init == [] && p.done == [];
        assert q.current == DetectedChapter(Introduction, 0, [line]);
        assert lines[0] == line;
      }
    }
  }

  /** What `detect_chapters_in_text` promises: at least one chapter for any text, no
      chapter without lines, every line held once and in order, each chapter starting
      where its lines begin, with the opening described by `Opens`, and no heading inside
      a chapter. */
  lemma ChaptersShape(lines: seq<string>, isHeading: string -> bool)
    requires lines != []
    ensures var cs := ChaptersBy(lines, isHeading);
      |cs| >= 1
      && Flatten(cs) == AsHeld(lines, isHeading)
      && StartsInPlace(cs)
      && forall j :: 0 <= j < |cs| ==> WellOpened(cs[j], j, lines, isHeading)
  {
    ScanHoldsLines(lines, isHeading);
    ScanStarts(lines, isHeading);
    ScanFilling(lines, isHeading);
    ScanOpens(lines, isHeading);
    var p := Scan(lines, isHeading);
    FlattenAppend(p.done, p.current);
    StartsInPlaceAppend(p.done, p.current);
  }

  /** The chapters hold as many lines as there are input lines, and their start lines
      strictly increase. */
  lemma ChaptersOrdered(lines: seq<string>, isHeading: string -> bool)
    requires lines != []
    ensures var cs := ChaptersBy(lines, isHeading);
      |Flatten(cs)| == |lines|
      && forall j, k :: 0 <= j < k < |cs| ==> cs[j].startLine < cs[k].startLine
  {
    ChaptersShape(lines, isHeading);
    var cs := ChaptersBy(lines, isHeading);
    assert forall m :: 0 <= m < |cs| ==> cs[m].lines != [] by {
      forall m | 0 <= m < |cs| ensures cs[m].lines != [] {
        assert WellOpened(cs[m], m, lines, isHeading);
      }
    }
    forall j, k | 0 <= j < k < |cs| ensures cs[j].startLine < cs[k].startLine {
      StartLinesIncrease(cs, j, k);
    }
  }

  /** For a text: at least one chapter, as many chapter lines as text lines, and start
      lines that strictly increase. */
  lemma DetectedChaptersShape(text: string)
    ensures var cs := ChaptersBy(Split(text, "\n"), IsHeadingLine);
      |cs| >= 1
      && |Flatten(cs)| == |Split(text, "\n")|
      && forall j, k :: 0 <= j < k < |cs| ==> cs[j].startLine < cs[k].startLine
  {
    var lines := Split(text, "\n");
    ChaptersShape(lines, IsHeadingLine);
    ChaptersOrdered(lines, IsHeadingLine);
  }

  /** Chapters laid out one after another with non-empty line lists start at strictly
      increasing lines. */
  lemma StartLinesIncrease(chapters: seq<DetectedChapter>, j: nat, k: nat)
    requires forall m :: 0 <= m < |chapters| ==> chapters[m].lines != []
    requires StartsInPlace(chapters)
    requires j < k < |chapters|
    ensures chapters[j].startLine < chapters[k].startLine
  {
    FlattenPrefixGrows(chapters, j, k);
  }

  lemma {:induction false} FlattenPrefixGrows(chapters: seq<DetectedChapter>, j: nat, k: nat)
    requires forall m :: 0 <= m < |chapters| ==> chapters[m].lines != []
    requires j < k <= |chapters|
    ensures |Flatten(chapters[..j])| < |Flatten(chapters[..k])|
    decreases k - j
  {
    assert chapters[..k][..k - 1] == chapters[..k - 1];
    assert |Flatten(chapters[..k])| == |Flatten(chapters[..k - 1])| + |chapters[k - 1].lines|;
    if j < k - 1 {
      FlattenPrefixGrows(chapters, j, k - 1);
    }
  }

  // ---------------------------------------------------------------- file names

  /** The characters a sanitised name keeps: ASCII letters and digits, `-` and `_`. */
  predicate FilenameSafe(c: char) {
    'a' <= c <= 'z' || 'A' <= c <= 'Z' || IsDigit(c) || c == '-' || c == '_'
  }

  /** The twelve `str.replace` calls at the start of `sanitize_filename`, in order. */
  const FilenameReplacements: seq<(char, string)> := [
    ('\'', ""), ('"', ""), ('/', " "), ('.', " "), (':', ""), ('?', ""),
    ('\\', ""), ('|', ""), ('*', ""), ('<', ""), ('>', ""), ('&', "and")]

  /** The replacements applied one after the other. */
  function ReplaceAll(s: string, pairs: seq<(char, string)>): string
    decreases |pairs|
  {
    if pairs == [] then s else ReplaceAll(ReplaceChar(s, pairs[0].0, pairs[0].1), pairs[1..])
  }

  function ReplaceProblemChars(text: string): string {
    ReplaceAll(text, FilenameReplacements)
  }

  /** A character that one of the replacements removes, and that no replacement brings in,
      is absent afterwards. */
  lemma {:induction false} ReplaceAllRemoves(s: string, pairs: seq<(char, string)>, c: char)
    requires forall k :: 0 <= k < |pairs| ==> c !in pairs[k].1
    requires c !in s || exists k :: 0 <= k < |pairs| && pairs[k].0 == c
    ensures c !in ReplaceAll(s, pairs)
    decreases |pairs|
  {
    if pairs != [] {
      var s' := ReplaceChar(s, pairs[0].0, pairs[0].1);
      ReplaceCharProps(s, pairs[0].0, pairs[0].1);
      if c in s' {
        var k :| 0 <= k < |pairs| && pairs[k].0 == c;
        assert k != 0;
        assert pairs[1..][k - 1].0 == c;
      }
      assert forall k :: 0 <= k < |pairs[1..]| ==> pairs[1..][k] == pairs[k + 1];
      ReplaceAllRemoves(s', pairs[1..], c);
    }
  }

  /** `re.sub(r"[^a-zA-Z0-9\-_./\s]", ' ', s)`. */
  function KeepSafe(s: string): (r: string)
    ensures |r| == |s|
  {
    seq(|s|, i requires 0 <= i < |s| =>
      if FilenameSafe(s[i]) || s[i] == '.' || s[i] == '/' || IsSpace(s[i]) then s[i] else ' ')
  }

  /** `sanitize_filename`. */
  function SanitizeFilename(text: string): string {
    Join(Words(KeepSafe(ReplaceProblemChars(text))), " ")
  }

  /** No replacement brings in a full stop or a slash. */
  lemma SubstitutesHaveNoDotOrSlash()
    ensures forall k :: 0 <= k < |FilenameReplacements| ==>
      '.' !in FilenameReplacements[k].1 && '/' !in FilenameReplacements[k].1
  {
    forall k | 0 <= k < |FilenameReplacements|
      ensures '.' !in FilenameReplacements[k].1 && '/' !in FilenameReplacements[k].1
    {
      assert FilenameReplacements[k].1 in {"", " ", "and"};
    }
  }

  /** After the replacements no full stop or slash is left. */
  lemma ReplacedHasNoDotOrSlash(text: string)
    ensures '.' !in ReplaceProblemChars(text) && '/' !in ReplaceProblemChars(text)
  {
    SubstitutesHaveNoDotOrSlash();
    assert FilenameReplacements[3].0 == '.' && FilenameReplacements[2].0 == '/';
    ReplaceAllRemoves(text, FilenameReplacements, '.');
    ReplaceAllRemoves(text, FilenameReplacements, '/');
  }

  /** Every character is safe or whitespace. */
  predicate SafeOrSpace(s: string) {
    forall i :: 0 <= i < |s| ==> FilenameSafe(s[i]) || IsSpace(s[i])
  }

  /** Every character is safe. */
  predicate AllSafe(w: string) {
    forall i :: 0 <= i < |w| ==> FilenameSafe(w[i])
  }

  lemma SafeOrSpaceSlice(s: string, i: nat, j: nat)
    requires i <= j <= |s| && SafeOrSpace(s)
    ensures SafeOrSpace(s[i..j])
  {
    assert forall k :: 0 <= k < j - i ==> s[i..j][k] == s[i + k];
  }

  /** Splitting on whitespace a string of safe characters and whitespace leaves words of
      safe characters. */
  lemma {:induction false} WordsSafe(s: string)
    requires SafeOrSpace(s)
    ensures forall k :: 0 <= k < |Words(s)| ==> AllSafe(Words(s)[k])
    decreases |s|
  {
    if s != [] {
      if IsSpace(s[0]) {
        SafeOrSpaceSlice(s, 1, |s|);
        WordsSafe(s[1..]);
      } else {
        var n := TokenLength(s);
        SafeOrSpaceSlice(s, 0, n);
        SafeOrSpaceSlice(s, n, |s|);
        WordsSafe(s[n..]);
        var ws := Words(s);
        assert ws == [s[..n]] + Words(s[n..]);
        assert AllSafe(s[..n]);
        assert forall k :: 1 <= k < |ws| ==> ws[k] == Words(s[n..])[k - 1];
      }
    }
  }

  /** Without full stops and slashes, the character filter leaves only safe characters
      and whitespace. */
  lemma KeepSafeShape(s: string)
    requires '.' !in s && '/' !in s
    ensures SafeOrSpace(KeepSafe(s))
  {
    forall i | 0 <= i < |s| ensures FilenameSafe(KeepSafe(s)[i]) || IsSpace(KeepSafe(s)[i]) {
      assert s[i] in s;
    }
  }

  /** A sanitised name is empty or a run of non-empty words of safe characters, each pair
      separated by exactly one space, so it has no leading, trailing or doubled space. */
  lemma SanitizedShape(text: string)
    ensures var r := SanitizeFilename(text);
      r == [] || forall p :: p in Split(r, " ") ==> p != [] && forall i :: 0 <= i < |p| ==> FilenameSafe(p[i])
  {
    var k := KeepSafe(ReplaceProblemChars(text));
    ReplacedHasNoDotOrSlash(text);
    KeepSafeShape(ReplaceProblemChars(text));
    var ws := Words(k);
    WordsSafe(k);
    forall w | w in ws ensures w != [] && ' ' !in w && forall i :: 0 <= i < |w| ==> FilenameSafe(w[i]) {
      var j :| 0 <= j < |ws| && ws[j] == w;
      assert AllSafe(ws[j]);
    }
    if ws != [] {
      assert forall m :: 0 <= m < |ws| ==> ' ' !in ws[m] by {
        forall m | 0 <= m < |ws| ensures ' ' !in ws[m] { assert ws[m] in ws; }
      }
      SplitJoinChar(ws, ' ');
    }
  }

  /** Replacements of characters the text does not hold change nothing. */
  lemma {:induction false} ReplaceAllSkip(s: string, pairs: seq<(char, string)>, m: nat)
    requires m <= |pairs|
    requires forall k :: 0 <= k < m ==> pairs[k].0 !in s
    ensures ReplaceAll(s, pairs) == ReplaceAll(s, pairs[m..])
    decreases m
  {
    if m > 0 {
      ReplaceCharProps(s, pairs[0].0, pairs[0].1);
      assert forall k :: 0 <= k < m - 1 ==> pairs[1..][k] == pairs[k + 1];
      ReplaceAllSkip(s, pairs[1..], m - 1);
      assert pairs[1..][m - 1..] == pairs[m..];
    }
  }

  /** Only the last replacement concerns `&`. */
  lemma OnlyLastReplacesAmpersand()
    ensures |FilenameReplacements| == 12 && FilenameReplacements[11] == ('&', "and")
    ensures forall k :: 0 <= k < 11 ==> FilenameReplacements[k].0 != '&'
  {
  }

  /** A text without any of the characters the first eleven replacements remove only
      has its ampersands spelled out. */
  lemma AmpersandsSpelledOut(s: string)
    requires forall k :: 0 <= k < 11 ==> FilenameReplacements[k].0 !in s
    ensures ReplaceProblemChars(s) == ReplaceChar(s, '&', "and")
  {
    OnlyLastReplacesAmpersand();
    ReplaceAllSkip(s, FilenameReplacements, 11);
    assert FilenameReplacements[11..] == [('&', "and")];
  }

  /** A text holding only `&` becomes `and`. */
  lemma AmpersandReplaced(s: string)
    requires |s| == 1 && s[0] == '&'
    ensures ReplaceProblemChars(s) == "and"
  {
    OnlyLastReplacesAmpersand();
    forall k | 0 <= k < 11 ensures FilenameReplacements[k].0 !in s {
      assert forall i :: 0 <= i < |s| ==> s[i] == '&';
    }
    AmpersandsSpelledOut(s);
    assert ReplaceChar(s, '&', "and") == "and" + ReplaceChar(s[1..], '&', "and");
  }

  /** A text the replacements turn into one word of safe characters sanitises to that word. */
  lemma SanitizedSingleWord(s: string)
    requires ReplaceProblemChars(s) != [] && AllSafe(ReplaceProblemChars(s))
    ensures SanitizeFilename(s) == ReplaceProblemChars(s)
  {
    SingleWordStable(ReplaceProblemChars(s));
  }

  lemma AndIsSafe()
    ensures AllSafe("and")
  {
  }

  /** `sanitize_filename("&")` is `and`. */
  lemma AmpersandSpelledOut(s: string)
    requires |s| == 1 && s[0] == '&'
    ensures SanitizeFilename(s) == "and"
  {
    AmpersandReplaced(s);
    AndIsSafe();
    SanitizedSingleWord(s);
  }

  /** A word of safe characters passes the filter and the whitespace split unchanged. */
  lemma SingleWordStable(w: string)
    requires w != [] && AllSafe(w)
    ensures KeepSafe(w) == w && Words(w) == [w] && Join(Words(w), " ") == w
  {
    assert forall i :: 0 <= i < |w| ==> !IsSpace(w[i]) by {
      forall i | 0 <= i < |w| ensures !IsSpace(w[i]) { assert FilenameSafe(w[i]); }
    }
    TokenLengthAll(w);
    var empty: string := [];
    assert w[..|w|] == w && w[|w|..] == empty;
    assert Words(w) == [w] + Words(empty);
  }

  lemma {:induction false} TokenLengthAll(w: string)
    requires forall i :: 0 <= i < |w| ==> !IsSpace(w[i])
    ensures TokenLength(w) == |w|
    decreases |w|
  {
    if w != [] {
      TokenLengthAll(w[1..]);
    }
  }

  // ---------------------------------------------------------------- chapter markers

  /** The marker line written before a heading. */
  function Marker(heading: string): string {
    "\n--- CHAPTER: " + heading + " ---\n"
  }

  /** The marker `add_chapter_markers` writes before the heading line `line`. */
  function HeadingMarker(line: string): string {
    Marker(Strip(line))
  }

  /** The entries `add_chapter_markers` collects for `lines`, where `isHeading` decides
      which lines get a marker and `mark` writes it (`HeadingMarker` in the program). */
  function MarkedLines(lines: seq<string>, isHeading: string -> bool, mark: string -> string): seq<string> {
    if lines == [] then []
    else
      var l := lines[|lines| - 1];
      MarkedLines(lines[..|lines| - 1], isHeading, mark) + (if isHeading(l) then [mark(l), l] else [l])
  }

  /** `add_chapter_markers`. */
  method AddChapterMarkers(text: string) returns (r: string)
    ensures r == Join(MarkedLines(Split(text, "\n"), IsHeadingLine, HeadingMarker), "\n")
  {
    var lines := Split(text, "\n");
    var processed: seq<string> := [];
    var i := 0;
    while i < |lines|
      invariant 0 <= i <= |lines|
      invariant processed == MarkedLines(lines[..i], IsHeadingLine, HeadingMarker)
    {
      assert lines[..i + 1][..i] == lines[..i];
      var line := lines[i];
      var lineStripped := Strip(line);
      if lineStripped != [] && CheckIfChapterHeading(lineStripped) {
        processed := processed + [Marker(lineStripped), line];
      } else {
        processed := processed + [line];
      }
      i := i + 1;
    }
    assert lines[..i] == lines;
    r := Join(processed, "\n");
  }

  /** The entries that are not markers: those without a line feed. */
  function WithoutMarkers(entries: seq<string>): seq<string> {
    if entries == [] then []
    else
      var e := entries[|entries| - 1];
      WithoutMarkers(entries[..|entries| - 1]) + (if '\n' in e then [] else [e])
  }

  lemma {:induction false} WithoutMarkersAppend(a: seq<string>, b: seq<string>)
    ensures WithoutMarkers(a + b) == WithoutMarkers(a) + WithoutMarkers(b)
    decreases |b|
  {
    if b != [] {
      assert (a + b)[..|a + b| - 1] == a + b[..|b| - 1];
      WithoutMarkersAppend(a, b[..|b| - 1]);
    } else {
      assert a + b == a;
    }
  }

  lemma MarkerHasLineFeed(heading: string)
    ensures '\n' in Marker(heading)
  {
    assert Marker(heading)[0] == '\n';
  }

  /** Dropping the markers gives back the lines of the text, unchanged and in order. */
  lemma {:induction false} MarkersRemovable(lines: seq<string>, isHeading: string -> bool, mark: string -> string)
    requires forall k :: 0 <= k < |lines| ==> '\n' !in lines[k]
    requires forall h :: '\n' in mark(h)
    ensures WithoutMarkers(MarkedLines(lines, isHeading, mark)) == lines
  {
    if lines != [] {
      var init := lines[..|lines| - 1];
      var l := lines[|lines| - 1];
      MarkersRemovable(init, isHeading, mark);
      var m := mark(l);
      var piece := if isHeading(l) then [m, l] else [l];
      assert MarkedLines(lines, isHeading, mark) == MarkedLines(init, isHeading, mark) + piece;
      WithoutMarkersAppend(MarkedLines(init, isHeading, mark), piece);
      WithoutMarkersPiece(m, l);
      assert lines == init + [l];
    }
  }

  /** A marker and a line without a line feed leave that line alone. */
  lemma WithoutMarkersPiece(m: string, l: string)
    requires '\n' in m && '\n' !in l
    ensures WithoutMarkers([m, l]) == [l] && WithoutMarkers([l]) == [l]
  {
    var none: seq<string> := [];
    assert [m, l][..1] == [m];
    assert [m][..0] == none && [l][..0] == none;
    assert WithoutMarkers([m]) == none + [];
    assert WithoutMarkers([l]) == none + [l];
  }

  /** Every entry with a line feed is the marker of the heading line right after it. */
  predicate MarkersPlaced(out: seq<string>, isHeading: string -> bool, mark: string -> string) {
    forall j :: 0 <= j < |out| && '\n' in out[j] ==>
      j + 1 < |out| && isHeading(out[j + 1]) && out[j] == mark(out[j + 1])
  }

  /** Every marker is followed by the heading line it names. */
  lemma {:induction false} MarkersPrecedeHeadings(lines: seq<string>, isHeading: string -> bool, mark: string -> string)
    requires forall k :: 0 <= k < |lines| ==> '\n' !in lines[k]
    ensures MarkersPlaced(MarkedLines(lines, isHeading, mark), isHeading, mark)
  {
    if lines != [] {
      var init := lines[..|lines| - 1];
      var l := lines[|lines| - 1];
      MarkersPrecedeHeadings(init, isHeading, mark);
      var before := MarkedLines(init, isHeading, mark);
      assert MarkersPlaced(before, isHeading, mark);
      var out := MarkedLines(lines, isHeading, mark);
      assert '\n' !in l;
      forall j | 0 <= j < |out| && '\n' in out[j]
        ensures j + 1 < |out| && isHeading(out[j + 1]) && out[j] == mark(out[j + 1])
      {
        if j < |before| {
          assert out[..|before|] == before;
          assert out[j] == before[j];
          assert out[j + 1] == before[j + 1];
        } else if isHeading(l) && j == |before| {
          assert out == before + [mark(l), l];
          assert out[j + 1] == l;
        } else {
          assert false;
        }
      }
    }
  }

  /** For a text: its lines can be read back from the marked output, and each marker is
      followed by the heading it announces. */
  lemma ChapterMarkersShape(text: string)
    ensures var out := MarkedLines(Split(text, "\n"), IsHeadingLine, HeadingMarker);
      WithoutMarkers(out) == Split(text, "\n") && MarkersPlaced(out, IsHeadingLine, HeadingMarker)
  {
    var lines := Split(text, "\n");
    SplitCharPieces(text, '\n');
    assert forall k :: 0 <= k < |lines| ==> '\n' !in lines[k] by {
      forall k | 0 <= k < |lines| ensures '\n' !in lines[k] { assert lines[k] in lines; }
    }
    forall h ensures '\n' in HeadingMarker(h) {
      MarkerHasLineFeed(Strip(h));
    }
    MarkersRemovable(lines, IsHeadingLine, HeadingMarker);
    MarkersPrecedeHeadings(lines, IsHeadingLine, HeadingMarker);
  }

  // ---------------------------------------------------------------- voices per part

  /** A piece of a line to be spoken, and the voice to speak it in. */
  datatype SpeechRequest = SpeechRequest(text: string, voice: string)

  /** `.replace('"', '').replace('\\', '')`. */
  function CleanForSpeech(t: string): (r: string)
    ensures '"' !in r && '\\' !in r
    ensures forall x :: x in r ==> x in t
  {
    var a := ReplaceChar(t, '"', "");
    ReplaceCharProps(t, '"', "");
    ReplaceCharProps(a, '\\', "");
    ReplaceChar(a, '\\', "")
  }

  /** A part that is spoken: its stripped text is neither empty nor punctuation only, under
      the punctuation set as the code writes it. */
  predicate Speakable(seg: Segment) {
    Strip(seg.text) != [] && !IsOnlyPunctuationAsWritten(Strip(seg.text))
  }

  /** The request for a spoken part: its stripped text cleaned of double quotes and
      backslashes, in the narrator's voice for narration and the dialogue voice otherwise. */
  function RequestFor(seg: Segment, narratorVoice: string, dialogueVoice: string): (q: SpeechRequest)
    ensures q.voice == (if seg.segmentType == Narration then narratorVoice else dialogueVoice)
    ensures q.text == CleanForSpeech(Strip(seg.text))
  {
    SpeechRequest(CleanForSpeech(Strip(seg.text)), if seg.segmentType == Narration then narratorVoice else dialogueVoice)
  }

  /** The requests for the parts `spoken` selects, in order. */
  function PartRequests(segs: seq<Segment>, spoken: Segment -> bool, narratorVoice: string, dialogueVoice: string): seq<SpeechRequest> {
    if segs == [] then []
    else
      var s := segs[|segs| - 1];
      PartRequests(segs[..|segs| - 1], spoken, narratorVoice, dialogueVoice)
      + (if spoken(s) then [RequestFor(s, narratorVoice, dialogueVoice)] else [])
  }

  /** The part selection of `generate_line_audio_with_voices`: `None` for an empty or
      punctuation-only line, otherwise what is sent to speech synthesis, part by part. */
  method SelectLineParts(line: string, narratorVoice: string, dialogueVoice: string)
    returns (r: Option<seq<SpeechRequest>>)
    ensures (line == [] || IsOnlyPunctuationAsWritten(line)) ==> r == None
    ensures !(line == [] || IsOnlyPunctuationAsWritten(line)) ==>
      r == Some(PartRequests(Annotated(DialogueSplit(line)), Speakable, narratorVoice, dialogueVoice))
  {
    if line == [] || IsOnlyPunctuationAsWritten(line) {
      return None;
    }
    var parts := SplitAndAnnotateText(line);
    var requests := SelectParts(parts, narratorVoice, dialogueVoice);
    return Some(requests);
  }

  /** The loop over the annotated parts: the requests for the spoken ones, in order. */
  method SelectParts(parts: seq<Segment>, narratorVoice: string, dialogueVoice: string)
    returns (requests: seq<SpeechRequest>)
    ensures requests == PartRequests(parts, Speakable, narratorVoice, dialogueVoice)
  {
    requests := [];
    var i := 0;
    assert parts[..i] == [];
    while i < |parts|
      invariant 0 <= i <= |parts|
      invariant requests == PartRequests(parts[..i], Speakable, narratorVoice, dialogueVoice)
    {
      var request := SelectPart(parts[i], narratorVoice, dialogueVoice);
      SpeakablePush(parts, i, narratorVoice, dialogueVoice);
      if request.Some? {
        requests := requests + [request.value];
      }
      i := i + 1;
    }
    assert parts[..i] == parts;
  }

  /** One turn of the loop over the parts: the request for a spoken part, nothing for a
      part that is empty or punctuation only once stripped. */
  method SelectPart(part: Segment, narratorVoice: string, dialogueVoice: string) returns (q: Option<SpeechRequest>)
    ensures q == if Speakable(part) then Some(RequestFor(part, narratorVoice, dialogueVoice)) else None
  {
    var textToSpeak := Strip(part.text);
    if textToSpeak == [] || IsOnlyPunctuationAsWritten(textToSpeak) {
      return None;
    }
    var voice := if part.segmentType == Narration then narratorVoice else dialogueVoice;
    textToSpeak := CleanForSpeech(textToSpeak);
    return Some(SpeechRequest(textToSpeak, voice));
  }

  lemma SpeakablePush(parts: seq<Segment>, i: nat, narratorVoice: string, dialogueVoice: string)
    requires i < |parts|
    ensures PartRequests(parts[..i + 1], Speakable, narratorVoice, dialogueVoice)
      == PartRequests(parts[..i], Speakable, narratorVoice, dialogueVoice)
         + (if Speakable(parts[i]) then [RequestFor(parts[i], narratorVoice, dialogueVoice)] else [])
  {
    PartRequestsPush(parts, i, Speakable, narratorVoice, dialogueVoice);
  }

  /** A spoken text has no double quote or backslash left, and still holds a character
      that is neither whitespace nor punctuation. */
  lemma RequestTextSpeakable(seg: Segment, narratorVoice: string, dialogueVoice: string)
    requires Speakable(seg)
    ensures var q := RequestFor(seg, narratorVoice, dialogueVoice);
      '"' !in q.text && '\\' !in q.text && HasSpokenChar(q.text)
  {
    var t := Strip(seg.text);
    OnlyPunctuationMeaning(t, ExtendedPunctuationAsWritten);
    var x :| x in t && !(IsSpace(x) || x in ExtendedPunctuationAsWritten);
    assert x != '"' && x != '\\';
    ReplaceCharProps(t, '"', "");
    var a := ReplaceChar(t, '"', "");
    KeptByReplace(t, '"', "", x);
    KeptByReplace(a, '\\', "", x);
  }

  /** A character other than the replaced one survives the replacement. */
  lemma {:induction false} KeptByReplace(s: string, c: char, r: string, x: char)
    requires x in s && x != c
    ensures x in ReplaceChar(s, c, r)
    decreases |s|
  {
    if s[0] == x {
      assert ReplaceChar(s, c, r) == [x] + ReplaceChar(s[1..], c, r);
    } else {
      assert x in s[1..];
      KeptByReplace(s[1..], c, r, x);
      assert ReplaceChar(s, c, r) == (if s[0] == c then r else [s[0]]) + ReplaceChar(s[1..], c, r);
    }
  }

  lemma PartRequestsStep(segs: seq<Segment>, spoken: Segment -> bool, narratorVoice: string, dialogueVoice: string)
    requires segs != []
    ensures var s := segs[|segs| - 1];
      PartRequests(segs, spoken, narratorVoice, dialogueVoice)
      == PartRequests(segs[..|segs| - 1], spoken, narratorVoice, dialogueVoice)
         + (if spoken(s) then [RequestFor(s, narratorVoice, dialogueVoice)] else [])
  {
  }

  lemma PartRequestsPush(parts: seq<Segment>, i: nat, spoken: Segment -> bool, narratorVoice: string, dialogueVoice: string)
    requires i < |parts|
    ensures PartRequests(parts[..i + 1], spoken, narratorVoice, dialogueVoice)
      == PartRequests(parts[..i], spoken, narratorVoice, dialogueVoice)
         + (if spoken(parts[i]) then [RequestFor(parts[i], narratorVoice, dialogueVoice)] else [])
  {
    assert parts[..i + 1][..i] == parts[..i];
    PartRequestsStep(parts[..i + 1], spoken, narratorVoice, dialogueVoice);
  }

  /** `q` is the request for one of the parts among `segs` that `spoken` selects. */
  predicate FromPart(q: SpeechRequest, segs: seq<Segment>, spoken: Segment -> bool, narratorVoice: string, dialogueVoice: string) {
    exists j :: 0 <= j < |segs| && spoken(segs[j]) && q == RequestFor(segs[j], narratorVoice, dialogueVoice)
  }

  lemma FromPartExtends(q: SpeechRequest, segs: seq<Segment>, s: Segment, spoken: Segment -> bool, narratorVoice: string, dialogueVoice: string)
    requires FromPart(q, segs, spoken, narratorVoice, dialogueVoice)
    ensures FromPart(q, segs + [s], spoken, narratorVoice, dialogueVoice)
  {
    var j :| 0 <= j < |segs| && spoken(segs[j]) && q == RequestFor(segs[j], narratorVoice, dialogueVoice);
    assert (segs + [s])[j] == segs[j];
  }

  /** Each request comes from one selected part, with that part's voice, and there are no
      more requests than parts. */
  lemma {:induction false} RequestsFromParts(segs: seq<Segment>, spoken: Segment -> bool, narratorVoice: string, dialogueVoice: string)
    ensures var qs := PartRequests(segs, spoken, narratorVoice, dialogueVoice);
      |qs| <= |segs| && forall k :: 0 <= k < |qs| ==> FromPart(qs[k], segs, spoken, narratorVoice, dialogueVoice)
  {
    if segs != [] {
      var init := segs[..|segs| - 1];
      var last := segs[|segs| - 1];
      assert segs == init + [last];
      RequestsFromParts(init, spoken, narratorVoice, dialogueVoice);
      PartRequestsStep(segs, spoken, narratorVoice, dialogueVoice);
      var qs := PartRequests(segs, spoken, narratorVoice, dialogueVoice);
      var before := PartRequests(init, spoken, narratorVoice, dialogueVoice);
      forall k | 0 <= k < |qs| ensures FromPart(qs[k], segs, spoken, narratorVoice, dialogueVoice) {
        if k < |before| {
          assert qs[k] == before[k];
          FromPartExtends(before[k], init, last, spoken, narratorVoice, dialogueVoice);
        } else {
          assert qs[k] == RequestFor(last, narratorVoice, dialogueVoice);
          assert segs[|segs| - 1] == last;
        }
      }
    }
  }

  /** Something left to say: a character that is neither whitespace nor punctuation. */
  predicate HasSpokenChar(t: string) {
    exists x :: x in t && !IsSpace(x) && x !in ExtendedPunctuationAsWritten
  }

  /** The requests for a list of parts: each speaks one spoken part in the voice of its
      type, with double quotes and backslashes removed and something left to say. */
  lemma RequestsShape(segs: seq<Segment>, narratorVoice: string, dialogueVoice: string)
    ensures forall q :: q in PartRequests(segs, Speakable, narratorVoice, dialogueVoice) ==>
        FromPart(q, segs, Speakable, narratorVoice, dialogueVoice)
        && '"' !in q.text && '\\' !in q.text && HasSpokenChar(q.text)
  {
    var qs := PartRequests(segs, Speakable, narratorVoice, dialogueVoice);
    RequestsFromParts(segs, Speakable, narratorVoice, dialogueVoice);
    forall q | q in qs
      ensures FromPart(q, segs, Speakable, narratorVoice, dialogueVoice)
        && '"' !in q.text && '\\' !in q.text && HasSpokenChar(q.text)
    {
      var k :| 0 <= k < |qs| && qs[k] == q;
      assert FromPart(q, segs, Speakable, narratorVoice, dialogueVoice);
      var j :| 0 <= j < |segs| && Speakable(segs[j]) && q == RequestFor(segs[j], narratorVoice, dialogueVoice);
      RequestTextSpeakable(segs[j], narratorVoice, dialogueVoice);
    }
  }

  /** The requests for a line: each speaks one spoken part of the line in the voice of its
      type, with double quotes and backslashes removed and something left to say. */
  lemma LineRequestsShape(line: string, narratorVoice: string, dialogueVoice: string)
    ensures var segs := Annotated(DialogueSplit(line));
      forall q :: q in PartRequests(segs, Speakable, narratorVoice, dialogueVoice) ==>
        FromPart(q, segs, Speakable, narratorVoice, dialogueVoice)
        && '"' !in q.text && '\\' !in q.text && HasSpokenChar(q.text)
  {
    RequestsShape(Annotated(DialogueSplit(line)), narratorVoice, dialogueVoice);
  }

  /** A line without a double quote is one narration part, spoken as it is when it is
      unpadded and not punctuation only. */
  lemma UnquotedLineParts(line: string, narratorVoice: string, dialogueVoice: string)
    requires line != [] && '"' !in line && '\\' !in line
    requires !IsSpace(line[0]) && !IsSpace(line[|line| - 1]) && !IsOnlyPunctuationAsWritten(line)
    ensures PartRequests(Annotated(DialogueSplit(line)), Speakable, narratorVoice, dialogueVoice)
      == [SpeechRequest(line, narratorVoice)]
  {
    UnquotedLineSegments(line);
    StripNoop(line);
    UnquotedLineClean(line);
    assert [Annotate(line)][..0] == [];
    PartRequestsStep([Annotate(line)], Speakable, narratorVoice, dialogueVoice);
  }

  /** A line without a double quote is one segment, not dialogue. */
  lemma UnquotedLineSegments(line: string)
    requires line != [] && '"' !in line
    ensures Annotated(DialogueSplit(line)) == [Annotate(line)]
    ensures !StartsWith(line, "\"")
  {
    NoQuoteNoMatch(line, 0);
    assert DialogueSplit(line) == [line];
    assert [line][..0] == [];
  }

  /** Cleaning a line without double quotes and backslashes leaves it as it is. */
  lemma UnquotedLineClean(line: string)
    requires '"' !in line && '\\' !in line
    ensures CleanForSpeech(line) == line
  {
    ReplaceCharProps(line, '"', "");
    ReplaceCharProps(line, '\\', "");
  }

  lemma {:induction false} NoQuoteNoMatch(s: string, p: nat)
    requires p <= |s| && '"' !in s
    ensures DialogueMatchFrom(s, p) == None
    decreases |s| - p
  {
    if p < |s| {
      assert s[p] in s;
      NoQuoteNoMatch(s, p + 1);
    }
  }

  /** The line of typographic quotes: the code splits it into one narration part and speaks
      it unchanged in the narrator's voice, while under the intended punctuation set the line
      would be skipped as punctuation only. */
  lemma QuotesLineSpoken(narratorVoice: string, dialogueVoice: string)
    ensures var q := "\U{201C}\U{201D}";
      && !IsOnlyPunctuationAsWritten(q)
      && PartRequests(Annotated(DialogueSplit(q)), Speakable, narratorVoice, dialogueVoice)
         == [SpeechRequest(q, narratorVoice)]
      && IsOnlyPunctuation(q)
  {
    var q := "\U{201C}\U{201D}";
    TypographicQuotesOnly();
    assert q[0] == '\U{201C}' && q[1] == '\U{201D}';
    UnquotedLineParts(q, narratorVoice, dialogueVoice);
  }
}
