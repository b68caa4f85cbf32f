/** Text clean-up before speech synthesis: punctuation added where lines lack it, colons
    rewritten, Unicode quotes and dashes normalised, blank lines dropped, unbalanced double
    quotes closed, and text split into dialogue and narration.

    The regular expressions of the Python code are written out as scanning functions that
    follow the engine's leftmost, backtracking semantics; `\w`, `\s` and `\d` are the
    character predicates of the Strings module. */
module TextPreprocessing {
  import opened Wrappers
  import opened Strings

  // ---------------------------------------------------------------- character classes

  /** `[.!?…]`. */
  predicate IsEndPunct(c: char) {
    c == '.' || c == '!' || c == '?' || c == '\U{2026}'
  }

  /** `["']`. */
  predicate IsQuote(c: char) {
    c == '"' || c == '\''
  }

  /** `\b` at position `x`: exactly one of the characters around `x` is a word character. */
  predicate Boundary(s: string, x: nat)
    requires x <= |s|
  {
    (x > 0 && IsWordChar(s[x - 1])) != (x < |s| && IsWordChar(s[x]))
  }

  /** Length of the run of `\d` characters starting at `p`. */
  function DigitRun(s: string, p: nat): (n: nat)
    requires p <= |s|
    ensures p + n <= |s|
    ensures forall i :: p <= i < p + n ==> IsDigit(s[i])
    ensures p + n < |s| ==> !IsDigit(s[p + n])
    decreases |s| - p
  {
    if p < |s| && IsDigit(s[p]) then 1 + DigitRun(s, p + 1) else 0
  }

  /** Every character of `t` comes from `s` or from `extra`. */
  predicate CharsFrom(t: string, s: string, extra: set<char>) {
    forall x :: x in t ==> x in s || x in extra
  }

  lemma CharsFromTrans(u: string, t: string, s: string, e1: set<char>, e2: set<char>)
    requires CharsFrom(u, t, e1) && CharsFrom(t, s, e2)
    ensures CharsFrom(u, s, e1 + e2)
  {
  }

  lemma CharsFromConcat(a: string, b: string, s: string, extra: set<char>)
    requires CharsFrom(a, s, extra) && CharsFrom(b, s, extra)
    ensures CharsFrom(a + b, s, extra)
  {
  }

  lemma CharsFromSlice(s: string, i: nat, j: nat)
    requires i <= j <= |s|
    ensures CharsFrom(s[i..j], s, {})
  {
    forall x | x in s[i..j] ensures x in s {
      var k :| 0 <= k < j - i && s[i..j][k] == x;
      assert s[i + k] == x;
    }
  }

  lemma StripCharsFrom(s: string)
    ensures CharsFrom(Strip(s), s, {})
  {
    forall x | x in Strip(s) ensures x in s {
      StripChars(s, x);
    }
  }

  // ---------------------------------------------------------------- colon conflicts

  /** `AM|PM|am|pm` at position `r`. */
  predicate AmPmAt(s: string, r: nat) {
    r + 2 <= |s| && s[r..r + 2] in ["AM", "PM", "am", "pm"]
  }

  /** A match of `\b(\d{1,2}):(\d{2})\s*(AM|PM|am|pm)?\b` starting at `p`: where it ends and
      what `\1.\2 \3` replaces it with. Backtracking is resolved by hand: the hour takes
      two digits only when a colon follows them; `\s*` keeps its whole run when the
      suffix or a word character follows it, and otherwise gives it all back, where the
      digit before it supplies the final `\b`. */
  function TimeMatchAt(s: string, p: nat): (m: Option<(nat, string)>)
    requires p < |s|
    ensures m.Some? ==> p + 4 <= m.value.0 <= |s|
  {
    if !(IsDigit(s[p]) && (p == 0 || !IsWordChar(s[p - 1]))) then None
    else
      var n1 := if p + 1 < |s| && IsDigit(s[p + 1]) then 2 else 1;
      var c := p + n1;
      if !(c + 2 < |s| && s[c] == ':' && IsDigit(s[c + 1]) && IsDigit(s[c + 2])) then None
      else
        var q := c + 3;
        var hour := s[p..c];
        var minutes := s[c + 1..q];
        var w := SpaceRun(s, q);
        var r := q + w;
        if AmPmAt(s, r) && Boundary(s, r + 2) then Some((r + 2, hour + "." + minutes + " " + s[r..r + 2]))
        else if Boundary(s, r) then Some((r, hour + "." + minutes + " "))
        else if w > 0 then Some((q, hour + "." + minutes + " "))
        else None
  }

  /** `re.sub(time_pattern, r'\1.\2 \3', s)`, scanning from `p`. */
  function TimeSubFrom(s: string, p: nat): string
    requires p <= |s|
    decreases |s| - p
  {
    if p == |s| then []
    else
      match TimeMatchAt(s, p)
      case Some((e, repl)) => repl + TimeSubFrom(s, e)
      case None => [s[p]] + TimeSubFrom(s, p + 1)
  }

  /** A match of `\b(\d+):(\d+)\b` starting at `p`: where it ends and what `\1 a \2`
      replaces it with. */
  function RatioMatchAt(s: string, p: nat): (m: Option<(nat, string)>)
    requires p < |s|
    ensures m.Some? ==> p + 3 <= m.value.0 <= |s|
  {
    if !(IsDigit(s[p]) && (p == 0 || !IsWordChar(s[p - 1]))) then None
    else
      var e1 := p + DigitRun(s, p);
      if !(e1 < |s| && s[e1] == ':') then None
      else
        var d2 := DigitRun(s, e1 + 1);
        var e2 := e1 + 1 + d2;
        if d2 > 0 && (e2 == |s| || !IsWordChar(s[e2])) then Some((e2, s[p..e1] + " a " + s[e1 + 1..e2]))
        else None
  }

  /** `re.sub(ratio_pattern, r'\1 a \2', s)`, scanning from `p`. */
  function RatioSubFrom(s: string, p: nat): string
    requires p <= |s|
    decreases |s| - p
  {
    if p == |s| then []
    else
      match RatioMatchAt(s, p)
      case Some((e, repl)) => repl + RatioSubFrom(s, e)
      case None => [s[p]] + RatioSubFrom(s, p + 1)
  }

  /** `re.sub(r'\s+', ' ', s)`. */
  function CollapseSpaces(s: string): (t: string)
    ensures t == [] <==> s == []
    ensures s != [] ==> (IsSpace(t[0]) <==> IsSpace(s[0]))
    decreases |s|
  {
    if s == [] then []
    else if IsSpace(s[0]) then " " + CollapseSpaces(s[SpaceRun(s, 0)..])
    else [s[0]] + CollapseSpaces(s[1..])
  }

  /** Every whitespace character of `t` is a plain space. */
  predicate PlainSpaces(t: string) {
    forall i :: 0 <= i < |t| && IsSpace(t[i]) ==> t[i] == ' '
  }

  /** No two whitespace characters of `t` are adjacent. */
  ghost predicate SingleSpaces(t: string) {
    forall i, j :: 0 <= i && j == i + 1 && j < |t| ==> !(IsSpace(t[i]) && IsSpace(t[j]))
  }

  /** After collapsing, every whitespace character is a space and no two are adjacent. */
  lemma {:induction false} CollapseSpacesShape(s: string)
    ensures PlainSpaces(CollapseSpaces(s)) && SingleSpaces(CollapseSpaces(s))
    decreases |s|
  {
    if s != [] {
      var t := CollapseSpaces(s);
      var n := if IsSpace(s[0]) then SpaceRun(s, 0) else 1;
      var u := CollapseSpaces(s[n..]);
      CollapseSpacesShape(s[n..]);
      assert t == [t[0]] + u;
      assert IsSpace(t[0]) <==> IsSpace(s[0]);
      assert IsSpace(s[0]) ==> t[0] == ' ' && (u == [] || !IsSpace(u[0]));
      forall i | 0 <= i < |t| && IsSpace(t[i]) ensures t[i] == ' ' {
        if i > 0 {
          assert t[i] == u[i - 1];
        }
      }
      forall i, j | 0 <= i && j == i + 1 && j < |t| ensures !(IsSpace(t[i]) && IsSpace(t[j])) {
        assert t[j] == u[j - 1];
        if i > 0 {
          assert t[i] == u[i - 1];
        }
      }
    }
  }

  lemma {:induction false} CollapseSpacesChars(s: string)
    ensures CharsFrom(CollapseSpaces(s), s, {' '})
    decreases |s|
  {
    if s != [] {
      if IsSpace(s[0]) {
        var n := SpaceRun(s, 0);
        CollapseSpacesChars(s[n..]);
        CharsFromSlice(s, n, |s|);
      } else {
        CollapseSpacesChars(s[1..]);
        CharsFromSlice(s, 1, |s|);
      }
    }
  }

  lemma {:induction false} TimeSubChars(s: string, p: nat)
    requires p <= |s|
    ensures CharsFrom(TimeSubFrom(s, p), s, {'.', ' '})
    decreases |s| - p
  {
    if p < |s| {
      match TimeMatchAt(s, p)
      case Some((e, repl)) =>
        TimeSubChars(s, e);
        TimeReplacementChars(s, p);
      case None =>
        TimeSubChars(s, p + 1);
    }
  }

  lemma TimeReplacementChars(s: string, p: nat)
    requires p < |s| && TimeMatchAt(s, p).Some?
    ensures CharsFrom(TimeMatchAt(s, p).value.1, s, {'.', ' '})
  {
    var n1 := if p + 1 < |s| && IsDigit(s[p + 1]) then 2 else 1;
    var c := p + n1;
    var q := c + 3;
    var r := q + SpaceRun(s, q);
    CharsFromSlice(s, p, c);
    CharsFromSlice(s, c + 1, q);
    if r + 2 <= |s| {
      CharsFromSlice(s, r, r + 2);
    }
  }

  lemma {:induction false} RatioSubChars(s: string, p: nat)
    requires p <= |s|
    ensures CharsFrom(RatioSubFrom(s, p), s, {' ', 'a'})
    decreases |s| - p
  {
    if p < |s| {
      match RatioMatchAt(s, p)
      case Some((e, repl)) =>
        RatioSubChars(s, e);
        var e1 := p + DigitRun(s, p);
        CharsFromSlice(s, p, e1);
        CharsFromSlice(s, e1 + 1, e);
      case None =>
        RatioSubChars(s, p + 1);
    }
  }

  /** `_resolve_colon_conflicts`: times "h:mm" become "h.mm", ratios "a:b" become "a a b",
      every other colon becomes " -", and whitespace runs collapse to one space. */
  function ResolveColonConflicts(line: string): string {
    var timed := Strip(TimeSubFrom(line, 0));
    var ratios := RatioSubFrom(timed, 0);
    var dashed := ReplaceChar(ratios, ':', " -");
    Strip(CollapseSpaces(dashed))
  }

  /** The colon rewriting leaves no colon and adds no characters other than the ones its
      replacements write. */
  lemma ResolvedLineChars(line: string)
    ensures ':' !in ResolveColonConflicts(line)
    ensures CharsFrom(ResolveColonConflicts(line), line, {'.', ' ', 'a', '-'})
  {
    var t0 := TimeSubFrom(line, 0);
    var timed := Strip(t0);
    var ratios := RatioSubFrom(timed, 0);
    var dashed := ReplaceChar(ratios, ':', " -");
    var collapsed := CollapseSpaces(dashed);
    TimeSubChars(line, 0);
    StripCharsFrom(t0);
    RatioSubChars(timed, 0);
    ReplaceCharProps(ratios, ':', " -");
    CollapseSpacesChars(dashed);
    StripCharsFrom(collapsed);
    assert CharsFrom(timed, line, {'.', ' '});
    assert CharsFrom(ratios, line, {'.', ' ', 'a'});
    assert CharsFrom(dashed, line, {'.', ' ', 'a', '-'});
    assert CharsFrom(collapsed, line, {'.', ' ', 'a', '-'});
  }

  /** The rewritten line has no surrounding whitespace and its only whitespace characters
      are spaces. */
  lemma ResolvedLineSpacing(line: string)
    ensures Strip(ResolveColonConflicts(line)) == ResolveColonConflicts(line)
    ensures PlainSpaces(ResolveColonConflicts(line)) && SingleSpaces(ResolveColonConflicts(line))
  {
    var timed := Strip(TimeSubFrom(line, 0));
    var ratios := RatioSubFrom(timed, 0);
    var dashed := ReplaceChar(ratios, ':', " -");
    var collapsed := CollapseSpaces(dashed);
    StripIdempotent(collapsed);
    CollapseSpacesShape(dashed);
    StripKeepsSpacing(collapsed);
  }

  /** Stripping keeps plain and single spacing: it only cuts the string's two ends. */
  lemma StripKeepsSpacing(c: string)
    requires PlainSpaces(c) && SingleSpaces(c)
    ensures PlainSpaces(Strip(c)) && SingleSpaces(Strip(c))
  {
    var r := Strip(c);
    StripIndex(c);
    var k := StripStart(c);
    forall i | 0 <= i < |r| && IsSpace(r[i]) ensures r[i] == ' ' {
      assert r[i] == c[k + i];
    }
    forall i, j | 0 <= i && j == i + 1 && j < |r| ensures !(IsSpace(r[i]) && IsSpace(r[j])) {
      assert r[i] == c[k + i] && r[j] == c[k + j];
    }
  }

  // ---------------------------------------------------------------- quotes and dialogue

  /** `re.sub(r'(["\'])([.!?…])', r'\2\1', s)`: every quote directly followed by a
      sentence-ending mark trades places with it, scanning left to right. */
  function MovePunctuationInsideQuotes(s: string): (r: string)
    ensures |r| == |s| && multiset(r) == multiset(s)
    decreases |s|
  {
    if |s| >= 2 && IsQuote(s[0]) && IsEndPunct(s[1]) then
      assert s == [s[0], s[1]] + s[2..];
      [s[1], s[0]] + MovePunctuationInsideQuotes(s[2..])
    else if s == [] then []
    else
      assert s == [s[0]] + s[1..];
      [s[0]] + MovePunctuationInsideQuotes(s[1..])
  }

  /** A line in which no quote is followed by a sentence-ending mark is left as it is. */
  lemma {:induction false} MoveInsideNoop(s: string)
    requires forall i :: 0 <= i < |s| - 1 ==> !(IsQuote(s[i]) && IsEndPunct(s[i + 1]))
    ensures MovePunctuationInsideQuotes(s) == s
    decreases |s|
  {
    if s != [] {
      MoveInsideNoop(s[1..]);
    }
  }

  /** The documented example: `"Hola".` becomes `"Hola."`. */
  lemma MoveInsideExamples()
    ensures MovePunctuationInsideQuotes("\"Hola\".") == "\"Hola.\""
  {
    var a := "\"Hola";
    assert a + ['"', '.'] == "\"Hola\"." && a + ['.', '"'] == "\"Hola.\"";
    MoveInsideTail(a, '.');
    MoveInsideQuotedWord(a);
  }

  /** An opening quote then letters: nothing to move. */
  lemma MoveInsideQuotedWord(a: string)
    requires a == "\"Hola"
    ensures MovePunctuationInsideQuotes(a) == a && !IsQuote(a[|a| - 1])
  {
    assert |a| == 5 && a[1] == 'H' && a[2] == 'o' && a[3] == 'l' && a[4] == 'a';
    MoveInsideNoop(a);
  }

  lemma MoveStepPair(s: string)
    requires |s| >= 2 && IsQuote(s[0]) && IsEndPunct(s[1])
    ensures MovePunctuationInsideQuotes(s) == [s[1], s[0]] + MovePunctuationInsideQuotes(s[2..])
  {
  }

  lemma MoveStepOne(s: string)
    requires s != [] && !(|s| >= 2 && IsQuote(s[0]) && IsEndPunct(s[1]))
    ensures MovePunctuationInsideQuotes(s) == [s[0]] + MovePunctuationInsideQuotes(s[1..])
  {
  }

  /** A quote and then a mark at the end of a line are swapped; the text before them is
      treated as it would be on its own when its last character is not a quote. */
  lemma {:induction false} MoveInsideTail(s: string, m: char)
    requires IsEndPunct(m) && (s == [] || !IsQuote(s[|s| - 1]))
    ensures MovePunctuationInsideQuotes(s + ['"', m]) == MovePunctuationInsideQuotes(s) + [m, '"']
    decreases |s|
  {
    var t := s + ['"', m];
    if s == [] {
      assert t == ['"', m] && t[2..] == [];
      MoveStepPair(t);
    } else if |s| >= 2 && IsQuote(s[0]) && IsEndPunct(s[1]) {
      assert t[0] == s[0] && t[1] == s[1];
      assert t[2..] == s[2..] + ['"', m];
      MoveInsideTail(s[2..], m);
      MoveStepPair(t);
      MoveStepPair(s);
      AppendAssoc([s[1], s[0]], MovePunctuationInsideQuotes(s[2..]), [m, '"']);
    } else {
      assert t[0] == s[0];
      assert |s| >= 2 ==> t[1] == s[1];
      assert |s| == 1 ==> t[1] == '"';
      assert t[1..] == s[1..] + ['"', m];
      MoveInsideTail(s[1..], m);
      MoveStepOne(t);
      MoveStepOne(s);
      AppendAssoc([s[0]], MovePunctuationInsideQuotes(s[1..]), [m, '"']);
    }
  }

  lemma AppendAssoc(a: string, b: string, c: string)
    ensures (a + b) + c == a + (b + c)
  {
  }

  /** `[.!?…]\s*` matches ending at `e`. */
  predicate EndMarkThenSpaces(s: string, e: nat)
    requires e <= |s|
  {
    var n := SpaceRunBefore(s, e);
    n < e && IsEndPunct(s[e - n - 1])
  }

  /** `[.!?…]\s*['"]?"$`: a closing double quote after a sentence-ending mark, with
      optional spaces and an optional second quote in between. */
  predicate EndsWithMarkInsideQuote(line: string) {
    |line| >= 2 && line[|line| - 1] == '"'
    && (EndMarkThenSpaces(line, |line| - 1) || (IsQuote(line[|line| - 2]) && EndMarkThenSpaces(line, |line| - 2)))
  }

  /** `['"][.!?…]$`. */
  predicate EndsWithMarkAfterQuote(line: string) {
    |line| >= 2 && IsQuote(line[|line| - 2]) && IsEndPunct(line[|line| - 1])
  }

  /** Length of the run of `\w` characters starting at `p`. */
  function WordRun(s: string, p: nat): (n: nat)
    requires p <= |s|
    ensures p + n <= |s|
    ensures forall i :: p <= i < p + n ==> IsWordChar(s[i])
    ensures p + n < |s| ==> !IsWordChar(s[p + n])
    decreases |s| - p
  {
    if p < |s| && IsWordChar(s[p]) then 1 + WordRun(s, p + 1) else 0
  }

  const SpeechVerbs: seq<string> := [
    "said", "asked", "replied", "whispered", "shouted", "exclaimed", "muttered", "declared",
    "dijo", "pregunt\U{F3}", "respondi\U{F3}", "susurr\U{F3}", "grit\U{F3}", "exclam\U{F3}",
    "murmur\U{F3}", "declar\U{F3}"]

  /** The tail `(verb).*[.!?]$` from position `v`: the verb in any case, then characters
      other than a line feed, then a final `.`, `!` or `?`. */
  predicate VerbThenSentenceEnd(line: string, v: nat, verb: string) {
    v + |verb| < |line| && StartsWithIgnoreCase(line[v..], verb)
    && '\n' !in line[v + |verb|..|line| - 1]
    && line[|line| - 1] in ".!?"
  }

  /** `",?\s+\w+\s+(said|asked|…).*[.!?]$` with IGNORECASE, matched from the double quote
      at `i`. The comma, both space runs and the word are each determined: no shorter run
      lets the rest match. */
  predicate AttributionAt(line: string, i: nat) {
    i < |line| && line[i] == '"'
    && var a := if i + 1 < |line| && line[i + 1] == ',' then i + 2 else i + 1;
    var s1 := SpaceRun(line, a);
    s1 > 0
    && var w := WordRun(line, a + s1);
    w > 0
    && var s2 := SpaceRun(line, a + s1 + w);
    s2 > 0
    && exists k :: 0 <= k < |SpeechVerbs| && VerbThenSentenceEnd(line, a + s1 + w + s2, SpeechVerbs[k])
  }

  /** `_ends_with_punctuated_dialogue`: one of its three patterns is found. */
  predicate EndsWithPunctuatedDialogue(line: string) {
    EndsWithMarkInsideQuote(line) || EndsWithMarkAfterQuote(line)
    || exists i :: 0 <= i < |line| && AttributionAt(line, i)
  }

  /** Each way of ending in punctuated dialogue leaves a quote or a sentence-ending mark as
      the last character. */
  lemma PunctuatedDialogueEnding(line: string)
    requires EndsWithPunctuatedDialogue(line)
    ensures line != [] && (line[|line| - 1] == '"' || IsEndPunct(line[|line| - 1]))
  {
  }

  /** `_is_unpunctuated_dialogue`: `[^.!?…]["']$`. */
  predicate IsUnpunctuatedDialogue(line: string) {
    |line| >= 2 && IsQuote(line[|line| - 1]) && !IsEndPunct(line[|line| - 2])
  }

  /** `_add_punctuation_inside_dialogue`: a full stop goes in before the closing quote of
      unpunctuated dialogue; any other line is unchanged. */
  function AddPunctuationInsideDialogue(line: string): (r: string)
    ensures IsUnpunctuatedDialogue(line) ==>
      |r| == |line| + 1 && r[|r| - 2] == '.' && r[|r| - 1] == line[|line| - 1]
      && r[..|r| - 2] + [r[|r| - 1]] == line && !IsUnpunctuatedDialogue(r)
    ensures !IsUnpunctuatedDialogue(line) ==> r == line
  {
    if IsUnpunctuatedDialogue(line) then
      var n := |line|;
      assert line == line[..n - 1] + [line[n - 1]];
      line[..n - 1] + "." + [line[n - 1]]
    else line
  }

  /** The example of the docstring: `"Hola"` becomes `"Hola."`. */
  lemma AddPunctuationExample()
    ensures AddPunctuationInsideDialogue("\"Hola\"") == "\"Hola.\""
  {
  }

  // ---------------------------------------------------------------- skipped lines and headings

  const Abbreviations: seq<string> := [
    "Mr", "Mrs", "Ms", "Dr", "Prof", "Sr", "Jr", "Inc", "Ltd", "Co", "etc", "vs", "vol", "no", "pp"]

  /** `\b<abbrev>\.$` with IGNORECASE: the line ends with the abbreviation and a full stop,
      and no word character comes right before it. */
  predicate EndsWithAbbreviation(line: string, abbrev: string) {
    |abbrev| + 1 <= |line| && line[|line| - 1] == '.'
    && Lower(line[|line| - 1 - |abbrev|..|line| - 1]) == Lower(abbrev)
    && (|line| == |abbrev| + 1 || !IsWordChar(line[|line| - 2 - |abbrev|]))
  }

  /** `_should_skip_punctuation`: very short lines and lines ending in an abbreviation. */
  predicate ShouldSkipPunctuation(line: string) {
    |Strip(line)| <= 2 || exists k :: 0 <= k < |Abbreviations| && EndsWithAbbreviation(line, Abbreviations[k])
  }

  const HeadingWords: seq<string> := ["Chapter", "Cap\U{ED}tulo", "Part", "Parte"]

  /** `^<word>\s+\d+` with IGNORECASE. */
  predicate HeadingWithNumber(line: string, word: string) {
    StartsWithIgnoreCase(line, word)
    && var n := SpaceRun(line, |word|);
    n > 0 && |word| + n < |line| && IsDigit(line[|word| + n])
  }

  const CommonWords: seq<string> := [
    "the", "and", "or", "but", "in", "on", "at", "to", "for", "of", "with", "by",
    "el", "la", "los", "las", "un", "una", "y", "o", "pero", "en", "a", "de", "con", "por"]

  /** `_is_title_or_heading`: the first line, a "Chapter 3" or "Capítulo 3" style heading,
      or a later line of at most six words containing none of the common words, even as a
      substring. */
  predicate IsTitleOrHeading(line: string, lineIndex: nat) {
    lineIndex == 0
    || (exists k :: 0 <= k < |HeadingWords| && HeadingWithNumber(line, HeadingWords[k]))
    || (|Words(line)| <= 6 && !(exists k :: 0 <= k < |CommonWords| && Contains(Lower(line), CommonWords[k])))
  }

  // ---------------------------------------------------------------- one line, one text

  /** `line.endswith(('.', '!', '?', ':', ';', '…'))`. */
  predicate EndsWithTerminal(line: string) {
    line != [] && (line[|line| - 1] in ".!?:;" || line[|line| - 1] == '\U{2026}')
  }

  /** How a line that is neither blank nor skipped is finished once its colons are
      resolved and its punctuation moved inside quotes. */
  function FinishLine(l: string, lineIndex: nat): string {
    if EndsWithPunctuatedDialogue(l) then l
    else if IsUnpunctuatedDialogue(l) then AddPunctuationInsideDialogue(l)
    else if EndsWithTerminal(l) then l
    else if IsTitleOrHeading(l, lineIndex) then l + "."
    else if EndsWith(l, ",") then l
    else l + "."
  }

  /** The body of the loop of `preprocess_text_for_tts` for the line at `lineIndex`. */
  function ProcessLine(raw: string, lineIndex: nat): string {
    var line := Strip(raw);
    if line == [] || ShouldSkipPunctuation(line) then line
    else FinishLine(MovePunctuationInsideQuotes(ResolveColonConflicts(line)), lineIndex)
  }

  /** The characters a processed line may end with when punctuation was not skipped. */
  predicate SpokenEnding(c: char) {
    c in ".!?;,\"'" || c == '\U{2026}'
  }

  /** A finished line is never empty, gains at most a full stop, keeps out a colon the
      line did not have, and ends in a mark a speech engine pauses on. */
  lemma FinishLineShape(l: string, lineIndex: nat)
    ensures FinishLine(l, lineIndex) != []
    ensures CharsFrom(FinishLine(l, lineIndex), l, {'.'})
    ensures ':' !in l ==> SpokenEnding(FinishLine(l, lineIndex)[|FinishLine(l, lineIndex)| - 1])
  {
    if EndsWithPunctuatedDialogue(l) {
      PunctuatedDialogueEnding(l);
    } else if IsUnpunctuatedDialogue(l) {
      var r := AddPunctuationInsideDialogue(l);
      assert r == l[..|l| - 1] + "." + [l[|l| - 1]];
      assert CharsFrom(l[..|l| - 1], l, {}) by { CharsFromSlice(l, 0, |l| - 1); }
    } else if EndsWithTerminal(l) {
      assert l[|l| - 1] in l;
    }
  }

  /** What `preprocess_text_for_tts` promises for one line: blank lines come out empty and
      every other line comes out non-empty; short and abbreviated lines are only stripped;
      every other line loses its colons and ends in a mark a speech engine pauses on; and
      the line count is kept (see `ProcessLineChars`). */
  lemma ProcessLineShape(raw: string, lineIndex: nat)
    ensures ProcessLine(raw, lineIndex) == [] <==> Strip(raw) == []
    ensures ShouldSkipPunctuation(Strip(raw)) ==> ProcessLine(raw, lineIndex) == Strip(raw)
    ensures Strip(raw) != [] && !ShouldSkipPunctuation(Strip(raw)) ==>
      ':' !in ProcessLine(raw, lineIndex) && SpokenEnding(ProcessLine(raw, lineIndex)[|ProcessLine(raw, lineIndex)| - 1])
  {
    var line := Strip(raw);
    if line != [] && !ShouldSkipPunctuation(line) {
      var resolved := ResolveColonConflicts(line);
      var l := MovePunctuationInsideQuotes(resolved);
      ResolvedLineChars(line);
      MultisetChars(l, resolved);
      FinishLineShape(l, lineIndex);
    }
  }

  /** A processed line holds only the raw line's characters and the ones the rewriting
      writes. */
  lemma ProcessLineChars(raw: string, lineIndex: nat)
    ensures CharsFrom(ProcessLine(raw, lineIndex), raw, {'.', ' ', 'a', '-'})
  {
    var line := Strip(raw);
    StripCharsFrom(raw);
    if line != [] && !ShouldSkipPunctuation(line) {
      var resolved := ResolveColonConflicts(line);
      var l := MovePunctuationInsideQuotes(resolved);
      ResolvedLineChars(line);
      MultisetChars(l, resolved);
      FinishLineShape(l, lineIndex);
      assert CharsFrom(l, raw, {'.', ' ', 'a', '-'});
    }
  }

  /** Strings with the same characters counted with multiplicity have the same characters. */
  lemma MultisetChars(t: string, s: string)
    requires multiset(t) == multiset(s)
    ensures forall x :: x in t <==> x in s
  {
    forall x ensures x in t <==> x in s {
      assert x in t <==> x in multiset(t);
      assert x in s <==> x in multiset(s);
    }
  }

  /** Every line of the text, processed with its index. */
  function ProcessedLines(lines: seq<string>): (r: seq<string>)
    ensures |r| == |lines|
  {
    seq(|lines|, i requires 0 <= i < |lines| => ProcessLine(lines[i], i))
  }

  /** The prefix of length `i + 1` extends the prefix of length `i` by one element. */
  lemma PrefixStep<T>(all: seq<T>, i: nat)
    requires i < |all|
    ensures all[..i + 1] == all[..i] + [all[i]]
  {
  }

  /** `preprocess_text_for_tts`. */
  method PreprocessTextForTts(text: string) returns (r: string)
    ensures r == Join(ProcessedLines(Split(text, "\n")), "\n")
  {
    var lines := Split(text, "\n");
    var processed: seq<string> := [];
    var i := 0;
    while i < |lines|
      invariant 0 <= i <= |lines|
      invariant processed == ProcessedLines(lines)[..i]
    {
      PrefixStep(ProcessedLines(lines), i);
      processed := processed + [ProcessLine(lines[i], i)];
      i := i + 1;
    }
    assert processed == ProcessedLines(lines);
    r := Join(processed, "\n");
  }

  lemma NoLineFeedAdded(raw: string, lineIndex: nat)
    requires '\n' !in raw
    ensures '\n' !in ProcessLine(raw, lineIndex)
  {
    var p := ProcessLine(raw, lineIndex);
    ProcessLineChars(raw, lineIndex);
    var extra: set<char> := {'.', ' ', 'a', '-'};
    assert '\n' !in extra;
    assert '\n' in p ==> '\n' in raw || '\n' in extra;
  }

  /** Processing introduces no line feed. */
  lemma ProcessedLinesNoLineFeed(lines: seq<string>)
    requires forall k :: 0 <= k < |lines| ==> '\n' !in lines[k]
    ensures forall k :: 0 <= k < |lines| ==> '\n' !in ProcessedLines(lines)[k]
  {
    forall k | 0 <= k < |lines| ensures '\n' !in ProcessedLines(lines)[k] {
      assert ProcessedLines(lines)[k] == ProcessLine(lines[k], k);
      NoLineFeedAdded(lines[k], k);
    }
  }

  /** The processed text has exactly the lines of the input, each processed in place. */
  lemma PreprocessKeepsLines(text: string)
    ensures Split(Join(ProcessedLines(Split(text, "\n")), "\n"), "\n") == ProcessedLines(Split(text, "\n"))
    ensures |Split(Join(ProcessedLines(Split(text, "\n")), "\n"), "\n")| == |Split(text, "\n")|
  {
    var lines := Split(text, "\n");
    SplitCharPieces(text, '\n');
    assert forall k :: 0 <= k < |lines| ==> '\n' !in lines[k] by {
      forall k | 0 <= k < |lines| ensures '\n' !in lines[k] {
        assert lines[k] in lines;
      }
    }
    ProcessedLinesNoLineFeed(lines);
    SplitJoinChar(ProcessedLines(lines), '\n');
  }

  // ---------------------------------------------------------------- Unicode normalisation

  /** The `replacements` dictionary of `normalize_unicode_characters`, in insertion order. */
  const UnicodeReplacements: seq<(char, string)> := [
    ('\U{201C}', "\""), ('\U{201D}', "\""), ('\U{2019}', "'"), ('\U{2018}', "'"),
    ('\U{2014}', "-"), ('\U{2013}', "-"), ('\U{2026}', "..."), ('\U{A0}', " ")]

  /** The text after the first `k` replacements, each `text.replace` applied in turn. */
  function ReplacedUpTo(text: string, k: nat): string
    requires k <= |UnicodeReplacements|
  {
    if k == 0 then text
    else ReplaceChar(ReplacedUpTo(text, k - 1), UnicodeReplacements[k - 1].0, UnicodeReplacements[k - 1].1)
  }

  /** `normalize_unicode_characters`. */
  method NormalizeUnicodeCharacters(text: string) returns (r: string)
    ensures r == ReplacedUpTo(text, |UnicodeReplacements|)
  {
    r := text;
    var k := 0;
    while k < |UnicodeReplacements|
      invariant 0 <= k <= |UnicodeReplacements|
      invariant r == ReplacedUpTo(text, k)
    {
      var (special, replacement) := UnicodeReplacements[k];
      r := ReplaceChar(r, special, replacement);
      k := k + 1;
    }
  }

  /** One of the eight characters the normalisation replaces. */
  predicate IsSpecial(c: char) {
    c == '\U{201C}' || c == '\U{201D}' || c == '\U{2019}' || c == '\U{2018}'
    || c == '\U{2014}' || c == '\U{2013}' || c == '\U{2026}' || c == '\U{A0}'
  }

  /** The ASCII equivalent of one character. */
  function NormalChar(c: char): string {
    if c == '\U{201C}' || c == '\U{201D}' then "\""
    else if c == '\U{2019}' || c == '\U{2018}' then "'"
    else if c == '\U{2014}' || c == '\U{2013}' then "-"
    else if c == '\U{2026}' then "..."
    else if c == '\U{A0}' then " "
    else [c]
  }

  /** The reference definition: every character replaced by its ASCII equivalent. */
  function NormalizedChars(s: string): string {
    if s == [] then [] else NormalChar(s[0]) + NormalizedChars(s[1..])
  }

  /** The replacements distribute over concatenation. */
  lemma {:induction false} ReplacedUpToConcat(a: string, b: string, k: nat)
    requires k <= |UnicodeReplacements|
    ensures ReplacedUpTo(a + b, k) == ReplacedUpTo(a, k) + ReplacedUpTo(b, k)
  {
    if k > 0 {
      ReplacedUpToConcat(a, b, k - 1);
      ReplaceCharConcat(ReplacedUpTo(a, k - 1), ReplacedUpTo(b, k - 1),
        UnicodeReplacements[k - 1].0, UnicodeReplacements[k - 1].1);
    }
  }

  /** Replacements of characters a string does not contain leave it unchanged. */
  lemma {:induction false} ReplacedUpToAbsent(t: string, lo: nat, hi: nat, s: string)
    requires lo <= hi <= |UnicodeReplacements|
    requires ReplacedUpTo(s, lo) == t
    requires forall j :: lo <= j < hi ==> UnicodeReplacements[j].0 !in t
    ensures ReplacedUpTo(s, hi) == t
    decreases hi - lo
  {
    if lo < hi {
      ReplaceCharProps(t, UnicodeReplacements[lo].0, UnicodeReplacements[lo].1);
      ReplacedUpToAbsent(t, lo + 1, hi, s);
    }
  }

  /** On a single character the eight replacements give its ASCII equivalent. */
  lemma ReplacedOneChar(c: char)
    ensures ReplacedUpTo([c], |UnicodeReplacements|) == NormalChar(c)
  {
    var n := |UnicodeReplacements|;
    if !IsSpecial(c) {
      ReplacedUpToAbsent([c], 0, n, [c]);
    } else {
      var j := if c == '\U{201C}' then 0 else if c == '\U{201D}' then 1 else if c == '\U{2019}' then 2
        else if c == '\U{2018}' then 3 else if c == '\U{2014}' then 4 else if c == '\U{2013}' then 5
        else if c == '\U{2026}' then 6 else 7;
      assert UnicodeReplacements[j].0 == c;
      ReplacedUpToAbsent([c], 0, j, [c]);
      var img := UnicodeReplacements[j].1;
      assert ReplacedUpTo([c], j + 1) == img by {
        assert ReplaceChar([c], c, img) == img + ReplaceChar([], c, img);
      }
      ReplacedUpToAbsent(img, j + 1, n, [c]);
    }
  }

  /** The loop of `normalize_unicode_characters` computes the reference definition. */
  lemma {:induction false} NormalizeUnicodeMeaning(s: string)
    ensures ReplacedUpTo(s, |UnicodeReplacements|) == NormalizedChars(s)
    decreases |s|
  {
    if s != [] {
      var n := |UnicodeReplacements|;
      assert s == [s[0]] + s[1..];
      ReplacedUpToConcat([s[0]], s[1..], n);
      ReplacedOneChar(s[0]);
      NormalizeUnicodeMeaning(s[1..]);
      calc {
        ReplacedUpTo(s, n);
        ReplacedUpTo([s[0]] + s[1..], n);
        ReplacedUpTo([s[0]], n) + ReplacedUpTo(s[1..], n);
        NormalChar(s[0]) + NormalizedChars(s[1..]);
        NormalizedChars(s);
      }
    } else {
      ReplacedUpToAbsent(s, 0, |UnicodeReplacements|, s);
    }
  }

  /** No special character survives, and normalising twice is normalising once. */
  lemma {:induction false} NormalizedPlain(s: string)
    ensures forall i :: 0 <= i < |NormalizedChars(s)| ==> !IsSpecial(NormalizedChars(s)[i])
    ensures NormalizedChars(NormalizedChars(s)) == NormalizedChars(s)
    decreases |s|
  {
    if s != [] {
      NormalizedPlain(s[1..]);
      var img := NormalChar(s[0]);
      var rest := NormalizedChars(s[1..]);
      NormalCharPlain(s[0]);
      assert NormalizedChars(s) == img + rest;
      PlainConcat(img, rest);
      NormalizedAppend(img, rest);
      PlainUnchanged(img);
    }
  }

  lemma NormalCharPlain(c: char)
    ensures forall i :: 0 <= i < |NormalChar(c)| ==> !IsSpecial(NormalChar(c)[i])
  {
  }

  lemma PlainConcat(a: string, b: string)
    requires forall i :: 0 <= i < |a| ==> !IsSpecial(a[i])
    requires forall i :: 0 <= i < |b| ==> !IsSpecial(b[i])
    ensures forall i :: 0 <= i < |a + b| ==> !IsSpecial((a + b)[i])
  {
  }

  lemma {:induction false} NormalizedAppend(a: string, b: string)
    ensures NormalizedChars(a + b) == NormalizedChars(a) + NormalizedChars(b)
    decreases |a|
  {
    if a != [] {
      assert (a + b)[0] == a[0];
      assert (a + b)[1..] == a[1..] + b;
      NormalizedAppend(a[1..], b);
    } else {
      assert a + b == b;
    }
  }

  /** A string without special characters is already normal. */
  lemma {:induction false} PlainUnchanged(t: string)
    requires forall i :: 0 <= i < |t| ==> !IsSpecial(t[i])
    ensures NormalizedChars(t) == t
    decreases |t|
  {
    if t != [] {
      PlainUnchanged(t[1..]);
    }
  }

  // ---------------------------------------------------------------- line breaks and quotes

  /** `[line.strip() for line in lines if line.strip()]`. */
  function NonBlankStripped(lines: seq<string>): seq<string> {
    if lines == [] then []
    else
      var t := Strip(lines[0]);
      (if t == [] then [] else [t]) + NonBlankStripped(lines[1..])
  }

  /** Stripping keeps a line free of line boundaries. */
  lemma StripOneLine(l: string)
    requires OneLine(l)
    ensures OneLine(Strip(l))
  {
    var t := Strip(l);
    StripIndex(l);
    forall i | 0 <= i < |t| ensures !IsLineBoundary(t[i]) {
      assert t[i] == l[StripStart(l) + i];
    }
  }

  /** Every kept line is non-empty and stripped, and one line when the input lines are. */
  lemma {:induction false} NonBlankStrippedShape(lines: seq<string>)
    requires forall k :: 0 <= k < |lines| ==> OneLine(lines[k])
    ensures forall l :: l in NonBlankStripped(lines) ==> l != [] && Strip(l) == l && OneLine(l)
  {
    if lines != [] {
      StripOneLine(lines[0]);
      StripIdempotent(lines[0]);
      NonBlankStrippedShape(lines[1..]);
    }
  }

  /** `normalize_line_breaks`: the stripped non-blank lines, one per line. */
  function NormalizeLineBreaks(text: string): string {
    Join(NonBlankStripped(SplitLines(text)), "\n")
  }

  /** The result's lines are the input's stripped non-blank lines, and normalising it again
      changes nothing. */
  lemma NormalizeLineBreaksShape(text: string)
    ensures SplitLines(NormalizeLineBreaks(text)) == NonBlankStripped(SplitLines(text))
    ensures NormalizeLineBreaks(NormalizeLineBreaks(text)) == NormalizeLineBreaks(text)
  {
    var ls := NonBlankStripped(SplitLines(text));
    NonBlankStrippedShape(SplitLines(text));
    assert forall k :: 0 <= k < |ls| ==> ls[k] != [] && Strip(ls[k]) == ls[k] && OneLine(ls[k]) by {
      forall k | 0 <= k < |ls| ensures ls[k] != [] && Strip(ls[k]) == ls[k] && OneLine(ls[k]) {
        assert ls[k] in ls;
      }
    }
    SplitLinesJoin(ls);
    NonBlankStrippedNoop(ls);
  }

  lemma {:induction false} NonBlankStrippedNoop(ls: seq<string>)
    requires forall k :: 0 <= k < |ls| ==> ls[k] != [] && Strip(ls[k]) == ls[k]
    ensures NonBlankStripped(ls) == ls
  {
    if ls != [] {
      NonBlankStrippedNoop(ls[1..]);
      assert ls == [ls[0]] + ls[1..];
    }
  }

  /** The body of the loop of `fix_unterminated_quotes` for a non-blank line: an odd number
      of double quotes gets one more, at the front when the line ends with one and at the
      back otherwise. */
  function FixQuotes(line: string): (r: string)
    ensures CountChar(r, '"') % 2 == 0
    ensures CountChar(line, '"') % 2 == 0 ==> r == line
    ensures CountChar(line, '"') % 2 == 1 ==> r == "\"" + line || r == line + "\""
  {
    if CountChar(line, '"') % 2 == 0 then line
    else if EndsWith(line, "\"") then "\"" + line
    else line + "\""
  }

  /** The lines `fix_unterminated_quotes` keeps, each fixed. */
  function FixedLines(lines: seq<string>): seq<string> {
    if lines == [] then []
    else
      var l := lines[|lines| - 1];
      FixedLines(lines[..|lines| - 1]) + (if Strip(l) == [] then [] else [FixQuotes(l)])
  }

  lemma FixedLinesStep(lines: seq<string>, i: nat)
    requires i < |lines|
    ensures FixedLines(lines[..i + 1])
            == FixedLines(lines[..i]) + (if Strip(lines[i]) == [] then [] else [FixQuotes(lines[i])])
  {
    assert lines[..i + 1][..i] == lines[..i];
  }

  /** What `fix_unterminated_quotes` returns. */
  function FixedText(text: string): string {
    if text == [] then text else Join(FixedLines(SplitLines(text)), "\n")
  }

  /** `fix_unterminated_quotes`. */
  method FixUnterminatedQuotes(text: string) returns (r: string)
    ensures r == FixedText(text)
  {
    if text == [] {
      return text;
    }
    var fixed := FixLines(SplitLines(text));
    r := Join(fixed, "\n");
  }

  /** The loop of `fix_unterminated_quotes` over the lines of the text. */
  method FixLines(lines: seq<string>) returns (fixed: seq<string>)
    ensures fixed == FixedLines(lines)
  {
    fixed := [];
    var i := 0;
    while i < |lines|
      invariant 0 <= i <= |lines|
      invariant fixed == FixedLines(lines[..i])
    {
      FixedLinesStep(lines, i);
      var line := lines[i];
      if Strip(line) != [] {
        var total := CountChar(line, '"');
        if total % 2 == 0 {
          fixed := fixed + [line];
        } else if EndsWith(line, "\"") {
          fixed := fixed + ["\"" + line];
        } else {
          fixed := fixed + [line + "\""];
        }
      }
      i := i + 1;
    }
    assert lines[..i] == lines;
  }

  /** A line the quote fixing keeps: non-blank, one line, an even number of double quotes. */
  predicate FixedLine(l: string) {
    l != [] && Strip(l) != [] && OneLine(l) && CountChar(l, '"') % 2 == 0
  }

  /** Fixing a non-blank line gives a fixed line. */
  lemma FixQuotesLine(l: string)
    requires Strip(l) != [] && OneLine(l)
    ensures FixedLine(FixQuotes(l))
  {
    var r := FixQuotes(l);
    if CountChar(l, '"') % 2 == 1 {
      var off := if EndsWith(l, "\"") then 1 else 0;
      assert forall j :: 0 <= j < |l| ==> r[off + j] == l[j];
      Embedded(r, l, off);
    }
  }

  /** A line holding a non-blank one-line part and one extra double quote is non-blank and
      one line. */
  lemma Embedded(r: string, l: string, off: nat)
    requires Strip(l) != [] && OneLine(l)
    requires |r| == |l| + 1 && off <= 1 && forall j :: 0 <= j < |l| ==> r[off + j] == l[j]
    requires r[if off == 0 then |l| else 0] == '"'
    ensures Strip(r) != [] && OneLine(r)
  {
    EmbeddedNonBlank(r, l, off);
    EmbeddedOneLine(r, l, off);
  }

  lemma EmbeddedNonBlank(r: string, l: string, off: nat)
    requires Strip(l) != []
    requires off + |l| <= |r| && forall j :: 0 <= j < |l| ==> r[off + j] == l[j]
    ensures Strip(r) != []
  {
    StripEmptyIff(l);
    var i :| 0 <= i < |l| && !IsSpace(l[i]);
    NotAllSpace(r, off + i);
  }

  lemma EmbeddedOneLine(r: string, l: string, off: nat)
    requires OneLine(l)
    requires |r| == |l| + 1 && off <= 1 && forall j :: 0 <= j < |l| ==> r[off + j] == l[j]
    requires r[if off == 0 then |l| else 0] == '"'
    ensures OneLine(r)
  {
    forall j | 0 <= j < |r| ensures !IsLineBoundary(r[j]) {
      if off <= j < off + |l| {
        assert r[j] == l[j - off];
      }
    }
  }

  lemma NotAllSpace(r: string, i: nat)
    requires i < |r| && !IsSpace(r[i])
    ensures Strip(r) != []
  {
    StripEmptyIff(r);
  }

  lemma {:induction false} FixedLinesShape(lines: seq<string>)
    requires forall k :: 0 <= k < |lines| ==> OneLine(lines[k])
    ensures forall l :: l in FixedLines(lines) ==> FixedLine(l)
  {
    if lines != [] {
      var l := lines[|lines| - 1];
      FixedLinesShape(lines[..|lines| - 1]);
      if Strip(l) != [] {
        FixQuotesLine(l);
      }
    }
  }

  /** Fixing the kept lines again keeps them all and changes none. */
  lemma {:induction false} FixedLinesIdempotent(lines: seq<string>)
    ensures FixedLines(FixedLines(lines)) == FixedLines(lines)
  {
    if lines != [] {
      var init := lines[..|lines| - 1];
      var last := lines[|lines| - 1];
      assert lines == init + [last];
      FixedLinesSnoc(init, last);
      FixedLinesIdempotent(init);
      var a := FixedLines(init);
      if Strip(last) != [] {
        FixQuotesKept(last);
        FixedLinesSnoc(a, FixQuotes(last));
      } else {
        assert a + [] == a;
      }
    }
  }

  /** The lines kept from `a + [l]`: those kept from `a`, then `l` fixed unless it is blank. */
  lemma FixedLinesSnoc(a: seq<string>, l: string)
    ensures FixedLines(a + [l]) == FixedLines(a) + (if Strip(l) == [] then [] else [FixQuotes(l)])
  {
    assert (a + [l])[..|a|] == a;
  }

  /** A fixed non-blank line is non-blank and fixing it again changes nothing. */
  lemma FixQuotesKept(l: string)
    requires Strip(l) != []
    ensures Strip(FixQuotes(l)) != [] && FixQuotes(FixQuotes(l)) == FixQuotes(l)
  {
    var r := FixQuotes(l);
    if CountChar(l, '"') % 2 == 1 {
      var off := if EndsWith(l, "\"") then 1 else 0;
      assert forall j :: 0 <= j < |l| ==> r[off + j] == l[j];
      EmbeddedNonBlank(r, l, off);
    }
  }

  /** Every line of the fixed text is non-blank with an even number of double quotes, and
      fixing it again changes nothing. */
  lemma FixedTextShape(text: string)
    ensures forall l :: l in SplitLines(FixedText(text)) ==> Strip(l) != [] && CountChar(l, '"') % 2 == 0
    ensures FixedText(FixedText(text)) == FixedText(text)
  {
    if text != [] {
      var ls := FixedLines(SplitLines(text));
      FixedLinesShape(SplitLines(text));
      assert forall k :: 0 <= k < |ls| ==> FixedLine(ls[k]) by {
        forall k | 0 <= k < |ls| ensures FixedLine(ls[k]) {
          assert ls[k] in ls;
        }
      }
      SplitLinesJoin(ls);
      FixedLinesIdempotent(SplitLines(text));
      if ls == [] {
        assert FixedText(text) == [];
      }
    }
  }

  // ---------------------------------------------------------------- the whole text

  /** What `preprocess_text_for_tts` returns. */
  function PreprocessedText(text: string): string {
    Join(ProcessedLines(Split(text, "\n")), "\n")
  }

  /** `preprocess_full_text`: Unicode normalisation, line-break normalisation, quote fixing
      and the line-by-line punctuation pass, in that order. */
  method PreprocessFullText(text: string) returns (r: string)
    ensures r == PreprocessedText(FixedText(NormalizeLineBreaks(NormalizedChars(text))))
  {
    var t := NormalizeUnicodeCharacters(text);
    NormalizeUnicodeMeaning(text);
    t := NormalizeLineBreaks(t);
    t := FixUnterminatedQuotes(t);
    r := PreprocessTextForTts(t);
  }

  /** Every line of a fully preprocessed text is non-empty, unless the whole text is empty:
      blank lines are gone before the punctuation pass and a non-blank line stays
      non-empty through it. */
  lemma FullTextLinesNonEmpty(text: string)
    ensures var r := PreprocessedText(FixedText(NormalizeLineBreaks(NormalizedChars(text))));
      r == [] || forall l :: l in Split(r, "\n") ==> l != []
  {
    var n := NormalizeLineBreaks(NormalizedChars(text));
    var f := FixedText(n);
    if f == [] {
      assert Split(f, "\n") == [""];
      assert ProcessedLines([""]) == [ProcessLine("", 0)];
    } else {
      var ls := FixedLines(SplitLines(n));
      FixedLinesShape(SplitLines(n));
      assert f == Join(ls, "\n");
      assert |ls| >= 1;
      forall k | 0 <= k < |ls| ensures '\n' !in ls[k] && Strip(ls[k]) != [] {
        assert ls[k] in ls;
        assert IsLineBoundary('\n');
      }
      SplitJoinChar(ls, '\n');
      var out := ProcessedLines(ls);
      forall k | 0 <= k < |out| ensures out[k] != [] {
        ProcessLineShape(ls[k], k);
      }
      PreprocessKeepsLines(f);
    }
  }

  // ---------------------------------------------------------------- dialogue and narration

  /** The leftmost match of `"[^"]+"` at or after `p`: a double quote, at least one other
      character, and the next double quote. */
  function DialogueMatchFrom(s: string, p: nat): (m: Option<(nat, nat)>)
    requires p <= |s|
    ensures m.Some? ==>
      (p <= m.value.0 && m.value.0 + 3 <= m.value.1 <= |s|
       && s[m.value.0] == '"' && s[m.value.1 - 1] == '"'
       && forall i :: m.value.0 < i < m.value.1 - 1 ==> s[i] != '"')
    decreases |s| - p
  {
    if p == |s| then None
    else if s[p] == '"' then
      var j := CharIndexFrom(s, '"', p + 1);
      if p + 1 < j < |s| then Some((p, j + 1)) else DialogueMatchFrom(s, p + 1)
    else DialogueMatchFrom(s, p + 1)
  }

  /** `re.split(r'("[^"]+")', s)`: the text between matches alternating with the matches,
      which the capturing group keeps. */
  function DialogueSplit(s: string): (parts: seq<string>)
    ensures |parts| % 2 == 1
    decreases |s|
  {
    match DialogueMatchFrom(s, 0)
    case None => [s]
    case Some((a, b)) => [s[..a], s[a..b]] + DialogueSplit(s[b..])
  }

  /** The pieces of the split put back together give the text. */
  lemma {:induction false} DialogueSplitConcat(s: string)
    ensures Concat(DialogueSplit(s)) == s
    decreases |s|
  {
    match DialogueMatchFrom(s, 0)
    case None =>
      assert Concat([s]) == s + Concat([]);
    case Some((a, b)) =>
      DialogueSplitConcat(s[b..]);
      ConcatPair(s[..a], s[a..b], DialogueSplit(s[b..]));
      SliceConcat(s, a, b);
  }

  lemma ConcatPair(x: string, y: string, rest: seq<string>)
    ensures Concat([x, y] + rest) == x + y + Concat(rest)
  {
    assert ([x, y] + rest)[1..] == [y] + rest;
    assert ([y] + rest)[1..] == rest;
  }

  lemma SliceConcat<T>(s: seq<T>, a: nat, b: nat)
    requires a <= b <= |s|
    ensures s[..a] + s[a..b] + s[b..] == s
  {
  }

  /** Every odd-numbered piece is one quoted passage. */
  lemma {:induction false} DialogueSplitQuoted(s: string)
    ensures forall k :: 0 <= k < |DialogueSplit(s)| && k % 2 == 1 ==> QuotedPassage(DialogueSplit(s)[k])
    decreases |s|
  {
    var m := DialogueMatchFrom(s, 0);
    if m.Some? {
      var (a, b) := m.value;
      DialogueSplitQuoted(s[b..]);
      var rest := DialogueSplit(s[b..]);
      var d := s[a..b];
      assert forall i :: 0 <= i < |d| ==> d[i] == s[a + i];
      assert DialogueSplit(s) == [s[..a], d] + rest;
      forall k | 0 <= k < |DialogueSplit(s)| && k % 2 == 1 ensures QuotedPassage(DialogueSplit(s)[k]) {
        if k >= 2 {
          assert DialogueSplit(s)[k] == rest[k - 2];
        }
      }
    }
  }

  /** A double quote, at least one other character, and a closing double quote. */
  predicate QuotedPassage(d: string) {
    |d| >= 3 && d[0] == '"' && d[|d| - 1] == '"' && forall i :: 0 < i < |d| - 1 ==> d[i] != '"'
  }

  datatype SegmentType = Dialogue | Narration

  /** One entry of the list `split_and_annotate_text` returns. */
  datatype Segment = Segment(text: string, segmentType: SegmentType)

  /** The annotation of one piece: dialogue when it starts and ends with a double quote. */
  function Annotate(part: string): (seg: Segment)
    ensures seg.text == part
    ensures seg.segmentType == Dialogue <==> StartsWith(part, "\"") && EndsWith(part, "\"")
  {
    Segment(part, if StartsWith(part, "\"") && EndsWith(part, "\"") then Dialogue else Narration)
  }

  /** The non-empty pieces, annotated. */
  function Annotated(parts: seq<string>): seq<Segment> {
    if parts == [] then []
    else
      var p := parts[|parts| - 1];
      Annotated(parts[..|parts| - 1]) + (if p == [] then [] else [Annotate(p)])
  }

  /** `split_and_annotate_text`. */
  method SplitAndAnnotateText(text: string) returns (segments: seq<Segment>)
    ensures segments == Annotated(DialogueSplit(text))
  {
    var parts := DialogueSplit(text);
    segments := [];
    var i := 0;
    while i < |parts|
      invariant 0 <= i <= |parts|
      invariant segments == Annotated(parts[..i])
    {
      assert parts[..i + 1][..i] == parts[..i];
      var part := parts[i];
      if part != [] {
        var kind := if StartsWith(part, "\"") && EndsWith(part, "\"") then Dialogue else Narration;
        segments := segments + [Segment(part, kind)];
      }
      i := i + 1;
    }
    assert parts[..i] == parts;
  }

  /** The texts of a list of segments, in order. */
  function Texts(segments: seq<Segment>): seq<string> {
    seq(|segments|, i requires 0 <= i < |segments| => segments[i].text)
  }

  /** Dropping the empty pieces loses nothing: the segments spell out the pieces. */
  lemma {:induction false} AnnotatedConcat(parts: seq<string>)
    ensures Concat(Texts(Annotated(parts))) == Concat(parts)
  {
    if parts != [] {
      var init := parts[..|parts| - 1];
      var p := parts[|parts| - 1];
      AnnotatedConcat(init);
      assert parts == init + [p];
      ConcatAppend(init, p);
      var a := Annotated(init);
      if p != [] {
        assert Texts(a + [Annotate(p)]) == Texts(a) + [p];
        ConcatAppend(Texts(a), p);
      } else {
        assert a + [] == a;
      }
    }
  }

  /** Every segment is non-empty. */
  lemma {:induction false} AnnotatedNonEmpty(parts: seq<string>)
    ensures forall k :: 0 <= k < |Annotated(parts)| ==> Annotated(parts)[k].text != []
  {
    if parts != [] {
      AnnotatedNonEmpty(parts[..|parts| - 1]);
    }
  }

  /** `split_and_annotate_text` loses no text: its segments, concatenated, are the text. */
  lemma SegmentsSpellText(text: string)
    ensures Concat(Texts(Annotated(DialogueSplit(text)))) == text
  {
    AnnotatedConcat(DialogueSplit(text));
    DialogueSplitConcat(text);
  }

  // ---------------------------------------------------------------- punctuation-only lines

  /** `string.punctuation`. */
  const AsciiPunctuation: set<char> := {'!', '"', '#', '$', '%', '&', '\'', '(', ')', '*', '+', ',', '-', '.', '/', ':', ';', '<', '=', '>', '?', '@', '[', '\\', ']', '^', '_', '`', '{', '|', '}', '~'}

  /** `extended_punctuation` as the source writes it: the literal `'—–""''…‚„‹›«»‰‱'` is
      two adjacent literals, `'—–""'` and `'…‚„‹›«»‰‱'`, so its only quote characters are
      two ASCII `"`, which `string.punctuation` already holds, and the typographic quotes
      are missing. */
  const ExtendedPunctuationAsWritten: set<char> := AsciiPunctuation
    + {'\U{2014}', '\U{2013}', '"', '"', '\U{2026}', '\U{201A}', '\U{201E}', '\U{2039}', '\U{203A}',
       '\U{AB}', '\U{BB}', '\U{2030}', '\U{2031}'}

  /** The intended set: the typographic double and single quotes added. */
  const ExtendedPunctuation: set<char> := ExtendedPunctuationAsWritten + {'\U{201C}', '\U{201D}', '\U{2018}', '\U{2019}'}

  /** `''.join(char for char in s if char not in punct)`. */
  function RemoveChars(s: string, punct: set<char>): (r: string)
    ensures forall x :: x in r <==> x in s && x !in punct
  {
    if s == [] then []
    else
      assert forall x :: x in s <==> x == s[0] || x in s[1..] by {
        assert s == [s[0]] + s[1..];
      }
      (if s[0] in punct then [] else [s[0]]) + RemoveChars(s[1..], punct)
  }

  /** The body of `is_only_punctuation` with a given punctuation set. */
  predicate OnlyPunctuationWith(text: string, punct: set<char>) {
    var cleaned := Strip(text);
    cleaned == [] || Strip(RemoveChars(cleaned, punct)) == []
  }

  /** `is_only_punctuation` as written. */
  predicate IsOnlyPunctuationAsWritten(text: string) {
    OnlyPunctuationWith(text, ExtendedPunctuationAsWritten)
  }

  /** `is_only_punctuation` with the intended set, which holds the typographic quotes. */
  predicate IsOnlyPunctuation(text: string) {
    OnlyPunctuationWith(text, ExtendedPunctuation)
  }

  /** Every character of `s` is whitespace or in `punct`. */
  predicate AllSpaceOrIn(s: string, punct: set<char>) {
    forall x :: x in s ==> IsSpace(x) || x in punct
  }

  /** Stripping does not change whether every character is whitespace or punctuation. */
  lemma StripAllSpaceOrIn(s: string, punct: set<char>)
    ensures AllSpaceOrIn(Strip(s), punct) <==> AllSpaceOrIn(s, punct)
  {
    var t := Strip(s);
    var k := StripStart(s);
    StripIndex(s);
    if AllSpaceOrIn(s, punct) {
      forall x | x in t ensures IsSpace(x) || x in punct {
        StripChars(s, x);
      }
    }
    if AllSpaceOrIn(t, punct) {
      forall x | x in s ensures IsSpace(x) || x in punct {
        var i :| 0 <= i < |s| && s[i] == x;
        if k <= i < k + |t| {
          assert t[i - k] == x;
        } else {
          StripOutside(s);
        }
      }
    }
  }

  /** A string strips to nothing exactly when all its characters are whitespace. */
  lemma StripEmptyAll(s: string)
    ensures Strip(s) == [] <==> forall x :: x in s ==> IsSpace(x)
  {
    StripEmptyIff(s);
  }

  /** A line is "only punctuation" exactly when each of its characters is whitespace or in
      the set. */
  lemma OnlyPunctuationMeaning(text: string, punct: set<char>)
    ensures OnlyPunctuationWith(text, punct) <==> AllSpaceOrIn(text, punct)
  {
    var cleaned := Strip(text);
    var kept := RemoveChars(cleaned, punct);
    StripEmptyAll(cleaned);
    StripEmptyAll(kept);
    StripAllSpaceOrIn(text, punct);
    assert (forall x :: x in kept ==> IsSpace(x)) <==> AllSpaceOrIn(cleaned, punct);
  }

  /** The finding: a line of typographic quotes, which books use for dialogue, is not
      recognised as punctuation by the set as written, and is by the intended one. */
  lemma TypographicQuotesOnly()
    ensures !IsOnlyPunctuationAsWritten("\U{201C}\U{201D}")
    ensures IsOnlyPunctuation("\U{201C}\U{201D}")
  {
    var q := "\U{201C}\U{201D}";
    QuotesNotInWrittenSet(q);
    OnlyPunctuationMeaning(q, ExtendedPunctuationAsWritten);
    QuotesInIntendedSet(q);
    OnlyPunctuationMeaning(q, ExtendedPunctuation);
  }

  lemma QuotesNotInWrittenSet(q: string)
    requires q == "\U{201C}\U{201D}"
    ensures !AllSpaceOrIn(q, ExtendedPunctuationAsWritten)
  {
    assert '\U{201C}' !in ExtendedPunctuationAsWritten;
    assert !IsSpace('\U{201C}');
    assert q[0] in q;
  }

  lemma QuotesInIntendedSet(q: string)
    requires q == "\U{201C}\U{201D}"
    ensures AllSpaceOrIn(q, ExtendedPunctuation)
  {
    forall x | x in q ensures IsSpace(x) || x in ExtendedPunctuation {
      assert x == '\U{201C}' || x == '\U{201D}';
    }
  }
}
