/** The formatter between the agents and the audiobook side: the per-chapter merge of the
    two drafts, the sentence packer that splits paragraphs into lines for speech, and the
    plain text the audiobook creator reads. */
module ContentFormatter {
  import opened Wrappers
  import opened Strings
  import opened Json
  import opened AgentState

  // ================================================================ splitting a paragraph

  /** The marks `_split_paragraph_for_tts` accepts at the end of a sentence. */
  predicate IsFinalMark(c: char) {
    c == '.' || c == '!' || c == '?'
  }

  /** A sentence as the splitter keeps it: non-empty, not starting with whitespace, and
      ending in `.`, `!` or `?`. */
  predicate Finished(s: string) {
    s != [] && !IsSpace(s[0]) && IsFinalMark(s[|s| - 1])
  }

  predicate AllFinished(ss: seq<string>) {
    forall k :: 0 <= k < |ss| ==> Finished(ss[k])
  }

  /** A full stop added to a sentence that ends in none of the final marks. */
  function Completed(s: string): (r: string)
    requires s != []
  {
    if IsFinalMark(s[|s| - 1]) then s else s + "."
  }

  /** What one piece of `text.split(". ")` contributes: nothing when it is blank, else
      its strip, completed. */
  function Cleaned(piece: string): seq<string> {
    var s := Strip(piece);
    if s == [] then [] else [Completed(s)]
  }

  /** The sentences the splitter packs, one per non-blank piece, in order. */
  function Sentences(pieces: seq<string>): seq<string> {
    if pieces == [] then []
    else Sentences(pieces[..|pieces| - 1]) + Cleaned(pieces[|pieces| - 1])
  }

  /** A non-blank piece gives one finished sentence. */
  lemma CleanedFinished(piece: string)
    ensures Strip(piece) == [] ==> Cleaned(piece) == []
    ensures Strip(piece) != [] ==> Cleaned(piece) == [Completed(Strip(piece))] && Finished(Completed(Strip(piece)))
  {
  }

  lemma SentencesStep(pieces: seq<string>, i: nat)
    requires i < |pieces|
    ensures Sentences(pieces[..i + 1]) == Sentences(pieces[..i]) + Cleaned(pieces[i])
  {
    assert pieces[..i + 1][..i] == pieces[..i];
  }

  lemma {:induction false} SentencesFinished(pieces: seq<string>)
    ensures AllFinished(Sentences(pieces))
    decreases |pieces|
  {
    if pieces != [] {
      SentencesFinished(pieces[..|pieces| - 1]);
      CleanedFinished(pieces[|pieces| - 1]);
    }
  }

  /** The splitter's lines so far, as groups of sentences: the closed lines and the
      line still being filled. */
  datatype Packing = Packing(groups: seq<seq<string>>, current: seq<string>)

  /** One sentence more: it closes the current line and opens the next one when the
      current line, a space and the sentence would exceed the maximum length. */
  function PackStep(p: Packing, s: string, maxLineLength: int): Packing {
    if p.current != [] && |Join(p.current, " ")| + |s| + 1 > maxLineLength then
      Packing(p.groups + [p.current], [s])
    else
      Packing(p.groups, p.current + [s])
  }

  function Pack(sentences: seq<string>, maxLineLength: int): Packing {
    if sentences == [] then Packing([], [])
    else PackStep(Pack(sentences[..|sentences| - 1], maxLineLength), sentences[|sentences| - 1], maxLineLength)
  }

  lemma PackAppend(sentences: seq<string>, s: string, maxLineLength: int)
    ensures Pack(sentences + [s], maxLineLength) == PackStep(Pack(sentences, maxLineLength), s, maxLineLength)
  {
    assert (sentences + [s])[..|sentences|] == sentences;
  }

  /** The lines of a packing once the last one is closed. */
  function AllGroups(p: Packing): seq<seq<string>> {
    if p.current == [] then p.groups else p.groups + [p.current]
  }

  function JoinEach(groups: seq<seq<string>>): (r: seq<string>)
    ensures |r| == |groups|
    ensures forall k :: 0 <= k < |groups| ==> r[k] == Join(groups[k], " ")
  {
    seq(|groups|, k requires 0 <= k < |groups| => Join(groups[k], " "))
  }

  /** The sentence groups of the lines `_split_paragraph_for_tts(text, maxLineLength)` returns. */
  function TtsGroups(text: string, maxLineLength: int): seq<seq<string>> {
    AllGroups(Pack(Sentences(Split(text, ". ")), maxLineLength))
  }

  /** The lines `_split_paragraph_for_tts(text, maxLineLength)` returns: each group's
      sentences joined by single spaces. */
  function TtsLines(text: string, maxLineLength: int): seq<string> {
    JoinEach(TtsGroups(text, maxLineLength))
  }

  /** Finished sentences joined by spaces make a finished line, which is its own strip. */
  lemma {:induction false} JoinFinished(g: seq<string>)
    requires g != [] && AllFinished(g)
    ensures Finished(Join(g, " ")) && Strip(Join(g, " ")) == Join(g, " ")
    decreases |g|
  {
    var j := Join(g, " ");
    if |g| > 1 {
      JoinFinished(g[1..]);
      assert j == g[0] + " " + Join(g[1..], " ");
      assert j[0] == g[0][0];
      assert j[|j| - 1] == Join(g[1..], " ")[|Join(g[1..], " ")| - 1];
    }
    StripNoop(j);
  }

  /** The strings the splitter holds stand for a packing: the closed lines joined, and
      the current line joined. */
  predicate PackedAs(lines: seq<string>, currentLine: string, p: Packing) {
    lines == JoinEach(p.groups) && currentLine == Join(p.current, " ") && AllFinished(p.current)
  }

  /** The loop body of the splitter on one finished sentence does to its strings what
      `PackStep` does to the packing. */
  lemma PackedStep(lines: seq<string>, currentLine: string, p: Packing, s: string, maxLineLength: int)
    requires PackedAs(lines, currentLine, p) && Finished(s)
    ensures currentLine != [] <==> p.current != []
    ensures currentLine != [] && |currentLine| + |s| + 1 > maxLineLength ==>
      PackedAs(lines + [Strip(currentLine)], s, PackStep(p, s, maxLineLength))
    ensures currentLine != [] && |currentLine| + |s| + 1 <= maxLineLength ==>
      PackedAs(lines, currentLine + " " + s, PackStep(p, s, maxLineLength))
    ensures currentLine == [] ==> PackedAs(lines, s, PackStep(p, s, maxLineLength))
  {
    if p.current != [] {
      JoinFinished(p.current);
      JoinAppend(p.current, s, " ");
      assert JoinEach(p.groups + [p.current]) == JoinEach(p.groups) + [Join(p.current, " ")];
    } else {
      assert p.current + [s] == [s];
    }
  }

  /** One pass of the splitter's loop, on the `i`-th piece: a blank piece changes
      nothing, any other one is completed and packed as `PackStep` says. */
  lemma SplitStep(pieces: seq<string>, i: nat, maxLineLength: int)
    requires i < |pieces|
    ensures Strip(pieces[i]) == [] ==>
      Pack(Sentences(pieces[..i]), maxLineLength) == Pack(Sentences(pieces[..i + 1]), maxLineLength)
    ensures Strip(pieces[i]) != [] ==>
      var s := Completed(Strip(pieces[i]));
      Finished(s)
      && PackStep(Pack(Sentences(pieces[..i]), maxLineLength), s, maxLineLength)
         == Pack(Sentences(pieces[..i + 1]), maxLineLength)
  {
    SentencesStep(pieces, i);
    CleanedFinished(pieces[i]);
    if Strip(pieces[i]) != [] {
      PackAppend(Sentences(pieces[..i]), Completed(Strip(pieces[i])), maxLineLength);
    } else {
      assert Sentences(pieces[..i + 1]) == Sentences(pieces[..i]);
    }
  }

  /** Closing the splitter's last line gives the lines of the packing's groups. */
  lemma PackedFinish(lines: seq<string>, currentLine: string, p: Packing)
    requires PackedAs(lines, currentLine, p)
    ensures (if currentLine != [] then lines + [Strip(currentLine)] else lines) == JoinEach(AllGroups(p))
  {
    if p.current != [] {
      JoinFinished(p.current);
      assert JoinEach(p.groups + [p.current]) == JoinEach(p.groups) + [Join(p.current, " ")];
    }
  }

  /** `_split_paragraph_for_tts`. */
  method SplitParagraphForTts(text: string, maxLineLength: int) returns (lines: seq<string>)
    ensures lines == TtsLines(text, maxLineLength)
  {
    var pieces := Split(text, ". ");
    lines := PackPieces(pieces, maxLineLength);
  }

  /** The splitter's loop over the pieces of `text.split(". ")`, and the closing of its
      last line. */
  method PackPieces(pieces: seq<string>, maxLineLength: int) returns (lines: seq<string>)
    ensures lines == JoinEach(AllGroups(Pack(Sentences(pieces), maxLineLength)))
  {
    lines := [];
    var currentLine := "";
    var i := 0;
    assert pieces[..0] == [];
    while i < |pieces|
      invariant 0 <= i <= |pieces|
      invariant PackedAs(lines, currentLine, Pack(Sentences(pieces[..i]), maxLineLength))
    {
      SplitStep(pieces, i, maxLineLength);
      lines, currentLine := PackPiece(lines, currentLine, pieces[i], maxLineLength,
                                      Pack(Sentences(pieces[..i]), maxLineLength),
                                      Pack(Sentences(pieces[..i + 1]), maxLineLength));
      i := i + 1;
    }
    assert pieces[..i] == pieces;
    PackedFinish(lines, currentLine, Pack(Sentences(pieces), maxLineLength));
    if currentLine != [] {
      lines := lines + [Strip(currentLine)];
    }
  }

  /** One pass of the splitter's loop, on one piece: a blank piece is skipped, any other
      is stripped, completed with a full stop when it has no final mark, and packed;
      `p` is the packing before the piece and `q` the one after it. */
  method PackPiece(lines: seq<string>, currentLine: string, piece: string, maxLineLength: int,
                   ghost p: Packing, ghost q: Packing)
    returns (lines': seq<string>, currentLine': string)
    requires PackedAs(lines, currentLine, p)
    requires Strip(piece) == [] ==> q == p
    requires Strip(piece) != [] ==>
      Finished(Completed(Strip(piece))) && q == PackStep(p, Completed(Strip(piece)), maxLineLength)
    ensures PackedAs(lines', currentLine', q)
  {
    lines', currentLine' := lines, currentLine;
    var sentence := Strip(piece);
    if sentence != [] {
      if !IsFinalMark(sentence[|sentence| - 1]) {
        sentence := sentence + ".";
      }
      lines', currentLine' := PackSentence(lines, currentLine, p, sentence, maxLineLength, q);
    }
  }

  /** The body of the splitter's loop for one finished sentence: it closes the current
      line when the sentence does not fit and starts or extends it otherwise, which is
      what `PackStep` does to the packing the strings stand for. */
  method PackSentence(lines: seq<string>, currentLine: string, ghost p: Packing, sentence: string,
                      maxLineLength: int, ghost q: Packing)
    returns (lines': seq<string>, currentLine': string)
    requires PackedAs(lines, currentLine, p) && Finished(sentence)
    requires q == PackStep(p, sentence, maxLineLength)
    ensures PackedAs(lines', currentLine', q)
  {
    PackedStep(lines, currentLine, p, sentence, maxLineLength);
    lines' := lines;
    if currentLine != [] && |currentLine| + |sentence| + 1 > maxLineLength {
      lines' := lines + [Strip(currentLine)];
      currentLine' := sentence;
    } else if currentLine != [] {
      currentLine' := currentLine + " " + sentence;
    } else {
      currentLine' := sentence;
    }
  }

  // ---------------------------------------------------------------- what the packing keeps

  function FlattenGroups(groups: seq<seq<string>>): seq<string> {
    if groups == [] then [] else FlattenGroups(groups[..|groups| - 1]) + groups[|groups| - 1]
  }

  /** The shape of a list of lines as sentence groups: no empty line, every sentence
      finished, every line of two or more sentences within the maximum length, and no
      line that could have taken the first sentence of the next one. */
  predicate WellPacked(groups: seq<seq<string>>, maxLineLength: int) {
    (forall k :: 0 <= k < |groups| ==> groups[k] != [] && AllFinished(groups[k]))
    && (forall k :: 0 <= k < |groups| && |groups[k]| >= 2 ==> |Join(groups[k], " ")| <= maxLineLength)
    && (forall k :: 0 <= k < |groups| - 1 && groups[k + 1] != [] ==>
          |Join(groups[k], " ")| + |groups[k + 1][0]| + 1 > maxLineLength)
  }

  /** What holds of the packing of the first sentences: its lines are well packed and
      hold exactly those sentences, and the current line is empty only before the first. */
  predicate PackedWell(p: Packing, sentences: seq<string>, maxLineLength: int) {
    WellPacked(AllGroups(p), maxLineLength)
    && FlattenGroups(AllGroups(p)) == sentences
    && (p.current == [] <==> sentences == [])
    && (p.current == [] ==> p.groups == [])
  }

  /** A sentence that does not fit closes the current line and opens a new one. */
  lemma PackCloses(p: Packing, sentences: seq<string>, s: string, maxLineLength: int)
    requires PackedWell(p, sentences, maxLineLength) && Finished(s)
    requires p.current != [] && |Join(p.current, " ")| + |s| + 1 > maxLineLength
    ensures PackedWell(PackStep(p, s, maxLineLength), sentences + [s], maxLineLength)
  {
    var g := AllGroups(p);
    var h := g + [[s]];
    assert AllGroups(PackStep(p, s, maxLineLength)) == h;
    assert h[..|g|] == g;
    assert FlattenGroups(h) == sentences + [s];
    forall k | 0 <= k < |h| - 1 && h[k + 1] != []
      ensures |Join(h[k], " ")| + |h[k + 1][0]| + 1 > maxLineLength
    {
      if k < |g| - 1 {
        assert h[k] == g[k] && h[k + 1] == g[k + 1];
      }
    }
  }

  /** Adding a sentence that fits to the last line keeps the lines well packed. */
  lemma GrowsWell(groups: seq<seq<string>>, cur: seq<string>, s: string, maxLineLength: int)
    requires WellPacked(groups + [cur], maxLineLength) && Finished(s)
    requires cur != [] && |Join(cur, " ")| + |s| + 1 <= maxLineLength
    ensures WellPacked(groups + [cur + [s]], maxLineLength)
  {
    var g := groups + [cur];
    var n := |groups|;
    var c := cur + [s];
    var h := groups + [c];
    JoinAppend(cur, s, " ");
    assert g[n] == cur && h[n] == c;
    forall k | 0 <= k < |h|
      ensures h[k] != [] && AllFinished(h[k])
      ensures |h[k]| >= 2 ==> |Join(h[k], " ")| <= maxLineLength
    {
      if k < n {
        assert h[k] == g[k];
      }
    }
    forall k | 0 <= k < |h| - 1 && h[k + 1] != []
      ensures |Join(h[k], " ")| + |h[k + 1][0]| + 1 > maxLineLength
    {
      assert h[k] == g[k];
      if k + 1 < n {
        assert h[k + 1] == g[k + 1];
      } else {
        assert h[k + 1][0] == g[k + 1][0];
      }
    }
  }

  /** A sentence that fits is added to the current line. */
  lemma PackGrows(p: Packing, sentences: seq<string>, s: string, maxLineLength: int)
    requires PackedWell(p, sentences, maxLineLength) && Finished(s)
    requires p.current != [] && |Join(p.current, " ")| + |s| + 1 <= maxLineLength
    ensures PackedWell(PackStep(p, s, maxLineLength), sentences + [s], maxLineLength)
  {
    var n := |p.groups|;
    var c := p.current + [s];
    var h := p.groups + [c];
    assert AllGroups(PackStep(p, s, maxLineLength)) == h;
    assert h[..n] == p.groups && (p.groups + [p.current])[..n] == p.groups;
    assert FlattenGroups(h) == FlattenGroups(p.groups) + c;
    GrowsWell(p.groups, p.current, s, maxLineLength);
  }

  /** Every sentence keeps the packing well packed. */
  lemma PackWell(p: Packing, sentences: seq<string>, s: string, maxLineLength: int)
    requires PackedWell(p, sentences, maxLineLength) && Finished(s)
    ensures PackedWell(PackStep(p, s, maxLineLength), sentences + [s], maxLineLength)
  {
    if p.current == [] {
      assert sentences == [] && p.groups == [];
      assert sentences + [s] == [s];
      assert AllGroups(PackStep(p, s, maxLineLength)) == [[s]];
      assert FlattenGroups([[s]]) == FlattenGroups([]) + [s];
    } else if |Join(p.current, " ")| + |s| + 1 > maxLineLength {
      PackCloses(p, sentences, s, maxLineLength);
    } else {
      PackGrows(p, sentences, s, maxLineLength);
    }
  }

  lemma {:induction false} PackShape(sentences: seq<string>, maxLineLength: int)
    requires AllFinished(sentences)
    ensures PackedWell(Pack(sentences, maxLineLength), sentences, maxLineLength)
    decreases |sentences|
  {
    if sentences != [] {
      var prefix := sentences[..|sentences| - 1];
      var s := sentences[|sentences| - 1];
      assert sentences == prefix + [s];
      PackShape(prefix, maxLineLength);
      PackAppend(prefix, s, maxLineLength);
      PackWell(Pack(prefix, maxLineLength), prefix, s, maxLineLength);
    }
  }

  /** Joining the lines joins the sentences they group. */
  lemma {:induction false} JoinEachFlatten(groups: seq<seq<string>>)
    requires forall k :: 0 <= k < |groups| ==> groups[k] != []
    ensures Join(JoinEach(groups), " ") == Join(FlattenGroups(groups), " ")
    ensures FlattenGroups(groups) == [] <==> groups == []
    decreases |groups|
  {
    if groups != [] {
      var front := groups[..|groups| - 1];
      var last := groups[|groups| - 1];
      JoinEachFlatten(front);
      assert JoinEach(groups) == JoinEach(front) + [Join(last, " ")];
      if front != [] {
        JoinAppend(JoinEach(front), Join(last, " "), " ");
        JoinConcat(FlattenGroups(front), last, " ");
      } else {
        assert FlattenGroups(groups) == last;
      }
    }
  }

  /** Every line is non-empty, has no leading or trailing whitespace, and ends in `.`,
      `!` or `?`. */
  lemma TtsLinesFinished(text: string, maxLineLength: int)
    ensures forall k :: 0 <= k < |TtsLines(text, maxLineLength)| ==>
      Finished(TtsLines(text, maxLineLength)[k])
      && Strip(TtsLines(text, maxLineLength)[k]) == TtsLines(text, maxLineLength)[k]
  {
    var g := TtsGroups(text, maxLineLength);
    SentencesFinished(Split(text, ". "));
    PackShape(Sentences(Split(text, ". ")), maxLineLength);
    forall k | 0 <= k < |g|
      ensures Finished(Join(g[k], " ")) && Strip(Join(g[k], " ")) == Join(g[k], " ")
    {
      JoinFinished(g[k]);
    }
  }

  /** Nothing is lost or reordered: the lines joined by single spaces are the stripped,
      completed, non-blank sentences joined by single spaces; and there are no lines
      exactly when there is no such sentence. */
  lemma TtsLinesKeepSentences(text: string, maxLineLength: int)
    ensures Join(TtsLines(text, maxLineLength), " ") == Join(Sentences(Split(text, ". ")), " ")
    ensures TtsLines(text, maxLineLength) == [] <==> Sentences(Split(text, ". ")) == []
  {
    SentencesFinished(Split(text, ". "));
    PackShape(Sentences(Split(text, ". ")), maxLineLength);
    JoinEachFlatten(TtsGroups(text, maxLineLength));
  }

  /** A line of two or more sentences is within the maximum length, so only a single
      sentence can make a longer line; and each line is as full as it can be, since the
      next line's first sentence would not have fitted. */
  lemma TtsLinesBounded(text: string, maxLineLength: int)
    ensures var g := TtsGroups(text, maxLineLength);
      var lines := TtsLines(text, maxLineLength);
      FlattenGroups(g) == Sentences(Split(text, ". "))
      && (forall k :: 0 <= k < |g| && |g[k]| >= 2 ==> |lines[k]| <= maxLineLength)
      && (forall k :: 0 <= k < |g| - 1 && g[k + 1] != [] ==>
            |lines[k]| + |g[k + 1][0]| + 1 > maxLineLength)
  {
    SentencesFinished(Split(text, ". "));
    PackShape(Sentences(Split(text, ". ")), maxLineLength);
  }

  // ================================================================ ordering chapters

  /** `r` placed into a list ordered by chapter number, after every record whose number
      is not larger. */
  function InsertByNumber(sorted: seq<ChapterRecord>, r: ChapterRecord): seq<ChapterRecord> {
    if sorted != [] && sorted[0].chapterNumber <= r.chapterNumber then
      [sorted[0]] + InsertByNumber(sorted[1..], r)
    else
      [r] + sorted
  }

  /** `sorted(content, key=lambda x: x.get("chapter_number", 0))`. Python's sort is
      stable; an insertion sort that places each record after the equal ones already
      placed is too. */
  function SortByNumber(content: seq<ChapterRecord>): seq<ChapterRecord> {
    if content == [] then []
    else InsertByNumber(SortByNumber(content[..|content| - 1]), content[|content| - 1])
  }

  predicate NumbersAscending(s: seq<ChapterRecord>) {
    forall i, j :: 0 <= i < j < |s| ==> s[i].chapterNumber <= s[j].chapterNumber
  }

  /** The records numbered `n`, in their order. */
  function WithNumber(s: seq<ChapterRecord>, n: int): seq<ChapterRecord> {
    if s == [] then []
    else (if s[0].chapterNumber == n then [s[0]] else []) + WithNumber(s[1..], n)
  }

  lemma {:induction false} WithNumberConcat(a: seq<ChapterRecord>, b: seq<ChapterRecord>, n: int)
    ensures WithNumber(a + b, n) == WithNumber(a, n) + WithNumber(b, n)
    decreases |a|
  {
    if a != [] {
      assert (a + b)[1..] == a[1..] + b;
      WithNumberConcat(a[1..], b, n);
    } else {
      assert a + b == b;
    }
  }

  lemma {:induction false} WithNumberNone(s: seq<ChapterRecord>, n: int)
    requires forall i :: 0 <= i < |s| ==> s[i].chapterNumber != n
    ensures WithNumber(s, n) == []
    decreases |s|
  {
    if s != [] {
      WithNumberNone(s[1..], n);
    }
  }

  lemma InsertCounts(sorted: seq<ChapterRecord>, r: ChapterRecord)
    ensures multiset(InsertByNumber(sorted, r)) == multiset(sorted) + multiset{r}
  {
    if sorted != [] && sorted[0].chapterNumber <= r.chapterNumber {
      InsertCounts(sorted[1..], r);
      assert sorted == [sorted[0]] + sorted[1..];
    }
  }

  /** Inserting keeps the list ordered and adds exactly `r`. */
  lemma {:induction false} InsertOrdered(sorted: seq<ChapterRecord>, r: ChapterRecord)
    requires NumbersAscending(sorted)
    ensures NumbersAscending(InsertByNumber(sorted, r))
    ensures multiset(InsertByNumber(sorted, r)) == multiset(sorted) + multiset{r}
    decreases |sorted|
  {
    InsertCounts(sorted, r);
    var out := InsertByNumber(sorted, r);
    if sorted != [] && sorted[0].chapterNumber <= r.chapterNumber {
      var rest := InsertByNumber(sorted[1..], r);
      InsertOrdered(sorted[1..], r);
      assert out == [sorted[0]] + rest;
      forall j | 0 < j < |out| ensures sorted[0].chapterNumber <= out[j].chapterNumber {
        AfterFirst(sorted, rest, r, j - 1);
      }
    } else {
      assert out == [r] + sorted;
    }
  }

  /** An element of the rest of an insertion is `r` or one of the later records. */
  lemma AfterFirst(sorted: seq<ChapterRecord>, rest: seq<ChapterRecord>, r: ChapterRecord, j: nat)
    requires sorted != [] && NumbersAscending(sorted) && sorted[0].chapterNumber <= r.chapterNumber
    requires multiset(rest) == multiset(sorted[1..]) + multiset{r}
    requires j < |rest|
    ensures sorted[0].chapterNumber <= rest[j].chapterNumber
  {
    assert rest[j] in multiset(rest);
    if rest[j] != r {
      assert rest[j] in multiset(sorted[1..]);
      var m :| 0 <= m < |sorted[1..]| && sorted[1..][m] == rest[j];
      assert rest[j] == sorted[m + 1];
    }
  }

  /** Inserting puts `r` after every record with the same number. */
  lemma {:induction false} InsertStable(sorted: seq<ChapterRecord>, r: ChapterRecord, n: int)
    requires NumbersAscending(sorted)
    ensures WithNumber(InsertByNumber(sorted, r), n) == WithNumber(sorted, n) + WithNumber([r], n)
    decreases |sorted|
  {
    var out := InsertByNumber(sorted, r);
    if sorted != [] && sorted[0].chapterNumber <= r.chapterNumber {
      var rest := InsertByNumber(sorted[1..], r);
      InsertStable(sorted[1..], r, n);
      assert sorted == [sorted[0]] + sorted[1..];
      assert out == [sorted[0]] + rest;
      WithNumberConcat([sorted[0]], rest, n);
      WithNumberConcat([sorted[0]], sorted[1..], n);
    } else {
      assert out == [r] + sorted;
      WithNumberConcat([r], sorted, n);
      if r.chapterNumber == n {
        WithNumberNone(sorted, n);
      }
    }
  }

  /** The sorted chapters are in ascending number order, are the same records, and keep
      the order of records with equal numbers (the sort is stable). */
  lemma {:induction false} SortByNumberSpec(content: seq<ChapterRecord>)
    ensures NumbersAscending(SortByNumber(content))
    ensures multiset(SortByNumber(content)) == multiset(content)
    ensures forall n :: WithNumber(SortByNumber(content), n) == WithNumber(content, n)
    decreases |content|
  {
    if content != [] {
      var prefix := content[..|content| - 1];
      var last := content[|content| - 1];
      assert content == prefix + [last];
      SortByNumberSpec(prefix);
      InsertOrdered(SortByNumber(prefix), last);
      forall n ensures WithNumber(SortByNumber(content), n) == WithNumber(content, n) {
        InsertStable(SortByNumber(prefix), last, n);
        WithNumberConcat(prefix, [last], n);
      }
    }
  }

  // ================================================================ the audiobook text

  /** The line length `format_to_audiobook_text` splits paragraphs to. */
  const DefaultMaxLineLength: int := 100

  /** The word a chapter heading starts with: Spanish exactly when the code is "es". */
  function ChapterPrefix(language: string): string {
    if language == "es" then "Cap\U{ED}tulo" else "Chapter"
  }

  /** The lines `format_to_audiobook_text` takes from a paragraph. */
  function TtsSplit(paragraph: string): seq<string> {
    TtsLines(paragraph, DefaultMaxLineLength)
  }

  /** What one `"\n\n"`-separated paragraph contributes: its split lines and a blank
      line, or nothing when it is blank. The splitter is a parameter, `TtsSplit` in the
      formatter, so that the facts about paragraphs need not look into it. */
  function ParagraphLines(paragraph: string, split: string -> seq<string>): seq<string> {
    if Strip(paragraph) != [] then split(paragraph) + [""] else []
  }

  function ParagraphsLines(paragraphs: seq<string>, split: string -> seq<string>): seq<string> {
    if paragraphs == [] then []
    else ParagraphsLines(paragraphs[..|paragraphs| - 1], split) + ParagraphLines(paragraphs[|paragraphs| - 1], split)
  }

  /** A chapter's heading line, its title line when the title is non-empty, a blank line,
      and its paragraphs. */
  function ChapterLines(ch: ChapterRecord, language: string, split: string -> seq<string>): seq<string> {
    [ChapterPrefix(language) + " " + IntToString(ch.chapterNumber)]
    + (if ch.chapterTitle != [] then [ch.chapterTitle] else [])
    + [""]
    + (if ch.content != [] then ParagraphsLines(Split(ch.content, "\n\n"), split) else [])
  }

  function ChaptersLines(chapters: seq<ChapterRecord>, language: string, split: string -> seq<string>): seq<string> {
    if chapters == [] then []
    else ChaptersLines(chapters[..|chapters| - 1], language, split) + ChapterLines(chapters[|chapters| - 1], language, split)
  }

  lemma ChaptersLinesStep(chapters: seq<ChapterRecord>, c: nat, language: string, split: string -> seq<string>)
    requires c < |chapters|
    ensures ChaptersLines(chapters[..c + 1], language, split)
            == ChaptersLines(chapters[..c], language, split) + ChapterLines(chapters[c], language, split)
  {
    assert chapters[..c + 1][..c] == chapters[..c];
  }

  lemma ParagraphsLinesStep(paragraphs: seq<string>, k: nat, split: string -> seq<string>)
    requires k < |paragraphs|
    ensures ParagraphsLines(paragraphs[..k + 1], split) == ParagraphsLines(paragraphs[..k], split) + ParagraphLines(paragraphs[k], split)
  {
    assert paragraphs[..k + 1][..k] == paragraphs[..k];
  }

  /** The lines the formatter appends for one chapter, heading part first, are that
      chapter's block. */
  lemma ChapterLinesParts(ch: ChapterRecord, language: string, split: string -> seq<string>,
                          before: seq<string>, head: seq<string>, after: seq<string>)
    requires head == before + [ChapterPrefix(language) + " " + IntToString(ch.chapterNumber)]
                           + (if ch.chapterTitle != [] then [ch.chapterTitle] else []) + [""]
    requires ch.content != [] ==> after == head + ParagraphsLines(Split(ch.content, "\n\n"), split)
    requires ch.content == [] ==> after == head
    ensures after == before + ChapterLines(ch, language, split)
  {
    var first := [ChapterPrefix(language) + " " + IntToString(ch.chapterNumber)];
    var title := if ch.chapterTitle != [] then [ch.chapterTitle] else [];
    var body := if ch.content != [] then ParagraphsLines(Split(ch.content, "\n\n"), split) else [];
    Associative(before, first, title, [""], body);
  }

  /** One pass of the formatter's paragraph loop keeps the lines equal to the chapter's
      heading part followed by the lines of the paragraphs seen so far: `lines` are the
      split lines of paragraph `k`, and `next` is what the pass leaves. */
  lemma ParagraphStep(head: seq<string>, paragraphs: seq<string>, k: nat, current: seq<string>,
                      split: string -> seq<string>, lines: seq<string>, next: seq<string>)
    requires k < |paragraphs|
    requires current == head + ParagraphsLines(paragraphs[..k], split)
    requires lines == split(paragraphs[k])
    requires next == if Strip(paragraphs[k]) != [] then current + lines + [""] else current
    ensures next == head + ParagraphsLines(paragraphs[..k + 1], split)
  {
    ParagraphsLinesStep(paragraphs, k, split);
    if Strip(paragraphs[k]) != [] {
      Regroup(head, ParagraphsLines(paragraphs[..k], split), lines, [""]);
    } else {
      assert ParagraphsLines(paragraphs[..k], split) + [] == ParagraphsLines(paragraphs[..k], split);
    }
  }

  lemma Regroup<T>(a: seq<T>, b: seq<T>, c: seq<T>, d: seq<T>)
    ensures a + b + c + d == a + (b + (c + d))
  {
  }

  lemma Associative<T>(a: seq<T>, b: seq<T>, c: seq<T>, d: seq<T>, e: seq<T>)
    ensures a + b + c + d + e == a + (b + c + d + e)
  {
  }

  /** The text `format_to_audiobook_text` writes: the lines of the chapters in ascending
      number order, joined by line feeds. */
  function AudiobookText(content: seq<ChapterRecord>, language: string): string {
    Join(ChaptersLines(SortByNumber(content), language, TtsSplit), "\n")
  }

  /** The inner loop of `format_to_audiobook_text`: for each paragraph of a chapter
      that is not blank after stripping, its text-to-speech lines and then a blank line. */
  method AppendParagraphLines(head: seq<string>, paragraphs: seq<string>, ghost split: string -> seq<string>)
    returns (formattedLines: seq<string>)
    requires forall q :: split(q) == TtsLines(q, DefaultMaxLineLength)
    ensures formattedLines == head + ParagraphsLines(paragraphs, split)
  {
    formattedLines := head;
    var k := 0;
    assert paragraphs[..0] == [] && head + [] == head;
    while k < |paragraphs|
      invariant 0 <= k <= |paragraphs|
      invariant formattedLines == head + ParagraphsLines(paragraphs[..k], split)
    {
      ghost var current := formattedLines;
      var lines := [];
      if Strip(paragraphs[k]) != [] {
        lines := SplitParagraphForTts(paragraphs[k], DefaultMaxLineLength);
        formattedLines := formattedLines + lines + [""];
      }
      ghost var splitLines := if Strip(paragraphs[k]) != [] then lines else split(paragraphs[k]);
      ParagraphStep(head, paragraphs, k, current, split, splitLines, formattedLines);
      k := k + 1;
    }
    assert paragraphs[..k] == paragraphs;
  }

  /** `format_to_audiobook_text`: the text it writes and the path it returns; the write
      itself is not modelled. */
  method FormatToAudiobookText(content: seq<ChapterRecord>, outputPath: string, language: string)
    returns (formattedText: string, path: string)
    ensures formattedText == AudiobookText(content, language)
    ensures path == outputPath
  {
    var chapterPrefix := if language == "es" then "Cap\U{ED}tulo" else "Chapter";
    var formattedLines: seq<string> := [];
    var chapters := SortByNumber(content);
    var c := 0;
    assert chapters[..0] == [];
    while c < |chapters|
      invariant 0 <= c <= |chapters|
      invariant formattedLines == ChaptersLines(chapters[..c], language, TtsSplit)
    {
      ChaptersLinesStep(chapters, c, language, TtsSplit);
      ghost var before := formattedLines;
      var chapter := chapters[c];
      formattedLines := formattedLines + [chapterPrefix + " " + IntToString(chapter.chapterNumber)];
      if chapter.chapterTitle != [] {
        formattedLines := formattedLines + [chapter.chapterTitle];
      }
      formattedLines := formattedLines + [""];
      ghost var head := formattedLines;
      if chapter.content != [] {
        formattedLines := AppendParagraphLines(formattedLines, Split(chapter.content, "\n\n"), TtsSplit);
      }
      ChapterLinesParts(chapter, language, TtsSplit, before, head, formattedLines);
      assert formattedLines == ChaptersLines(chapters[..c + 1], language, TtsSplit);
      c := c + 1;
    }
    assert chapters[..c] == chapters;
    formattedText := Join(formattedLines, "\n");
    path := outputPath;
  }

  /** Lines that are blank or finished sentences, the last of them blank. */
  predicate BlockLines(lines: seq<string>) {
    (forall k :: 0 <= k < |lines| ==> lines[k] == "" || Finished(lines[k]))
    && (lines != [] ==> lines[|lines| - 1] == "")
  }

  lemma BlockLinesConcat(a: seq<string>, b: seq<string>)
    requires BlockLines(a) && BlockLines(b)
    ensures BlockLines(a + b)
  {
    forall k | 0 <= k < |a + b| ensures (a + b)[k] == "" || Finished((a + b)[k]) {
      if k < |a| {
        assert (a + b)[k] == a[k];
      } else {
        assert (a + b)[k] == b[k - |a|];
      }
    }
    if b == [] {
      assert a + b == a;
    }
  }

  /** Every line the formatter's splitter gives is a finished sentence or sentences. */
  ghost predicate SplitsFinished(split: string -> seq<string>) {
    forall q :: AllFinished(split(q))
  }

  lemma TtsSplitFinished()
    ensures SplitsFinished(TtsSplit)
  {
    forall q ensures AllFinished(TtsSplit(q)) {
      TtsLinesFinished(q, DefaultMaxLineLength);
    }
  }

  /** A paragraph gives nothing when it is blank, else its lines and a blank line. */
  lemma ParagraphLinesShape(paragraph: string, split: string -> seq<string>)
    requires SplitsFinished(split)
    ensures BlockLines(ParagraphLines(paragraph, split))
    ensures ParagraphLines(paragraph, split) == [] <==> Strip(paragraph) == []
  {
    if Strip(paragraph) != [] {
      var lines := split(paragraph);
      assert AllFinished(lines);
      forall k | 0 <= k < |lines + [""]| ensures (lines + [""])[k] == "" || Finished((lines + [""])[k]) {
        if k < |lines| {
          assert (lines + [""])[k] == lines[k];
        }
      }
    }
  }

  /** The lines of the paragraphs are blank or finished sentences, and the last one is
      blank. */
  lemma {:induction false} ParagraphsLinesShape(paragraphs: seq<string>, split: string -> seq<string>)
    requires SplitsFinished(split)
    ensures BlockLines(ParagraphsLines(paragraphs, split))
    decreases |paragraphs|
  {
    if paragraphs != [] {
      var front := paragraphs[..|paragraphs| - 1];
      var last := paragraphs[|paragraphs| - 1];
      ParagraphsLinesShape(front, split);
      ParagraphLinesShape(last, split);
      BlockLinesConcat(ParagraphsLines(front, split), ParagraphLines(last, split));
    }
  }

  /** A chapter's block: the heading line "Capítulo N" or "Chapter N", the title line only
      when the title is non-empty, a blank line, then lines that are blank or finished
      sentences, ending with a blank line. */
  lemma ChapterLinesShape(ch: ChapterRecord, language: string)
    ensures var lines := ChapterLines(ch, language, TtsSplit);
      var body := if ch.chapterTitle != [] then 2 else 1;
      |lines| > body
      && lines[0] == ChapterPrefix(language) + " " + IntToString(ch.chapterNumber)
      && (ch.chapterTitle != [] ==> lines[1] == ch.chapterTitle)
      && lines[body] == ""
      && lines[|lines| - 1] == ""
      && forall k :: body < k < |lines| ==> lines[k] == "" || Finished(lines[k])
  {
    if ch.content != [] {
      TtsSplitFinished();
      ParagraphsLinesShape(Split(ch.content, "\n\n"), TtsSplit);
    }
  }

  // ================================================================ merging the drafts

  /** The chapter numbers of the records, in order (the keys the merge collects). */
  function Numbers(content: seq<ChapterRecord>): seq<int> {
    seq(|content|, i requires 0 <= i < |content| => content[i].chapterNumber)
  }

  /** `{ch.get("chapter_number"): ch for ch in content}`: a later record with the same
      number replaces an earlier one. */
  function ByNumber(content: seq<ChapterRecord>): map<int, ChapterRecord> {
    if content == [] then map[]
    else ByNumber(content[..|content| - 1])[content[|content| - 1].chapterNumber := content[|content| - 1]]
  }

  /** Every record is bound to its own chapter number. */
  predicate RecordsKeyed(d: map<int, ChapterRecord>) {
    forall n :: n in d ==> d[n].chapterNumber == n
  }

  lemma {:induction false} ByNumberKeyed(content: seq<ChapterRecord>)
    ensures RecordsKeyed(ByNumber(content))
    decreases |content|
  {
    if content != [] {
      ByNumberKeyed(content[..|content| - 1]);
    }
  }

  /** Record `j` is the last one with its chapter number. */
  predicate IsLastOfNumber(content: seq<ChapterRecord>, j: int) {
    0 <= j < |content| && forall k :: j < k < |content| ==> content[k].chapterNumber != content[j].chapterNumber
  }

  /** The dictionary's keys are the numbers that occur, each bound to the last record with
      that number. */
  lemma {:induction false} ByNumberSpec(content: seq<ChapterRecord>)
    ensures forall n :: n in ByNumber(content) <==> n in Numbers(content)
    ensures forall j :: IsLastOfNumber(content, j) ==>
      content[j].chapterNumber in ByNumber(content) && ByNumber(content)[content[j].chapterNumber] == content[j]
    decreases |content|
  {
    if content != [] {
      var front := content[..|content| - 1];
      var last := content[|content| - 1];
      ByNumberSpec(front);
      assert Numbers(content) == Numbers(front) + [last.chapterNumber];
      forall j | IsLastOfNumber(content, j)
        ensures content[j].chapterNumber in ByNumber(content) && ByNumber(content)[content[j].chapterNumber] == content[j]
      {
        if j < |front| {
          assert content[j] == front[j];
          assert IsLastOfNumber(front, j);
        }
      }
    }
  }

  /** Ascending with no number twice. */
  predicate StrictlyAscending(s: seq<int>) {
    forall i, j :: 0 <= i < j < |s| ==> s[i] < s[j]
  }

  /** One number put into an ascending list of distinct numbers, unless it is there. */
  function InsertKey(sorted: seq<int>, n: int): seq<int>
    decreases |sorted|
  {
    if sorted == [] then [n]
    else if n < sorted[0] then [n] + sorted
    else if n == sorted[0] then sorted
    else [sorted[0]] + InsertKey(sorted[1..], n)
  }

  /** `sorted(set(ns))`. */
  function SortedKeys(ns: seq<int>): seq<int> {
    if ns == [] then [] else InsertKey(SortedKeys(ns[..|ns| - 1]), ns[|ns| - 1])
  }

  lemma {:induction false} InsertKeySpec(sorted: seq<int>, n: int)
    requires StrictlyAscending(sorted)
    ensures StrictlyAscending(InsertKey(sorted, n))
    ensures forall m :: m in InsertKey(sorted, n) <==> m in sorted || m == n
    ensures InsertKey(sorted, n) != [] && InsertKey(sorted, n)[0] == if sorted != [] && sorted[0] < n then sorted[0] else n
    decreases |sorted|
  {
    if sorted != [] {
      if n < sorted[0] {
        Prepend(n, sorted);
      } else if n > sorted[0] {
        var tail := sorted[1..];
        InsertKeySpec(tail, n);
        assert sorted == [sorted[0]] + tail;
        Prepend(sorted[0], InsertKey(tail, n));
      }
    }
  }

  /** A number below the head of an ascending list extends it. */
  lemma Prepend(x: int, t: seq<int>)
    requires StrictlyAscending(t) && t != [] && x < t[0]
    ensures StrictlyAscending([x] + t)
  {
    var r := [x] + t;
    forall i, j | 0 <= i < j < |r| ensures r[i] < r[j] {
      assert r[j] == t[j - 1];
      if i == 0 {
        assert t[0] <= t[j - 1];
      } else {
        assert r[i] == t[i - 1];
      }
    }
  }

  /** The keys come out ascending, each once, and they are exactly the numbers given. */
  lemma {:induction false} SortedKeysSpec(ns: seq<int>)
    ensures StrictlyAscending(SortedKeys(ns))
    ensures forall m :: m in SortedKeys(ns) <==> m in ns
    decreases |ns|
  {
    if ns != [] {
      var front := ns[..|ns| - 1];
      SortedKeysSpec(front);
      InsertKeySpec(SortedKeys(front), ns[|ns| - 1]);
      assert ns == front + [ns[|ns| - 1]];
    }
  }

  /** A value Python can use as a dictionary key: lists and dicts are unhashable. */
  predicate Hashable(j: Json) {
    !j.JArr? && !j.JObj?
  }

  /** The `(chapter, score)` pair one element of `scores_by_chapter` contributes:
      `item.get("chapter")` and `item.get("score", 0)`. */
  function ScoreEntry(item: Json): Result<(Json, Json)> {
    match ItemGet(item, "chapter", JNull)
    case Err(e) => Err(e)
    case Ok(key) =>
      if Hashable(key) then Ok((key, Get(item.fields, "score", JInt(0))))
      else Err(TypeError("unhashable type"))
  }

  /** The scores dictionary as the pairs inserted into it, in order; the comprehension
      stops at the first element that is not a `dict` or whose chapter is unhashable. */
  function ScoreEntries(items: seq<Json>): Result<seq<(Json, Json)>> {
    if items == [] then Ok([])
    else match ScoreEntries(items[..|items| - 1])
      case Err(e) => Err(e)
      case Ok(entries) =>
        match ScoreEntry(items[|items| - 1])
        case Err(e) => Err(e)
        case Ok(entry) => Ok(entries + [entry])
  }

  /** The dictionary succeeds exactly when every element gives a pair, and then holds one
      pair per element in order; otherwise the error is that of the first failing element. */
  lemma {:induction false} ScoreEntriesSpec(items: seq<Json>)
    ensures ScoreEntries(items).Ok? <==> forall i :: 0 <= i < |items| ==> ScoreEntry(items[i]).Ok?
    ensures ScoreEntries(items).Ok? ==>
      |ScoreEntries(items).value| == |items|
      && forall i :: 0 <= i < |items| ==> ScoreEntries(items).value[i] == ScoreEntry(items[i]).value
    ensures ScoreEntries(items).Err? ==>
      exists i :: 0 <= i < |items| && ScoreEntry(items[i]).Err?
        && ScoreEntries(items).error == ScoreEntry(items[i]).error
        && forall k :: 0 <= k < i ==> ScoreEntry(items[k]).Ok?
    decreases |items|
  {
    if items != [] {
      var front := items[..|items| - 1];
      ScoreEntriesSpec(front);
      assert forall i :: 0 <= i < |front| ==> front[i] == items[i];
    }
  }

  /** An error part-way through is the error of the whole comprehension. */
  lemma {:induction false} ScoreEntriesErr(items: seq<Json>, m: nat)
    requires m <= |items| && ScoreEntries(items[..m]).Err?
    ensures ScoreEntries(items) == ScoreEntries(items[..m])
    decreases |items| - m
  {
    if m < |items| {
      assert items[..m + 1][..m] == items[..m];
      ScoreEntriesErr(items, m + 1);
    } else {
      assert items[..m] == items;
    }
  }

  /** `scores_by_chapter` as the merge reads it: from a non-empty evaluation, with an empty
      list when the key is missing or there is no evaluation. */
  function ScoresByChapter(evaluation: Option<Object>): Json {
    if evaluation.Some? && evaluation.value != map[] then Get(evaluation.value, "scores_by_chapter", JArr([]))
    else JArr([])
  }

  function ScoresDict(evaluation: Option<Object>): Result<seq<(Json, Json)>> {
    match DictItems(ScoresByChapter(evaluation))
    case Err(e) => Err(e)
    case Ok(items) => ScoreEntries(items)
  }

  /** `scores_dict.get(n, 0)`: Python's key equality makes `1`, `1.0` and `True` one key, and
      the value stored last under it is the one found. */
  function ScoreOf(entries: seq<(Json, Json)>, n: int): Json {
    if entries == [] then JInt(0)
    else if EqualsInt(entries[|entries| - 1].0, n) then entries[|entries| - 1].1
    else ScoreOf(entries[..|entries| - 1], n)
  }

  /** The score found is the one of the last pair whose chapter equals `n`. */
  lemma {:induction false} ScoreOfLast(entries: seq<(Json, Json)>, n: int, j: nat)
    requires j < |entries| && EqualsInt(entries[j].0, n)
    requires forall k :: j < k < |entries| ==> !EqualsInt(entries[k].0, n)
    ensures ScoreOf(entries, n) == entries[j].1
    decreases |entries|
  {
    if j < |entries| - 1 {
      ScoreOfLast(entries[..|entries| - 1], n, j);
    }
  }

  /** A chapter no pair names scores 0. */
  lemma {:induction false} ScoreOfAbsent(entries: seq<(Json, Json)>, n: int)
    requires forall k :: 0 <= k < |entries| ==> !EqualsInt(entries[k].0, n)
    ensures ScoreOf(entries, n) == JInt(0)
    decreases |entries|
  {
    if entries != [] {
      ScoreOfAbsent(entries[..|entries| - 1], n);
    }
  }

  /** The record kept for chapter `n`: the only one there is, or, with both, a choice on the
      chapter's score. Both scores are the one dictionary value, so `score_v1 >= score_v2`
      compares a value with itself: true for numbers, strings and lists, a `TypeError` for
      `None` and dicts. A zero score (or none) picks the strictly longer text, a tie going
      to the second draft. */
  function Choose(n: int, v1: map<int, ChapterRecord>, v2: map<int, ChapterRecord>,
                  scores: seq<(Json, Json)>): Result<ChapterRecord>
    requires n in v1 || n in v2
  {
    if n !in v1 then Ok(v2[n])
    else if n !in v2 then Ok(v1[n])
    else
      var score := ScoreOf(scores, n);
      if EqualsInt(score, 0) then Ok(if |v1[n].content| > |v2[n].content| then v1[n] else v2[n])
      else if score.JNull? || score.JObj? then Err(TypeError("'>=' not supported between instances"))
      else Ok(v1[n])
  }

  function ChooseAll(keys: seq<int>, v1: map<int, ChapterRecord>, v2: map<int, ChapterRecord>,
                     scores: seq<(Json, Json)>): Result<seq<ChapterRecord>>
    requires forall k :: k in keys ==> k in v1 || k in v2
  {
    if keys == [] then Ok([])
    else match ChooseAll(keys[..|keys| - 1], v1, v2, scores)
      case Err(e) => Err(e)
      case Ok(chosen) =>
        match Choose(keys[|keys| - 1], v1, v2, scores)
        case Err(e) => Err(e)
        case Ok(ch) => Ok(chosen + [ch])
  }

  /** One choice per key in key order, or the error of the first key whose choice fails. */
  lemma {:induction false} ChooseAllSpec(keys: seq<int>, v1: map<int, ChapterRecord>, v2: map<int, ChapterRecord>,
                                         scores: seq<(Json, Json)>)
    requires forall k :: k in keys ==> k in v1 || k in v2
    ensures ChooseAll(keys, v1, v2, scores).Ok? <==> forall i :: 0 <= i < |keys| ==> Choose(keys[i], v1, v2, scores).Ok?
    ensures ChooseAll(keys, v1, v2, scores).Ok? ==>
      |ChooseAll(keys, v1, v2, scores).value| == |keys|
      && forall i :: 0 <= i < |keys| ==> ChooseAll(keys, v1, v2, scores).value[i] == Choose(keys[i], v1, v2, scores).value
    decreases |keys|
  {
    if keys != [] {
      var front := keys[..|keys| - 1];
      assert forall i :: 0 <= i < |front| ==> front[i] == keys[i];
      ChooseAllSpec(front, v1, v2, scores);
    }
  }

  lemma {:induction false} ChooseAllErr(keys: seq<int>, m: nat, v1: map<int, ChapterRecord>, v2: map<int, ChapterRecord>,
                                        scores: seq<(Json, Json)>)
    requires forall k :: k in keys ==> k in v1 || k in v2
    requires m <= |keys| && ChooseAll(keys[..m], v1, v2, scores).Err?
    ensures ChooseAll(keys, v1, v2, scores) == ChooseAll(keys[..m], v1, v2, scores)
    decreases |keys| - m
  {
    if m < |keys| {
      assert keys[..m + 1][..m] == keys[..m];
      ChooseAllErr(keys, m + 1, v1, v2, scores);
    } else {
      assert keys[..m] == keys;
    }
  }

  /** What `merge_best_content` returns. */
  function MergedContent(contentV1: seq<ChapterRecord>, contentV2: seq<ChapterRecord>,
                         evaluation: Option<Object>): Result<seq<ChapterRecord>>
  {
    if contentV1 == [] && contentV2 == [] then Ok([])
    else if contentV1 == [] then Ok(contentV2)
    else if contentV2 == [] then Ok(contentV1)
    else match ScoresDict(evaluation)
      case Err(e) => Err(e)
      case Ok(scores) =>
        ChooseAllKeys(contentV1, contentV2, scores)
  }

  function ChooseAllKeys(contentV1: seq<ChapterRecord>, contentV2: seq<ChapterRecord>,
                         scores: seq<(Json, Json)>): Result<seq<ChapterRecord>>
  {
    var keys := SortedKeys(Numbers(contentV1) + Numbers(contentV2));
    KeysIndexed(contentV1, contentV2);
    ChooseAll(keys, ByNumber(contentV1), ByNumber(contentV2), scores)
  }

  /** Every merged key is a key of one of the two dictionaries. */
  lemma KeysIndexed(contentV1: seq<ChapterRecord>, contentV2: seq<ChapterRecord>)
    ensures forall k :: k in SortedKeys(Numbers(contentV1) + Numbers(contentV2)) ==>
      k in ByNumber(contentV1) || k in ByNumber(contentV2)
  {
    SortedKeysSpec(Numbers(contentV1) + Numbers(contentV2));
    ByNumberSpec(contentV1);
    ByNumberSpec(contentV2);
  }

  /** The scores dictionary comprehension of `merge_best_content`. */
  method CollectScores(items: seq<Json>) returns (r: Result<seq<(Json, Json)>>)
    ensures r == ScoreEntries(items)
  {
    var entries: seq<(Json, Json)> := [];
    var i := 0;
    while i < |items|
      invariant 0 <= i <= |items|
      invariant ScoreEntries(items[..i]) == Ok(entries)
    {
      assert items[..i + 1][..i] == items[..i];
      var item := items[i];
      if !item.JObj? {
        r := Err(AttributeError("object has no attribute 'get'"));
        ScoreEntriesErr(items, i + 1);
        return;
      }
      var key := Get(item.fields, "chapter", JNull);
      if !Hashable(key) {
        r := Err(TypeError("unhashable type"));
        ScoreEntriesErr(items, i + 1);
        return;
      }
      entries := entries + [(key, Get(item.fields, "score", JInt(0)))];
      i := i + 1;
    }
    assert items[..i] == items;
    r := Ok(entries);
  }

  /** The chapter dictionary comprehensions of `merge_best_content`. */
  method IndexByNumber(content: seq<ChapterRecord>) returns (d: map<int, ChapterRecord>)
    ensures d == ByNumber(content)
  {
    d := map[];
    var i := 0;
    while i < |content|
      invariant 0 <= i <= |content|
      invariant d == ByNumber(content[..i])
    {
      assert content[..i + 1][..i] == content[..i];
      d := d[content[i].chapterNumber := content[i]];
      i := i + 1;
    }
    assert content[..i] == content;
  }

  /** `merge_best_content`. */
  method MergeBestContent(contentV1: seq<ChapterRecord>, contentV2: seq<ChapterRecord>, evaluation: Option<Object>)
    returns (r: Result<seq<ChapterRecord>>)
    ensures r == MergedContent(contentV1, contentV2, evaluation)
  {
    if contentV1 == [] && contentV2 == [] {
      return Ok([]);
    }
    if contentV1 == [] {
      return Ok(contentV2);
    }
    if contentV2 == [] {
      return Ok(contentV1);
    }
    var scoresByChapter := if evaluation.Some? && evaluation.value != map[]
      then Get(evaluation.value, "scores_by_chapter", JArr([])) else JArr([]);
    var items := DictItems(scoresByChapter);
    if items.Err? {
      return Err(items.error);
    }
    var scores := CollectScores(items.value);
    if scores.Err? {
      return Err(scores.error);
    }
    var scoresDict := scores.value;
    var v1 := IndexByNumber(contentV1);
    var v2 := IndexByNumber(contentV2);
    var keys := SortedKeys(Numbers(contentV1) + Numbers(contentV2));
    KeysIndexed(contentV1, contentV2);
    r := ChooseChapters(keys, v1, v2, scoresDict);
  }

  /** The loop of `merge_best_content` over the sorted chapter numbers. */
  method ChooseChapters(keys: seq<int>, v1: map<int, ChapterRecord>, v2: map<int, ChapterRecord>,
                        scoresDict: seq<(Json, Json)>) returns (r: Result<seq<ChapterRecord>>)
    requires forall k :: k in keys ==> k in v1 || k in v2
    ensures r == ChooseAll(keys, v1, v2, scoresDict)
  {
    var merged: seq<ChapterRecord> := [];
    var i := 0;
    while i < |keys|
      invariant 0 <= i <= |keys|
      invariant ChooseAll(keys[..i], v1, v2, scoresDict) == Ok(merged)
    {
      assert keys[..i + 1][..i] == keys[..i];
      var n := keys[i];
      var chosen: ChapterRecord;
      if n !in v1 {
        chosen := v2[n];
      } else if n !in v2 {
        chosen := v1[n];
      } else {
        // score_v1 and score_v2 are both this one lookup
        var score := ScoreOf(scoresDict, n);
        if EqualsInt(score, 0) {
          chosen := if |v1[n].content| > |v2[n].content| then v1[n] else v2[n];
        } else if score.JNull? || score.JObj? {
          r := Err(TypeError("'>=' not supported between instances"));
          ChooseAllErr(keys, i + 1, v1, v2, scoresDict);
          return;
        } else {
          chosen := v1[n];
        }
      }
      merged := merged + [chosen];
      i := i + 1;
    }
    assert keys[..i] == keys;
    r := Ok(merged);
  }

  /** With a draft missing nothing is chosen: the other draft comes back as it is, not
      re-sorted, and two missing drafts give no chapters. */
  lemma MergeWithEmptyDraft(contentV1: seq<ChapterRecord>, contentV2: seq<ChapterRecord>, evaluation: Option<Object>)
    ensures contentV1 == [] ==> MergedContent(contentV1, contentV2, evaluation) == Ok(contentV2)
    ensures contentV2 == [] ==> MergedContent(contentV1, contentV2, evaluation) == Ok(contentV1)
  {
  }

  /** Chapter `i` of a merge of two non-empty drafts is the choice for the `i`-th smallest
      chapter number. */
  lemma MergedAt(contentV1: seq<ChapterRecord>, contentV2: seq<ChapterRecord>, evaluation: Option<Object>)
    requires contentV1 != [] && contentV2 != []
    requires MergedContent(contentV1, contentV2, evaluation).Ok?
    ensures var keys := SortedKeys(Numbers(contentV1) + Numbers(contentV2));
      var merged := MergedContent(contentV1, contentV2, evaluation).value;
      |merged| == |keys|
      && (forall k :: k in keys ==> k in ByNumber(contentV1) || k in ByNumber(contentV2))
      && forall i :: 0 <= i < |keys| ==>
           Choose(keys[i], ByNumber(contentV1), ByNumber(contentV2), ScoresDict(evaluation).value) == Ok(merged[i])
           && merged[i].chapterNumber == keys[i]
  {
    var keys := SortedKeys(Numbers(contentV1) + Numbers(contentV2));
    KeysIndexed(contentV1, contentV2);
    ByNumberKeyed(contentV1);
    ByNumberKeyed(contentV2);
    ChooseAllSpec(keys, ByNumber(contentV1), ByNumber(contentV2), ScoresDict(evaluation).value);
  }

  /** With both drafts non-empty, the merge has one chapter per number occurring in either
      draft, in ascending number order, each a record of one of the drafts. */
  lemma MergedChapters(contentV1: seq<ChapterRecord>, contentV2: seq<ChapterRecord>, evaluation: Option<Object>)
    requires contentV1 != [] && contentV2 != []
    requires MergedContent(contentV1, contentV2, evaluation).Ok?
    ensures var merged := MergedContent(contentV1, contentV2, evaluation).value;
      StrictlyAscending(Numbers(merged))
      && (forall n :: n in Numbers(merged) <==> n in Numbers(contentV1) || n in Numbers(contentV2))
      && forall i :: 0 <= i < |merged| ==> merged[i] in contentV1 || merged[i] in contentV2
  {
    var keys := SortedKeys(Numbers(contentV1) + Numbers(contentV2));
    var merged := MergedContent(contentV1, contentV2, evaluation).value;
    MergedAt(contentV1, contentV2, evaluation);
    SortedKeysSpec(Numbers(contentV1) + Numbers(contentV2));
    assert Numbers(merged) == keys;
    forall i | 0 <= i < |merged| ensures merged[i] in contentV1 || merged[i] in contentV2 {
      if keys[i] in ByNumber(contentV1) {
        MapValueFrom(contentV1, keys[i]);
      }
      if keys[i] in ByNumber(contentV2) {
        MapValueFrom(contentV2, keys[i]);
      }
    }
  }

  /** A value of the chapter dictionary is one of the records. */
  lemma {:induction false} MapValueFrom(content: seq<ChapterRecord>, n: int)
    requires n in ByNumber(content)
    ensures ByNumber(content)[n] in content
    decreases |content|
  {
    var front := content[..|content| - 1];
    if n != content[|content| - 1].chapterNumber {
      MapValueFrom(front, n);
    }
  }

  /** A number only the first draft has takes that draft's last record with that number. */
  lemma MergeOnlyInFirst(contentV1: seq<ChapterRecord>, contentV2: seq<ChapterRecord>, evaluation: Option<Object>,
                         i: int, a: int)
    requires contentV1 != [] && contentV2 != []
    requires MergedContent(contentV1, contentV2, evaluation).Ok?
    requires IsLastOfNumber(contentV1, a) && contentV1[a].chapterNumber !in Numbers(contentV2)
    requires 0 <= i < |MergedContent(contentV1, contentV2, evaluation).value|
    requires MergedContent(contentV1, contentV2, evaluation).value[i].chapterNumber == contentV1[a].chapterNumber
    ensures MergedContent(contentV1, contentV2, evaluation).value[i] == contentV1[a]
  {
    MergedAt(contentV1, contentV2, evaluation);
    ByNumberSpec(contentV1);
    ByNumberSpec(contentV2);
  }

  /** A number only the second draft has takes that draft's last record with that number. */
  lemma MergeOnlyInSecond(contentV1: seq<ChapterRecord>, contentV2: seq<ChapterRecord>, evaluation: Option<Object>,
                          i: int, b: int)
    requires contentV1 != [] && contentV2 != []
    requires MergedContent(contentV1, contentV2, evaluation).Ok?
    requires IsLastOfNumber(contentV2, b) && contentV2[b].chapterNumber !in Numbers(contentV1)
    requires 0 <= i < |MergedContent(contentV1, contentV2, evaluation).value|
    requires MergedContent(contentV1, contentV2, evaluation).value[i].chapterNumber == contentV2[b].chapterNumber
    ensures MergedContent(contentV1, contentV2, evaluation).value[i] == contentV2[b]
  {
    MergedAt(contentV1, contentV2, evaluation);
    ByNumberSpec(contentV1);
    ByNumberSpec(contentV2);
  }

  /** `score >= score` raises: Python orders neither `None` nor dicts. */
  predicate Unorderable(score: Json) {
    score.JNull? || score.JObj?
  }

  /** A number both drafts have, between the last record of each with that number: with a
      zero or missing score the strictly longer text, a tie going to the second draft;
      with any other score always the first draft, since both scores are the same value. */
  lemma MergeInBoth(contentV1: seq<ChapterRecord>, contentV2: seq<ChapterRecord>, evaluation: Option<Object>,
                    i: int, a: int, b: int)
    requires contentV1 != [] && contentV2 != []
    requires MergedContent(contentV1, contentV2, evaluation).Ok?
    requires IsLastOfNumber(contentV1, a) && IsLastOfNumber(contentV2, b)
    requires contentV1[a].chapterNumber == contentV2[b].chapterNumber
    requires 0 <= i < |MergedContent(contentV1, contentV2, evaluation).value|
    requires MergedContent(contentV1, contentV2, evaluation).value[i].chapterNumber == contentV1[a].chapterNumber
    ensures var score := ScoreOf(ScoresDict(evaluation).value, contentV1[a].chapterNumber);
      var chosen := MergedContent(contentV1, contentV2, evaluation).value[i];
      !Unorderable(score)
      && (EqualsInt(score, 0) ==> chosen == if |contentV1[a].content| > |contentV2[b].content| then contentV1[a] else contentV2[b])
      && (!EqualsInt(score, 0) ==> chosen == contentV1[a])
  {
    MergedAt(contentV1, contentV2, evaluation);
    ByNumberSpec(contentV1);
    ByNumberSpec(contentV2);
  }

  /** The choice for a number fails exactly when both drafts have it and its score is
      unorderable. */
  lemma ChooseFails(n: int, v1: map<int, ChapterRecord>, v2: map<int, ChapterRecord>, scores: seq<(Json, Json)>)
    requires n in v1 || n in v2
    ensures Choose(n, v1, v2, scores).Err? <==> n in v1 && n in v2 && Unorderable(ScoreOf(scores, n))
  {
  }

  /** With both drafts non-empty the merge raises exactly when the scores cannot be read or
      a chapter both drafts have is scored `None` or a dict. */
  lemma MergeFails(contentV1: seq<ChapterRecord>, contentV2: seq<ChapterRecord>, evaluation: Option<Object>)
    requires contentV1 != [] && contentV2 != []
    ensures MergedContent(contentV1, contentV2, evaluation).Err? <==>
      ScoresDict(evaluation).Err?
      || exists n :: n in Numbers(contentV1) && n in Numbers(contentV2) && Unorderable(ScoreOf(ScoresDict(evaluation).value, n))
  {
    if ScoresDict(evaluation).Ok? {
      var scores := ScoresDict(evaluation).value;
      var keys := SortedKeys(Numbers(contentV1) + Numbers(contentV2));
      var v1 := ByNumber(contentV1);
      var v2 := ByNumber(contentV2);
      KeysIndexed(contentV1, contentV2);
      assert MergedContent(contentV1, contentV2, evaluation) == ChooseAll(keys, v1, v2, scores);
      ChooseAllSpec(keys, v1, v2, scores);
      SortedKeysSpec(Numbers(contentV1) + Numbers(contentV2));
      ByNumberSpec(contentV1);
      ByNumberSpec(contentV2);
      forall i | 0 <= i < |keys| ensures Choose(keys[i], v1, v2, scores).Err? <==> keys[i] in v1 && keys[i] in v2 && Unorderable(ScoreOf(scores, keys[i])) {
        ChooseFails(keys[i], v1, v2, scores);
      }
      if exists n :: n in Numbers(contentV1) && n in Numbers(contentV2) && Unorderable(ScoreOf(scores, n)) {
        var n :| n in Numbers(contentV1) && n in Numbers(contentV2) && Unorderable(ScoreOf(scores, n));
        assert n in Numbers(contentV1) + Numbers(contentV2);
        var k :| 0 <= k < |keys| && keys[k] == n;
        assert Choose(keys[k], v1, v2, scores).Err?;
      }
    }
  }

  /** Without scores, from a missing or empty evaluation or an empty `scores_by_chapter`,
      the merge cannot fail, and a chapter both drafts have goes to the strictly longer. */
  lemma MergeWithoutScores(contentV1: seq<ChapterRecord>, contentV2: seq<ChapterRecord>, evaluation: Option<Object>)
    requires ScoresByChapter(evaluation) == JArr([])
    ensures MergedContent(contentV1, contentV2, evaluation).Ok?
    ensures forall n :: ScoreOf(ScoresDict(evaluation).value, n) == JInt(0)
  {
    if contentV1 != [] && contentV2 != [] {
      MergeFails(contentV1, contentV2, evaluation);
    }
  }
}
