/** Python `str` operations the modelled code relies on, over `string` (a sequence of
    Unicode scalar values, which is what a Python `str` indexes). Whitespace, word
    characters, digits and case are each one fixed character predicate. */
module Strings {

  /** `str.isspace()` for one character. */
  predicate IsSpace(c: char) {
    c == ' ' || '\t' <= c <= '\r' || '\U{1C}' <= c <= '\U{1F}' || c == '\U{85}' || c == '\U{A0}'
    || c == '\U{1680}' || '\U{2000}' <= c <= '\U{200A}' || c == '\U{2028}' || c == '\U{2029}'
    || c == '\U{202F}' || c == '\U{205F}' || c == '\U{3000}'
  }

  /** The characters at which `str.splitlines()` breaks a line. */
  predicate IsLineBoundary(c: char) {
    c == '\n' || c == '\r' || c == '\U{0B}' || c == '\U{0C}' || '\U{1C}' <= c <= '\U{1E}'
    || c == '\U{85}' || c == '\U{2028}' || c == '\U{2029}'
  }

  /** The decimal digits `\d` and `str.isdigit()` accept (ASCII only in this model). */
  predicate IsDigit(c: char) {
    '0' <= c <= '9'
  }

  /** The regular-expression class `\w`: the characters for which `str.isalnum()` holds,
      and the underscore. Up to U+00FF it is exact: besides the letters it holds the
      superscript digits and the vulgar fractions, which are numeric. Above U+00FF every
      character that is not whitespace, punctuation or a symbol from the U+2000-U+2BFF and
      U+3000-U+303F blocks counts. */
  predicate IsWordChar(c: char) {
    'a' <= c <= 'z' || 'A' <= c <= 'Z' || IsDigit(c) || c == '_'
    || c == '\U{AA}' || c == '\U{B5}' || c == '\U{BA}'
    || c == '\U{B2}' || c == '\U{B3}' || c == '\U{B9}' || ('\U{BC}' <= c <= '\U{BE}')
    || ('\U{C0}' <= c <= '\U{FF}' && c != '\U{D7}' && c != '\U{F7}')
    || ('\U{100}' <= c && !IsSpace(c) && !('\U{2000}' <= c <= '\U{2BFF}') && !('\U{3000}' <= c <= '\U{303F}'))
  }

  lemma LineBoundaryIsSpace(c: char)
    ensures IsLineBoundary(c) ==> IsSpace(c)
  {
  }

  // ---------------------------------------------------------------- case

  /** `str.lower()` on one character: ASCII and Latin-1 capitals; others unchanged. */
  function LowerChar(c: char): (r: char)
    ensures 'A' <= c <= 'Z' ==> r as int == c as int + 32
    ensures 'a' <= c <= 'z' ==> r == c
  {
    if 'A' <= c <= 'Z' || ('\U{C0}' <= c <= '\U{DE}' && c != '\U{D7}') then (c as int + 32) as char else c
  }

  /** `str.upper()` on one character: ASCII and Latin-1 small letters; others unchanged. */
  function UpperChar(c: char): (r: char)
    ensures 'a' <= c <= 'z' ==> r as int == c as int - 32
    ensures 'A' <= c <= 'Z' ==> r == c
  {
    if 'a' <= c <= 'z' || ('\U{E0}' <= c <= '\U{FE}' && c != '\U{F7}') then (c as int - 32) as char else c
  }

  function Lower(s: string): (r: string)
    ensures |r| == |s| && forall i :: 0 <= i < |s| ==> r[i] == LowerChar(s[i])
  {
    seq(|s|, i requires 0 <= i < |s| => LowerChar(s[i]))
  }

  function Upper(s: string): (r: string)
    ensures |r| == |s| && forall i :: 0 <= i < |s| ==> r[i] == UpperChar(s[i])
  {
    seq(|s|, i requires 0 <= i < |s| => UpperChar(s[i]))
  }

  /** Case-insensitive prefix test, as a regular expression with IGNORECASE matches a literal. */
  predicate StartsWithIgnoreCase(s: string, prefix: string) {
    |prefix| <= |s| && Lower(s[..|prefix|]) == Lower(prefix)
  }

  // ---------------------------------------------------------------- prefixes, search

  predicate StartsWith(s: string, prefix: string) {
    |prefix| <= |s| && s[..|prefix|] == prefix
  }

  predicate EndsWith(s: string, suffix: string) {
    |suffix| <= |s| && s[|s| - |suffix|..] == suffix
  }

  predicate OccursAt(s: string, t: string, i: nat) {
    i + |t| <= |s| && s[i..i + |t|] == t
  }

  function FindFrom(s: string, t: string, i: nat): (r: int)
    requires i <= |s|
    ensures r == -1 || (i <= r <= |s| && OccursAt(s, t, r))
    decreases |s| - i
  {
    if OccursAt(s, t, i) then i else if i == |s| then -1 else FindFrom(s, t, i + 1)
  }

  lemma {:induction false} FindFromFirst(s: string, t: string, i: nat, j: nat)
    requires i <= j <= |s|
    requires FindFrom(s, t, i) == -1 || j < FindFrom(s, t, i)
    ensures !OccursAt(s, t, j)
    decreases j - i
  {
    if i < j {
      FindFromFirst(s, t, i + 1, j);
    }
  }

  lemma {:induction false} FindFromAt(s: string, t: string, i: nat, j: nat)
    requires i <= j <= |s| && OccursAt(s, t, j)
    requires forall k :: i <= k < j ==> !OccursAt(s, t, k)
    ensures FindFrom(s, t, i) == j
    decreases j - i
  {
    if i < j {
      FindFromAt(s, t, i + 1, j);
    }
  }

  lemma {:induction false} FindFromNone(s: string, t: string, i: nat)
    requires i <= |s|
    requires forall k :: i <= k <= |s| ==> !OccursAt(s, t, k)
    ensures FindFrom(s, t, i) == -1
    decreases |s| - i
  {
    if i < |s| {
      FindFromNone(s, t, i + 1);
    }
  }

  /** `s.find(t)`: the first index at which `t` occurs, or -1. */
  function Find(s: string, t: string): (r: int)
    ensures r == -1 || (0 <= r <= |s| && OccursAt(s, t, r))
  {
    FindFrom(s, t, 0)
  }

  /** No occurrence of `t` starts before the index `Find` returns, and none at all when it
      returns -1. */
  lemma FindFirst(s: string, t: string, j: nat)
    requires j <= |s|
    requires Find(s, t) == -1 || j < Find(s, t)
    ensures !OccursAt(s, t, j)
  {
    FindFromFirst(s, t, 0, j);
  }

  /** `t in s` for strings: `t` is a substring of `s`. */
  predicate Contains(s: string, t: string) {
    Find(s, t) != -1
  }

  lemma ContainsAt(s: string, t: string, i: nat)
    requires OccursAt(s, t, i)
    ensures Contains(s, t)
  {
    if Find(s, t) == -1 {
      FindFirst(s, t, i);
    }
  }

  lemma ContainsConcat(a: string, t: string, b: string)
    ensures Contains(a + t + b, t)
  {
    assert (a + t + b)[|a|..|a| + |t|] == t;
    ContainsAt(a + t + b, t, |a|);
  }

  /** `s.find(c, i)` for one character, with `|s|` standing for "not found": the first
      index at or after `i` that holds `c`. */
  function CharIndexFrom(s: string, c: char, i: nat): (j: nat)
    requires i <= |s|
    ensures i <= j <= |s| && (j < |s| ==> s[j] == c)
    ensures forall k :: i <= k < j ==> s[k] != c
    decreases |s| - i
  {
    if i == |s| || s[i] == c then i else CharIndexFrom(s, c, i + 1)
  }

  /** `s.rfind(c)` for one character: the last index holding `c`, or -1. */
  function LastCharIndex(s: string, c: char): (j: int)
    ensures -1 <= j < |s| && (j >= 0 ==> s[j] == c)
    ensures forall k :: j < k < |s| ==> s[k] != c
  {
    if s == [] then -1
    else if s[|s| - 1] == c then |s| - 1
    else LastCharIndex(s[..|s| - 1], c)
  }

  // ---------------------------------------------------------------- strip

  /** Length of the run of whitespace characters starting at `p`. */
  function SpaceRun(s: string, p: nat): (n: nat)
    requires p <= |s|
    ensures p + n <= |s| && (p + n < |s| ==> !IsSpace(s[p + n]))
    decreases |s| - p
  {
    if p < |s| && IsSpace(s[p]) then 1 + SpaceRun(s, p + 1) else 0
  }

  /** Length of the run of whitespace characters that ends just before position `e`. */
  function SpaceRunBefore(s: string, e: nat): (n: nat)
    requires e <= |s|
    ensures n <= e && (n < e ==> !IsSpace(s[e - n - 1]))
  {
    if e > 0 && IsSpace(s[e - 1]) then 1 + SpaceRunBefore(s, e - 1) else 0
  }

  /** The run `SpaceRun` measures is whitespace. */
  lemma {:induction false} SpaceRunAll(s: string, p: nat)
    requires p <= |s|
    ensures forall i :: p <= i < p + SpaceRun(s, p) ==> IsSpace(s[i])
    decreases |s| - p
  {
    if p < |s| && IsSpace(s[p]) {
      SpaceRunAll(s, p + 1);
    }
  }

  /** The run `SpaceRunBefore` measures is whitespace. */
  lemma {:induction false} SpaceRunBeforeAll(s: string, e: nat)
    requires e <= |s|
    ensures forall i :: e - SpaceRunBefore(s, e) <= i < e ==> IsSpace(s[i])
  {
    if e > 0 && IsSpace(s[e - 1]) {
      SpaceRunBeforeAll(s, e - 1);
    }
  }

  /** `s.lstrip()`. Defined by dropping one character at a time: a slice `s[n..]` whose
      `n` may be 0 would let the solver equate `s` with `s[n..]` and then grow `s[n..][n..]`
      chains without end. */
  function LStrip(s: string): (r: string)
    ensures |r| <= |s| && (r == [] || !IsSpace(r[0]))
    decreases |s|
  {
    if s != [] && IsSpace(s[0]) then LStrip(s[1..]) else s
  }

  /** `s.rstrip()`. */
  function RStrip(s: string): (r: string)
    ensures |r| <= |s| && (r == [] || !IsSpace(r[|r| - 1]))
    decreases |s|
  {
    if s != [] && IsSpace(s[|s| - 1]) then RStrip(s[..|s| - 1]) else s
  }

  /** `LStrip(s)` is a suffix of `s`. */
  lemma {:induction false} LStripIndex(s: string)
    ensures forall i :: 0 <= i < |LStrip(s)| ==> LStrip(s)[i] == s[|s| - |LStrip(s)| + i]
    decreases |s|
  {
    if s != [] && IsSpace(s[0]) {
      LStripIndex(s[1..]);
    }
  }

  /** `RStrip(s)` is a prefix of `s`. */
  lemma {:induction false} RStripIndex(s: string)
    ensures forall i :: 0 <= i < |RStrip(s)| ==> RStrip(s)[i] == s[i]
    decreases |s|
  {
    if s != [] && IsSpace(s[|s| - 1]) {
      RStripIndex(s[..|s| - 1]);
    }
  }

  /** `RStrip` keeps the first character of what it does not empty. */
  lemma {:induction false} RStripHead(s: string)
    ensures RStrip(s) != [] ==> RStrip(s)[0] == s[0]
    decreases |s|
  {
    if s != [] && IsSpace(s[|s| - 1]) {
      RStripHead(s[..|s| - 1]);
    }
  }

  /** What `LStrip` removes is whitespace. */
  lemma {:induction false} LStripSpaces(s: string)
    ensures forall i :: 0 <= i < |s| - |LStrip(s)| ==> IsSpace(s[i])
    decreases |s|
  {
    if s != [] && IsSpace(s[0]) {
      LStripSpaces(s[1..]);
      assert forall i :: 1 <= i < |s| ==> s[i] == s[1..][i - 1];
    }
  }

  /** What `RStrip` removes is whitespace. */
  lemma {:induction false} RStripSpaces(s: string)
    ensures forall i :: |RStrip(s)| <= i < |s| ==> IsSpace(s[i])
    decreases |s|
  {
    if s != [] && IsSpace(s[|s| - 1]) {
      RStripSpaces(s[..|s| - 1]);
      assert forall i :: 0 <= i < |s| - 1 ==> s[i] == s[..|s| - 1][i];
    }
  }

  /** Where `Strip(s)` starts inside `s`. */
  function StripStart(s: string): nat {
    |s| - |LStrip(s)|
  }

  /** `s.strip()`: the string without its leading and trailing whitespace. */
  function Strip(s: string): (r: string)
    ensures |r| <= |s| && (r == [] || (!IsSpace(r[0]) && !IsSpace(r[|r| - 1])))
  {
    var l := LStrip(s);
    RStripHead(l);
    RStrip(l)
  }

  /** Each character of the strip of `s`, at its place in `s`. */
  lemma StripIndex(s: string)
    ensures |Strip(s)| <= |s| - StripStart(s)
    ensures forall i :: 0 <= i < |Strip(s)| ==> Strip(s)[i] == s[StripStart(s) + i]
  {
    LStripIndex(s);
    RStripIndex(LStrip(s));
  }

  /** The strip of `s` is the slice of `s` it starts at. */
  lemma StripSlice(s: string)
    ensures StripStart(s) + |Strip(s)| <= |s|
    ensures Strip(s) == s[StripStart(s)..StripStart(s) + |Strip(s)|]
  {
    StripIndex(s);
  }

  /** The characters after the strip of `s` are whitespace. */
  lemma StripTail(s: string)
    ensures forall i :: StripStart(s) + |Strip(s)| <= i < |s| ==> IsSpace(s[i])
  {
    var l := LStrip(s);
    var k := |s| - |l|;
    LStripIndex(s);
    RStripSpaces(l);
    forall i | k + |RStrip(l)| <= i < |s| ensures IsSpace(s[i]) {
      assert s[i] == l[i - k];
    }
  }

  /** The characters outside the strip of `s` are whitespace. */
  lemma StripOutside(s: string)
    ensures forall i :: 0 <= i < |s| && !(StripStart(s) <= i < StripStart(s) + |Strip(s)|) ==> IsSpace(s[i])
  {
    LStripSpaces(s);
    StripTail(s);
  }

  lemma StripEmptyIff(s: string)
    ensures Strip(s) == [] <==> forall i :: 0 <= i < |s| ==> IsSpace(s[i])
  {
    var l := LStrip(s);
    LStripSpaces(s);
    LStripIndex(s);
    RStripSpaces(l);
    if Strip(s) == [] {
      assert l == [];
    }
  }

  /** A string that neither starts nor ends with whitespace is its own strip. */
  lemma StripNoop(s: string)
    requires s == [] || (!IsSpace(s[0]) && !IsSpace(s[|s| - 1]))
    ensures Strip(s) == s
  {
  }

  lemma StripIdempotent(s: string)
    ensures Strip(Strip(s)) == Strip(s)
  {
    StripNoop(Strip(s));
  }

  lemma StripChars(s: string, c: char)
    requires c in Strip(s)
    ensures c in s
  {
    var r := Strip(s);
    var k := StripStart(s);
    StripIndex(s);
    var j :| 0 <= j < |r| && r[j] == c;
    assert s[k + j] == c;
  }

  // ---------------------------------------------------------------- whitespace split

  /** Length of the leading run of non-whitespace characters. */
  function TokenLength(t: string): (n: nat)
    ensures n <= |t|
    ensures n < |t| ==> IsSpace(t[n])
    ensures forall i :: 0 <= i < n ==> !IsSpace(t[i])
  {
    if t == [] || IsSpace(t[0]) then 0 else 1 + TokenLength(t[1..])
  }

  /** A word of `s.split()`: non-empty, without whitespace. */
  predicate IsWord(w: string) {
    w != [] && forall i :: 0 <= i < |w| ==> !IsSpace(w[i])
  }

  /** `s.split()`: the maximal runs of non-whitespace characters, in order. */
  function Words(s: string): (r: seq<string>)
    ensures forall k :: 0 <= k < |r| ==> IsWord(r[k])
    decreases |s|
  {
    if s == [] then []
    else if IsSpace(s[0]) then Words(s[1..])
    else
      var n := TokenLength(s);
      [s[..n]] + Words(s[n..])
  }

  // ---------------------------------------------------------------- split and join

  /** `sep.join(parts)`. */
  function Join(parts: seq<string>, sep: string): string {
    if |parts| == 0 then ""
    else if |parts| == 1 then parts[0]
    else parts[0] + sep + Join(parts[1..], sep)
  }

  /** Joining two non-empty lists puts one separator between their joins. */
  lemma {:induction false} JoinConcat(a: seq<string>, b: seq<string>, sep: string)
    requires a != [] && b != []
    ensures Join(a + b, sep) == Join(a, sep) + sep + Join(b, sep)
    decreases |a|
  {
    if |a| > 1 {
      assert (a + b)[1..] == a[1..] + b;
      JoinConcat(a[1..], b, sep);
    }
  }

  lemma JoinAppend(parts: seq<string>, last: string, sep: string)
    requires parts != []
    ensures Join(parts + [last], sep) == Join(parts, sep) + sep + last
  {
    JoinConcat(parts, [last], sep);
  }

  /** `s.split(sep)` for a non-empty separator: the pieces between the leftmost
      non-overlapping occurrences of `sep`. */
  function Split(s: string, sep: string): (parts: seq<string>)
    requires sep != []
    ensures |parts| >= 1
    decreases |s|
  {
    var i := Find(s, sep);
    if i < 0 then [s] else [s[..i]] + Split(s[i + |sep|..], sep)
  }

  lemma {:induction false} JoinSplit(s: string, sep: string)
    requires sep != []
    ensures Join(Split(s, sep), sep) == s
    decreases |s|
  {
    var i := Find(s, sep);
    if i >= 0 {
      var rest := s[i + |sep|..];
      var tail := Split(rest, sep);
      JoinSplit(rest, sep);
      var parts := [s[..i]] + tail;
      assert Split(s, sep) == parts;
      assert parts[1..] == tail;
      assert Join(parts, sep) == s[..i] + sep + Join(tail, sep);
      assert s[i..i + |sep|] == sep;
      assert s == s[..i] + s[i..i + |sep|] + rest;
    }
  }

  /** No piece of a split on one character contains that character. */
  lemma {:induction false} SplitCharPieces(s: string, c: char)
    ensures forall p :: p in Split(s, [c]) ==> c !in p
    decreases |s|
  {
    var i := Find(s, [c]);
    if i < 0 {
      forall j | 0 <= j < |s| ensures s[j] != c {
        FindFirst(s, [c], j);
        assert s[j..j + 1] == [s[j]];
      }
    } else {
      SplitCharPieces(s[i + 1..], c);
      forall j | 0 <= j < i ensures s[j] != c {
        FindFirst(s, [c], j);
        assert s[j..j + 1] == [s[j]];
      }
    }
  }

  /** Splitting a join on one character gives back the pieces, when none contains it. */
  lemma {:induction false} SplitJoinChar(parts: seq<string>, c: char)
    requires |parts| >= 1
    requires forall k :: 0 <= k < |parts| ==> c !in parts[k]
    ensures Split(Join(parts, [c]), [c]) == parts
    decreases |parts|
  {
    var s := Join(parts, [c]);
    var p := parts[0];
    forall j | 0 <= j < |p| ensures !OccursAt(s, [c], j) {
      if |parts| > 1 {
        assert s == p + [c] + Join(parts[1..], [c]);
      }
      assert s[j] == p[j];
    }
    if |parts| == 1 {
      assert !OccursAt(s, [c], |p|);
      FindFromNone(s, [c], 0);
    } else {
      var rest := Join(parts[1..], [c]);
      assert s == p + [c] + rest;
      assert OccursAt(s, [c], |p|);
      FindFromAt(s, [c], 0, |p|);
      assert s[|p| + 1..] == rest;
      SplitJoinChar(parts[1..], c);
      assert s[..|p|] == p;
    }
  }

  /** A line with no line-boundary character. */
  predicate OneLine(l: string) {
    forall i :: 0 <= i < |l| ==> !IsLineBoundary(l[i])
  }

  /** `s.splitlines()`: pieces between line boundaries, with "\r\n" one boundary and no
      empty piece after a final boundary. */
  function SplitLines(s: string): (r: seq<string>)
    ensures forall k :: 0 <= k < |r| ==> OneLine(r[k])
    decreases |s|
  {
    if s == [] then []
    else
      var n := LineLength(s);
      if n == |s| then [s]
      else
        var skip := if s[n] == '\r' && n + 1 < |s| && s[n + 1] == '\n' then 2 else 1;
        [s[..n]] + SplitLines(s[n + skip..])
  }

  /** Length of the leading run of characters that are not line boundaries. */
  function LineLength(t: string): (n: nat)
    ensures n <= |t|
    ensures n < |t| ==> IsLineBoundary(t[n])
    ensures forall i :: 0 <= i < n ==> !IsLineBoundary(t[i])
  {
    if t == [] || IsLineBoundary(t[0]) then 0 else 1 + LineLength(t[1..])
  }

  /** Joining non-empty lines without line boundaries on "\n" and splitting the result
      into lines gives back the lines. */
  lemma {:induction false} SplitLinesJoin(lines: seq<string>)
    requires forall k :: 0 <= k < |lines| ==> lines[k] != [] && OneLine(lines[k])
    ensures SplitLines(Join(lines, "\n")) == lines
    decreases |lines|
  {
    if |lines| == 0 {
    } else {
      var s := Join(lines, "\n");
      var p := lines[0];
      if |lines| == 1 {
        assert s == p;
        assert LineLength(s) == |s| by { LineLengthOf(p, ""); }
      } else {
        var rest := Join(lines[1..], "\n");
        assert s == p + ("\n" + rest);
        LineLengthOf(p, "\n" + rest);
        assert LineLength(s) == |p|;
        assert s[|p|] == '\n';
        assert s[|p| + 1..] == rest;
        assert s[..|p|] == p;
        SplitLinesJoin(lines[1..]);
      }
    }
  }

  lemma {:induction false} LineLengthOf(p: string, rest: string)
    requires OneLine(p)
    requires rest == [] || IsLineBoundary(rest[0])
    ensures LineLength(p + rest) == |p|
    decreases |p|
  {
    if p != [] {
      assert (p + rest)[1..] == p[1..] + rest;
      LineLengthOf(p[1..], rest);
    }
  }

  // ---------------------------------------------------------------- replace, count

  /** `s.replace(c, r)` for a one-character pattern. */
  function ReplaceChar(s: string, c: char, r: string): string {
    if s == [] then [] else (if s[0] == c then r else [s[0]]) + ReplaceChar(s[1..], c, r)
  }

  /** After the replacement no `c` is left (unless `r` brings one in), every character
      comes from `s` or `r`, and a string without `c` is unchanged. */
  lemma {:induction false} ReplaceCharProps(s: string, c: char, r: string)
    ensures c !in r ==> c !in ReplaceChar(s, c, r)
    ensures c !in s ==> ReplaceChar(s, c, r) == s
    ensures forall x :: x in ReplaceChar(s, c, r) ==> x in s || x in r
  {
    if s != [] {
      ReplaceCharProps(s[1..], c, r);
      var h := if s[0] == c then r else [s[0]];
      assert ReplaceChar(s, c, r) == h + ReplaceChar(s[1..], c, r);
      forall x | x in ReplaceChar(s, c, r) ensures x in s || x in r {
        if x !in h {
          assert x in ReplaceChar(s[1..], c, r);
          if x in s[1..] {
            var i :| 0 <= i < |s[1..]| && s[1..][i] == x;
            assert s[i + 1] == x;
          }
        }
      }
      assert c !in s ==> s == [s[0]] + s[1..];
    }
  }

  lemma {:induction false} ReplaceCharConcat(a: string, b: string, c: char, r: string)
    ensures ReplaceChar(a + b, c, r) == ReplaceChar(a, c, r) + ReplaceChar(b, c, r)
    decreases |a|
  {
    if a != [] {
      assert (a + b)[0] == a[0];
      assert (a + b)[1..] == a[1..] + b;
      ReplaceCharConcat(a[1..], b, c, r);
      var h := if a[0] == c then r else [a[0]];
      assert ReplaceChar(a + b, c, r) == h + ReplaceChar(a[1..] + b, c, r);
      assert ReplaceChar(a, c, r) == h + ReplaceChar(a[1..], c, r);
    } else {
      assert a + b == b;
    }
  }

  /** `s.count(c)` for one character. */
  function CountChar(s: string, c: char): nat {
    multiset(s)[c]
  }

  // ---------------------------------------------------------------- numbers

  function DigitChar(d: nat): (c: char)
    requires d < 10
    ensures IsDigit(c) && c as int == '0' as int + d
  {
    ('0' as int + d) as char
  }

  function NatToString(n: nat): (s: string)
    ensures s != [] && forall i :: 0 <= i < |s| ==> IsDigit(s[i])
  {
    if n < 10 then [DigitChar(n)] else NatToString(n / 10) + [DigitChar(n % 10)]
  }

  /** `str(i)` for a Python int. */
  function IntToString(i: int): (s: string)
    ensures s != []
  {
    if i < 0 then "-" + NatToString(-i) else NatToString(i)
  }

  /** Concatenation of a sequence of strings, `"".join(parts)`. */
  function Concat(parts: seq<string>): string {
    if parts == [] then "" else parts[0] + Concat(parts[1..])
  }

  lemma {:induction false} ConcatAppend(parts: seq<string>, last: string)
    ensures Concat(parts + [last]) == Concat(parts) + last
    decreases |parts|
  {
    if parts != [] {
      assert (parts + [last])[1..] == parts[1..] + [last];
      ConcatAppend(parts[1..], last);
    }
  }
}
