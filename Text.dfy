/** The string operations the analysers rely on, as Python defines them for
    `str`: case folding (`lower`, `title`, `isupper`) on ASCII letters,
    whitespace as `str.isspace` defines it, `strip`, `split()`, `split(sep)`,
    `sep.join(...)`, the substring test `sub in s`, and the blank-line split
    `re.split(r'\n\n+', s)`. */
module Text {

  // ---------------------------------------------------------------- characters

  predicate IsUpperLetter(c: char) { 'A' <= c <= 'Z' }

  predicate IsLowerLetter(c: char) { 'a' <= c <= 'z' }

  /** A cased character in the sense of `str.title` and `str.isupper`. */
  predicate IsLetter(c: char) { IsUpperLetter(c) || IsLowerLetter(c) }

  predicate IsDigit(c: char) { '0' <= c <= '9' }

  /** A character of the regular-expression class `\w`. */
  predicate IsWordChar(c: char) { IsLetter(c) || IsDigit(c) || c == '_' }

  /** The characters for which `str.isspace` holds; `split()` and `strip()`
      separate and trim on exactly these. */
  predicate IsSpace(c: char) {
    var n := c as int;
    (9 <= n <= 13) || (28 <= n <= 32) || n == 0x85 || n == 0xA0 || n == 0x1680
    || (0x2000 <= n <= 0x200A) || n == 0x2028 || n == 0x2029 || n == 0x202F
    || n == 0x205F || n == 0x3000
  }

  function LowerChar(c: char): (r: char)
    ensures !IsUpperLetter(r)
    ensures IsSpace(r) <==> IsSpace(c)
    ensures r == '\n' <==> c == '\n'
    ensures IsLetter(r) <==> IsLetter(c)
  {
    if IsUpperLetter(c) then (c as int + 32) as char else c
  }

  function UpperChar(c: char): (r: char)
    ensures !IsLowerLetter(r)
    ensures IsLetter(r) <==> IsLetter(c)
  {
    if IsLowerLetter(c) then (c as int - 32) as char else c
  }

  // ------------------------------------------------------------------ case

  /** `s.lower()`. */
  function Lower(s: string): (r: string)
    ensures |r| == |s|
  {
    seq(|s|, i requires 0 <= i < |s| => LowerChar(s[i]))
  }

  lemma LowerAppend(a: string, b: string)
    ensures Lower(a + b) == Lower(a) + Lower(b)
  {
  }

  /** `s.title()`: a letter is upper-cased when the character before it is not
      a letter, and lower-cased otherwise. */
  function Title(s: string): string {
    TitleAfter(s, false)
  }

  function TitleAfter(s: string, afterLetter: bool): (r: string)
    ensures |r| == |s|
  {
    if s == [] then []
    else
      var c := if IsLetter(s[0]) && !afterLetter then UpperChar(s[0]) else LowerChar(s[0]);
      [c] + TitleAfter(s[1..], IsLetter(s[0]))
  }

  /** `s.isupper()`: some letter, and no lower-case letter. */
  predicate IsUpperText(s: string) {
    (exists i :: 0 <= i < |s| && IsUpperLetter(s[i]))
    && forall i :: 0 <= i < |s| ==> !IsLowerLetter(s[i])
  }

  // ------------------------------------------------------------- substrings

  predicate StartsWith(s: string, prefix: string) {
    |prefix| <= |s| && s[..|prefix|] == prefix
  }

  /** Python's `sub in s`. */
  predicate Contains(s: string, sub: string)
    decreases |s|
  {
    StartsWith(s, sub) || (s != [] && Contains(s[1..], sub))
  }

  lemma ContainsAt(s: string, sub: string, i: nat)
    requires i + |sub| <= |s| && s[i..i + |sub|] == sub
    ensures Contains(s, sub)
    decreases i
  {
    if i > 0 {
      assert s[1..][i - 1..i - 1 + |sub|] == sub;
      ContainsAt(s[1..], sub, i - 1);
    }
  }

  lemma {:induction false} ContainsWitness(s: string, sub: string) returns (i: nat)
    requires Contains(s, sub)
    ensures i + |sub| <= |s| && s[i..i + |sub|] == sub
    decreases |s|
  {
    if StartsWith(s, sub) {
      i := 0;
    } else {
      var j := ContainsWitness(s[1..], sub);
      i := j + 1;
      assert s[i..i + |sub|] == s[1..][j..j + |sub|];
    }
  }

  /** A text lacking one of the characters of `sub` does not contain it. */
  lemma MissingCharNotContained(s: string, sub: string, k: nat)
    requires k < |sub| && sub[k] !in s
    ensures !Contains(s, sub)
  {
    if Contains(s, sub) {
      var i := ContainsWitness(s, sub);
    }
  }

  lemma ContainsEmpty(s: string)
    ensures Contains(s, [])
  {
    assert StartsWith(s, []);
  }

  lemma {:induction false} ContainsInPrefix(s: string, t: string, sub: string)
    requires Contains(s, sub)
    ensures Contains(s + t, sub)
  {
    var i := ContainsWitness(s, sub);
    assert (s + t)[i..i + |sub|] == s[i..i + |sub|];
    ContainsAt(s + t, sub, i);
  }

  lemma {:induction false} ContainsInSuffix(s: string, t: string, sub: string)
    requires Contains(t, sub)
    ensures Contains(s + t, sub)
  {
    var i := ContainsWitness(t, sub);
    assert (s + t)[|s| + i..|s| + i + |sub|] == t[i..i + |sub|];
    ContainsAt(s + t, sub, |s| + i);
  }

  /** `any(k in s for k in keys)`. */
  predicate ContainsAny(s: string, keys: seq<string>) {
    exists k :: k in keys && Contains(s, k)
  }

  // ------------------------------------------------------------ whitespace

  /** The end of the run of white space starting at `i`. */
  function SpaceRunFrom(s: string, i: nat): (j: nat)
    requires i <= |s|
    ensures i <= j <= |s|
    decreases |s| - i
  {
    if i < |s| && IsSpace(s[i]) then SpaceRunFrom(s, i + 1) else i
  }

  lemma {:induction false} SpaceRunFromSpaces(s: string, i: nat)
    requires i <= |s|
    ensures forall k :: i <= k < SpaceRunFrom(s, i) ==> IsSpace(s[k])
    ensures SpaceRunFrom(s, i) < |s| ==> !IsSpace(s[SpaceRunFrom(s, i)])
    decreases |s| - i
  {
    if i < |s| && IsSpace(s[i]) {
      SpaceRunFromSpaces(s, i + 1);
    }
  }

  /** The start of the run of white space ending at `j`. */
  function SpaceRunBack(s: string, j: nat): (i: nat)
    requires j <= |s|
    ensures i <= j
    decreases j
  {
    if j > 0 && IsSpace(s[j - 1]) then SpaceRunBack(s, j - 1) else j
  }

  lemma {:induction false} SpaceRunBackSpaces(s: string, j: nat)
    requires j <= |s|
    ensures forall k :: SpaceRunBack(s, j) <= k < j ==> IsSpace(s[k])
    ensures SpaceRunBack(s, j) > 0 ==> !IsSpace(s[SpaceRunBack(s, j) - 1])
    decreases j
  {
    if j > 0 && IsSpace(s[j - 1]) {
      SpaceRunBackSpaces(s, j - 1);
    }
  }

  /** `s.lstrip()`. */
  function StripLeft(s: string): string {
    s[SpaceRunFrom(s, 0)..]
  }

  /** `s.rstrip()`. */
  function StripRight(s: string): string {
    s[..SpaceRunBack(s, |s|)]
  }

  /** `s.strip()`. */
  function Strip(s: string): string {
    StripRight(StripLeft(s))
  }

  /** A stripped text neither starts nor ends with white space. */
  lemma StripEnds(s: string)
    ensures |Strip(s)| <= |s|
    ensures Strip(s) != [] ==> !IsSpace(Strip(s)[0]) && !IsSpace(Strip(s)[|Strip(s)| - 1])
  {
    var a := SpaceRunFrom(s, 0);
    var l := s[a..];
    SpaceRunFromSpaces(s, 0);
    SpaceRunBackSpaces(l, |l|);
    var b := SpaceRunBack(l, |l|);
    if b > 0 {
      assert l[0] == s[a];
    }
  }

  /** True when `s.strip()` is empty, that is, `s` is blank. */
  predicate IsBlank(s: string) {
    forall i :: 0 <= i < |s| ==> IsSpace(s[i])
  }

  lemma StripEmptyIffBlank(s: string)
    ensures Strip(s) == [] <==> IsBlank(s)
  {
    var a := SpaceRunFrom(s, 0);
    var l := s[a..];
    SpaceRunFromSpaces(s, 0);
    SpaceRunBackSpaces(l, |l|);
    if a < |s| {
      assert l[0] == s[a];
      assert SpaceRunBack(l, |l|) > 0;
    }
  }

  /** Stripping twice strips nothing more. */
  lemma StripIdempotent(s: string)
    ensures Strip(Strip(s)) == Strip(s)
  {
    var t := Strip(s);
    StripEnds(s);
    if t != [] {
      assert SpaceRunFrom(t, 0) == 0;
      assert t[0..] == t;
      assert SpaceRunBack(t, |t|) == |t|;
    }
  }

  /** The first maximal run of non-space characters of `s`. */
  function TakeWord(s: string): (w: string)
    ensures |w| <= |s| && w == s[..|w|]
    ensures s != [] && !IsSpace(s[0]) ==> |w| >= 1
  {
    if s == [] || IsSpace(s[0]) then [] else [s[0]] + TakeWord(s[1..])
  }

  /** `s.split()`: the maximal runs of non-space characters. */
  function Words(s: string): seq<string>
    decreases |s|
  {
    var t := StripLeft(s);
    if t == [] then []
    else
      var w := TakeWord(t);
      [w] + Words(t[|w|..])
  }

  /** `len(s.split())`. */
  function WordCount(s: string): nat {
    |Words(s)|
  }

  // ---------------------------------------------------- split and join

  /** `s.split(sep)` for a one-character separator: always at least one piece. */
  function Split(s: string, sep: char): (r: seq<string>)
    ensures |r| >= 1
    decreases |s|
  {
    if s == [] then [[]]
    else
      var rest := Split(s[1..], sep);
      if s[0] == sep then [[]] + rest else [[s[0]] + rest[0]] + rest[1..]
  }

  /** `sep.join(parts)`. */
  function Join(sep: string, parts: seq<string>): string {
    if parts == [] then []
    else if |parts| == 1 then parts[0]
    else parts[0] + sep + Join(sep, parts[1..])
  }

  /** A join begins with its first part. */
  lemma JoinStartsWith(sep: string, parts: seq<string>)
    requires parts != []
    ensures StartsWith(Join(sep, parts), parts[0])
  {
  }

  /** Splitting on a separator and joining back with it gives the text back. */
  lemma {:induction false} JoinSplit(s: string, sep: char)
    ensures Join([sep], Split(s, sep)) == s
    decreases |s|
  {
    if s != [] {
      JoinSplit(s[1..], sep);
      var rest := Split(s[1..], sep);
      if s[0] == sep {
        assert Split(s, sep) == [[]] + rest;
      } else {
        var r := Split(s, sep);
        assert r == [[s[0]] + rest[0]] + rest[1..];
        if |rest| == 1 {
          assert Join([sep], r) == [s[0]] + rest[0];
        } else {
          assert r[1..] == rest[1..];
          assert Join([sep], r) == [s[0]] + rest[0] + [sep] + Join([sep], rest[1..]);
        }
      }
    }
  }

  /** No piece of a split contains the separator. */
  lemma {:induction false} SplitPiecesFree(s: string, sep: char)
    ensures forall p :: p in Split(s, sep) ==> sep !in p
    decreases |s|
  {
    if s != [] {
      SplitPiecesFree(s[1..], sep);
    }
  }

  /** The first piece of a split is the text up to the first separator. */
  lemma {:induction false} SplitHead(s: string, sep: char)
    ensures var h := Split(s, sep)[0];
      |h| <= |s| && s[..|h|] == h && (|h| < |s| ==> s[|h|] == sep)
    decreases |s|
  {
    if s != [] && s[0] != sep {
      SplitHead(s[1..], sep);
    }
  }

  /** A text without newlines that begins `s.lower()` begins the lower-cased
      first line of `s`. */
  lemma FirstLineStarts(s: string, w: string)
    requires StartsWith(Lower(s), w) && '\n' !in w
    ensures Contains(Lower(Split(s, '\n')[0]), w)
  {
    var h := Split(s, '\n')[0];
    SplitHead(s, '\n');
    assert |h| < |s| ==> Lower(s)[|h|] == '\n';
    assert forall j :: 0 <= j < |w| ==> w[j] == Lower(s)[j];
    assert Lower(h)[..|w|] == Lower(s)[..|w|];
    assert StartsWith(Lower(h), w);
  }

  /** A text without newlines that occurs in `s.lower()` occurs in the
      lower-cased form of one of the lines of `s`. */
  lemma {:induction false} LineContains(s: string, w: string)
    requires Contains(Lower(s), w) && '\n' !in w
    ensures exists i :: 0 <= i < |Split(s, '\n')| && Contains(Lower(Split(s, '\n')[i]), w)
    decreases |s|
  {
    var r := Split(s, '\n');
    if s == [] {
      assert Contains(Lower(r[0]), w);
    } else if StartsWith(Lower(s), w) {
      FirstLineStarts(s, w);
    } else {
      assert Lower(s)[1..] == Lower(s[1..]);
      LineContains(s[1..], w);
      var rest := Split(s[1..], '\n');
      var i :| 0 <= i < |rest| && Contains(Lower(rest[i]), w);
      if s[0] == '\n' {
        assert r[i + 1] == rest[i];
      } else if i == 0 {
        assert Lower(r[0])[1..] == Lower(rest[0]);
        assert Contains(Lower(r[0]), w);
      } else {
        assert r[i] == rest[i];
      }
    }
  }

  /** Drops the newlines at the front of `s`. */
  function DropNewlines(s: string): (r: string)
    ensures |r| <= |s|
    ensures r != [] ==> r[0] != '\n'
  {
    if s != [] && s[0] == '\n' then DropNewlines(s[1..]) else s
  }

  /** `re.split(r'\n\n+', s)`: the text between maximal runs of two or more
      newlines. */
  function SplitBlankLines(s: string): (r: seq<string>)
    ensures |r| >= 1
    decreases |s|
  {
    if s == [] then [[]]
    else if |s| >= 2 && s[0] == '\n' && s[1] == '\n' then [[]] + SplitBlankLines(DropNewlines(s))
    else
      var rest := SplitBlankLines(s[1..]);
      [[s[0]] + rest[0]] + rest[1..]
  }

  /** No piece of a blank-line split holds two newlines in a row. */
  lemma {:induction false} SplitBlankLinesPieces(s: string)
    ensures forall p :: p in SplitBlankLines(s) ==> !Contains(p, "\n\n")
    decreases |s|
  {
    if s == [] {
      assert !StartsWith([], "\n\n");
    } else if |s| >= 2 && s[0] == '\n' && s[1] == '\n' {
      SplitBlankLinesPieces(DropNewlines(s));
      assert !StartsWith([], "\n\n");
    } else {
      SplitBlankLinesPieces(s[1..]);
      var rest := SplitBlankLines(s[1..]);
      var head := [s[0]] + rest[0];
      assert rest[0] in rest;
      assert head[1..] == rest[0];
      if s[0] != '\n' {
        assert head[0] != '\n';
      } else if s[1..] != [] {
        SplitBlankLinesHead(s[1..]);
        assert head[1] != '\n';
      }
      NoBlankLineStart(head);
      assert SplitBlankLines(s) == [head] + rest[1..];
      forall p | p in SplitBlankLines(s) ensures !Contains(p, "\n\n") {
        if p != head { assert p in rest; }
      }
    }
  }

  lemma NoBlankLineStart(s: string)
    requires |s| < 2 || s[0] != '\n' || s[1] != '\n'
    ensures !StartsWith(s, "\n\n")
  {
    if |s| >= 2 {
      assert s[..2][0] == s[0] && s[..2][1] == s[1];
    }
  }

  /** The first piece of a blank-line split starts with the text's first
      character, unless the text begins with a blank line. */
  lemma {:induction false} SplitBlankLinesHead(s: string)
    requires s != [] && !(|s| >= 2 && s[0] == '\n' && s[1] == '\n')
    ensures SplitBlankLines(s)[0] != [] && SplitBlankLines(s)[0][0] == s[0]
  {
  }
}
