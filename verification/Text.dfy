/** Strings as the console's scripts treat them: trimming, ASCII case folding and substring search.
    A `char` stands for one string element; case folding covers the ASCII letters. */
module Text {

  datatype Option<+T> = None | Some(value: T)

  /** The characters `String.prototype.trim` and `Number` strip (white space and line terminators). */
  predicate IsSpace(c: char) {
    || '\t' <= c <= '\r' || c == ' ' || c == '\U{00A0}' || c == '\U{1680}'
    || '\U{2000}' <= c <= '\U{200A}' || c == '\U{2028}' || c == '\U{2029}'
    || c == '\U{202F}' || c == '\U{205F}' || c == '\U{3000}' || c == '\U{FEFF}'
  }

  function TrimStart(s: string): string {
    if s != [] && IsSpace(s[0]) then TrimStart(s[1..]) else s
  }

  function TrimEnd(s: string): string {
    if s != [] && IsSpace(s[|s| - 1]) then TrimEnd(s[..|s| - 1]) else s
  }

  function Trim(s: string): string {
    TrimEnd(TrimStart(s))
  }

  /** `text.trim()` is the empty string, so the text reads as falsy. */
  predicate Blank(s: string) {
    Trim(s) == ""
  }

  lemma {:induction false} TrimStartBoundary(s: string)
    ensures TrimStart(s) != [] ==> !IsSpace(TrimStart(s)[0])
  {
    if s != [] && IsSpace(s[0]) {
      TrimStartBoundary(s[1..]);
    }
  }

  /** Trimming the end keeps a prefix, drops only white space and leaves no white space last. */
  lemma {:induction false} TrimEndBoundary(s: string)
    ensures TrimEnd(s) <= s
    ensures forall i :: |TrimEnd(s)| <= i < |s| ==> IsSpace(s[i])
    ensures TrimEnd(s) != [] ==> !IsSpace(TrimEnd(s)[|TrimEnd(s)| - 1])
  {
    if s != [] && IsSpace(s[|s| - 1]) {
      TrimEndBoundary(s[..|s| - 1]);
    }
  }

  /** Trimming twice is trimming once. */
  lemma TrimIdempotent(s: string)
    ensures Trim(Trim(s)) == Trim(s)
  {
    TrimStartBoundary(s);
    TrimEndBoundary(TrimStart(s));
  }

  lemma TrimFixesTight(s: string)
    requires s != [] && !IsSpace(s[0]) && !IsSpace(s[|s| - 1])
    ensures Trim(s) == s
  {
  }

  function Lower(c: char): char {
    if 'A' <= c <= 'Z' then c - 'A' + 'a' else c
  }

  function LowerText(s: string): (r: string)
    ensures |r| == |s|
  {
    seq(|s|, i requires 0 <= i < |s| => Lower(s[i]))
  }

  function Upper(c: char): char {
    if 'a' <= c <= 'z' then c - 'a' + 'A' else c
  }

  function UpperText(s: string): (r: string)
    ensures |r| == |s|
  {
    seq(|s|, i requires 0 <= i < |s| => Upper(s[i]))
  }

  /** Case folding maps the ASCII letters onto each other, in alphabetical order, and nothing else. */
  lemma FoldingMapsLetters(c: char)
    ensures Lower(c) as int == c as int + (if 65 <= c as int <= 90 then 32 else 0)
    ensures Upper(c) as int == c as int - (if 97 <= c as int <= 122 then 32 else 0)
  {
  }

  /** Trimming takes the white space off both ends, and only that. */
  lemma TrimTakesEnds(s: string)
    ensures exists i, j :: 0 <= i <= j <= |s| && TrimmedAt(s, i, j)
  {
    var i := SpacesBefore(s);
    TrimStartBoundary(s);
    TrimEndBoundary(TrimStart(s));
    var j := i + |Trim(s)|;
    assert s[i..j] == Trim(s);
    forall k | j <= k < |s| ensures IsSpace(s[k]) {
      assert s[k] == TrimStart(s)[k - i];
    }
    assert TrimmedAt(s, i, j);
  }

  /** What is left is `s[i..j]`, without white space at its ends, and all around it is white space. */
  predicate TrimmedAt(s: string, i: int, j: int)
    requires 0 <= i <= j <= |s|
  {
    && Trim(s) == s[i..j]
    && (forall k :: 0 <= k < i ==> IsSpace(s[k])) && (forall k :: j <= k < |s| ==> IsSpace(s[k]))
    && (i < j ==> !IsSpace(s[i]) && !IsSpace(s[j - 1]))
  }

  lemma {:induction false} SpacesBefore(s: string) returns (i: nat)
    ensures i <= |s| && TrimStart(s) == s[i..] && forall k :: 0 <= k < i ==> IsSpace(s[k])
  {
    i := 0;
    if s != [] && IsSpace(s[0]) {
      var j := SpacesBefore(s[1..]);
      i := j + 1;
      assert s[1..][j..] == s[i..];
      forall k | 0 <= k < i ensures IsSpace(s[k]) {
        assert k > 0 ==> s[k] == s[1..][k - 1];
      }
    }
  }

  /** `p` occurs in `s` starting at index `i`. */
  predicate At(s: string, p: string, i: int) {
    0 <= i && i + |p| <= |s| && s[i..i + |p|] == p
  }

  predicate Contains(s: string, p: string) {
    exists i :: 0 <= i <= |s| && At(s, p, i)
  }

  /** A case-insensitive search for a lower-case pattern. */
  predicate ContainsFolded(s: string, p: string) {
    Contains(LowerText(s), p)
  }

  predicate ContainsAnyFolded(s: string, ps: seq<string>) {
    exists k :: 0 <= k < |ps| && ContainsFolded(s, ps[k])
  }

  /** Every character of a pattern that occurs in a text is in the text. */
  lemma OccurrenceBringsChars(s: string, p: string, j: nat)
    requires j < |p| && Contains(s, p)
    ensures p[j] in s
  {
    var i :| 0 <= i <= |s| && At(s, p, i);
    assert s[i..i + |p|][j] == s[i + j];
  }

  /** An occurrence in a cut text with a tail appended was there before the cut, lies in the tail, or
      runs over the first character of the tail. */
  lemma OccurrenceAcrossCut(s: string, n: nat, tail: string, p: string)
    requires n <= |s| && tail != [] && p != []
    requires Contains(s[..n] + tail, p)
    ensures Contains(s, p) || Contains(tail, p) || tail[0] in p
  {
    var t := s[..n] + tail;
    var i :| 0 <= i <= |t| && At(t, p, i);
    if i + |p| <= n {
      assert s[i..i + |p|] == t[i..i + |p|];
      assert At(s, p, i);
    } else if n <= i {
      assert t[n..] == tail;
      assert tail[i - n..i - n + |p|] == t[i..i + |p|];
      assert At(tail, p, i - n);
    } else {
      assert t[i..i + |p|][n - i] == tail[0];
    }
  }
}
