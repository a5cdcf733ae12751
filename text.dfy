/** String helpers the source takes from JavaScript: `String.prototype.trim`,
    `toLowerCase` and a case-insensitive regular expression search. */
module Text {

  /** The characters `trim` removes: ECMAScript's WhiteSpace (tab, vertical
      tab, form feed, the byte order mark and every space separator of
      Unicode category Zs) and LineTerminator (line feed, carriage return and
      the two Unicode line terminators). */
  predicate IsWhitespace(c: char) {
    || c in {'\t', '\n', '\r', '\U{000B}', '\U{000C}', '\U{FEFF}', '\U{2028}', '\U{2029}'}
    || c in {' ', '\U{00A0}', '\U{1680}', '\U{202F}', '\U{205F}', '\U{3000}'}
    || '\U{2000}' <= c <= '\U{200A}'
  }

  /** `s` with its leading white space removed. */
  function TrimStart(s: string): (r: string)
    ensures |r| <= |s| && r == s[|s| - |r|..]
    ensures forall i :: 0 <= i < |s| - |r| ==> IsWhitespace(s[i])
    ensures r != [] ==> !IsWhitespace(r[0])
  {
    if s != [] && IsWhitespace(s[0]) then TrimStart(s[1..]) else s
  }

  /** `s` with its trailing white space removed. */
  function TrimEnd(s: string): (r: string)
    ensures |r| <= |s| && r == s[..|r|]
    ensures forall i :: |r| <= i < |s| ==> IsWhitespace(s[i])
    ensures r != [] ==> !IsWhitespace(r[|r| - 1])
  {
    if s != [] && IsWhitespace(s[|s| - 1]) then TrimEnd(s[..|s| - 1]) else s
  }

  /** `r` is the infix of `s` starting at `i`, and everything of `s` outside
      it is white space. */
  predicate TrimmedAt(s: string, r: string, i: int) {
    && 0 <= i <= |s| - |r|
    && r == s[i..i + |r|]
    && (forall j :: 0 <= j < i ==> IsWhitespace(s[j]))
    && (forall j :: i + |r| <= j < |s| ==> IsWhitespace(s[j]))
  }

  /** `s.trim()`: the longest infix of `s` that neither starts nor ends with
      white space, everything cut away on either side being white space. */
  function Trim(s: string): (r: string)
    ensures r != [] ==> !IsWhitespace(r[0]) && !IsWhitespace(r[|r| - 1])
    ensures exists i :: TrimmedAt(s, r, i)
  {
    var t := TrimStart(s);
    TrimmedAtSplit(s, t, TrimEnd(t));
    TrimEnd(t)
  }

  /** Cutting leading white space and then trailing white space leaves an
      infix that `TrimmedAt` describes. */
  lemma TrimmedAtSplit(s: string, t: string, r: string)
    requires |t| <= |s| && t == s[|s| - |t|..]
    requires forall i :: 0 <= i < |s| - |t| ==> IsWhitespace(s[i])
    requires |r| <= |t| && r == t[..|r|]
    requires forall i :: |r| <= i < |t| ==> IsWhitespace(t[i])
    ensures TrimmedAt(s, r, |s| - |t|)
  {
    var i := |s| - |t|;
    assert r == s[i..i + |r|];
    forall j | i + |r| <= j < |s|
      ensures IsWhitespace(s[j])
    {
      assert s[j] == t[j - i];
    }
  }

  /** Trimming twice is trimming once, so a name stored trimmed validates as
      the typed text did. */
  lemma {:induction false} TrimIdempotent(s: string)
    ensures Trim(Trim(s)) == Trim(s)
  {
    var r := Trim(s);
    if r != [] {
      assert TrimStart(r) == r;
      assert TrimEnd(r) == r;
    }
  }

  /** ASCII lower-casing of one character. */
  function LowerChar(c: char): (r: char)
    ensures 'A' <= c <= 'Z' ==> 'a' <= r <= 'z' && r as int - c as int == 32
    ensures !('A' <= c <= 'Z') ==> r == c
  {
    if 'A' <= c <= 'Z' then (c as int + 32) as char else c
  }

  /** `s.toLowerCase()`, for ASCII letters. */
  function Lower(s: string): (r: string)
    ensures |r| == |s|
    ensures forall i :: 0 <= i < |s| ==> r[i] == LowerChar(s[i])
  {
    seq(|s|, i requires 0 <= i < |s| => LowerChar(s[i]))
  }

  /** Two strings that differ only in the case of ASCII letters. */
  predicate EqualIgnoringCase(a: string, b: string) {
    Lower(a) == Lower(b)
  }

  /** Lower-casing is idempotent: a lower-cased key is its own lower case. */
  lemma LowerIdempotent(s: string)
    ensures Lower(Lower(s)) == Lower(s)
  {
  }

  /** `pat` occurs at index `i` of `s` when the case of ASCII letters is
      ignored. */
  predicate MatchesAt(s: string, pat: string, i: int) {
    0 <= i <= |s| - |pat| && EqualIgnoringCase(s[i..i + |pat|], pat)
  }

  /** Whether `pat` occurs in `s` at an index of at least `k`, ignoring case. */
  function SearchFrom(s: string, pat: string, k: nat): (r: bool)
    ensures r <==> exists i :: k <= i && MatchesAt(s, pat, i)
    decreases |s| - k
  {
    if k > |s| - |pat| then false
    else MatchesAt(s, pat, k) || SearchFrom(s, pat, k + 1)
  }

  /** Whether `pat` occurs in `s` when the case of ASCII letters is ignored,
      which is what a regular expression of letters with the `i` flag tests:
      in that mode the only case-insensitive matches of an ASCII letter are
      the two ASCII cases. */
  function ContainsIgnoringCase(s: string, pat: string): (r: bool)
    ensures r <==> exists i :: MatchesAt(s, pat, i)
  {
    SearchFrom(s, pat, 0)
  }
}
