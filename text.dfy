/** The string primitives the dashboard relies on: ASCII case mapping
    (`toLowerCase`, `toUpperCase`), `trim` and `includes`. */
module Text {

  /** ASCII `toLowerCase` of one character; every other character is kept. */
  function LowerChar(c: char): char {
    if 'A' <= c <= 'Z' then (c as int + 32) as char else c
  }

  /** ASCII `toUpperCase` of one character; every other character is kept. */
  function UpperChar(c: char): char {
    if 'a' <= c <= 'z' then (c as int - 32) as char else c
  }

  /** `s.toLowerCase()`, restricted to ASCII letters. */
  function ToLower(s: string): (r: string)
    ensures |r| == |s|
    ensures forall i :: 0 <= i < |s| ==> r[i] == LowerChar(s[i])
  {
    seq(|s|, i requires 0 <= i < |s| => LowerChar(s[i]))
  }

  /** `s.toUpperCase()`, restricted to ASCII letters. */
  function ToUpper(s: string): (r: string)
    ensures |r| == |s|
    ensures forall i :: 0 <= i < |s| ==> r[i] == UpperChar(s[i])
  {
    seq(|s|, i requires 0 <= i < |s| => UpperChar(s[i]))
  }

  /** Lowercasing is idempotent and forgets any earlier case change. */
  lemma LowerAbsorbsCase(s: string)
    ensures ToLower(ToLower(s)) == ToLower(s)
    ensures ToLower(ToUpper(s)) == ToLower(s)
  {
  }

  lemma LowerOfConcat(a: string, b: string)
    ensures ToLower(a + b) == ToLower(a) + ToLower(b)
  {
  }

  /** The characters JavaScript's `trim` removes: WhiteSpace (tab, vertical
      tab, form feed, space, no-break space, byte order mark and the Unicode
      space separators) and LineTerminator (line feed, carriage return, line
      and paragraph separators). */
  predicate IsWhiteSpace(c: char) {
    c == '\t' || c == '\n' || c == '\U{000B}' || c == '\U{000C}' || c == '\r' || c == ' '
    || c == '\U{00A0}' || c == '\U{1680}' || ('\U{2000}' <= c <= '\U{200A}')
    || c == '\U{2028}' || c == '\U{2029}' || c == '\U{202F}' || c == '\U{205F}'
    || c == '\U{3000}' || c == '\U{FEFF}'
  }

  /** A string made of white space only (the empty string included). */
  predicate IsBlank(s: string) {
    forall i :: 0 <= i < |s| ==> IsWhiteSpace(s[i])
  }

  function TrimStart(s: string): (r: string)
    ensures |r| <= |s| && r == s[|s| - |r|..]
    ensures r != [] ==> !IsWhiteSpace(r[0])
  {
    if s != [] && IsWhiteSpace(s[0]) then TrimStart(s[1..]) else s
  }

  function TrimEnd(s: string): (r: string)
    ensures |r| <= |s| && r == s[..|r|]
    ensures r != [] ==> !IsWhiteSpace(r[|r| - 1])
  {
    if s != [] && IsWhiteSpace(s[|s| - 1]) then TrimEnd(s[..|s| - 1]) else s
  }

  /** A non-empty string is blank iff its head is white space and its tail
      is blank. */
  lemma BlankUncons(s: string)
    requires s != []
    ensures IsBlank(s) <==> IsWhiteSpace(s[0]) && IsBlank(s[1..])
  {
    if IsWhiteSpace(s[0]) && IsBlank(s[1..]) {
      forall i | 1 <= i < |s| ensures IsWhiteSpace(s[i]) {
        assert s[i] == s[1..][i - 1];
      }
    }
  }

  lemma {:induction false} TrimStartEmptyIffBlank(s: string)
    ensures TrimStart(s) == [] <==> IsBlank(s)
    decreases |s|
  {
    if s != [] {
      BlankUncons(s);
      if IsWhiteSpace(s[0]) {
        TrimStartEmptyIffBlank(s[1..]);
      }
    }
  }

  /** `s.trim()`: white space removed from both ends. The result is a
      contiguous part of `s` that neither starts nor ends with white space,
      and it is empty exactly when `s` is blank. */
  function Trim(s: string): (r: string)
    ensures Occurs(r, s)
    ensures r != [] ==> !IsWhiteSpace(r[0]) && !IsWhiteSpace(r[|r| - 1])
    ensures r == [] <==> IsBlank(s)
  {
    TrimBothEnds(s);
    TrimEnd(TrimStart(s))
  }

  /** Trimming the end of what is left after trimming the start cuts a
      slice out of `s`, keeps the first non-blank character, and leaves
      nothing exactly when `s` is blank. */
  lemma TrimBothEnds(s: string)
    ensures var u := TrimStart(s); var r := TrimEnd(u);
      OccursAt(r, s, |s| - |u|) && (r != [] ==> r[0] == u[0]) && (r == [] <==> IsBlank(s))
  {
    TrimSlice(s);
    TrimStartEmptyIffBlank(s);
    var u := TrimStart(s);
    if u != [] {
      TrimEndKeepsHead(u);
    }
  }

  lemma TrimSlice(s: string)
    ensures var u := TrimStart(s); OccursAt(TrimEnd(u), s, |s| - |u|)
  {
    var u := TrimStart(s);
    var r := TrimEnd(u);
    PrefixOfSuffix(s, |s| - |u|, |r|);
  }

  /** A prefix of a suffix is a slice. */
  lemma PrefixOfSuffix(s: string, k: nat, m: nat)
    requires k + m <= |s|
    ensures s[k..][..m] == s[k..k + m]
  {
  }

  /** `!s.trim()`, the test a chat box applies before sending. */
  predicate TrimsToEmpty(s: string): (r: bool)
    ensures r <==> IsBlank(s)
  {
    Trim(s) == ""
  }

  lemma {:induction false} TrimEndKeepsHead(u: string)
    requires u != [] && !IsWhiteSpace(u[0])
    ensures TrimEnd(u) != []
    decreases |u|
  {
    if IsWhiteSpace(u[|u| - 1]) {
      TrimEndKeepsHead(u[..|u| - 1]);
    }
  }

  /** `t` starts at index `i` of `s`. */
  ghost predicate OccursAt(t: string, s: string, i: int) {
    0 <= i && i + |t| <= |s| && s[i..i + |t|] == t
  }

  /** `t` is a contiguous part of `s`. */
  ghost predicate Occurs(t: string, s: string) {
    exists i :: OccursAt(t, s, i)
  }

  /** `s.includes(t)`: scans the start positions of `s` from left to right. */
  function Includes(s: string, t: string): (r: bool)
    ensures r <==> Occurs(t, s)
    decreases |s|
  {
    if |t| > |s| then false
    else if s[..|t|] == t then (assert OccursAt(t, s, 0); true)
    else
      var rest := Includes(s[1..], t);
      assert rest ==> Occurs(t, s) by {
        if rest {
          var i :| OccursAt(t, s[1..], i);
          assert s[i + 1..i + 1 + |t|] == s[1..][i..i + |t|];
          assert OccursAt(t, s, i + 1);
        }
      }
      assert Occurs(t, s) ==> rest by {
        if Occurs(t, s) {
          var i :| OccursAt(t, s, i);
          assert i != 0;
          assert s[1..][i - 1..i - 1 + |t|] == s[i..i + |t|];
          assert OccursAt(t, s[1..], i - 1);
        }
      }
      rest
  }

  /** The empty string is part of every string. */
  lemma EmptyIncluded(s: string)
    ensures Includes(s, "")
  {
    assert OccursAt("", s, 0);
  }

  /** An occurrence in either half is an occurrence in the whole. */
  lemma OccursInConcat(a: string, b: string, t: string)
    ensures Occurs(t, a) ==> Occurs(t, a + b)
    ensures Occurs(t, b) ==> Occurs(t, a + b)
  {
    if Occurs(t, a) {
      var i :| OccursAt(t, a, i);
      assert (a + b)[i..i + |t|] == a[i..i + |t|];
      assert OccursAt(t, a + b, i);
    }
    if Occurs(t, b) {
      var i :| OccursAt(t, b, i);
      assert (a + b)[|a| + i..|a| + i + |t|] == b[i..i + |t|];
      assert OccursAt(t, a + b, |a| + i);
    }
  }

  /** A string that contains `t` contains every character of `t`; so a
      string missing one of them cannot contain `t`. */
  lemma CharsOfOccurrence(s: string, t: string, c: char)
    ensures Occurs(t, s) && c in t ==> c in s
  {
    if Occurs(t, s) && c in t {
      var i :| OccursAt(t, s, i);
      var j :| 0 <= j < |t| && t[j] == c;
      assert s[i + j] == s[i..i + |t|][j];
    }
  }

  /** A keyword written in lower case inside a message is found once the
      message is lowercased. */
  lemma FoundInLower(pre: string, kw: string, post: string)
    requires ToLower(kw) == kw
    ensures Occurs(kw, ToLower(pre + kw + post))
  {
    LowerOfConcat(pre + kw, post);
    LowerOfConcat(pre, kw);
    var l := ToLower(pre) + kw + ToLower(post);
    assert l[|pre|..|pre| + |kw|] == kw;
    assert OccursAt(kw, l, |pre|);
  }

  lemma FoundInLowerAtEnd(pre: string, kw: string)
    requires ToLower(kw) == kw
    ensures Occurs(kw, ToLower(pre + kw))
  {
    FoundInLower(pre, kw, "");
    assert pre + kw + "" == pre + kw;
  }

  /** Lowercasing produces `c` only from `c` itself or its upper-case form. */
  lemma AbsentFromLower(s: string, c: char)
    ensures c !in s && UpperChar(c) !in s ==> c !in ToLower(s)
  {
    if c in ToLower(s) {
      var i :| 0 <= i < |s| && ToLower(s)[i] == c;
      assert s[i] == c || s[i] == UpperChar(c);
    }
  }

  /** `s` has the letter `c` in neither case. */
  predicate Lacks(s: string, c: char) {
    c !in s && UpperChar(c) !in s
  }

  /** A message that contains `c` in neither case does not contain, once
      lowercased, any keyword that has `c` in it. */
  lemma MissingFromLower(s: string, t: string, c: char)
    requires c in t && Lacks(s, c)
    ensures !Occurs(t, ToLower(s))
  {
    AbsentFromLower(s, c);
    CharsOfOccurrence(ToLower(s), t, c);
  }

  /** `x` is immediately followed by `y` at index `j` of `s`. */
  ghost predicate PairAt(s: string, x: char, y: char, j: int) {
    0 <= j && j + 1 < |s| && s[j] == x && s[j + 1] == y
  }

  ghost predicate HasPair(s: string, x: char, y: char) {
    exists j :: PairAt(s, x, y, j)
  }

  /** A string containing `t` contains the first two characters of `t`
      side by side. */
  lemma PairOfOccurrence(s: string, t: string)
    requires |t| >= 2
    ensures Occurs(t, s) ==> HasPair(s, t[0], t[1])
  {
    if Occurs(t, s) {
      var i :| OccursAt(t, s, i);
      assert s[i] == s[i..i + |t|][0] && s[i + 1] == s[i..i + |t|][1];
      assert PairAt(s, t[0], t[1], i);
    }
  }

  /** A pair in a concatenation lies in one part or straddles the seam. */
  lemma PairInConcat(a: string, b: string, x: char, y: char)
    ensures HasPair(a + b, x, y) ==>
      HasPair(a, x, y) || HasPair(b, x, y) || (a != [] && b != [] && a[|a| - 1] == x && b[0] == y)
  {
    if HasPair(a + b, x, y) {
      var j :| PairAt(a + b, x, y, j);
      if j + 1 < |a| {
        assert PairAt(a, x, y, j);
      } else if j >= |a| {
        assert PairAt(b, x, y, j - |a|);
      }
    }
  }

  /** A pair needs its first character. */
  lemma PairNeedsChar(s: string, x: char, y: char)
    ensures HasPair(s, x, y) ==> x in s
  {
    if HasPair(s, x, y) {
      var j :| PairAt(s, x, y, j);
      assert s[j] == x;
    }
  }
}
