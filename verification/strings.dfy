/** The handful of Python string operations the tools and the response
    shaping rely on: `in` on strings, `lower()`, `title()`, `strip()`,
    `' '.join(...)`, slicing `[:n]` and the regular expression `(\w+)`.
    Character classes are the ASCII ones (see README, "Left out").
 */
module Strings {

  import opened Base

  // ---------------------------------------------------------------------
  // Substring test: Python's `needle in hay`

  /** `needle` occurs in `hay` starting at index `i`. */
  predicate OccursAt(needle: string, hay: string, i: nat) {
    i + |needle| <= |hay| && hay[i..i + |needle|] == needle
  }

  /** Executable substring test; agrees with "there is an occurrence". */
  function Contains(hay: string, needle: string): (b: bool)
    ensures b <==> exists i: nat :: OccursAt(needle, hay, i)
    decreases |hay|
  {
    if |needle| > |hay| then
      false
    else if needle <= hay then
      assert OccursAt(needle, hay, 0);
      true
    else
      ShiftOccurrence(needle, hay);
      Contains(hay[1..], needle)
  }

  /** Occurrences in a non-empty `hay` that are not at 0 are exactly the
      occurrences in `hay[1..]`, shifted by one. */
  lemma ShiftOccurrence(needle: string, hay: string)
    requires |hay| > 0 && !(needle <= hay)
    ensures (exists i: nat :: OccursAt(needle, hay, i)) <==>
            (exists i: nat :: OccursAt(needle, hay[1..], i))
  {
    if i: nat :| OccursAt(needle, hay, i) {
      assert i != 0;
      assert hay[1..][i - 1..i - 1 + |needle|] == hay[i..i + |needle|];
      assert OccursAt(needle, hay[1..], i - 1);
    }
    if i: nat :| OccursAt(needle, hay[1..], i) {
      assert hay[1..][i..i + |needle|] == hay[i + 1..i + 1 + |needle|];
      assert OccursAt(needle, hay, i + 1);
    }
  }

  /** A string occurs inside any concatenation that has it as a part. */
  lemma ContainsPart(a: string, b: string, c: string)
    ensures Contains(a + b + c, b)
  {
    assert (a + b + c)[|a|..|a| + |b|] == b;
    assert OccursAt(b, a + b + c, |a|);
  }

  /** A string contains each of its right parts. */
  lemma ContainsSuffix(a: string, b: string)
    ensures Contains(a + b, b)
  {
    ContainsPart(a, b, "");
    assert a + b + "" == a + b;
  }

  /** An occurrence inside a middle part is an occurrence in the whole. */
  lemma ContainsExtend(a: string, b: string, c: string, needle: string)
    requires Contains(b, needle)
    ensures Contains(a + b + c, needle)
  {
    var i: nat :| OccursAt(needle, b, i);
    assert (a + b + c)[|a| + i..|a| + i + |needle|] == b[i..i + |needle|];
    assert OccursAt(needle, a + b + c, |a| + i);
  }

  /** A string starts with each of its left parts. */
  lemma PrefixOfConcat(a: string, b: string)
    ensures a <= a + b
  {
    assert (a + b)[..|a|] == a;
  }

  /** Prefixes compose: a prefix of a prefix is a prefix (of any sequence). */
  lemma PrefixTransitive<T>(a: seq<T>, b: seq<T>, c: seq<T>)
    requires a <= b && b <= c
    ensures a <= c
  {
    assert c[..|a|] == b[..|a|];
  }

  /** Two strings that differ in their first character are not prefixes
      of one another. */
  lemma NotPrefixFirstChar(p: string, s: string)
    requires |p| > 0 && |s| > 0 && p[0] != s[0]
    ensures !(p <= s)
  {
  }

  // ---------------------------------------------------------------------
  // Case mapping: `lower()` and `title()`

  predicate IsUpper(c: char) { 'A' <= c <= 'Z' }
  predicate IsLower(c: char) { 'a' <= c <= 'z' }
  predicate IsLetter(c: char) { IsUpper(c) || IsLower(c) }
  predicate IsDigit(c: char) { '0' <= c <= '9' }

  function LowerChar(c: char): (d: char)
    ensures !IsUpper(d)
    ensures IsLetter(c) <==> IsLetter(d)
  {
    if IsUpper(c) then (c as int - 'A' as int + 'a' as int) as char else c
  }

  function UpperChar(c: char): (d: char)
    ensures !IsLower(d)
    ensures IsLetter(c) <==> IsLetter(d)
  {
    if IsLower(c) then (c as int - 'a' as int + 'A' as int) as char else c
  }

  /** `s.lower()` */
  function Lower(s: string): (r: string)
    ensures |r| == |s|
    ensures forall i :: 0 <= i < |s| ==> r[i] == LowerChar(s[i])
  {
    seq(|s|, i requires 0 <= i < |s| => LowerChar(s[i]))
  }

  /** A string that is already lower case is left alone by `Lower`. */
  lemma LowerIdempotent(s: string)
    ensures Lower(Lower(s)) == Lower(s)
  {
  }

  /** One character of `title()`: lower case after a letter, upper case
      otherwise. */
  function TitleChar(afterLetter: bool, c: char): (d: char)
    ensures LowerChar(d) == LowerChar(c)
    ensures !IsLetter(c) ==> d == c
    ensures IsLetter(c) ==> (IsUpper(d) <==> !afterLetter)
  {
    if afterLetter then LowerChar(c) else UpperChar(c)
  }

  /** `s.title()`: only the case of letters changes, and a letter ends up
      upper case exactly when it starts a run of letters. */
  function Title(s: string): (r: string)
    ensures |r| == |s|
    ensures forall i :: 0 <= i < |s| ==> LowerChar(r[i]) == LowerChar(s[i])
    ensures forall i :: 0 <= i < |s| && !IsLetter(s[i]) ==> r[i] == s[i]
    ensures forall i :: 0 <= i < |s| && IsLetter(s[i]) ==>
      (IsUpper(r[i]) <==> i == 0 || !IsLetter(s[i - 1]))
  {
    var r := seq(|s|, i requires 0 <= i < |s| => TitleChar(i > 0 && IsLetter(s[i - 1]), s[i]));
    assert forall i :: 0 <= i < |s| ==> r[i] == TitleChar(i > 0 && IsLetter(s[i - 1]), s[i]);
    r
  }

  /** Title-casing a title-cased string changes nothing. */
  lemma TitleIdempotent(s: string)
    ensures Title(Title(s)) == Title(s)
  {
    var t := Title(s);
    assert forall i :: 0 <= i < |s| ==> (IsLetter(t[i]) <==> IsLetter(s[i]));
  }

  // ---------------------------------------------------------------------
  // The first match of the regular expression `(\w+)`

  predicate IsWordChar(c: char) { IsLetter(c) || IsDigit(c) || c == '_' }

  /** The first index at or after `i` holding a word character, or `|s|`. */
  function SkipNonWord(s: string, i: nat): (k: nat)
    requires i <= |s|
    ensures i <= k <= |s|
    ensures forall m :: i <= m < k ==> !IsWordChar(s[m])
    ensures k < |s| ==> IsWordChar(s[k])
    decreases |s| - i
  {
    if i == |s| || IsWordChar(s[i]) then i else SkipNonWord(s, i + 1)
  }

  /** The end of the run of word characters that starts at `i`. */
  function SkipWord(s: string, i: nat): (k: nat)
    requires i <= |s|
    ensures i <= k <= |s|
    ensures forall m :: i <= m < k ==> IsWordChar(s[m])
    ensures k < |s| ==> !IsWordChar(s[k])
    decreases |s| - i
  {
    if i == |s| || !IsWordChar(s[i]) then i else SkipWord(s, i + 1)
  }

  /** The span `[start, end)` that a leftmost-greedy search for `\w+`
      matches: nothing before it is a word character, all of it is, and
      the character after it (if any) is not. `None` when `s` has no word
      character at all. */
  function FirstWordSpan(s: string): (span: Option<(nat, nat)>)
    ensures span.None? <==> forall m :: 0 <= m < |s| ==> !IsWordChar(s[m])
    ensures span.Some? ==>
      var (i, j) := span.value;
      && i < j <= |s|
      && (forall m :: 0 <= m < i ==> !IsWordChar(s[m]))
      && (forall m :: i <= m < j ==> IsWordChar(s[m]))
      && (j == |s| || !IsWordChar(s[j]))
  {
    var i := SkipNonWord(s, 0);
    if i == |s| then None else Some((i, SkipWord(s, i)))
  }

  /** The text of the first `\w+` match, if any. */
  function FirstWord(s: string): Option<string> {
    match FirstWordSpan(s)
    case None => None
    case Some((i, j)) => Some(s[i..j])
  }

  /** A query that starts with a word followed by a non-word character has
      that word as its first match. */
  lemma FirstWordOfLeadingWord(w: string, rest: string)
    requires |w| > 0 && forall m :: 0 <= m < |w| ==> IsWordChar(w[m])
    requires |rest| > 0 && !IsWordChar(rest[0])
    ensures FirstWord(w + rest) == Some(w)
  {
    var s := w + rest;
    assert IsWordChar(s[0]);
    assert SkipNonWord(s, 0) == 0;
    var k := SkipWord(s, 0);
    assert !IsWordChar(s[|w|]);
    assert k == |w|;
    assert s[0..|w|] == w;
  }

  // ---------------------------------------------------------------------
  // `strip()`, `sep.join(parts)` and `s[:n]`

  /** The ASCII characters `str.isspace()` accepts: tab, line feed,
      vertical tab, form feed, carriage return, the four information
      separators 0x1C-0x1F, and space. */
  predicate IsSpace(c: char) {
    || c == ' ' || c == '\t' || c == '\n' || c == '\r' || c == '\U{0B}' || c == '\U{0C}'
    || ('\U{1C}' <= c <= '\U{1F}')
  }

  /** Neither end of `s` is white space. */
  predicate IsStripped(s: string) {
    |s| == 0 || (!IsSpace(s[0]) && !IsSpace(s[|s| - 1]))
  }

  /** `s.lstrip()` */
  function StripLeft(s: string): (r: string)
    ensures |r| <= |s| && r == s[|s| - |r|..]
    ensures forall m :: 0 <= m < |s| - |r| ==> IsSpace(s[m])
    ensures |r| == 0 || !IsSpace(r[0])
    decreases |s|
  {
    if |s| > 0 && IsSpace(s[0]) then StripLeft(s[1..]) else s
  }

  /** `s.rstrip()` */
  function StripRight(s: string): (r: string)
    ensures r <= s
    ensures forall m :: |r| <= m < |s| ==> IsSpace(s[m])
    ensures |r| == 0 || !IsSpace(r[|r| - 1])
    decreases |s|
  {
    if |s| > 0 && IsSpace(s[|s| - 1]) then StripRight(s[..|s| - 1]) else s
  }

  /** `r` is `s[a..b]` and everything outside `[a, b)` is white space. */
  predicate Trims(s: string, r: string, a: nat, b: nat) {
    && a <= b <= |s|
    && r == s[a..b]
    && (forall m :: 0 <= m < a ==> IsSpace(s[m]))
    && (forall m :: b <= m < |s| ==> IsSpace(s[m]))
  }

  /** `s.strip()`: `s` with only white space removed, and only from its two
      ends, leaving no white space at either end. */
  function Strip(s: string): (r: string)
    ensures IsStripped(r)
    ensures exists a: nat, b: nat :: Trims(s, r, a, b)
    ensures exists i: nat :: OccursAt(r, s, i)
  {
    var l := StripLeft(s);
    var r := StripRight(l);
    StripBothTrims(s, l, r);
    assert Trims(s, r, |s| - |l|, |s| - |l| + |r|);
    assert OccursAt(r, s, |s| - |l|);
    r
  }

  /** Stripping the left end and then the right end trims `s`. */
  lemma StripBothTrims(s: string, l: string, r: string)
    requires |l| <= |s| && l == s[|s| - |l|..]
    requires forall m :: 0 <= m < |s| - |l| ==> IsSpace(s[m])
    requires r <= l
    requires forall m :: |r| <= m < |l| ==> IsSpace(l[m])
    ensures Trims(s, r, |s| - |l|, |s| - |l| + |r|)
    ensures OccursAt(r, s, |s| - |l|)
  {
    var a := |s| - |l|;
    assert l == s[a..];
    assert r == l[..|r|];
    assert r == s[a..a + |r|];
    assert forall m :: 0 <= m < a ==> IsSpace(s[m]);
    forall m | a + |r| <= m < |s|
      ensures IsSpace(s[m])
    {
      assert s[m] == l[m - a];
    }
  }

  /** Stripping a stripped string changes nothing, so stripping twice is
      stripping once. */
  lemma StripFixesStripped(s: string)
    requires IsStripped(s)
    ensures Strip(s) == s
  {
  }

  /** `sep.join(parts)`: empty for no parts, the part itself for one, and
      otherwise starting with the first part and containing every part. */
  function Join(sep: string, parts: seq<string>): (r: string)
    ensures |parts| == 0 ==> r == ""
    ensures |parts| == 1 ==> r == parts[0]
    ensures |parts| > 0 ==> parts[0] <= r
    ensures forall i :: 0 <= i < |parts| ==> Contains(r, parts[i])
    decreases |parts|
  {
    if |parts| == 0 then ""
    else if |parts| == 1 then
      assert OccursAt(parts[0], parts[0], 0);
      parts[0]
    else
      var rest := Join(sep, parts[1..]);
      var r := parts[0] + sep + rest;
      assert r == parts[0] + (sep + rest);
      PrefixOfConcat(parts[0], sep + rest);
      ContainsPart("", parts[0], sep + rest);
      assert "" + parts[0] + (sep + rest) == r;
      forall i | 1 <= i < |parts|
        ensures Contains(r, parts[i])
      {
        assert parts[1..][i - 1] == parts[i];
        ContainsExtend(parts[0] + sep, rest, "", parts[i]);
        assert parts[0] + sep + rest + "" == r;
      }
      r
  }

  /** Joining one more part appends the separator and that part. */
  lemma {:induction false} JoinSnoc(sep: string, parts: seq<string>, last: string)
    requires |parts| > 0
    ensures Join(sep, parts + [last]) == Join(sep, parts) + sep + last
    decreases |parts|
  {
    if |parts| == 1 {
      assert (parts + [last])[1..] == [last];
    } else {
      assert (parts + [last])[1..] == parts[1..] + [last];
      JoinSnoc(sep, parts[1..], last);
    }
  }

  /** `s[:n]`: the longest prefix of `s` that is at most `n` long. */
  function Take(s: string, n: nat): (r: string)
    ensures r <= s
    ensures |r| <= n
    ensures |r| == n || r == s
  {
    if |s| <= n then s else s[..n]
  }
}
