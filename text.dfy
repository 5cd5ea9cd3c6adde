/** String helpers shared by every agent: ASCII `str.lower()`, the substring test behind
    Python's `a in b` on strings, `str.split` on one separator character and `str.title()`. */
module Text {

  /** Lower-cases one ASCII letter; every other character is left as it is. */
  function LowerChar(c: char): (d: char)
    ensures 'A' <= c <= 'Z' ==> d as int == c as int + 32
    ensures !('A' <= d <= 'Z')
    ensures !('A' <= c <= 'Z') ==> d == c
  {
    if 'A' <= c <= 'Z' then (c as int + 32) as char else c
  }

  /** Upper-cases one ASCII letter; every other character is left as it is. */
  function UpperChar(c: char): (d: char)
    ensures 'a' <= c <= 'z' ==> d as int == c as int - 32
    ensures !('a' <= d <= 'z')
    ensures !('a' <= c <= 'z') ==> d == c
  {
    if 'a' <= c <= 'z' then (c as int - 32) as char else c
  }

  predicate IsLetter(c: char) {
    'a' <= c <= 'z' || 'A' <= c <= 'Z'
  }

  /** `s.lower()`, restricted to ASCII letters. */
  function Lower(s: string): (r: string)
    ensures |r| == |s|
    ensures forall i :: 0 <= i < |s| ==> r[i] == LowerChar(s[i])
  {
    if s == [] then [] else [LowerChar(s[0])] + Lower(s[1..])
  }

  lemma LowerIdempotent(s: string)
    ensures Lower(Lower(s)) == Lower(s)
  {
    assert forall i :: 0 <= i < |s| ==> Lower(Lower(s))[i] == Lower(s)[i];
  }

  /** `sub` occurs in `s` starting at position `i`. */
  predicate OccursAt(sub: string, s: string, i: int) {
    0 <= i <= |s| - |sub| && s[i..i + |sub|] == sub
  }

  /** `sub in s` for strings: `sub` occurs in `s` as a contiguous block. */
  predicate Contains(sub: string, s: string) {
    exists i | 0 <= i <= |s| :: OccursAt(sub, s, i)
  }

  /** Occurrence is transitive: a block of a block of `c` is a block of `c`. */
  lemma ContainsTransitive(a: string, b: string, c: string)
    requires Contains(a, b) && Contains(b, c)
    ensures Contains(a, c)
  {
    var j :| 0 <= j <= |b| && OccursAt(a, b, j);
    var i :| 0 <= i <= |c| && OccursAt(b, c, i);
    assert 0 <= j <= |b| - |a| && b[j..j + |a|] == a;
    assert 0 <= i <= |c| - |b| && c[i..i + |b|] == b;
    assert forall k :: 0 <= k < |a| ==> c[i + j + k] == b[j + k] == a[k];
    assert c[i + j..i + j + |a|] == a;
    assert OccursAt(a, c, i + j);
  }

  /** Every string occurs in its own lower-cased form once both sides are lower-cased. */
  lemma ContainsLower(a: string, b: string)
    requires Contains(a, b)
    ensures Contains(Lower(a), Lower(b))
  {
    var i :| 0 <= i <= |b| && OccursAt(a, b, i);
    assert 0 <= i <= |b| - |a| && b[i..i + |a|] == a;
    forall k | 0 <= k < |a| ensures Lower(b)[i..i + |a|][k] == Lower(a)[k] {
      assert b[i + k] == a[k];
    }
    assert Lower(b)[i..i + |a|] == Lower(a);
    assert OccursAt(Lower(a), Lower(b), i);
  }

  /** `s.split(c)[0]`: the part of `s` before the first `c`, or all of `s` when it has none. */
  function Before(s: string, c: char): (r: string)
    ensures r <= s
    ensures c !in r
    ensures c in s ==> |r| < |s| && s[|r|] == c
    ensures c !in s ==> r == s
  {
    if s == [] then [] else if s[0] == c then [] else [s[0]] + Before(s[1..], c)
  }

  /** `s.split(sep)` for a one-character separator. */
  function Split(s: string, sep: char): (r: seq<string>)
    ensures |r| >= 1
    ensures forall k :: 0 <= k < |r| ==> sep !in r[k]
    decreases |s|
  {
    if sep !in s then [s]
    else
      var head := Before(s, sep);
      [head] + Split(s[|head| + 1..], sep)
  }

  /** `sep.join(parts)`. */
  function Join(parts: seq<string>, sep: char): string
    decreases |parts|
  {
    if parts == [] then []
    else if |parts| == 1 then parts[0]
    else parts[0] + [sep] + Join(parts[1..], sep)
  }

  /** Splitting loses nothing: joining the pieces with the separator gives the string back. */
  lemma {:induction false} JoinSplit(s: string, sep: char)
    ensures Join(Split(s, sep), sep) == s
    decreases |s|
  {
    if sep in s {
      var head := Before(s, sep);
      var rest := s[|head| + 1..];
      JoinSplit(rest, sep);
      assert Split(s, sep) == [head] + Split(rest, sep);
      assert s == head + [sep] + rest;
    }
  }

  /** What `str.title()` makes of one character: a letter is upper-cased when it does not follow
      a letter and lower-cased when it does; every other character is kept. */
  function TitleChar(c: char, afterLetter: bool): char {
    if !IsLetter(c) then c else if afterLetter then LowerChar(c) else UpperChar(c)
  }

  /** `str.title()` over ASCII, continuing after a character that was (`afterLetter`) or was not a letter. */
  function TitleFrom(s: string, afterLetter: bool): (r: string)
    ensures |r| == |s|
    ensures Lower(r) == Lower(s)
    ensures |s| > 0 ==> r[0] == TitleChar(s[0], afterLetter)
    ensures forall i :: 0 < i < |s| ==> r[i] == TitleChar(s[i], IsLetter(s[i - 1]))
  {
    if s == [] then []
    else
      [TitleChar(s[0], afterLetter)] + TitleFrom(s[1..], IsLetter(s[0]))
  }

  /** `str.title()` over ASCII: each character is decided by whether the one before it is a letter. */
  function TitleCase(s: string): (r: string)
    ensures |r| == |s|
    ensures Lower(r) == Lower(s)
    ensures forall i :: 0 <= i < |s| ==> r[i] == TitleChar(s[i], i > 0 && IsLetter(s[i - 1]))
    ensures |s| > 0 && 'a' <= s[0] <= 'z' ==> 'A' <= r[0] <= 'Z'
  {
    TitleFrom(s, false)
  }

  /** In a word of letters only the first is a capital: `"KUBERNETES".title()` is `"Kubernetes"`. */
  lemma TitleLowersTail(s: string)
    requires |s| > 0 && forall i :: 0 <= i < |s| ==> IsLetter(s[i])
    ensures TitleCase(s)[0] == UpperChar(s[0])
    ensures forall i :: 0 < i < |s| ==> TitleCase(s)[i] == LowerChar(s[i])
  {
    forall i | 0 < i < |s| ensures TitleCase(s)[i] == LowerChar(s[i]) {
      assert IsLetter(s[i - 1]);
    }
  }
}
