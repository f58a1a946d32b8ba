/**
 * The JavaScript string operations the front-end relies on, over `seq<char>`.
 * `toUpperCase` is modelled on ASCII letters only.
 */
module JsString {
  import opened Wrappers

  /** The characters matched by the regular-expression class `\s`. */
  predicate IsWhitespace(c: char) {
    || c == '\t' || c == '\n' || c == '\U{000B}' || c == '\U{000C}' || c == '\r' || c == ' '
    || c == '\U{00A0}' || c == '\U{1680}' || ('\U{2000}' <= c <= '\U{200A}')
    || c == '\U{2028}' || c == '\U{2029}' || c == '\U{202F}' || c == '\U{205F}'
    || c == '\U{3000}' || c == '\U{FEFF}'
  }

  predicate IsAsciiLower(c: char) { 'a' <= c <= 'z' }
  predicate IsAsciiUpper(c: char) { 'A' <= c <= 'Z' }
  predicate IsDigit(c: char) { '0' <= c <= '9' }

  /** `toUpperCase` on one character. */
  function UpperChar(c: char): (u: char)
    ensures !IsAsciiLower(u)
    ensures IsWhitespace(u) <==> IsWhitespace(c)
    ensures IsAsciiLower(c) ==> IsAsciiUpper(u)
    ensures !IsAsciiLower(c) ==> u == c
  {
    if IsAsciiLower(c) then (c as int - 32) as char else c
  }

  /** `toLowerCase` on one character. */
  function LowerChar(c: char): (l: char)
    ensures !IsAsciiUpper(l)
    ensures IsAsciiUpper(c) ==> IsAsciiLower(l) && UpperChar(l) == c
    ensures !IsAsciiUpper(c) ==> l == c
  {
    if IsAsciiUpper(c) then (c as int + 32) as char else c
  }

  /** `s.toUpperCase()`.*/
  function ToUpper(s: string): (r: string)
    ensures |r| == |s|
    ensures forall i :: 0 <= i < |s| ==> r[i] == UpperChar(s[i])
  {
    seq(|s|, i requires 0 <= i < |s| => UpperChar(s[i]))
  }

  /** A string `ToUpper` leaves alone. */
  predicate IsUpperFixed(s: string) {
    forall i :: 0 <= i < |s| ==> !IsAsciiLower(s[i])
  }

  lemma ToUpperFixed(s: string)
    requires IsUpperFixed(s)
    ensures ToUpper(s) == s
  {
  }

  lemma ToUpperConcat(a: string, b: string)
    ensures ToUpper(a + b) == ToUpper(a) + ToUpper(b)
  {
    var l, r := ToUpper(a + b), ToUpper(a) + ToUpper(b);
    assert |l| == |r|;
    forall i | 0 <= i < |l| ensures l[i] == r[i] {
      if i < |a| { assert (a + b)[i] == a[i]; } else { assert (a + b)[i] == b[i - |a|]; }
    }
  }

  lemma ToUpperIdempotent(s: string)
    ensures IsUpperFixed(ToUpper(s)) && ToUpper(ToUpper(s)) == ToUpper(s)
  {
  }

  /** `s.replace(/\s+/g, '')`: every whitespace character removed. */
  function RemoveWhitespace(s: string): (r: string)
    ensures |r| <= |s|
    ensures forall i :: 0 <= i < |r| ==> !IsWhitespace(r[i])
  {
    if s == [] then []
    else if IsWhitespace(s[0]) then RemoveWhitespace(s[1..])
    else [s[0]] + RemoveWhitespace(s[1..])
  }

  predicate NoWhitespace(s: string) {
    forall i :: 0 <= i < |s| ==> !IsWhitespace(s[i])
  }

  lemma {:induction false} RemoveWhitespaceFixed(s: string)
    requires NoWhitespace(s)
    ensures RemoveWhitespace(s) == s
  {
    if s != [] {
      RemoveWhitespaceFixed(s[1..]);
    }
  }

  /** The result is empty exactly when every character was whitespace. */
  lemma {:induction false} RemoveWhitespaceEmpty(s: string)
    ensures RemoveWhitespace(s) == [] <==> forall i :: 0 <= i < |s| ==> IsWhitespace(s[i])
  {
    if s != [] {
      RemoveWhitespaceEmpty(s[1..]);
      if RemoveWhitespace(s) == [] {
        assert IsWhitespace(s[0]);
        forall i | 0 <= i < |s| ensures IsWhitespace(s[i]) {
          if i > 0 { assert s[i] == s[1..][i - 1]; }
        }
      } else if forall i :: 0 <= i < |s| ==> IsWhitespace(s[i]) {
        assert IsWhitespace(s[0]);
        forall i | 0 <= i < |s| - 1 ensures IsWhitespace(s[1..][i]) {
          assert s[1..][i] == s[i + 1];
        }
      }
    }
  }

  /** `s.startsWith(p)`. */
  predicate StartsWith(s: string, p: string) {
    |p| <= |s| && s[..|p|] == p
  }

  /** `s.endsWith(p)`. */
  predicate EndsWith(s: string, p: string) {
    |p| <= |s| && s[|s| - |p|..] == p
  }

  /** `s.includes(p)`: `p` occurs in `s` starting at some index. */
  predicate Includes(s: string, p: string)
    decreases |s|
  {
    StartsWith(s, p) || (s != [] && Includes(s[1..], p))
  }

  lemma {:induction false} IncludesAt(s: string, p: string, k: nat)
    requires k + |p| <= |s| && s[k..k + |p|] == p
    ensures Includes(s, p)
  {
    if k > 0 {
      assert s[1..][k - 1..k - 1 + |p|] == s[k..k + |p|];
      IncludesAt(s[1..], p, k - 1);
    }
  }

  /** Every occurrence found by `Includes` sits at some index. */
  lemma {:induction false} IncludesWitness(s: string, p: string) returns (k: nat)
    requires Includes(s, p)
    ensures k + |p| <= |s| && s[k..k + |p|] == p
    decreases |s|
  {
    if StartsWith(s, p) {
      k := 0;
    } else {
      var j := IncludesWitness(s[1..], p);
      k := j + 1;
      assert s[k..k + |p|] == s[1..][j..j + |p|];
    }
  }

  /** `s.indexOf(c)`: the first index holding `c`, or None. */
  function IndexOf(s: string, c: char): (r: Option<nat>)
    ensures r.None? <==> c !in s
    ensures r.Some? ==> r.value < |s| && s[r.value] == c && c !in s[..r.value]
  {
    if s == [] then None
    else if s[0] == c then Some(0)
    else match IndexOf(s[1..], c)
      case None => None
      case Some(i) => (assert s[..i + 1] == [s[0]] + s[1..][..i]; Some(i + 1))
  }

  /** `s.replace(c, rep)` with a one-character pattern: only the first `c` is replaced. */
  function ReplaceFirst(s: string, c: char, rep: string): (r: string)
    ensures |r| == if c in s then |s| - 1 + |rep| else |s|
  {
    match IndexOf(s, c)
    case None => s
    case Some(i) => s[..i] + rep + s[i + 1..]
  }

  /** Without `c` the string is returned as it is. */
  lemma ReplaceFirstAbsent(s: string, c: char, rep: string)
    requires c !in s
    ensures ReplaceFirst(s, c, rep) == s
  {
  }

  /**
   * With `c` present the result splits at the first `c`: the part before it
   * (free of `c`), then `rep`, then everything after it, untouched.
   */
  lemma ReplaceFirstSplit(s: string, c: char, rep: string, pre: string, post: string)
    requires s == pre + [c] + post && c !in pre
    ensures ReplaceFirst(s, c, rep) == pre + rep + post
  {
    var i := IndexOf(s, c).value;
    assert s[|pre|] == c;
    assert forall j :: 0 <= j < |pre| ==> s[j] == pre[j];
    assert s[..i] == pre && s[i + 1..] == post;
  }

  /** Removing white space keeps every other character, and only those. */
  lemma {:induction false} RemoveWhitespaceMembers(s: string, c: char)
    ensures c in RemoveWhitespace(s) <==> c in s && !IsWhitespace(c)
  {
    if s != [] {
      RemoveWhitespaceMembers(s[1..], c);
      assert s == [s[0]] + s[1..];
    }
  }

  /** A character that is neither a letter nor white space survives `ToUpper` unchanged. */
  lemma ToUpperMembers(s: string, c: char)
    requires !IsAsciiLower(c) && !IsAsciiUpper(c)
    ensures c in ToUpper(s) <==> c in s
  {
    if c in ToUpper(s) {
      var i :| 0 <= i < |s| && ToUpper(s)[i] == c;
      assert s[i] == c;
    }
    if c in s {
      var i :| 0 <= i < |s| && s[i] == c;
      assert ToUpper(s)[i] == c;
    }
  }

  /** Dropping the first `c` keeps every character that is not `c`. */
  lemma ReplaceFirstMembersEmpty(s: string, c: char)
    ensures forall d :: d in ReplaceFirst(s, c, "") ==> d in s
  {
    match IndexOf(s, c)
    case None =>
    case Some(i) =>
      assert ReplaceFirst(s, c, "") == s[..i] + s[i + 1..];
      forall d | d in s[..i] + s[i + 1..] ensures d in s {
        if d in s[..i] {
          var k :| 0 <= k < i && s[..i][k] == d;
          assert s[k] == d;
        } else {
          var k :| 0 <= k < |s| - i - 1 && s[i + 1..][k] == d;
          assert s[k + i + 1] == d;
        }
      }
  }

  /** `s.length`: UTF-16 code units, two for a character outside the Basic Multilingual Plane. */
  function Utf16Length(s: string): (n: nat)
    ensures |s| <= n <= 2 * |s|
  {
    if s == [] then 0 else (if s[0] as int > 0xFFFF then 2 else 1) + Utf16Length(s[1..])
  }

  lemma {:induction false} Utf16LengthBmp(s: string)
    requires forall i :: 0 <= i < |s| ==> s[i] as int <= 0xFFFF
    ensures Utf16Length(s) == |s|
  {
    if s != [] {
      Utf16LengthBmp(s[1..]);
    }
  }
}
