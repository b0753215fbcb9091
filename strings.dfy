/** The string operations of JavaScript that the backend relies on:
    `toUpperCase`, `toLowerCase`, `startsWith`, `substring`, `trim`,
    `split(' ')[0]` and a global `replace` of a fixed pattern.
    Case mapping and white space are modelled on ASCII. */
module Strings {

  function UpperChar(c: char): char
  {
    if 'a' <= c <= 'z' then (c as int - 32) as char else c
  }

  function LowerChar(c: char): char
  {
    if 'A' <= c <= 'Z' then (c as int + 32) as char else c
  }

  /** `s.toUpperCase()` */
  function ToUpper(s: string): (r: string)
    ensures |r| == |s|
    ensures forall i :: 0 <= i < |s| ==> r[i] == UpperChar(s[i])
  {
    seq(|s|, i requires 0 <= i < |s| => UpperChar(s[i]))
  }

  /** `s.toLowerCase()` */
  function ToLower(s: string): (r: string)
    ensures |r| == |s|
    ensures forall i :: 0 <= i < |s| ==> r[i] == LowerChar(s[i])
  {
    seq(|s|, i requires 0 <= i < |s| => LowerChar(s[i]))
  }

  lemma ToUpperIdempotent(s: string)
    ensures ToUpper(ToUpper(s)) == ToUpper(s)
  {
    assert forall i :: 0 <= i < |s| ==> ToUpper(ToUpper(s))[i] == ToUpper(s)[i];
  }

  lemma ToLowerIdempotent(s: string)
    ensures ToLower(ToLower(s)) == ToLower(s)
  {
    assert forall i :: 0 <= i < |s| ==> ToLower(ToLower(s))[i] == ToLower(s)[i];
  }

  /** Upper-casing forgets any earlier change of case. */
  lemma ToUpperOfToLower(s: string)
    ensures ToUpper(ToLower(s)) == ToUpper(s)
  {
    assert forall i :: 0 <= i < |s| ==> ToUpper(ToLower(s))[i] == ToUpper(s)[i];
  }

  /** A string with no lower-case letter is its own upper-case form. */
  lemma ToUpperOfUpper(s: string)
    requires forall i :: 0 <= i < |s| ==> !('a' <= s[i] <= 'z')
    ensures ToUpper(s) == s
  {
    assert forall i :: 0 <= i < |s| ==> ToUpper(s)[i] == s[i];
  }

  /** A string with no upper-case letter is its own lower-case form. */
  lemma ToLowerOfLower(s: string)
    requires forall i :: 0 <= i < |s| ==> !('A' <= s[i] <= 'Z')
    ensures ToLower(s) == s
  {
    assert forall i :: 0 <= i < |s| ==> ToLower(s)[i] == s[i];
  }

  /** Lower-casing distributes over concatenation. */
  lemma ToLowerAppend(a: string, b: string)
    ensures ToLower(a + b) == ToLower(a) + ToLower(b)
  {
    assert forall i :: 0 <= i < |a + b| ==> ToLower(a + b)[i] == (ToLower(a) + ToLower(b))[i];
  }

  /** The UTF-16 width of one character: two code units outside the Basic
      Multilingual Plane, one inside it. */
  function Utf16Width(c: char): nat
  {
    if c as int >= 0x1_0000 then 2 else 1
  }

  /** `s.length` in JavaScript: the number of UTF-16 code units. */
  function Utf16Length(s: string): (n: nat)
    ensures |s| <= n <= 2 * |s|
    ensures (forall i :: 0 <= i < |s| ==> s[i] as int < 0x1_0000) ==> n == |s|
  {
    if |s| == 0 then 0 else Utf16Width(s[0]) + Utf16Length(s[1..])
  }

  /** The length in code units adds up over concatenation. */
  lemma {:induction false} Utf16LengthAppend(a: string, b: string)
    ensures Utf16Length(a + b) == Utf16Length(a) + Utf16Length(b)
  {
    if |a| == 0 {
      assert a + b == b;
    } else {
      assert (a + b)[0] == a[0] && (a + b)[1..] == a[1..] + b;
      Utf16LengthAppend(a[1..], b);
    }
  }

  /** Four emoji are four characters but eight code units. */
  lemma FourEmojiAreEightUnits()
    ensures |"\U{1F600}\U{1F600}\U{1F600}\U{1F600}"| == 4
    ensures Utf16Length("\U{1F600}\U{1F600}\U{1F600}\U{1F600}") == 8
  {
    var e := "\U{1F600}";
    assert "\U{1F600}\U{1F600}\U{1F600}\U{1F600}" == e + e + e + e;
    assert Utf16Length(e) == 2;
    Utf16LengthAppend(e, e);
    Utf16LengthAppend(e + e, e);
    Utf16LengthAppend(e + e + e, e);
  }

  /** `list.indexOf(x)` on an array of strings: the first position of `x`, or -1. */
  function IndexOf(list: seq<string>, x: string): (i: int)
    ensures -1 <= i < |list|
    ensures i == -1 <==> x !in list
    ensures i >= 0 ==> list[i] == x && x !in list[..i]
  {
    if |list| == 0 then -1
    else if list[0] == x then 0
    else
      var j := IndexOf(list[1..], x);
      assert list[1..][..j + 1] == list[1..j + 2] by { if j >= 0 { assert list[1..][..j + 1] == list[1..j + 2]; } }
      if j == -1 then -1 else j + 1
  }

  /** `s.startsWith(p)` */
  predicate StartsWith(s: string, p: string)
  {
    |p| <= |s| && s[..|p|] == p
  }

  /** The characters `String.prototype.trim` removes, restricted to ASCII. */
  predicate IsSpace(c: char)
  {
    c == ' ' || c == '\t' || c == '\n' || c == '\r' || c == '\U{000B}' || c == '\U{000C}'
  }

  function TrimStart(s: string): (r: string)
    ensures |r| <= |s| && r == s[|s| - |r|..]
    ensures r == [] || !IsSpace(r[0])
    ensures forall i :: 0 <= i < |s| - |r| ==> IsSpace(s[i])
  {
    if |s| > 0 && IsSpace(s[0]) then TrimStart(s[1..]) else s
  }

  function TrimEnd(s: string): (r: string)
    ensures |r| <= |s| && r == s[..|r|]
    ensures r == [] || !IsSpace(r[|r| - 1])
    ensures forall i :: |r| <= i < |s| ==> IsSpace(s[i])
  {
    if |s| > 0 && IsSpace(s[|s| - 1]) then TrimEnd(s[..|s| - 1]) else s
  }

  /** `s.trim()` */
  function Trim(s: string): string
  {
    TrimEnd(TrimStart(s))
  }

  /** A string trims to the empty string exactly when it is all white space. */
  lemma TrimEmptyIff(s: string)
    ensures Trim(s) == [] <==> forall i :: 0 <= i < |s| ==> IsSpace(s[i])
  {
    var a := TrimStart(s);
    if a != [] {
      assert a[0] == s[|s| - |a|];
    }
  }

  /** `s.split(' ')[0]`: everything before the first space. */
  function FirstWord(s: string): (r: string)
    ensures |r| <= |s| && r == s[..|r|]
    ensures ' ' !in r
    ensures |r| == |s| || s[|r|] == ' '
  {
    if |s| == 0 || s[0] == ' ' then [] else [s[0]] + FirstWord(s[1..])
  }

  /** The first word of a text that starts with a word and a space is that word. */
  lemma {:induction false} FirstWordOfWordAndSpace(w: string, rest: string)
    requires ' ' !in w
    ensures FirstWord(w + " " + rest) == w
  {
    if |w| > 0 {
      assert (w + " " + rest)[1..] == w[1..] + " " + rest;
      FirstWordOfWordAndSpace(w[1..], rest);
    }
  }

  /** `s.replace(/p/g, r)` for a pattern `p` without special characters:
      occurrences are replaced left to right, without overlap. */
  function ReplaceAll(s: string, p: string, r: string): string
    requires |p| > 0
    decreases |s|
  {
    if |s| < |p| then s
    else if s[..|p|] == p then r + ReplaceAll(s[|p|..], p, r)
    else [s[0]] + ReplaceAll(s[1..], p, r)
  }

  /** `p` occurs in `s` at position `i`. */
  predicate MatchAt(s: string, p: string, i: nat)
  {
    i + |p| <= |s| && s[i..i + |p|] == p
  }

  /** `p` occurs somewhere in `s`. */
  ghost predicate Occurs(s: string, p: string)
  {
    exists i: nat :: MatchAt(s, p, i)
  }

  /** A text without the pattern has no occurrence in any suffix either. */
  lemma OccursInSuffix(s: string, p: string, k: nat)
    requires k <= |s| && !Occurs(s, p)
    ensures !Occurs(s[k..], p)
  {
    forall i: nat | MatchAt(s[k..], p, i)
      ensures false
    {
      assert s[k..][i..i + |p|] == s[k + i..k + i + |p|];
      assert MatchAt(s, p, k + i);
    }
  }

  /** A text lacking the last character of a pattern does not contain it. */
  lemma LastCharAbsent(s: string, p: string)
    requires |p| > 0 && p[|p| - 1] !in s
    ensures !Occurs(s, p)
  {
    forall i: nat
      ensures !MatchAt(s, p, i)
    {
      if i + |p| <= |s| {
        assert s[i..i + |p|][|p| - 1] == s[i + |p| - 1];
      }
    }
  }

  /** A string that does not contain the pattern comes back unchanged. */
  lemma {:induction false} ReplaceAllAbsent(s: string, p: string, r: string)
    requires |p| > 0
    requires !Occurs(s, p)
    ensures ReplaceAll(s, p, r) == s
    decreases |s|
  {
    if |s| >= |p| {
      assert !MatchAt(s, p, 0);
      OccursInSuffix(s, p, 1);
      ReplaceAllAbsent(s[1..], p, r);
    }
  }

  /** The scan goes past the text before the first occurrence, replaces
      that occurrence and carries on after it. */
  lemma {:induction false} ReplaceAllFirstMatch(x: string, p: string, y: string, r: string)
    requires |p| > 0 && !Occurs(x + p[..|p| - 1], p)
    ensures ReplaceAll(x + p + y, p, r) == x + r + ReplaceAll(y, p, r)
    decreases |x|
  {
    var s := x + p + y;
    if |x| == 0 {
      assert s == p + y;
      assert s[..|p|] == p && s[|p|..] == y;
    } else {
      var w := x + p[..|p| - 1];
      assert s == w + [p[|p| - 1]] + y;
      assert s[..|p|] == w[..|p|];
      assert !MatchAt(w, p, 0);
      OccursInSuffix(w, p, 1);
      assert w[1..] == x[1..] + p[..|p| - 1];
      ReplaceAllFirstMatch(x[1..], p, y, r);
      assert s[1..] == x[1..] + p + y;
      assert x + r + ReplaceAll(y, p, r) == [x[0]] + (x[1..] + r + ReplaceAll(y, p, r));
    }
  }

  /** `p` placed `d` characters after the start of `r` (before it, when
      `d` is negative) agrees with `r` wherever the two overlap. */
  predicate AgreesAt(p: string, r: string, d: int)
  {
    forall j :: 0 <= j < |p| && 0 <= d + j < |r| ==> p[j] == r[d + j]
  }

  /** No placement of `p` that overlaps `r` agrees with it. */
  predicate NoOverlap(p: string, r: string)
  {
    forall d :: -|p| < d < |r| ==> !AgreesAt(p, r, d)
  }

  /** Texts with no character in common never overlap. */
  lemma DisjointNoOverlap(p: string, r: string)
    requires |p| > 0 && |r| > 0
    requires forall j, k :: 0 <= j < |p| && 0 <= k < |r| ==> p[j] != r[k]
    ensures NoOverlap(p, r)
  {
    forall d | -|p| < d < |r|
      ensures !AgreesAt(p, r, d)
    {
      var j := if d >= 0 then 0 else -d;
      assert p[j] != r[d + j];
    }
  }

  /** `r` is written into `res` at position `k`. */
  predicate WrittenAt(res: string, r: string, k: int)
  {
    0 <= k && k + |r| <= |res| && res[k..k + |r|] == r
  }

  /** Each prefix of the result either is the same prefix of the input or
      reaches a place where a replacement was written. */
  lemma {:induction false} ReplaceAllPrefix(t: string, p: string, r: string, m: nat)
    requires |p| > 0 && m <= |ReplaceAll(t, p, r)|
    ensures (m <= |t| && ReplaceAll(t, p, r)[..m] == t[..m]) ||
            exists k :: k < m && WrittenAt(ReplaceAll(t, p, r), r, k)
    decreases |t|
  {
    var res := ReplaceAll(t, p, r);
    if |t| < |p| {
    } else if t[..|p|] == p {
      if m > 0 {
        assert res[0..|r|] == r;
        assert WrittenAt(res, r, 0);
      }
    } else if m > 0 {
      var rest := ReplaceAll(t[1..], p, r);
      assert res == [t[0]] + rest;
      ReplaceAllPrefix(t[1..], p, r, m - 1);
      if m - 1 <= |t[1..]| && rest[..m - 1] == t[1..][..m - 1] {
        assert res[..m] == [t[0]] + rest[..m - 1];
        assert t[..m] == [t[0]] + t[1..][..m - 1];
      } else {
        var k :| k < m - 1 && WrittenAt(rest, r, k);
        assert res[k + 1..k + 1 + |r|] == rest[k..k + |r|];
        assert WrittenAt(res, r, k + 1);
      }
    }
  }

  /** A window of `pre + after` that starts past `pre` is a window of `after`. */
  lemma SliceOfAppend(pre: string, after: string, i: nat, n: nat)
    requires |pre| <= i && i + n <= |pre| + |after|
    ensures (pre + after)[i..i + n] == after[i - |pre|..i - |pre| + n]
  {
    assert forall k :: i <= k < i + n ==> (pre + after)[k] == after[k - |pre|];
  }

  /** A replacement that `q` does not overlap, put in front of a text
      without `q`, adds no occurrence of `q`. */
  lemma PrependReplacement(r: string, after: string, q: string)
    requires |q| > 0 && NoOverlap(q, r) && !Occurs(after, q)
    ensures !Occurs(r + after, q)
  {
    var res := r + after;
    forall i: nat
      ensures !MatchAt(res, q, i)
    {
      if i + |q| <= |res| {
        if i >= |r| {
          SliceOfAppend(r, after, i, |q|);
          assert !MatchAt(after, q, i - |r|);
        } else {
          assert !AgreesAt(q, r, i);
          var j :| 0 <= j < |q| && 0 <= i + j < |r| && q[j] != r[i + j];
          assert res[i..i + |q|][j] == r[i + j];
        }
      }
    }
  }

  /** A text that starts with a written replacement, one character in,
      cannot start with `q` when `q` would overlap it. */
  lemma WrittenBlocksHead(c: char, after: string, r: string, q: string, k: nat)
    requires |q| > 0 && NoOverlap(q, r) && k < |q| - 1 && |q| <= 1 + |after| && WrittenAt(after, r, k)
    ensures !MatchAt([c] + after, q, 0)
  {
    assert !AgreesAt(q, r, -(k + 1));
    var j :| 0 <= j < |q| && 0 <= j - (k + 1) < |r| && q[j] != r[j - (k + 1)];
    assert after[k..k + |r|][j - 1 - k] == after[j - 1];
    assert ([c] + after)[..|q|][j] == after[j - 1];
  }

  /** The scanned character and the start of the rest of the result do
      not spell `q` when they did not spell it in the input. */
  lemma PrependScannedHead(c: char, rest: string, p: string, r: string, q: string)
    requires |p| > 0 && |q| > 0 && NoOverlap(q, r) && !MatchAt([c] + rest, q, 0)
    requires |q| <= 1 + |ReplaceAll(rest, p, r)|
    ensures !MatchAt([c] + ReplaceAll(rest, p, r), q, 0)
  {
    var after := ReplaceAll(rest, p, r);
    ReplaceAllPrefix(rest, p, r, |q| - 1);
    if |q| - 1 <= |rest| && after[..|q| - 1] == rest[..|q| - 1] {
      assert ([c] + rest)[..|q|] == [c] + rest[..|q| - 1];
      assert ([c] + after)[..|q|] == [c] + after[..|q| - 1];
    } else {
      var k :| k < |q| - 1 && WrittenAt(after, r, k);
      WrittenBlocksHead(c, after, r, q, k);
    }
  }

  /** A character the scan went past, put in front of the rest of the
      result, adds no occurrence of `q` when `q` did not start there. */
  lemma PrependScanned(c: char, rest: string, p: string, r: string, q: string)
    requires |p| > 0 && |q| > 0 && NoOverlap(q, r)
    requires !Occurs(ReplaceAll(rest, p, r), q) && !MatchAt([c] + rest, q, 0)
    ensures !Occurs([c] + ReplaceAll(rest, p, r), q)
  {
    var after := ReplaceAll(rest, p, r);
    var res := [c] + after;
    forall i: nat
      ensures !MatchAt(res, q, i)
    {
      if i >= 1 && i + |q| <= |res| {
        SliceOfAppend([c], after, i, |q|);
        assert !MatchAt(after, q, i - 1);
      } else if i == 0 && |q| <= |res| {
        PrependScannedHead(c, rest, p, r, q);
      }
    }
  }

  /** After a global replace the pattern is gone, and so is any text `q`
      that was absent before, provided neither overlaps the replacement. */
  lemma {:induction false} ReplaceAllAvoids(s: string, p: string, r: string, q: string)
    requires |p| > 0 && |q| > 0 && NoOverlap(q, r)
    requires q == p || !Occurs(s, q)
    ensures !Occurs(ReplaceAll(s, p, r), q)
    decreases |s|
  {
    if |s| < |p| {
      if q == p {
        assert forall i: nat :: !MatchAt(s, q, i);
      }
    } else if s[..|p|] == p {
      if q != p {
        OccursInSuffix(s, q, |p|);
      }
      ReplaceAllAvoids(s[|p|..], p, r, q);
      PrependReplacement(r, ReplaceAll(s[|p|..], p, r), q);
    } else {
      if q != p {
        OccursInSuffix(s, q, 1);
      }
      ReplaceAllAvoids(s[1..], p, r, q);
      assert s == [s[0]] + s[1..];
      PrependScanned(s[0], s[1..], p, r, q);
    }
  }

  /** Replacing by a text as long as the pattern keeps the length. */
  lemma {:induction false} ReplaceAllSameLength(s: string, p: string, r: string)
    requires |p| > 0 && |r| == |p|
    ensures |ReplaceAll(s, p, r)| == |s|
    decreases |s|
  {
    if |s| >= |p| {
      if s[..|p|] == p {
        ReplaceAllSameLength(s[|p|..], p, r);
      } else {
        ReplaceAllSameLength(s[1..], p, r);
      }
    }
  }

  /** Replacing by a text at least as long as the pattern never shortens. */
  lemma {:induction false} ReplaceAllGrows(s: string, p: string, r: string)
    requires |p| > 0 && |r| >= |p|
    ensures |ReplaceAll(s, p, r)| >= |s|
    decreases |s|
  {
    if |s| >= |p| {
      if s[..|p|] == p {
        ReplaceAllGrows(s[|p|..], p, r);
      } else {
        ReplaceAllGrows(s[1..], p, r);
      }
    }
  }
}
