/** String helpers with the meaning Python 2 gives them on ASCII byte strings. */
module Text {
  import opened Wrappers

  /** str.lower() on one ASCII character. */
  function LowerChar(c: char): char
  {
    if 'A' <= c <= 'Z' then (c as int + 32) as char else c
  }

  /** str.upper() on one ASCII character. */
  function UpperChar(c: char): char
  {
    if 'a' <= c <= 'z' then (c as int - 32) as char else c
  }

  function Lower(s: string): (r: string)
    ensures |r| == |s|
    ensures forall i :: 0 <= i < |s| ==> r[i] == LowerChar(s[i])
  {
    seq(|s|, i requires 0 <= i < |s| => LowerChar(s[i]))
  }

  function Upper(s: string): (r: string)
    ensures |r| == |s|
    ensures forall i :: 0 <= i < |s| ==> r[i] == UpperChar(s[i])
  {
    seq(|s|, i requires 0 <= i < |s| => UpperChar(s[i]))
  }

  /** The characters str.strip() removes when called without arguments. */
  predicate IsSpace(c: char)
  {
    c == ' ' || c == '\t' || c == '\n' || c == '\r' || c == 11 as char || c == 12 as char
  }

  function LStrip(s: string): (r: string)
    ensures |r| <= |s|
  {
    if s != [] && IsSpace(s[0]) then LStrip(s[1..]) else s
  }

  function RStrip(s: string): (r: string)
    ensures |r| <= |s|
  {
    if s != [] && IsSpace(s[|s| - 1]) then RStrip(s[..|s| - 1]) else s
  }

  /** str.strip() */
  function Strip(s: string): string
  {
    RStrip(LStrip(s))
  }

  /** p occurs in s starting at position i. */
  predicate OccursAt(s: string, p: string, i: int)
  {
    0 <= i && i + |p| <= |s| && s[i..i + |p|] == p
  }

  /** Python's `p in s` on strings. */
  predicate Contains(s: string, p: string)
  {
    exists i | 0 <= i <= |s| :: OccursAt(s, p, i)
  }

  /** A string can only contain strings no longer than itself. */
  lemma NotContainsLonger(s: string, p: string)
    requires |p| > |s|
    ensures !Contains(s, p)
  {
  }

  /** A character of p that never occurs in s rules out p occurring in s. */
  lemma NotContainsByChar(s: string, p: string, j: nat)
    requires j < |p| && p[j] !in s
    ensures !Contains(s, p)
  {
  }

  /**
   * p[j] occurs in s only at q, and aligning p there either overruns s or
   * disagrees with p at j2: then p does not occur in s.
   */
  lemma NotContainsByAnchor(s: string, p: string, j: nat, q: nat, j2: nat)
    requires j < |p| && j2 < |p| && q < |s|
    requires p[j] !in s[..q] && p[j] !in s[q + 1..]
    requires q < j || q - j + |p| > |s| || s[q - j + j2] != p[j2]
    ensures !Contains(s, p)
  {
    forall i | 0 <= i <= |s|
      ensures !OccursAt(s, p, i)
    {
      if i + |p| <= |s| {
        if i + j < q {
          assert s[..q][i + j] == s[i + j];
          assert s[i..i + |p|][j] == s[i + j];
        } else if i + j > q {
          assert s[q + 1..][i + j - q - 1] == s[i + j];
          assert s[i..i + |p|][j] == s[i + j];
        } else {
          assert s[i..i + |p|][j2] == s[q - j + j2];
        }
      }
    }
  }

  /** A character missing from s in both cases is missing from Lower(s). */
  lemma NotInLower(s: string, c: char)
    requires c !in s && !('A' <= c <= 'Z') && ('a' <= c <= 'z' ==> UpperChar(c) !in s)
    ensures c !in Lower(s)
  {
    forall i | 0 <= i < |s|
      ensures Lower(s)[i] != c
    {
      assert s[i] in s;
    }
  }

  /** Case-insensitive form of NotContainsByChar, stated on the original strings. */
  lemma NotContainsLowerByChar(s: string, p: string, j: nat, c: char)
    requires j < |p| && LowerChar(p[j]) == c
    requires c !in s && !('A' <= c <= 'Z') && ('a' <= c <= 'z' ==> UpperChar(c) !in s)
    ensures !Contains(Lower(s), Lower(p))
  {
    NotInLower(s, c);
    NotContainsByChar(Lower(s), Lower(p), j);
  }

  /** Lowering commutes with slicing. */
  lemma LowerSlice(s: string, i: nat, j: nat)
    requires i <= j <= |s|
    ensures Lower(s)[i..j] == Lower(s[i..j])
  {
  }

  /**
   * Case-insensitive form of NotContainsByAnchor: s is pre + [x] + post,
   * the lower-cased p[j] occurs in neither pre nor post in either case, and
   * aligning p[j] with x overruns s or disagrees at j2.
   */
  lemma NotContainsLowerByAnchor(s: string, p: string, j: nat, pre: string, x: char, post: string, j2: nat)
    requires j < |p| && j2 < |p| && s == pre + [x] + post
    requires LowerChar(x) == LowerChar(p[j])
    requires var c := LowerChar(p[j]);
      c !in pre && c !in post && ('a' <= c <= 'z' ==> UpperChar(c) !in pre && UpperChar(c) !in post)
    requires |pre| < j || |pre| - j + |p| > |s| || LowerChar(s[|pre| - j + j2]) != LowerChar(p[j2])
    ensures !Contains(Lower(s), Lower(p))
  {
    var c := LowerChar(p[j]);
    var q := |pre|;
    assert s[..q] == pre && s[q + 1..] == post;
    NotInLower(pre, c);
    NotInLower(post, c);
    LowerSlice(s, 0, q);
    LowerSlice(s, q + 1, |s|);
    assert Lower(s)[..q] == Lower(s)[0..q];
    assert Lower(s)[q + 1..] == Lower(s)[q + 1..|s|];
    NotContainsByAnchor(Lower(s), Lower(p), j, q, j2);
  }

  lemma ContainsAt(s: string, p: string, i: nat)
    requires OccursAt(s, p, i)
    ensures Contains(s, p)
  {
  }

  function StartsWith(s: string, p: string): bool
  {
    |p| <= |s| && s[..|p|] == p
  }

  /** A string that differs from p at some position of p does not start with p. */
  lemma NotStartsWithAt(s: string, p: string, i: nat)
    requires i < |p| && (i >= |s| || s[i] != p[i])
    ensures !StartsWith(s, p)
  {
    if |p| <= |s| {
      assert s[..|p|][i] == s[i];
    }
  }

  function EndsWith(s: string, p: string): bool
  {
    |p| <= |s| && s[|s| - |p|..] == p
  }

  /** str.index(p): the first position at which p occurs in s. */
  function IndexOf(s: string, p: string): (r: Option<nat>)
    ensures r.Some? <==> Contains(s, p)
    ensures r.Some? ==> OccursAt(s, p, r.value)
    ensures r.Some? ==> forall i :: 0 <= i < r.value ==> !OccursAt(s, p, i)
  {
    IndexFrom(s, p, 0)
  }

  function IndexFrom(s: string, p: string, k: nat): (r: Option<nat>)
    requires forall i :: 0 <= i < k ==> !OccursAt(s, p, i)
    ensures r.Some? ==> k <= r.value && OccursAt(s, p, r.value)
    ensures r.Some? ==> forall i :: 0 <= i < r.value ==> !OccursAt(s, p, i)
    ensures r.None? ==> forall i :: !OccursAt(s, p, i)
    decreases |s| + 1 - k
  {
    if k + |p| > |s| then None
    else if s[k..k + |p|] == p then Some(k)
    else IndexFrom(s, p, k + 1)
  }

  /** str.split(sep) for a one-character separator. */
  function Split(s: string, sep: char): (r: seq<string>)
    ensures |r| >= 1
  {
    if sep !in s then [s]
    else
      var k := FirstIndex(s, sep);
      [s[..k]] + Split(s[k + 1..], sep)
  }

  /** The first position of c in s. */
  function FirstIndex(s: string, c: char): (k: nat)
    requires c in s
    ensures k < |s| && s[k] == c && c !in s[..k]
  {
    if s[0] == c then 0 else 1 + FirstIndex(s[1..], c)
  }

  /** sep.join(parts) */
  function Join(parts: seq<string>, sep: string): string
  {
    if parts == [] then []
    else if |parts| == 1 then parts[0]
    else parts[0] + sep + Join(parts[1..], sep)
  }

  /** str.lstrip('0') */
  function LStripZeros(s: string): (r: string)
    ensures |r| <= |s| && r == s[|s| - |r|..]
    ensures r == [] || r[0] != '0'
  {
    if s != [] && s[0] == '0' then LStripZeros(s[1..]) else s
  }

  predicate IsDigit(c: char)
  {
    '0' <= c <= '9'
  }

  predicate AllDigits(s: string)
  {
    forall i :: 0 <= i < |s| ==> IsDigit(s[i])
  }

  /** Python's \w on ASCII: letters, digits and the underscore. */
  predicate IsWordChar(c: char)
  {
    'a' <= c <= 'z' || 'A' <= c <= 'Z' || IsDigit(c) || c == '_'
  }

  predicate AllWordChars(s: string)
  {
    forall i :: 0 <= i < |s| ==> IsWordChar(s[i])
  }

  /** int(s) for a string of decimal digits. */
  function DigitsValue(s: string): nat
    requires AllDigits(s)
  {
    if s == [] then 0 else DigitsValue(s[..|s| - 1]) * 10 + (s[|s| - 1] as int - '0' as int)
  }

  /** str(n) for a natural number. */
  function NatToString(n: nat): (r: string)
    ensures |r| >= 1 && AllDigits(r)
    ensures DigitsValue(r) == n
    decreases n
  {
    if n < 10 then [('0' as int + n) as char]
    else
      var front := NatToString(n / 10);
      var r := front + [('0' as int + n % 10) as char];
      assert r[..|r| - 1] == front;
      r
  }

  /** str(n) for any integer. */
  function IntToString(n: int): (r: string)
    ensures |r| >= 1
  {
    if n < 0 then "-" + NatToString(-n) else NatToString(n)
  }

  lemma UpperIdempotent(s: string)
    ensures Upper(Upper(s)) == Upper(s)
  {
  }

  lemma LowerIdempotent(s: string)
    ensures Lower(Lower(s)) == Lower(s)
  {
  }

  /** Changing case never creates or removes a character that is not a letter. */
  lemma CaseKeepsNonLetter(s: string, c: char)
    requires !('a' <= c <= 'z') && !('A' <= c <= 'Z')
    ensures c in Upper(s) <==> c in s
    ensures c in Lower(s) <==> c in s
  {
    if c in Upper(s) {
      var i :| 0 <= i < |s| && Upper(s)[i] == c;
      assert s[i] == c;
    }
    if c in Lower(s) {
      var i :| 0 <= i < |s| && Lower(s)[i] == c;
      assert s[i] == c;
    }
    if c in s {
      var i :| 0 <= i < |s| && s[i] == c;
      assert Upper(s)[i] == c && Lower(s)[i] == c;
    }
  }

  /** No part of a split contains the separator. */
  lemma {:induction false} SplitNoSep(s: string, sep: char)
    ensures forall j :: 0 <= j < |Split(s, sep)| ==> sep !in Split(s, sep)[j]
    decreases |s|
  {
    if sep in s {
      var k := FirstIndex(s, sep);
      SplitNoSep(s[k + 1..], sep);
    }
  }

  lemma {:induction false} FirstIndexAfter(a: string, c: char, b: string)
    requires c !in a
    ensures c in a + [c] + b && FirstIndex(a + [c] + b, c) == |a|
    decreases |a|
  {
    var s := a + [c] + b;
    assert s[|a|] == c;
    if a != [] {
      assert s[1..] == a[1..] + [c] + b;
      FirstIndexAfter(a[1..], c, b);
    }
  }

  /** Splitting a join on a separator none of the parts contains gives the parts back. */
  lemma {:induction false} SplitJoin(parts: seq<string>, sep: char)
    requires |parts| >= 1 && forall j :: 0 <= j < |parts| ==> sep !in parts[j]
    ensures Split(Join(parts, [sep]), sep) == parts
    decreases |parts|
  {
    if |parts| > 1 {
      var rest := Join(parts[1..], [sep]);
      assert Join(parts, [sep]) == parts[0] + [sep] + rest;
      FirstIndexAfter(parts[0], sep, rest);
      var s := parts[0] + [sep] + rest;
      assert s[..|parts[0]|] == parts[0];
      assert s[|parts[0]| + 1..] == rest;
      SplitJoin(parts[1..], sep);
      assert parts == [parts[0]] + parts[1..];
    }
  }

  /** str.replace(pat, rep): every non-overlapping occurrence, left to right. */
  function Replace(s: string, pat: string, rep: string): string
    requires pat != []
    decreases |s|
  {
    match IndexOf(s, pat)
    case None => s
    case Some(k) => s[..k] + rep + Replace(s[k + |pat|..], pat, rep)
  }

  /** A string without the pattern is left as it is. */
  lemma ReplaceAbsent(s: string, pat: string, rep: string)
    requires pat != [] && !Contains(s, pat)
    ensures Replace(s, pat, rep) == s
  {
  }

  /**
   * A string in which the pattern occurs once, at k, changes only there:
   * the text before and after it is kept.
   */
  lemma ReplaceOnce(s: string, pat: string, rep: string, k: nat)
    requires pat != [] && OccursAt(s, pat, k)
    requires forall i :: 0 <= i < |s| && i != k ==> !OccursAt(s, pat, i)
    ensures Replace(s, pat, rep) == s[..k] + rep + s[k + |pat|..]
  {
    var rest := s[k + |pat|..];
    forall i | 0 <= i <= |rest|
      ensures !OccursAt(rest, pat, i)
    {
      if OccursAt(rest, pat, i) {
        assert s[k + |pat| + i..k + |pat| + i + |pat|] == rest[i..i + |pat|];
        assert OccursAt(s, pat, k + |pat| + i);
      }
    }
    ReplaceAbsent(rest, pat, rep);
  }

  /** os.path.basename: the text after the last '/'. */
  function Basename(path: string): string
  {
    if path == [] then []
    else if path[|path| - 1] == '/' then []
    else Basename(path[..|path| - 1]) + [path[|path| - 1]]
  }

  /** The basename is the longest suffix of the path without a '/'. */
  lemma {:induction false} BasenameSuffix(path: string)
    ensures var r := Basename(path);
            |r| <= |path| && '/' !in r && r == path[|path| - |r|..]
            && (|r| < |path| ==> path[|path| - |r| - 1] == '/')
  {
    if path != [] && path[|path| - 1] != '/' {
      var front := path[..|path| - 1];
      BasenameSuffix(front);
      var r0 := Basename(front);
      assert path[|path| - |r0| - 1..] == front[|front| - |r0|..] + [path[|path| - 1]];
      if |r0| < |front| {
        assert path[|path| - |r0| - 2] == front[|front| - |r0| - 1];
      }
    }
  }
}
