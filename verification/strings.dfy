/** Substring and character-search facts on strings, shared by the PHP and Python models. */
module Strings {

  predicate IsPrefix(t: string, s: string)
  {
    |t| <= |s| && s[..|t|] == t
  }

  /** Python's `t in s` for strings: t occurs in s at some position. */
  predicate Contains(s: string, t: string)
    decreases |s|
  {
    IsPrefix(t, s) || (|s| > 0 && Contains(s[1..], t))
  }

  predicate Avoids(s: string, c: char)
  {
    forall i :: 0 <= i < |s| ==> s[i] != c
  }

  /** An occurrence of t cannot start inside a prefix that lacks t's first character. */
  lemma {:induction false} ContainsSkip(a: string, b: string, t: string)
    requires |t| > 0 && Avoids(a, t[0])
    ensures Contains(a + b, t) <==> Contains(b, t)
    decreases |a|
  {
    if a != [] {
      assert (a + b)[0] == a[0];
      assert !IsPrefix(t, a + b);
      assert (a + b)[1..] == a[1..] + b;
      ContainsSkip(a[1..], b, t);
    } else {
      assert a + b == b;
    }
  }

  /** A string contains whatever is spliced into it. */
  lemma {:induction false} ContainsInfix(a: string, t: string, c: string)
    ensures Contains(a + t + c, t)
    decreases |a|
  {
    if a == [] {
      assert a + t + c == t + c;
      assert (t + c)[..|t|] == t;
    } else {
      assert (a + t + c)[1..] == a[1..] + t + c;
      ContainsInfix(a[1..], t, c);
    }
  }

  lemma {:induction false} NotContainsEmpty(t: string)
    requires |t| > 0
    ensures !Contains("", t)
  {
  }

  /** The index of the last occurrence of c in s, or -1. */
  function LastIndexOf(s: string, c: char): (i: int)
    ensures -1 <= i < |s|
    ensures i >= 0 ==> s[i] == c
    ensures forall j :: i < j < |s| ==> s[j] != c
    decreases |s|
  {
    if s == [] then -1
    else if s[|s| - 1] == c then |s| - 1
    else LastIndexOf(s[..|s| - 1], c)
  }

  /** The last occurrence of c in x + [c] + y, when y has none, is the one between them. */
  lemma {:induction false} LastIndexAt(x: string, c: char, y: string)
    requires Avoids(y, c)
    ensures LastIndexOf(x + [c] + y, c) == |x|
    decreases |y|
  {
    var s := x + [c] + y;
    if y != [] {
      var y' := y[..|y| - 1];
      assert s[|s| - 1] == y[|y| - 1];
      assert s[..|s| - 1] == x + [c] + y';
      LastIndexAt(x, c, y');
    }
  }

  /** A string without c has no last occurrence of it. */
  lemma NoLastIndex(s: string, c: char)
    requires Avoids(s, c)
    ensures LastIndexOf(s, c) == -1
  {
  }

  /** basename: what follows the last slash (a trailing slash is not stripped here). */
  function Basename(p: string): (b: string)
    ensures Avoids(b, '/')
  {
    p[LastIndexOf(p, '/') + 1..]
  }

  /** A name without a slash is its own basename, and a basename keeps the extension of its path. */
  lemma BasenameOfName(p: string)
    ensures Avoids(p, '/') ==> Basename(p) == p
    ensures Extension(Basename(p)) == Extension(p)
  {
    NoLastIndex(Basename(p), '/');
    if Avoids(p, '/') {
      NoLastIndex(p, '/');
    }
  }

  /** pathinfo(p, PATHINFO_EXTENSION): what follows the last dot of the basename, or "". */
  function Extension(p: string): (e: string)
    ensures Avoids(e, '.') && Avoids(e, '/')
  {
    var b := Basename(p);
    var d := LastIndexOf(b, '.');
    if d < 0 then "" else b[d + 1..]
  }

  /** pathinfo(p, PATHINFO_FILENAME): the basename up to its last dot. */
  function FileName(p: string): (f: string)
    ensures Avoids(f, '/')
  {
    var b := Basename(p);
    var d := LastIndexOf(b, '.');
    if d < 0 then b else b[..d]
  }

  /** The basename is the file name, a dot and the extension, when it has a dot. */
  lemma BasenameSplits(p: string)
    ensures LastIndexOf(Basename(p), '.') >= 0 ==> Basename(p) == FileName(p) + "." + Extension(p)
    ensures LastIndexOf(Basename(p), '.') < 0 ==> Basename(p) == FileName(p) && Extension(p) == ""
  {
  }

  /** One character of strtolower: an ASCII capital becomes its small letter. */
  function LowerChar(c: char): (d: char)
    ensures ('A' <= c <= 'Z') == ('a' <= d <= 'z' && d != c)
    ensures d != c ==> d as int == c as int + 32
  {
    if 'A' <= c <= 'Z' then (c as int + 32) as char else c
  }

  /** strtolower: ASCII letters only, character by character. */
  function Lower(s: string): (r: string)
    ensures |r| == |s|
  {
    seq(|s|, i requires 0 <= i < |s| => LowerChar(s[i]))
  }

  /** A decimal numeral without leading zeros, as PHP interpolates an integer. */
  function Decimal(n: nat): (s: string)
    ensures |s| > 0 && forall i :: 0 <= i < |s| ==> '0' <= s[i] <= '9'
  {
    if n < 10 then [('0' as int + n) as char] else Decimal(n / 10) + [('0' as int + n % 10) as char]
  }
}
