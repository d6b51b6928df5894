/**
 * The few Python `str` operations the core relies on: `isspace`, `strip`,
 * `lower` (ASCII letters only), `rfind` and `os.path.splitext`.
 */
module Strings {

  /** Python's `str.isspace` for a single character. */
  predicate IsSpace(c: char) {
    || c == ' '
    || '\t' <= c <= '\r'
    || '\U{1c}' <= c <= '\U{1f}'
    || c == '\U{85}' || c == '\U{a0}' || c == '\U{1680}'
    || '\U{2000}' <= c <= '\U{200a}'
    || c == '\U{2028}' || c == '\U{2029}' || c == '\U{202f}' || c == '\U{205f}' || c == '\U{3000}'
  }

  /** Every character is whitespace (the empty string included). */
  predicate IsBlank(s: string) {
    forall i :: 0 <= i < |s| ==> IsSpace(s[i])
  }

  lemma BlankConcat(a: string, b: string)
    ensures IsBlank(a + b) <==> IsBlank(a) && IsBlank(b)
  {
    if IsBlank(a + b) {
      forall i | 0 <= i < |a| ensures IsSpace(a[i]) {
        assert (a + b)[i] == a[i];
      }
      forall i | 0 <= i < |b| ensures IsSpace(b[i]) {
        assert (a + b)[|a| + i] == b[i];
      }
    }
  }

  /** `lstrip()`: drops the longest whitespace prefix. */
  function TrimStart(s: string): string {
    if |s| > 0 && IsSpace(s[0]) then TrimStart(s[1..]) else s
  }

  /** `rstrip()`: drops the longest whitespace suffix. */
  function TrimEnd(s: string): string {
    if |s| > 0 && IsSpace(s[|s| - 1]) then TrimEnd(s[..|s| - 1]) else s
  }

  /** `strip()`. */
  function Strip(s: string): string {
    TrimStart(TrimEnd(s))
  }

  /** `lstrip` removes a blank prefix and stops at a non-space character. */
  lemma {:induction false} TrimStartSpec(s: string)
    ensures var r := TrimStart(s);
      && |r| <= |s| && r == s[|s| - |r|..]
      && IsBlank(s[..|s| - |r|])
      && (r == [] || !IsSpace(r[0]))
  {
    if |s| > 0 && IsSpace(s[0]) {
      TrimStartSpec(s[1..]);
      var r := TrimStart(s[1..]);
      assert s[..|s| - |r|] == [s[0]] + s[1..][..|s| - 1 - |r|];
    }
  }

  /** `rstrip` removes a blank suffix and stops at a non-space character. */
  lemma {:induction false} TrimEndSpec(s: string)
    ensures var r := TrimEnd(s);
      && |r| <= |s| && r == s[..|r|]
      && IsBlank(s[|r|..])
      && (r == [] || !IsSpace(r[|r| - 1]))
  {
    if |s| > 0 && IsSpace(s[|s| - 1]) {
      TrimEndSpec(s[..|s| - 1]);
      var r := TrimEnd(s[..|s| - 1]);
      assert s[|r|..] == s[..|s| - 1][|r|..] + [s[|s| - 1]];
    }
  }

  lemma {:induction false} TrimEndOfBlank(s: string)
    requires IsBlank(s)
    ensures TrimEnd(s) == []
  {
    if |s| > 0 {
      TrimEndOfBlank(s[..|s| - 1]);
    }
  }

  /** `s.strip()` is falsy exactly when `s` is all whitespace. */
  lemma StripEmptyIffBlank(s: string)
    ensures Strip(s) == [] <==> IsBlank(s)
  {
    var t := TrimEnd(s);
    TrimEndSpec(s);
    TrimStartSpec(t);
    assert s == t + s[|t|..];
    BlankConcat(t, s[|t|..]);
    if IsBlank(s) {
      TrimEndOfBlank(s);
    }
    if Strip(s) == [] {
      assert t[..|t|] == t;
    }
  }

  /** The stripped text is no longer than the input and has no whitespace at either end. */
  lemma StripEnds(s: string)
    ensures var r := Strip(s);
      && |r| <= |s|
      && (r == [] || (!IsSpace(r[0]) && !IsSpace(r[|r| - 1])))
  {
    var t := TrimEnd(s);
    TrimEndSpec(s);
    TrimStartSpec(t);
    var r := TrimStart(t);
    if r != [] {
      assert r[|r| - 1] == t[|t| - 1];
    }
  }

  /** `str.lower()` on one character; only ASCII letters are folded. */
  function LowerChar(c: char): char {
    if 'A' <= c <= 'Z' then (c as int + 32) as char else c
  }

  /**
   * `str.lower()`: the result has no capital letter left, and every other
   * character is kept in place.
   */
  function Lower(s: string): (r: string)
    ensures |r| == |s|
    ensures forall i :: 0 <= i < |s| ==> r[i] == LowerChar(s[i])
    ensures forall i :: 0 <= i < |r| ==> !('A' <= r[i] <= 'Z')
    ensures forall i :: 0 <= i < |s| && !('A' <= s[i] <= 'Z') ==> r[i] == s[i]
  {
    seq(|s|, i requires 0 <= i < |s| => LowerChar(s[i]))
  }

  /** Text without capital ASCII letters is its own lower-case form. */
  lemma LowerOfNoCapitals(s: string)
    requires forall i :: 0 <= i < |s| ==> !('A' <= s[i] <= 'Z')
    ensures Lower(s) == s
  {
  }

  /** Lower-casing twice is lower-casing once. */
  lemma LowerIdempotent(s: string)
    ensures Lower(Lower(s)) == Lower(s)
  {
    LowerOfNoCapitals(Lower(s));
  }

  /** `str.rfind(c)`: the last index holding `c`, or -1. */
  function LastIndex(s: string, c: char): (k: int)
    ensures -1 <= k < |s|
    ensures k >= 0 ==> s[k] == c
    ensures forall j :: k < j < |s| ==> s[j] != c
  {
    if |s| == 0 then -1
    else if s[|s| - 1] == c then |s| - 1
    else LastIndex(s[..|s| - 1], c)
  }

  lemma AppendAssoc(x: string, y: string, z: string)
    ensures (x + y) + z == x + (y + z)
  {
  }

  /** An index holding `c` with no `c` after it is the last index of `c`. */
  lemma LastIndexUnique(s: string, c: char, k: int)
    requires 0 <= k < |s| && s[k] == c
    requires forall j :: k < j < |s| ==> s[j] != c
    ensures LastIndex(s, c) == k
  {
    var last := LastIndex(s, c);
    assert last >= k;
  }

  /**
   * The extension part of POSIX `os.path.splitext`: from the last '.' of the
   * last path component, provided that component has a character other than
   * '.' before it (so ".bashrc" and "a/..x" have no extension).
   */
  function SplitExt(p: string): (ext: string)
    ensures |ext| <= |p|
    ensures ext != [] ==>
      && ext[0] == '.'
      && p[|p| - |ext|..] == ext
      && forall j :: 1 <= j < |ext| ==> ext[j] != '.' && ext[j] != '/'
  {
    var sep := LastIndex(p, '/');
    var dot := LastIndex(p, '.');
    if dot > sep && exists k :: sep < k < dot && p[k] != '.' then p[dot..] else []
  }

  /** The last `c` of `a + b` lies in `b` when `b` has one, and is otherwise the last `c` of `a`. */
  lemma {:induction false} LastIndexAppend(a: string, b: string, c: char)
    ensures LastIndex(a + b, c) == if c in b then |a| + LastIndex(b, c) else LastIndex(a, c)
  {
    if |b| == 0 {
      assert a + b == a;
    } else if b[|b| - 1] != c {
      var b' := b[..|b| - 1];
      assert (a + b)[..|a + b| - 1] == a + b';
      assert c in b <==> c in b' by {
        assert b == b' + [b[|b| - 1]];
      }
      LastIndexAppend(a, b', c);
    }
  }

  /**
   * When the last path component has a '.' with some other character before
   * it in that component, the extension is found: it runs from the last '.'
   * of the path to the end.
   */
  lemma SplitExtFinds(p: string, j: int, k: int)
    requires LastIndex(p, '/') < j < k < |p| && p[j] != '.' && p[k] == '.'
    ensures SplitExt(p) == p[LastIndex(p, '.')..] && SplitExt(p) != []
  {
    var dot := LastIndex(p, '.');
    assert dot >= k;
  }

  /**
   * A path made of a directory part (empty or ending in '/'), a stem without
   * '/' that has some character other than '.', and a '.'-led suffix without
   * '.' or '/' has that suffix as its extension.
   */
  lemma SplitExtOfSuffix(head: string, stem: string, ext: string)
    requires head == [] || head[|head| - 1] == '/'
    requires '/' !in stem && exists k :: 0 <= k < |stem| && stem[k] != '.'
    requires |ext| > 0 && ext[0] == '.' && '.' !in ext[1..] && '/' !in ext
    ensures SplitExt(head + stem + ext) == ext
  {
    var p := head + stem + ext;
    LastIndexAppend(head + stem, ext, '/');
    LastIndexAppend(head, stem, '/');
    if head != [] {
      LastIndexUnique(head, '/', |head| - 1);
    }
    assert LastIndex(p, '/') == |head| - 1;
    LastIndexAppend(head + stem, ext, '.');
    assert forall j :: 1 <= j < |ext| ==> ext[j] == ext[1..][j - 1];
    assert LastIndex(ext, '.') == 0;
    assert LastIndex(p, '.') == |head| + |stem|;
    var k :| 0 <= k < |stem| && stem[k] != '.';
    assert p[|head| + k] == stem[k];
    SplitExtFinds(p, |head| + k, |head| + |stem|);
    assert p[|head| + |stem|..] == ext;
  }
}
