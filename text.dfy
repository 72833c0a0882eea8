/**
 * The three string operations the channel classifier relies on:
 * `toLowerCase`, `trim` and `includes` of JavaScript strings.
 *
 * Case folding is modelled on ASCII letters only; `trim` removes the
 * ECMAScript white-space and line-terminator characters, listed below.
 */
module Text {

  /** An upper-case ASCII letter, the only characters `Lower` changes. */
  predicate IsUpper(c: char) {
    'A' <= c <= 'Z'
  }

  function LowerChar(c: char): char {
    if IsUpper(c) then (c as int + 32) as char else c
  }

  /** `toLowerCase`, restricted to ASCII letters. */
  function Lower(s: string): (r: string)
    ensures |r| == |s|
    ensures forall i :: 0 <= i < |s| ==> r[i] == LowerChar(s[i])
  {
    if s == [] then [] else [LowerChar(s[0])] + Lower(s[1..])
  }

  /**
   * The characters `trim` removes: ECMAScript WhiteSpace (tab, vertical
   * tab, form feed, the byte-order mark and the Unicode space separators)
   * and LineTerminator (line feed, carriage return, U+2028, U+2029).
   */
  predicate IsSpace(c: char) {
    c == '\t' || c == '\n' || c == '\U{000B}' || c == '\U{000C}' || c == '\r'
    || c == ' ' || c == '\U{00A0}' || c == '\U{1680}'
    || ('\U{2000}' <= c <= '\U{200A}')
    || c == '\U{2028}' || c == '\U{2029}' || c == '\U{202F}' || c == '\U{205F}'
    || c == '\U{3000}' || c == '\U{FEFF}'
  }

  predicate AllSpace(s: string) {
    forall i :: 0 <= i < |s| ==> IsSpace(s[i])
  }

  predicate NoSpace(s: string) {
    forall i :: 0 <= i < |s| ==> !IsSpace(s[i])
  }

  /** Drops the leading white space. */
  function TrimStart(s: string): string {
    if s != [] && IsSpace(s[0]) then TrimStart(s[1..]) else s
  }

  /** Drops the trailing white space. */
  function TrimEnd(s: string): string {
    if s != [] && IsSpace(s[|s| - 1]) then TrimEnd(s[..|s| - 1]) else s
  }

  /** `trim`: both ends at once. */
  function Trim(s: string): string {
    TrimEnd(TrimStart(s))
  }

  /** What `TrimStart` drops is a prefix of white space, and what is left does not start with any. */
  lemma {:induction false} TrimStartDrops(s: string)
    ensures |TrimStart(s)| <= |s| && TrimStart(s) == s[|s| - |TrimStart(s)|..]
    ensures AllSpace(s[..|s| - |TrimStart(s)|])
    ensures TrimStart(s) == [] || !IsSpace(TrimStart(s)[0])
  {
    if s != [] && IsSpace(s[0]) {
      TrimStartDrops(s[1..]);
      var n := |s| - |TrimStart(s)|;
      assert s[1..][..n - 1] == s[1..n];
      assert forall i :: 1 <= i < n ==> s[..n][i] == s[1..n][i - 1];
    }
  }

  /** What `TrimEnd` drops is a suffix of white space, and what is left does not end with any. */
  lemma {:induction false} TrimEndDrops(s: string)
    ensures |TrimEnd(s)| <= |s| && TrimEnd(s) == s[..|TrimEnd(s)|]
    ensures AllSpace(s[|TrimEnd(s)|..])
    ensures TrimEnd(s) == [] || !IsSpace(TrimEnd(s)[|TrimEnd(s)| - 1])
  {
    if s != [] && IsSpace(s[|s| - 1]) {
      var u := s[..|s| - 1];
      TrimEndDrops(u);
      var m := |TrimEnd(s)|;
      assert u[..m] == s[..m];
      assert forall i :: 0 <= i < |s| - m - 1 ==> s[m..][i] == u[m..][i];
    }
  }

  /** `s` is `t` with some white space around it. */
  ghost predicate Framed(t: string, s: string) {
    exists a, b :: 0 <= a <= b <= |s| && t == s[a..b] && AllSpace(s[..a]) && AllSpace(s[b..])
  }

  /** `trim` removes white space around the label and nothing else, and leaves none at either end. */
  lemma TrimFramed(s: string)
    ensures Framed(Trim(s), s)
    ensures Trim(s) == [] || (!IsSpace(Trim(s)[0]) && !IsSpace(Trim(s)[|Trim(s)| - 1]))
  {
    var u := TrimStart(s);
    var a := |s| - |u|;
    var t := TrimEnd(u);
    TrimStartDrops(s);
    TrimEndDrops(u);
    SuffixPrefix(s, a, t);
    var b := a + |t|;
    assert 0 <= a <= b <= |s| && t == s[a..b] && AllSpace(s[..a]) && AllSpace(s[b..]);
    if t != [] {
      assert t[0] == u[0];
    }
  }

  /** A prefix `t` of the suffix `s[a..]`, and what follows it there, as slices of `s`. */
  lemma SuffixPrefix(s: string, a: int, t: string)
    requires 0 <= a <= |s| && |t| <= |s| - a && t == s[a..][..|t|]
    ensures t == s[a..a + |t|] && s[a..][|t|..] == s[a + |t|..]
  {
  }

  /** `sub` occurs in `s` starting at index `i`. */
  ghost predicate OccursAt(s: string, sub: string, i: int) {
    0 <= i && i + |sub| <= |s| && s[i..i + |sub|] == sub
  }

  predicate IsPrefix(p: string, s: string) {
    |p| <= |s| && s[..|p|] == p
  }

  /** `includes`: `sub` is a prefix of `s` or of one of its suffixes. */
  function Contains(s: string, sub: string): bool
    decreases |s|
  {
    IsPrefix(sub, s) || (s != [] && Contains(s[1..], sub))
  }

  /** `Contains` holds exactly when `sub` occurs somewhere in `s` (the empty string occurs in every string). */
  lemma {:induction false} ContainsIffOccurs(s: string, sub: string)
    ensures Contains(s, sub) <==> exists i :: OccursAt(s, sub, i)
    decreases |s|
  {
    if IsPrefix(sub, s) {
      assert OccursAt(s, sub, 0);
    } else if s != [] {
      ContainsIffOccurs(s[1..], sub);
      assert forall i :: OccursAt(s[1..], sub, i) ==> OccursAt(s, sub, i + 1);
      assert forall i :: OccursAt(s, sub, i) ==> i == 0 || OccursAt(s[1..], sub, i - 1);
    }
  }

  /** An occurrence found is a `Contains`. */
  lemma Found(s: string, sub: string, i: int)
    requires OccursAt(s, sub, i)
    ensures Contains(s, sub)
  {
    ContainsIffOccurs(s, sub);
  }

  /** Folding case twice is folding it once. */
  lemma LowerIdempotent(s: string)
    ensures Lower(Lower(s)) == Lower(s)
  {
  }

  /** Case folding leaves white space alone and makes no new white space. */
  lemma LowerKeepsSpace(c: char)
    ensures IsSpace(LowerChar(c)) == IsSpace(c)
  {
  }

  /** Case folding works character by character, so it commutes with slicing. */
  lemma LowerSlice(s: string, a: int, b: int)
    requires 0 <= a <= b <= |s|
    ensures Lower(s[a..b]) == Lower(s)[a..b]
  {
    assert forall i :: 0 <= i < b - a ==> Lower(s[a..b])[i] == LowerChar(s[a + i]) == Lower(s)[a..b][i];
  }

  /** An occurrence in a slice is an occurrence in the whole string, shifted. */
  lemma OccursInSlice(s: string, a: int, b: int, k: string, i: int)
    requires 0 <= a <= b <= |s| && OccursAt(s[a..b], k, i)
    ensures OccursAt(s, k, a + i)
  {
    var t := s[a..b];
    assert forall x :: 0 <= x < |k| ==> s[a + i..a + i + |k|][x] == t[i + x] == k[x];
    assert s[a + i..a + i + |k|] == k;
  }

  /** An occurrence of a word without white space in it cannot reach into white space around `s[a..b]`. */
  lemma OccursInFrame(s: string, a: int, b: int, k: string, i: int)
    requires 0 <= a <= b <= |s| && AllSpace(s[..a]) && AllSpace(s[b..])
    requires k != [] && NoSpace(k) && OccursAt(s, k, i)
    ensures OccursAt(s[a..b], k, i - a)
  {
    assert !IsSpace(s[i]) by { assert s[i] == k[0]; }
    assert i >= a;
    var j := i + |k| - 1;
    assert !IsSpace(s[j]) by { assert s[j] == k[|k| - 1]; }
    assert j < b;
    var t := s[a..b];
    assert forall x :: 0 <= x < |k| ==> t[i - a..i - a + |k|][x] == s[i + x] == k[x];
    assert t[i - a..i - a + |k|] == k;
  }

  /**
   * White space around a string cannot create or destroy an occurrence
   * of a non-empty word that has no white space in it.
   */
  lemma ContainsFramed(t: string, s: string, k: string)
    requires Framed(t, s)
    requires k != [] && NoSpace(k)
    ensures Contains(t, k) == Contains(s, k)
  {
    var a, b :| 0 <= a <= b <= |s| && t == s[a..b] && AllSpace(s[..a]) && AllSpace(s[b..]);
    ContainsIffOccurs(t, k);
    ContainsIffOccurs(s, k);
    if Contains(t, k) {
      var i :| OccursAt(t, k, i);
      OccursInSlice(s, a, b, k, i);
    }
    if Contains(s, k) {
      var i :| OccursAt(s, k, i);
      OccursInFrame(s, a, b, k, i);
    }
  }

  /** Every letter of a word that occurs in a string is a letter of the string. */
  lemma ContainsLetters(s: string, k: string)
    ensures Contains(s, k) ==> forall c :: c in k ==> c in s
  {
    ContainsIffOccurs(s, k);
    if Contains(s, k) {
      var i :| OccursAt(s, k, i);
      forall c | c in k ensures c in s {
        var j :| 0 <= j < |k| && k[j] == c;
        assert s[i + j] == s[i..i + |k|][j];
      }
    }
  }

  /** A word with a letter the string lacks does not occur in it. */
  lemma Absent(s: string, k: string, c: char)
    requires c in k && c !in s
    ensures !Contains(s, k)
  {
    ContainsLetters(s, k);
  }

  /** A word spliced into a string is contained in it. */
  lemma ContainsSpliced(a: string, k: string, b: string)
    ensures Contains(a + k + b, k)
  {
    assert (a + k + b)[|a|..|a| + |k|] == k;
    Found(a + k + b, k, |a|);
  }
}
