/** String helpers with Python's semantics where the pipeline depends on them:
    case folding (`str.lower`, restricted to ASCII letters), whitespace splitting
    (`str.split()` without arguments) and substring search (`in`). */
module Text {

  function LowerChar(c: char): char {
    if 'A' <= c <= 'Z' then (c as int + 32) as char else c
  }

  /** `s.lower()` on ASCII letters; every other character is kept. */
  function Lower(s: string): (r: string)
    ensures |r| == |s|
    ensures forall i :: 0 <= i < |s| ==> r[i] == LowerChar(s[i])
  {
    seq(|s|, i requires 0 <= i < |s| => LowerChar(s[i]))
  }

  /** The characters for which Python's `str.isspace()` holds; `str.split()` separates on runs of them. */
  const Whitespace: set<char> := {
    '\t', '\n', '\U{0B}', '\U{0C}', '\r', '\U{1C}', '\U{1D}', '\U{1E}', '\U{1F}', ' ', '\U{85}', '\U{A0}',
    '\U{1680}', '\U{2000}', '\U{2001}', '\U{2002}', '\U{2003}', '\U{2004}', '\U{2005}', '\U{2006}',
    '\U{2007}', '\U{2008}', '\U{2009}', '\U{200A}', '\U{2028}', '\U{2029}', '\U{202F}', '\U{205F}',
    '\U{3000}'}

  predicate IsSpace(c: char) {
    c in Whitespace
  }

  /** p occurs in s starting at position k. */
  predicate OccursAt(s: string, p: string, k: int) {
    0 <= k <= |s| - |p| && s[k..k + |p|] == p
  }

  /** Substring test, Python's `p in s`. */
  predicate Contains(s: string, p: string) {
    exists k :: 0 <= k <= |s| - |p| && OccursAt(s, p, k)
  }

  predicate NoSpace(s: string) {
    forall i :: 0 <= i < |s| ==> !IsSpace(s[i])
  }

  /** Length of the leading run of non-whitespace characters. */
  function WordLen(s: string): (n: nat)
    ensures n <= |s|
    ensures NoSpace(s[..n])
    ensures n < |s| ==> IsSpace(s[n])
  {
    if s == [] || IsSpace(s[0]) then 0
    else
      var n := 1 + WordLen(s[1..]);
      assert s[..n] == [s[0]] + s[1..][..n - 1];
      n
  }

  /** `s.split()`: the maximal runs of non-whitespace characters, in order. */
  function Words(s: string): (ws: seq<string>)
    ensures forall k :: 0 <= k < |ws| ==> ws[k] != [] && NoSpace(ws[k])
    decreases |s|
  {
    if s == [] then []
    else if IsSpace(s[0]) then Words(s[1..])
    else
      var n := WordLen(s);
      [s[..n]] + Words(s[n..])
  }

  /** Number of positions where a word starts: a non-whitespace character at the start
      of the text or right after whitespace. `afterSpace` says whether the previous
      character (if any) was whitespace. */
  function WordStarts(s: string, afterSpace: bool): nat
  {
    if s == [] then 0
    else (if afterSpace && !IsSpace(s[0]) then 1 else 0) + WordStarts(s[1..], IsSpace(s[0]))
  }

  lemma {:induction false} WordStartsSkipWord(s: string, m: nat)
    requires m <= |s|
    requires NoSpace(s[..m])
    ensures WordStarts(s, false) == WordStarts(s[m..], false)
  {
    if m > 0 {
      assert !IsSpace(s[0]) by { assert s[..m][0] == s[0]; }
      assert WordStarts(s, false) == WordStarts(s[1..], false);
      assert s[1..][..m - 1] == s[..m][1..];
      WordStartsSkipWord(s[1..], m - 1);
      assert s[1..][m - 1..] == s[m..];
    }
  }

  /** Python's `len(s.split())` counts the word starts of s. */
  lemma {:induction false} WordCountIsWordStarts(s: string)
    ensures |Words(s)| == WordStarts(s, true)
    decreases |s|
  {
    if s == [] {
    } else if IsSpace(s[0]) {
      WordCountIsWordStarts(s[1..]);
    } else {
      var n := WordLen(s);
      WordCountIsWordStarts(s[n..]);
      assert s[1..][..n - 1] == s[1..n];
      assert s[1..][..n - 1] == s[..n][1..];
      WordStartsSkipWord(s[1..], n - 1);
      assert s[1..][n - 1..] == s[n..];
      if n < |s| {
        assert IsSpace(s[n..][0]);
      }
    }
  }

  lemma ContainsShift(s: string, p: string, m: nat)
    requires m <= |s|
    requires Contains(s[m..], p)
    ensures Contains(s, p)
  {
    var k :| 0 <= k <= |s[m..]| - |p| && OccursAt(s[m..], p, k);
    assert s[m + k..m + k + |p|] == s[m..][k..k + |p|];
    assert OccursAt(s, p, m + k);
  }

  lemma ContainsPrefix(s: string, p: string, n: nat)
    requires n <= |s|
    requires Contains(s[..n], p)
    ensures Contains(s, p)
  {
    var k :| 0 <= k <= |s[..n]| - |p| && OccursAt(s[..n], p, k);
    assert s[k..k + |p|] == s[..n][k..k + |p|];
    assert OccursAt(s, p, k);
  }

  /** Every word is a piece of the text, so whatever occurs in a word occurs in the text. */
  lemma {:induction false} WordOccurrenceInText(s: string, p: string, k: nat)
    requires k < |Words(s)| && Contains(Words(s)[k], p)
    ensures Contains(s, p)
    decreases |s|
  {
    if IsSpace(s[0]) {
      WordOccurrenceInText(s[1..], p, k);
      ContainsShift(s, p, 1);
    } else {
      var n := WordLen(s);
      assert Words(s) == [s[..n]] + Words(s[n..]);
      if k == 0 {
        ContainsPrefix(s, p, n);
      } else {
        WordOccurrenceInText(s[n..], p, k - 1);
        ContainsShift(s, p, n);
      }
    }
  }

  lemma OccursAfterDrop(s: string, p: string, k: int, m: nat)
    requires OccursAt(s, p, k) && m <= k
    ensures OccursAt(s[m..], p, k - m)
  {
    assert s[m..][k - m..k - m + |p|] == s[k..k + |p|];
  }

  /** A whitespace-free occurrence that starts inside the leading word ends inside it too. */
  lemma OccursInLeadingWord(s: string, p: string, k: int)
    requires NoSpace(p) && OccursAt(s, p, k) && k < WordLen(s)
    ensures OccursAt(s[..WordLen(s)], p, k)
  {
    var n := WordLen(s);
    forall i | k <= i < k + |p| ensures !IsSpace(s[i]) {
      assert s[i] == s[k..k + |p|][i - k];
    }
    assert k + |p| <= n;
    assert s[..n][k..k + |p|] == s[k..k + |p|];
  }

  /** An occurrence of a whitespace-free pattern lies inside one word: it cannot cross
      the whitespace that separates words. */
  lemma {:induction false} TextOccurrenceInWord(s: string, p: string)
    requires p != [] && NoSpace(p)
    requires Contains(s, p)
    ensures exists k :: 0 <= k < |Words(s)| && Contains(Words(s)[k], p)
    decreases |s|
  {
    var ws := Words(s);
    var k :| 0 <= k <= |s| - |p| && OccursAt(s, p, k);
    assert s[k..k + |p|][0] == s[k];
    if IsSpace(s[0]) {
      assert ws == Words(s[1..]);
      OccursAfterDrop(s, p, k, 1);
      TextOccurrenceInWord(s[1..], p);
    } else {
      var n := WordLen(s);
      var rest := Words(s[n..]);
      assert ws == [s[..n]] + rest;
      if k < n {
        OccursInLeadingWord(s, p, k);
        assert OccursAt(ws[0], p, k);
      } else {
        OccursAfterDrop(s, p, k, n);
        TextOccurrenceInWord(s[n..], p);
        var j :| 0 <= j < |rest| && Contains(rest[j], p);
        assert ws[j + 1] == rest[j];
      }
    }
  }

  /** A whitespace-free pattern occurs in a text exactly when it occurs inside one of the
      text's words; so "some word of s contains p" is the same as "s contains p". */
  lemma ContainsIffSomeWord(s: string, p: string)
    requires p != [] && NoSpace(p)
    ensures Contains(s, p) <==> exists k :: 0 <= k < |Words(s)| && Contains(Words(s)[k], p)
  {
    if Contains(s, p) {
      TextOccurrenceInWord(s, p);
    }
    if exists k :: 0 <= k < |Words(s)| && Contains(Words(s)[k], p) {
      var k :| 0 <= k < |Words(s)| && Contains(Words(s)[k], p);
      WordOccurrenceInText(s, p, k);
    }
  }
}
