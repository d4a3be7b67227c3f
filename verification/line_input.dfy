/**
 * The string helpers that prepare an input line before evaluation (main.c):
 * `trim_whitespace`, `ends_with_continuation` and the joining rule of
 * `append_to_string`.  The C functions rewrite a buffer in place; here each
 * returns the rewritten string.  Whitespace is what `isspace` accepts in the
 * "C" locale: space, tab, newline, vertical tab, form feed, carriage return.
 */
module LineInput {
  import opened Tokens

  predicate IsSpace(c: char) {
    c == ' ' || '\t' <= c <= '\r'
  }

  predicate AllSpace(s: string) {
    forall k :: 0 <= k < |s| ==> IsSpace(s[k])
  }

  /** Neither end of `r` is whitespace. */
  predicate IsTrimmed(r: string) {
    r == [] || (!IsSpace(r[0]) && !IsSpace(r[|r| - 1]))
  }

  /** `r` is a contiguous piece of `s` with only whitespace around it and none at its ends. */
  ghost predicate IsTrimOf(r: string, s: string) {
    exists i, j :: 0 <= i <= j <= |s| && r == s[i..j] && AllSpace(s[..i]) && AllSpace(s[j..]) && IsTrimmed(r)
  }

  /** The leading-space scan of `trim_whitespace`, from position `i`. */
  function SkipSpaces(s: string, i: nat): (k: nat)
    requires i <= |s|
    ensures i <= k <= |s|
    ensures forall j :: i <= j < k ==> IsSpace(s[j])
    ensures k < |s| ==> !IsSpace(s[k])
    decreases |s| - i
  {
    if i < |s| && IsSpace(s[i]) then SkipSpaces(s, i + 1) else i
  }

  /** The trailing-space scan of `trim_whitespace`: move `end` back while it is past `start` and on a space. */
  function BackOverSpaces(s: string, start: nat, end: nat): (k: nat)
    requires start <= end < |s|
    ensures start <= k <= end
    ensures forall j :: k < j <= end ==> IsSpace(s[j])
    ensures k > start ==> !IsSpace(s[k])
    decreases end
  {
    if end > start && IsSpace(s[end]) then BackOverSpaces(s, start, end - 1) else end
  }

  /** `trim_whitespace`: all-whitespace input becomes empty, anything else loses its whitespace ends. */
  function Trim(s: string): (r: string)
    ensures IsTrimOf(r, s)
  {
    var start := SkipSpaces(s, 0);
    if start == |s| then
      assert s[|s|..|s|] == "" && s[..|s|] == s;
      ""
    else
      var end := BackOverSpaces(s, start, |s| - 1);
      assert AllSpace(s[..start]);
      assert AllSpace(s[end + 1..]);
      s[start..end + 1]
  }

  lemma SkipSpacesFindsFirst(s: string, i: nat)
    requires i < |s| && AllSpace(s[..i]) && !IsSpace(s[i])
    ensures SkipSpaces(s, 0) == i
  {
    assert forall k :: 0 <= k < i ==> s[..i][k] == s[k];
  }

  lemma SkipSpacesOverBlank(s: string)
    requires AllSpace(s)
    ensures SkipSpaces(s, 0) == |s|
  {
  }

  lemma BackOverSpacesFindsLast(s: string, start: nat, j: nat)
    requires start < j <= |s| && !IsSpace(s[start]) && !IsSpace(s[j - 1]) && AllSpace(s[j..])
    ensures BackOverSpaces(s, start, |s| - 1) == j - 1
  {
    assert forall k :: j <= k < |s| ==> s[j..][k - j] == s[k];
  }

  /** The trim of a string is unique: any piece of `s` meeting `IsTrimOf` is `Trim(s)`. */
  lemma TrimUnique(r: string, s: string)
    requires IsTrimOf(r, s)
    ensures r == Trim(s)
  {
    var i, j :| 0 <= i <= j <= |s| && r == s[i..j] && AllSpace(s[..i]) && AllSpace(s[j..]) && IsTrimmed(r);
    if r == [] {
      assert i == j;
      assert s == s[..i] + s[j..];
      SkipSpacesOverBlank(s);
    } else {
      assert s[i] == r[0] && s[j - 1] == r[|r| - 1];
      SkipSpacesFindsFirst(s, i);
      BackOverSpacesFindsLast(s, i, j);
    }
  }

  /** Trimming twice is trimming once. */
  lemma TrimIdempotent(s: string)
    ensures Trim(Trim(s)) == Trim(s)
  {
    var r := Trim(s);
    assert r[0..|r|] == r && r[..0] == "" && r[|r|..] == "";
    assert IsTrimOf(r, r);
    TrimUnique(r, r);
  }

  /** The three results of `ends_with_continuation`: 0, 1 and 2 in the C code. */
  datatype LineStatus =
    | Complete   // 0: no trailing '/', or nothing on the line
    | Continued  // 1: trailing '/' removed, text remains, more lines follow
    | SlashOnly  // 2: the line held nothing but '/' characters

  predicate AllSlashes(s: string) {
    forall k :: 0 <= k < |s| ==> s[k] == '/'
  }

  /** The backward scan over the trailing run of '/': the length of what precedes that run in `s[..n]`. */
  function KeepBeforeSlashes(s: string, n: nat): (k: nat)
    requires n <= |s|
    ensures k <= n
    ensures forall j :: k <= j < n ==> s[j] == '/'
    ensures k > 0 ==> s[k - 1] != '/'
    decreases n
  {
    if n > 0 && s[n - 1] == '/' then KeepBeforeSlashes(s, n - 1) else n
  }

  /**
   * `ends_with_continuation`: trim the line; if it ends in '/', cut the
   * whole trailing run of '/' and trim again.  A line with text left after
   * the cut is continued, so `10 2 /` loses its division; a line of nothing
   * but '/' is `SlashOnly` instead.
   */
  function EndsWithContinuation(line: string): (r: (LineStatus, string))
    ensures var t := Trim(line);
      && (r.0 == Complete <==> |t| == 0 || t[|t| - 1] != '/')
      && (r.0 == Complete ==> r.1 == t)
      && (r.0 != Complete ==>
            exists m :: 0 <= m < |t| && AllSlashes(t[m..]) && (m == 0 || t[m - 1] != '/') && r.1 == Trim(t[..m]))
      && (r.0 == SlashOnly <==> r.0 != Complete && r.1 == [])
    ensures IsTrimmed(r.1)
  {
    var t := Trim(line);
    if |t| == 0 then (Complete, t)
    else
      var keep := KeepBeforeSlashes(t, |t|);
      if keep < |t| then
        var u := Trim(t[..keep]);
        assert AllSlashes(t[keep..]);
        if |u| == 0 then (SlashOnly, u) else (Continued, u)
      else (Complete, t)
  }

  /** The join rule of `append_to_string`: a single space goes between the parts only when both are non-empty. */
  function AppendLine(dest: string, src: string): (r: string)
    ensures |r| == |dest| + |src| + (if |dest| > 0 && |src| > 0 then 1 else 0)
    ensures r[..|dest|] == dest
    ensures r[|r| - |src|..] == src
    ensures |dest| > 0 && |src| > 0 ==> r[|dest|] == ' '
  {
    if |dest| > 0 && |src| > 0 then dest + " " + src else dest + src
  }

  /** Appending a line never fuses its first token with the last token already collected. */
  lemma AppendLineKeepsTokens(dest: string, src: string)
    ensures Tokenize(AppendLine(dest, src)) == Tokenize(dest) + Tokenize(src)
  {
    if |dest| > 0 && |src| > 0 {
      TokenizeAroundSpace(dest, src);
    } else if |dest| == 0 {
      assert dest + src == src;
    } else {
      assert dest + src == dest;
    }
  }
}
