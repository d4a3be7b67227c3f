/**
 * Splitting an expression into tokens the way `strtok(expr, " ")` does in
 * `rpn_calculator`: the only separator is the space character, runs of
 * spaces separate like a single one, leading and trailing spaces produce no
 * token, and no token is empty.  Tabs and other whitespace stay inside tokens.
 */
module Tokens {

  /** A token as strtok can return it: non-empty and free of spaces. */
  predicate IsToken(t: string) {
    |t| > 0 && ' ' !in t
  }

  /** Length of the leading run of non-space characters of `s`. */
  function WordLength(s: string): (n: nat)
    ensures n <= |s|
    ensures forall k :: 0 <= k < n ==> s[k] != ' '
    ensures n < |s| ==> s[n] == ' '
  {
    if |s| == 0 || s[0] == ' ' then 0 else 1 + WordLength(s[1..])
  }

  /** The tokens of `s`, in order. */
  function Tokenize(s: string): (ts: seq<string>)
    ensures forall i :: 0 <= i < |ts| ==> IsToken(ts[i])
    decreases |s|
  {
    if |s| == 0 then []
    else if s[0] == ' ' then Tokenize(s[1..])
    else
      var n := WordLength(s);
      [s[..n]] + Tokenize(s[n..])
  }

  /** Tokens written out with exactly one space between neighbours. */
  function Join(ts: seq<string>): string {
    if |ts| == 0 then ""
    else if |ts| == 1 then ts[0]
    else ts[0] + " " + Join(ts[1..])
  }

  /** All characters of `ts`, concatenated. */
  function Flatten(ts: seq<string>): string {
    if |ts| == 0 then "" else ts[0] + Flatten(ts[1..])
  }

  /** `s` with every space character deleted. */
  function RemoveSpaces(s: string): string {
    if |s| == 0 then ""
    else if s[0] == ' ' then RemoveSpaces(s[1..])
    else [s[0]] + RemoveSpaces(s[1..])
  }

  lemma {:induction false} WordLengthOfToken(t: string)
    requires IsToken(t)
    ensures WordLength(t) == |t|
    decreases |t|
  {
    if |t| > 1 {
      assert t[1..][0] == t[1];
      WordLengthOfToken(t[1..]);
    }
  }

  /** A string that is one token splits into exactly that token. */
  lemma TokenizeToken(t: string)
    requires IsToken(t)
    ensures Tokenize(t) == [t]
  {
    WordLengthOfToken(t);
    assert t[..|t|] == t;
    assert t[|t|..] == [];
  }

  /** A space after `a` ends the first word of `a + " " + b` no later than the end of `a`. */
  lemma {:induction false} WordLengthBeforeSpace(a: string, b: string)
    ensures WordLength(a + " " + b) == WordLength(a)
    decreases |a|
  {
    var s := a + " " + b;
    if |a| == 0 {
      assert s[0] == ' ';
    } else if a[0] != ' ' {
      assert s[1..] == a[1..] + " " + b;
      WordLengthBeforeSpace(a[1..], b);
    }
  }

  /** A space between two strings never fuses or splits their tokens. */
  lemma {:induction false} TokenizeAroundSpace(a: string, b: string)
    ensures Tokenize(a + " " + b) == Tokenize(a) + Tokenize(b)
    decreases |a|
  {
    var s := a + " " + b;
    if |a| == 0 {
      assert s[0] == ' ';
      assert s[1..] == b;
    } else if a[0] == ' ' {
      assert s[1..] == a[1..] + " " + b;
      TokenizeAroundSpace(a[1..], b);
    } else {
      var n := WordLength(a);
      WordLengthBeforeSpace(a, b);
      assert s[..n] == a[..n];
      assert s[n..] == a[n..] + " " + b;
      TokenizeAroundSpace(a[n..], b);
    }
  }

  /** Splitting undoes joining: well-formed tokens joined by single spaces come back unchanged. */
  lemma {:induction false} TokenizeJoin(ts: seq<string>)
    requires forall i :: 0 <= i < |ts| ==> IsToken(ts[i])
    ensures Tokenize(Join(ts)) == ts
  {
    if |ts| == 1 {
      TokenizeToken(ts[0]);
    } else if |ts| > 1 {
      TokenizeToken(ts[0]);
      TokenizeAroundSpace(ts[0], Join(ts[1..]));
      TokenizeJoin(ts[1..]);
    }
  }

  lemma {:induction false} RemoveSpacesAppend(a: string, b: string)
    ensures RemoveSpaces(a + b) == RemoveSpaces(a) + RemoveSpaces(b)
    decreases |a|
  {
    if |a| > 0 {
      assert (a + b)[1..] == a[1..] + b;
      RemoveSpacesAppend(a[1..], b);
    } else {
      assert a + b == b;
    }
  }

  lemma {:induction false} RemoveSpacesOfToken(t: string)
    requires ' ' !in t
    ensures RemoveSpaces(t) == t
    decreases |t|
  {
    if |t| > 0 {
      assert ' ' !in t[1..];
      RemoveSpacesOfToken(t[1..]);
    }
  }

  /** Splitting only drops spaces: the tokens hold every other character of the input, in order. */
  lemma {:induction false} TokenizeKeepsContents(s: string)
    ensures Flatten(Tokenize(s)) == RemoveSpaces(s)
    decreases |s|
  {
    if |s| > 0 {
      if s[0] == ' ' {
        TokenizeKeepsContents(s[1..]);
      } else {
        var n := WordLength(s);
        TokenizeKeepsContents(s[n..]);
        assert s == s[..n] + s[n..];
        RemoveSpacesAppend(s[..n], s[n..]);
        RemoveSpacesOfToken(s[..n]);
        assert Tokenize(s) == [s[..n]] + Tokenize(s[n..]);
        assert Flatten([s[..n]] + Tokenize(s[n..])) == s[..n] + Flatten(Tokenize(s[n..]));
      }
    }
  }

  /** A string of spaces only (including the empty string) has no tokens. */
  lemma NoTokensInBlank(s: string)
    requires forall k :: 0 <= k < |s| ==> s[k] == ' '
    ensures Tokenize(s) == []
  {
    TokenizeKeepsContents(s);
    BlankRemovesToEmpty(s);
  }

  lemma {:induction false} BlankRemovesToEmpty(s: string)
    requires forall k :: 0 <= k < |s| ==> s[k] == ' '
    ensures RemoveSpaces(s) == ""
    decreases |s|
  {
    if |s| > 0 {
      BlankRemovesToEmpty(s[1..]);
    }
  }
}
