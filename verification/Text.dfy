/** Searching, trimming, splitting and joining text. */
module Text {

  predicate Has(s: string, c: char) {
    c in s
  }

  /** The first position of c, |s| when there is none. */
  function IndexOf(s: string, c: char): (i: nat)
    ensures i <= |s|
    ensures i < |s| ==> s[i] == c
    ensures forall k :: 0 <= k < i ==> s[k] != c
  {
    if s == "" || s[0] == c then 0 else
      var i := IndexOf(s[1..], c);
      assert forall k :: 1 <= k < i + 1 ==> s[k] == s[1..][k - 1];
      i + 1
  }

  /** The last position of c, -1 when there is none. */
  function LastIndexOf(s: string, c: char): (i: int)
    ensures -1 <= i < |s|
    ensures i >= 0 ==> s[i] == c
    ensures forall k :: i < k < |s| ==> s[k] != c
  {
    if s == "" then -1
    else if s[|s| - 1] == c then |s| - 1
    else LastIndexOf(s[..|s| - 1], c)
  }

  lemma HasConcat(a: string, b: string, c: char)
    ensures Has(a + b, c) <==> Has(a, c) || Has(b, c)
  {
  }

  lemma FirstAt(s: string, c: char, e: nat)
    requires e < |s| && s[e] == c && forall k :: 0 <= k < e ==> s[k] != c
    ensures IndexOf(s, c) == e
  {
  }

  /** The text without white space at both ends. */
  function Trim(s: string, space: char -> bool): string {
    if s != "" && space(s[0]) then Trim(s[1..], space)
    else if s != "" && space(s[|s| - 1]) then Trim(s[..|s| - 1], space)
    else s
  }

  lemma {:induction false} TrimShrinks(s: string, space: char -> bool)
    ensures |Trim(s, space)| <= |s|
  {
    if s != "" && space(s[0]) {
      TrimShrinks(s[1..], space);
    } else if s != "" && space(s[|s| - 1]) {
      TrimShrinks(s[..|s| - 1], space);
    }
  }

  /** A trimmed text is empty or has no white space at either end. */
  lemma TrimmedEnds(s: string, space: char -> bool)
    ensures Trim(s, space) == s <==> s == "" || (!space(s[0]) && !space(s[|s| - 1]))
  {
    if s != "" {
      TrimShrinks(s[1..], space);
      TrimShrinks(s[..|s| - 1], space);
    }
  }

  /** One more white space character at an end changes nothing. */
  lemma TrimSpaceAtEnds(s: string, c: char, space: char -> bool)
    requires Trim(s, space) == s && space(c)
    ensures Trim([c] + s, space) == s && Trim(s + [c], space) == s
  {
    assert ([c] + s)[1..] == s;
    TrimmedEnds(s, space);
    assert (s + [c])[..|s|] == s;
    if s == "" {
      assert s + [c] == [c] + s;
    }
  }

  /** The parts between separators; one more part than there are separators. */
  function Split(s: string, sep: char): seq<string>
    decreases |s|
  {
    var i := IndexOf(s, sep);
    if i == |s| then [s] else [s[..i]] + Split(s[i + 1..], sep)
  }

  lemma SplitFirst(a: string, b: string, sep: char)
    requires !Has(a, sep)
    ensures Split(a + [sep] + b, sep) == [a] + Split(b, sep)
  {
    var s := a + [sep] + b;
    assert s[|a|] == sep;
    FirstAt(s, sep, |a|);
    assert s[..|a|] == a && s[|a| + 1..] == b;
  }

  /** Every line with its terminator. */
  function Unlines(lines: seq<string>): string {
    if lines == [] then "" else lines[0] + "\n" + Unlines(lines[1..])
  }

  /** Splitting a text made of lines gives the lines back, and an empty one after the last terminator. */
  lemma {:induction false} SplitUnlines(lines: seq<string>)
    requires forall i :: 0 <= i < |lines| ==> !Has(lines[i], '\n')
    ensures Split(Unlines(lines), '\n') == lines + [""]
  {
    if lines != [] {
      SplitUnlines(lines[1..]);
      var rest := Unlines(lines[1..]);
      SplitFirst(lines[0], rest, '\n');
      assert Unlines(lines) == lines[0] + ['\n'] + rest;
      assert [lines[0]] + (lines[1..] + [""]) == lines + [""];
    }
  }
}
