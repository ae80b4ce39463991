/**
  What the transpiler looks at in one source line: its leading tabs (`counts_tabs`),
  whether it is blank (`str.isspace`), whether it is the program entry (`MAIN_REGEX`),
  and the text handed to the classifier (`str.strip`).
*/
module Lines {

  /** The whitespace characters of the ASCII range, as `str.isspace` and `str.strip` see them. */
  predicate IsSpace(c: char) {
    c == ' ' || ('\t' <= c <= '\r') || ('\U{1C}' <= c <= '\U{1F}')
  }

  /** `line.isspace()`: non-empty and whitespace only. */
  predicate IsBlank(line: string) {
    |line| > 0 && forall i :: 0 <= i < |line| ==> IsSpace(line[i])
  }

  /**
    `MAIN_REGEX.match(line)` for `Main\(\)\s*`: the match is anchored at the start of the
    line and `\s*` also matches nothing, so the test is whether the line begins with `Main()`.
  */
  predicate IsMainLine(line: string) {
    |line| >= 6 && line[..6] == "Main()"
  }

  /** The pattern matches exactly the lines that are `Main()` followed by anything. */
  lemma MainLineIff(line: string)
    ensures IsMainLine(line) <==> exists rest :: line == "Main()" + rest
  {
    if IsMainLine(line) {
      assert line == "Main()" + line[6..];
    }
  }

  /** The entry line is never blank and sits at depth 0: an indented `Main()` is not the entry. */
  lemma MainLineAtDepthZero(line: string)
    requires IsMainLine(line)
    ensures !IsBlank(line) && TabDepth(line) == 0
    ensures !IsMainLine("\t" + line)
  {
    assert line[0] == "Main()"[0];
    assert ("\t" + line)[0] == '\t';
  }

  /** `'\t' * n` */
  function Tabs(n: nat): (r: string)
    ensures |r| == n && forall i :: 0 <= i < n ==> r[i] == '\t'
  {
    if n == 0 then "" else "\t" + Tabs(n - 1)
  }

  // ---------------------------------------------------------------------------
  // Leading tabs

  /** The length of the longest prefix of `line` made of tabs only. */
  function TabDepth(line: string): (k: nat)
    ensures k <= |line|
    ensures forall i :: 0 <= i < k ==> line[i] == '\t'
    ensures k == |line| || line[k] != '\t'
  {
    if line == [] || line[0] != '\t' then 0 else 1 + TabDepth(line[1..])
  }

  /** Those three facts pin the depth down: no other count satisfies them. */
  lemma TabDepthUnique(line: string, k: nat)
    requires k <= |line|
    requires forall i :: 0 <= i < k ==> line[i] == '\t'
    requires k == |line| || line[k] != '\t'
    ensures k == TabDepth(line)
  {
  }

  /** Spaces never count: a line that starts with a space has depth 0. */
  lemma SpacesDoNotIndent(line: string)
    requires |line| > 0 && line[0] == ' '
    ensures TabDepth(line) == 0
  {
  }

  /** `counts_tabs`: counts tabs from the start of the line and stops at the first other character. */
  method CountsTabs(line: string) returns (numTabs: nat)
    ensures numTabs == TabDepth(line)
  {
    numTabs := 0;
    while numTabs < |line|
      invariant numTabs <= |line|
      invariant forall i :: 0 <= i < numTabs ==> line[i] == '\t'
      decreases |line| - numTabs
    {
      if line[numTabs] == '\t' {
        numTabs := numTabs + 1;
      } else {
        break;
      }
    }
    TabDepthUnique(line, numTabs);
  }

  // ---------------------------------------------------------------------------
  // Stripping

  function StripLeft(s: string): (r: string)
    ensures |r| <= |s| && r == s[|s| - |r|..]
    ensures forall k :: 0 <= k < |s| - |r| ==> IsSpace(s[k])
    ensures r == [] || !IsSpace(r[0])
  {
    if s != [] && IsSpace(s[0]) then StripLeft(s[1..]) else s
  }

  function StripRight(s: string): (r: string)
    ensures |r| <= |s| && r == s[..|r|]
    ensures forall k :: |r| <= k < |s| ==> IsSpace(s[k])
    ensures r == [] || !IsSpace(r[|r| - 1])
  {
    if s != [] && IsSpace(s[|s| - 1]) then StripRight(s[..|s| - 1]) else s
  }

  /**
    `line.strip()`: a slice of the line with only whitespace cut away on both sides, which
    neither starts nor ends with whitespace.
  */
  function Strip(s: string): (r: string)
    ensures exists i :: StrippedAt(s, i, r)
    ensures r == [] || (!IsSpace(r[0]) && !IsSpace(r[|r| - 1]))
  {
    var l := StripLeft(s);
    var r := StripRight(l);
    assert r != [] ==> r[0] == l[0];
    SuffixPrefix(s, |s| - |l|, l, r);
    r
  }

  /** `r` is `s` with whitespace-only text of length `i` cut from its front and some from its back. */
  predicate StrippedAt(s: string, i: int, r: string) {
    0 <= i <= |s| - |r| && s[i..i + |r|] == r &&
    (forall k :: 0 <= k < i ==> IsSpace(s[k])) &&
    (forall k :: i + |r| <= k < |s| ==> IsSpace(s[k]))
  }

  /**
    A prefix `r` of the suffix `l` of `s` from `i` on, with only whitespace before `i` and
    after `r`, is `s` stripped at `i`.
  */
  lemma SuffixPrefix(s: string, i: nat, l: string, r: string)
    requires i <= |s| && l == s[i..]
    requires forall k :: 0 <= k < i ==> IsSpace(s[k])
    requires |r| <= |l| && r == l[..|r|]
    requires forall k :: |r| <= k < |l| ==> IsSpace(l[k])
    ensures StrippedAt(s, i, r)
  {
    forall k | i + |r| <= k < |s|
      ensures IsSpace(s[k])
    {
      assert s[k] == l[k - i];
    }
  }

  /** Stripping twice is stripping once. */
  lemma StripIdempotent(s: string)
    ensures Strip(Strip(s)) == Strip(s)
  {
    var r := Strip(s);
    if r != [] {
      assert StripLeft(r) == r;
      assert StripRight(r) == r;
    }
  }

  /** `isspace` holds exactly of the non-empty lines that `strip` empties. */
  lemma BlankIff(line: string)
    ensures IsBlank(line) <==> |line| > 0 && Strip(line) == []
  {
    if IsBlank(line) {
      StripBlank(line);
    }
  }

  /** A blank line strips to nothing. */
  lemma {:induction false} StripBlank(s: string)
    requires forall i :: 0 <= i < |s| ==> IsSpace(s[i])
    ensures Strip(s) == []
  {
  }
}
