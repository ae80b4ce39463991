/**
  The main block of `flex_transpiler.py`: pick the backend table for the target language,
  turn each source line into code fragments while tracking its tab depth, close the
  blocks still open at the end, and, for Java, close the class last.

  The classifier (`interpreter.parse`) is a parameter; so are the three backend tables.
  The contents of the `python` and `c++` tables are not part of this model; the Java
  one is `Java.Table`.
*/
module Pipeline {
  import opened Wrappers
  import opened Backend
  import opened Lines
  import opened Generation

  /** What each fragment of the output is, before it is turned into text. */
  datatype Fragment =
    | DefaultCode                   // `code_dict['default_code']`
    | EndBlock(depth: nat)          // `'\t' * depth + code_dict['end_block']`
    | BeginMain                     // `code_dict['begin_main']`
    | Code(depth: nat, text: string) // `'\t' * depth + generate_code(...)`
    | ClassClose                    // the `'}'` written last for Java

  function Show(f: Fragment, dict: CodeDict): string {
    match f
    case DefaultCode => dict.defaultCode
    case EndBlock(d) => Tabs(d) + dict.endBlock
    case BeginMain => dict.beginMain
    case Code(d, text) => Tabs(d) + text
    case ClassClose => "}"
  }

  function Shows(fs: seq<Fragment>, dict: CodeDict): (r: seq<string>)
    ensures |r| == |fs|
  {
    if fs == [] then [] else [Show(fs[0], dict)] + Shows(fs[1..], dict)
  }

  lemma {:induction false} ShowsAppend(a: seq<Fragment>, b: seq<Fragment>, dict: CodeDict)
    ensures Shows(a + b, dict) == Shows(a, dict) + Shows(b, dict)
  {
    if a == [] {
      assert a + b == b;
    } else {
      assert (a + b)[0] == a[0];
      assert (a + b)[1..] == a[1..] + b;
      ShowsAppend(a[1..], b, dict);
    }
  }

  lemma ShowsOne(f: Fragment, dict: CodeDict)
    ensures Shows([f], dict) == [Show(f, dict)]
  {
  }

  datatype TranspileError =
    | UnknownTarget                  // `code_dict` is never bound: NameError at the first use
    | Generation(err: GenError)      // `generate_code` raised

  /**
    The `from languages.<module> import code_dict` chosen by the target language; the
    three tables are parameters, and the Java one is `Java.Table`.
  */
  function SelectCodeDict(target: string, python: CodeDict, cpp: CodeDict, java: CodeDict): (r: Option<CodeDict>)
    ensures r.Some? <==> target == "python" || target == "c++" || target == "java"
    ensures r.Some? ==> r.value == python || r.value == cpp || r.value == java
  {
    if target == "python" then Some(python)
    else if target == "c++" then Some(cpp)
    else if target == "java" then Some(java)
    else None
  }

  // ---------------------------------------------------------------------------
  // One line

  /** The fragments one line adds, given the depth of the line before it. */
  function LineFragments(line: string, prev: nat, dict: CodeDict, classify: string -> Interpretation)
    : (r: Result<seq<Fragment>, GenError>)
    ensures r.Err? ==> !IsBlank(line) && !IsMainLine(line)
    ensures r.Ok? ==> |r.value| <= 2
  {
    var cur := TabDepth(line);
    var close := if cur < prev then [EndBlock(cur)] else [];
    if IsBlank(line) then Ok(close)
    else if IsMainLine(line) then Ok(close + [BeginMain])
    else
      match Generate(classify(Strip(line)), dict)
      case Err(e) => Err(e)
      case Ok(s) => Ok(close + [Code(cur, s)])
  }

  /** Blank lines and the `Main()` line never reach the classifier. */
  lemma UnclassifiedLines(line: string, prev: nat, dict: CodeDict, c1: string -> Interpretation, c2: string -> Interpretation)
    requires IsBlank(line) || IsMainLine(line)
    ensures LineFragments(line, prev, dict, c1) == LineFragments(line, prev, dict, c2)
    ensures LineFragments(line, prev, dict, c1).Ok?
  {
  }

  /** The line is blank, is `Main()`, or is classified as a known intent with all its entities. */
  predicate LineOk(line: string, dict: CodeDict, classify: string -> Interpretation) {
    IsBlank(line) || IsMainLine(line) ||
    (classify(Strip(line)).intent in dict.intents && Complete(classify(Strip(line)), dict))
  }

  /** With a well-formed table, a line fails exactly when it is not `LineOk`, whatever the depth before it. */
  lemma LineOkIff(line: string, prev: nat, dict: CodeDict, classify: string -> Interpretation)
    requires WellFormedDict(dict)
    ensures LineFragments(line, prev, dict, classify).Ok? <==> LineOk(line, dict, classify)
  {
    if !IsBlank(line) && !IsMainLine(line) {
      GenerateFailures(classify(Strip(line)), dict);
    }
  }

  /**
    A line shallower than the one before it first gets exactly one `end_block` at its own
    depth, however far the depth dropped; no other line gets one.
  */
  lemma LineCloses(line: string, prev: nat, dict: CodeDict, classify: string -> Interpretation)
    requires LineFragments(line, prev, dict, classify).Ok?
    ensures var fs := LineFragments(line, prev, dict, classify).value;
      Ends(fs) == (if TabDepth(line) < prev then 1 else 0) &&
      (TabDepth(line) < prev ==> fs[0] == EndBlock(TabDepth(line)))
  {
    var cur := TabDepth(line);
    var close := if cur < prev then [EndBlock(cur)] else [];
    assert Ends(close) == (if cur < prev then 1 else 0);
    if !IsBlank(line) {
      var last := if IsMainLine(line) then BeginMain else Code(cur, Generate(classify(Strip(line)), dict).value);
      EndsAppend(close, [last]);
    }
  }

  // ---------------------------------------------------------------------------
  // All lines

  datatype Progress = Progress(fragments: seq<Fragment>, depth: nat)

  /** The loop over the source lines: fragments so far and `prev_indent_level`, or the first error. */
  function Run(lines: seq<string>, dict: CodeDict, classify: string -> Interpretation): (r: Result<Progress, GenError>)
    decreases |lines|
  {
    if lines == [] then Ok(Progress([DefaultCode], 0))
    else
      match Run(lines[..|lines| - 1], dict, classify)
      case Err(e) => Err(e)
      case Ok(p) =>
        var line := lines[|lines| - 1];
        match LineFragments(line, p.depth, dict, classify)
        case Err(e) => Err(e)
        case Ok(fs) => Ok(Progress(p.fragments + fs, TabDepth(line)))
  }

  /** The closing loop: `end_block`s from depth `hi - 1` down to depth `lo`. */
  function Closes(hi: nat, lo: nat): (r: seq<Fragment>)
    ensures |r| == if hi <= lo then 0 else hi - lo
    ensures forall k :: 0 <= k < |r| ==> r[k] == EndBlock(hi - 1 - k)
    decreases hi
  {
    if hi <= lo then [] else [EndBlock(hi - 1)] + Closes(hi - 1, lo)
  }

  lemma {:induction false} ClosesStep(hi: nat, lo: nat)
    requires lo < hi
    ensures Closes(hi, lo) == Closes(hi, lo + 1) + [EndBlock(lo)]
  {
  }

  /** Every fragment, in order, the run writes to the output file. */
  function Fragments(dict: CodeDict, lines: seq<string>, classify: string -> Interpretation, closeClass: bool)
    : Result<seq<Fragment>, GenError>
  {
    match Run(lines, dict, classify)
    case Err(e) => Err(e)
    case Ok(p) => Ok(p.fragments + Closes(p.depth, 0) + (if closeClass then [ClassClose] else []))
  }

  /** The text the run writes, or the error that stops it before anything is written. */
  function Output(target: string, lines: seq<string>, classify: string -> Interpretation, python: CodeDict, cpp: CodeDict, java: CodeDict)
    : (r: Result<seq<string>, TranspileError>)
    ensures r == Err(UnknownTarget) <==> SelectCodeDict(target, python, cpp, java).None?
    ensures SelectCodeDict(target, python, cpp, java).Some? ==>
      (r.Ok? <==> Run(lines, SelectCodeDict(target, python, cpp, java).value, classify).Ok?)
  {
    match SelectCodeDict(target, python, cpp, java)
    case None => Err(UnknownTarget)
    case Some(dict) =>
      match Fragments(dict, lines, classify, target == "java")
      case Err(e) => Err(Generation(e))
      case Ok(fs) => Ok(Shows(fs, dict))
  }

  /** Once the lines have run, the output is the fragments, the closing `end_block`s and the epilogue. */
  lemma OutputOfRun(target: string, lines: seq<string>, classify: string -> Interpretation,
                    python: CodeDict, cpp: CodeDict, java: CodeDict, dict: CodeDict)
    requires SelectCodeDict(target, python, cpp, java) == Some(dict)
    ensures Run(lines, dict, classify).Err? ==>
              Output(target, lines, classify, python, cpp, java) == Err(Generation(Run(lines, dict, classify).error))
    ensures Run(lines, dict, classify).Ok? ==>
              var p := Run(lines, dict, classify).value;
              Output(target, lines, classify, python, cpp, java) ==
                Ok(Shows(p.fragments + Closes(p.depth, 0) + (if target == "java" then [ClassClose] else []), dict))
  {
  }

  /** The body of the loop over the lines: the text one line adds, and its depth. */
  method TranspileLine(line: string, prevIndentLevel: nat, dict: CodeDict, classify: string -> Interpretation)
    returns (r: Result<seq<string>, GenError>, currentIndentLevel: nat)
    ensures currentIndentLevel == TabDepth(line)
    ensures LineFragments(line, prevIndentLevel, dict, classify).Err? ==>
              r == Err(LineFragments(line, prevIndentLevel, dict, classify).error)
    ensures LineFragments(line, prevIndentLevel, dict, classify).Ok? ==>
              r == Ok(Shows(LineFragments(line, prevIndentLevel, dict, classify).value, dict))
  {
    currentIndentLevel := CountsTabs(line);
    var code: seq<string> := [];
    ghost var close: seq<Fragment> := [];
    if currentIndentLevel < prevIndentLevel {
      code := [Tabs(currentIndentLevel) + dict.endBlock];
      close := [EndBlock(currentIndentLevel)];
      ShowsOne(EndBlock(currentIndentLevel), dict);
    }
    assert code == Shows(close, dict);
    if IsBlank(line) {
      return Ok(code), currentIndentLevel;
    }
    if IsMainLine(line) {
      ShowsAppend(close, [BeginMain], dict);
      ShowsOne(BeginMain, dict);
      return Ok(code + [dict.beginMain]), currentIndentLevel;
    }
    var g := GenerateCode(classify(Strip(line)), dict);
    if g.Err? {
      return Err(g.error), currentIndentLevel;
    }
    ShowsAppend(close, [Code(currentIndentLevel, g.value)], dict);
    ShowsOne(Code(currentIndentLevel, g.value), dict);
    r := Ok(code + [Tabs(currentIndentLevel) + g.value]);
  }

  /**
    The loop over the source lines: the text of every line after the imports, and the
    depth of the last line, or the first error.
  */
  method TranspileLines(lines: seq<string>, dict: CodeDict, classify: string -> Interpretation)
    returns (r: Result<seq<string>, GenError>, prevIndentLevel: nat)
    ensures Run(lines, dict, classify).Err? ==> r == Err(Run(lines, dict, classify).error)
    ensures Run(lines, dict, classify).Ok? ==>
              r == Ok(Shows(Run(lines, dict, classify).value.fragments, dict)) &&
              prevIndentLevel == Run(lines, dict, classify).value.depth
  {
    var code := [dict.defaultCode];
    var currentIndentLevel: nat := 0;
    prevIndentLevel := 0;
    ghost var fragments := [DefaultCode];
    ShowsOne(DefaultCode, dict);
    var i := 0;
    while i < |lines|
      invariant 0 <= i <= |lines|
      invariant Run(lines[..i], dict, classify) == Ok(Progress(fragments, prevIndentLevel))
      invariant code == Shows(fragments, dict)
      invariant currentIndentLevel == prevIndentLevel
    {
      assert lines[..i + 1][..i] == lines[..i];
      var added;
      added, currentIndentLevel := TranspileLine(lines[i], prevIndentLevel, dict, classify);
      if added.Err? {
        RunStopsAt(lines, i + 1, dict, classify);
        return Err(added.error), prevIndentLevel;
      }
      ghost var fs := LineFragments(lines[i], prevIndentLevel, dict, classify).value;
      ShowsAppend(fragments, fs, dict);
      code := code + added.value;
      fragments := fragments + fs;
      prevIndentLevel := currentIndentLevel;
      i := i + 1;
    }
    assert lines[..i] == lines;
    r := Ok(code);
  }

  /** The closing loop: one `end_block` per depth still open, innermost first. */
  method CloseBlocks(code: seq<string>, depth: nat, dict: CodeDict) returns (r: seq<string>)
    ensures r == code + Shows(Closes(depth, 0), dict)
  {
    r := code;
    var currentIndentLevel := depth;
    assert Closes(depth, depth) == [];
    while currentIndentLevel > 0
      invariant r == code + Shows(Closes(depth, currentIndentLevel), dict)
      decreases currentIndentLevel
    {
      ClosesStep(depth, currentIndentLevel - 1);
      ShowsAppend(Closes(depth, currentIndentLevel), [EndBlock(currentIndentLevel - 1)], dict);
      ShowsOne(EndBlock(currentIndentLevel - 1), dict);
      r := r + [Tabs(currentIndentLevel - 1) + dict.endBlock];
      currentIndentLevel := currentIndentLevel - 1;
    }
  }

  /** The main block: select the table, translate the lines, close the blocks, close the class. */
  method Transpile(target: string, lines: seq<string>, classify: string -> Interpretation, python: CodeDict, cpp: CodeDict, java: CodeDict)
    returns (r: Result<seq<string>, TranspileError>)
    ensures r == Output(target, lines, classify, python, cpp, java)
  {
    var selected := SelectCodeDict(target, python, cpp, java);
    if selected.None? {
      return Err(UnknownTarget);
    }
    var dict := selected.value;
    OutputOfRun(target, lines, classify, python, cpp, java, dict);
    var body, depth := TranspileLines(lines, dict, classify);
    if body.Err? {
      return Err(Generation(body.error));
    }
    ghost var fragments := Run(lines, dict, classify).value.fragments;
    var code := CloseBlocks(body.value, depth, dict);
    ShowsAppend(fragments, Closes(depth, 0), dict);
    if target == "java" {
      ShowsAppend(fragments + Closes(depth, 0), [ClassClose], dict);
      ShowsOne(ClassClose, dict);
      code := code + ["}"];
    } else {
      assert fragments + Closes(depth, 0) + [] == fragments + Closes(depth, 0);
    }
    r := Ok(code);
  }

  /** The run over non-empty lines succeeds when the run before the last line does and the last line does. */
  lemma RunOkStep(lines: seq<string>, dict: CodeDict, classify: string -> Interpretation)
    requires lines != []
    ensures var init := Run(lines[..|lines| - 1], dict, classify);
      Run(lines, dict, classify).Ok? <==>
        init.Ok? && LineFragments(lines[|lines| - 1], init.value.depth, dict, classify).Ok?
  {
  }

  /** With a well-formed table, the run over the lines succeeds exactly when every line is `LineOk`. */
  lemma {:induction false} RunOkIff(lines: seq<string>, dict: CodeDict, classify: string -> Interpretation)
    requires WellFormedDict(dict)
    ensures Run(lines, dict, classify).Ok? <==> forall i :: 0 <= i < |lines| ==> LineOk(lines[i], dict, classify)
    decreases |lines|
  {
    if lines != [] {
      var n := |lines| - 1;
      var init := lines[..n];
      RunOkIff(init, dict, classify);
      RunOkStep(lines, dict, classify);
      if Run(init, dict, classify).Ok? {
        LineOkIff(lines[n], Run(init, dict, classify).value.depth, dict, classify);
      }
      AllLinesOkSnoc(lines, dict, classify);
    }
  }

  /** Every line is `LineOk` exactly when every line before the last is and the last one is. */
  lemma AllLinesOkSnoc(lines: seq<string>, dict: CodeDict, classify: string -> Interpretation)
    requires lines != []
    ensures var n := |lines| - 1;
      (forall i :: 0 <= i < |lines| ==> LineOk(lines[i], dict, classify)) <==>
        (forall i :: 0 <= i < n ==> LineOk(lines[..n][i], dict, classify)) && LineOk(lines[n], dict, classify)
  {
    var n := |lines| - 1;
    assert forall i :: 0 <= i < n ==> lines[..n][i] == lines[i];
  }

  /** Once a line fails, the whole run fails with that error. */
  lemma {:induction false} RunStopsAt(lines: seq<string>, i: nat, dict: CodeDict, classify: string -> Interpretation)
    requires 0 < i <= |lines| && Run(lines[..i - 1], dict, classify).Ok?
    requires LineFragments(lines[i - 1], Run(lines[..i - 1], dict, classify).value.depth, dict, classify).Err?
    ensures Run(lines, dict, classify) ==
              Err(LineFragments(lines[i - 1], Run(lines[..i - 1], dict, classify).value.depth, dict, classify).error)
    decreases |lines|
  {
    assert lines[..i][..i - 1] == lines[..i - 1];
    if i < |lines| {
      var init := lines[..|lines| - 1];
      assert init[..i - 1] == lines[..i - 1];
      assert init[i - 1] == lines[i - 1];
      RunStopsAt(init, i, dict, classify);
    } else {
      assert lines[..i] == lines;
    }
  }

  // ---------------------------------------------------------------------------
  // Counting blocks

  /** Number of `end_block` fragments. */
  function Ends(fs: seq<Fragment>): nat {
    if fs == [] then 0 else (if fs[0].EndBlock? then 1 else 0) + Ends(fs[1..])
  }

  lemma {:induction false} EndsAppend(a: seq<Fragment>, b: seq<Fragment>)
    ensures Ends(a + b) == Ends(a) + Ends(b)
  {
    if a != [] {
      assert (a + b)[1..] == a[1..] + b;
      EndsAppend(a[1..], b);
    } else {
      assert a + b == b;
    }
  }

  lemma {:induction false} EndsOfCloses(hi: nat, lo: nat)
    ensures Ends(Closes(hi, lo)) == if hi <= lo then 0 else hi - lo
    decreases hi
  {
    if lo < hi {
      assert Closes(hi, lo) == [EndBlock(hi - 1)] + Closes(hi - 1, lo);
      EndsOfCloses(hi - 1, lo);
    }
  }

  function PrevDepth(lines: seq<string>, i: nat): nat
    requires i <= |lines|
  {
    if i == 0 then 0 else TabDepth(lines[i - 1])
  }

  /** Sum of the increases of depth from line to line, starting from depth 0. */
  function Rises(lines: seq<string>): nat
    decreases |lines|
  {
    if lines == [] then 0
    else
      var n := |lines| - 1;
      var d, p := TabDepth(lines[n]), PrevDepth(lines, n);
      Rises(lines[..n]) + (if d > p then d - p else 0)
  }

  /** Number of lines shallower than the line before them. */
  function Drops(lines: seq<string>): nat
    decreases |lines|
  {
    if lines == [] then 0
    else
      var n := |lines| - 1;
      Drops(lines[..n]) + (if TabDepth(lines[n]) < PrevDepth(lines, n) then 1 else 0)
  }

  /** No line is more than one level shallower than the line before it. */
  predicate DropsAtMostOne(lines: seq<string>) {
    forall i :: 0 < i < |lines| ==> TabDepth(lines[i - 1]) <= TabDepth(lines[i]) + 1
  }

  /** The run always starts with `default_code`, emits one `end_block` per drop, and ends at the last line's depth. */
  lemma {:induction false} RunShape(lines: seq<string>, dict: CodeDict, classify: string -> Interpretation)
    requires Run(lines, dict, classify).Ok?
    ensures var p := Run(lines, dict, classify).value;
      && |p.fragments| > 0 && p.fragments[0] == DefaultCode
      && p.depth == PrevDepth(lines, |lines|)
      && Ends(p.fragments) == Drops(lines)
    decreases |lines|
  {
    if lines != [] {
      var n := |lines| - 1;
      var init := lines[..n];
      assert Run(init, dict, classify).Ok?;
      RunShape(init, dict, classify);
      var p := Run(init, dict, classify).value;
      assert p.depth == PrevDepth(lines, n) by {
        if n > 0 { assert init[n - 1] == lines[n - 1]; }
      }
      var fs := LineFragments(lines[n], p.depth, dict, classify).value;
      LineCloses(lines[n], p.depth, dict, classify);
      EndsAppend(p.fragments, fs);
    }
  }

  /** With drops of at most one level, rises are matched by drops plus the depth still open. */
  lemma RisesBalance(lines: seq<string>)
    requires DropsAtMostOne(lines)
    ensures Rises(lines) == Drops(lines) + PrevDepth(lines, |lines|)
  {
    RisesDropSum(lines);
    DropsAtMostDropSum(lines);
  }

  /** Sum of the decreases of depth from line to line. */
  function DropSum(lines: seq<string>): nat
    decreases |lines|
  {
    if lines == [] then 0
    else
      var n := |lines| - 1;
      var d, p := TabDepth(lines[n]), PrevDepth(lines, n);
      DropSum(lines[..n]) + (if d < p then p - d else 0)
  }

  /** Whatever the drops, every level risen is either dropped again or still open at the end. */
  lemma {:induction false} RisesDropSum(lines: seq<string>)
    ensures Rises(lines) == DropSum(lines) + PrevDepth(lines, |lines|)
    decreases |lines|
  {
    if lines != [] {
      var n := |lines| - 1;
      var init := lines[..n];
      RisesDropSum(init);
      assert PrevDepth(init, n) == PrevDepth(lines, n) by {
        if n > 0 { assert init[n - 1] == lines[n - 1]; }
      }
    }
  }

  /** No line drops by more than one level exactly when that holds before the last line and at it. */
  lemma DropsAtMostOneSnoc(lines: seq<string>)
    requires lines != []
    ensures var n := |lines| - 1;
      DropsAtMostOne(lines) <==>
        DropsAtMostOne(lines[..n]) && PrevDepth(lines, n) <= TabDepth(lines[n]) + 1
  {
    var n := |lines| - 1;
    var init := lines[..n];
    if DropsAtMostOne(lines) {
      assert DropsAtMostOne(init) by {
        forall i | 0 < i < |init|
          ensures TabDepth(init[i - 1]) <= TabDepth(init[i]) + 1
        {
          assert init[i - 1] == lines[i - 1] && init[i] == lines[i];
        }
      }
    }
    if DropsAtMostOne(init) && PrevDepth(lines, n) <= TabDepth(lines[n]) + 1 {
      forall i | 0 < i < |lines|
        ensures TabDepth(lines[i - 1]) <= TabDepth(lines[i]) + 1
      {
        if i < n {
          assert init[i - 1] == lines[i - 1] && init[i] == lines[i];
        }
      }
    }
  }

  /**
    Counting each drop once never exceeds the levels dropped, and matches them exactly when
    no line drops by more than one level.
  */
  lemma {:induction false} DropsAtMostDropSum(lines: seq<string>)
    ensures Drops(lines) <= DropSum(lines)
    ensures Drops(lines) == DropSum(lines) <==> DropsAtMostOne(lines)
    decreases |lines|
  {
    if lines != [] {
      DropsAtMostDropSum(lines[..|lines| - 1]);
      DropsAtMostOneSnoc(lines);
    }
  }

  /**
    Balance: the run writes exactly as many `end_block`s as there were increases of depth
    if and only if no line drops more than one level.
  */
  lemma Balanced(dict: CodeDict, lines: seq<string>, classify: string -> Interpretation, closeClass: bool)
    requires Fragments(dict, lines, classify, closeClass).Ok?
    ensures Ends(Fragments(dict, lines, classify, closeClass).value) == Drops(lines) + PrevDepth(lines, |lines|)
    ensures Ends(Fragments(dict, lines, classify, closeClass).value) == Rises(lines) <==> DropsAtMostOne(lines)
  {
    var p := Run(lines, dict, classify).value;
    RunShape(lines, dict, classify);
    RisesDropSum(lines);
    DropsAtMostDropSum(lines);
    EndsOfCloses(p.depth, 0);
    EndsAppend(p.fragments, Closes(p.depth, 0));
    var tail: seq<Fragment> := if closeClass then [ClassClose] else [];
    assert Ends(tail) == 0;
    EndsAppend(p.fragments + Closes(p.depth, 0), tail);
  }

  /**
    Without that precondition the count can fall short: a line two levels deep followed by
    a line at depth 0 gets a single `end_block`.
  */
  lemma DeepDropClosesOnce(dict: CodeDict, classify: string -> Interpretation)
    ensures Rises(["\t\t\n", "\n"]) == 2
    ensures Fragments(dict, ["\t\t\n", "\n"], classify, false) == Ok([DefaultCode, EndBlock(0)])
    ensures Ends([DefaultCode, EndBlock(0)]) == 1
  {
    var deep, flat := "\t\t\n", "\n";
    var lines := [deep, flat];
    assert TabDepth(deep) == 2 && TabDepth(flat) == 0;
    assert IsBlank(deep) && IsBlank(flat);
    assert LineFragments(deep, 0, dict, classify) == Ok([]);
    assert LineFragments(flat, 2, dict, classify) == Ok([EndBlock(0)]);
    assert lines[..1] == [deep] && [deep][..0] == [];
    assert [DefaultCode] + [] == [DefaultCode];
    assert Run([deep], dict, classify) == Ok(Progress([DefaultCode], 2));
    assert [DefaultCode] + [EndBlock(0)] == [DefaultCode, EndBlock(0)];
    assert Run(lines, dict, classify) == Ok(Progress([DefaultCode, EndBlock(0)], 0));
    assert [DefaultCode, EndBlock(0)] + [] + [] == [DefaultCode, EndBlock(0)];
    assert Closes(0, 0) == [];
  }

  // ---------------------------------------------------------------------------
  // Properties of the whole run

  /** With any other target no table is bound and the run fails before reading a line. */
  lemma UnknownTargetFailsFirst(target: string, lines: seq<string>, classify: string -> Interpretation, python: CodeDict, cpp: CodeDict, java: CodeDict)
    requires target != "python" && target != "c++" && target != "java"
    ensures Output(target, lines, classify, python, cpp, java) == Err(UnknownTarget)
  {
  }

  /**
    A successful run writes `default_code` first and, after the last line, the closing
    `end_block`s from one level below that line's depth down to depth 0; Java then gets
    its `}` last, and no other target does.
  */
  lemma OutputShape(target: string, lines: seq<string>, classify: string -> Interpretation, python: CodeDict, cpp: CodeDict, java: CodeDict)
    requires Output(target, lines, classify, python, cpp, java).Ok?
    ensures var dict := SelectCodeDict(target, python, cpp, java).value;
      var out := Output(target, lines, classify, python, cpp, java).value;
      var d := PrevDepth(lines, |lines|);
      var j := if target == "java" then 1 else 0;
      && |out| >= 1 + d + j
      && out[0] == dict.defaultCode
      && out[|out| - j - d..|out| - j] == Shows(Closes(d, 0), dict)
      && (target == "java" ==> out[|out| - 1] == "}")
  {
    var dict := SelectCodeDict(target, python, cpp, java).value;
    OutputOfRun(target, lines, classify, python, cpp, java, dict);
    RunShape(lines, dict, classify);
    var p := Run(lines, dict, classify).value;
    var cl := Closes(p.depth, 0);
    var tail: seq<Fragment> := if target == "java" then [ClassClose] else [];
    ShowsAppend(p.fragments + cl, tail, dict);
    ShowsAppend(p.fragments, cl, dict);
    MiddleOfJoin(Shows(p.fragments, dict), Shows(cl, dict), Shows(tail, dict));
  }

  /** The middle part of a three-way join is found between the other two. */
  lemma MiddleOfJoin<T>(a: seq<T>, b: seq<T>, c: seq<T>)
    ensures var s := a + b + c;
      s[|s| - |c| - |b|..|s| - |c|] == b && (|a| > 0 ==> s[0] == a[0])
  {
  }

}
