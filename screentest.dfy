/**
 * The script compiler of the screentest package: it turns the lines of a
 * screentest script into the ordered list of test cases that the runner
 * later executes against two origins.
 *
 * The parse is specified one line at a time by `Step`, a pure handler
 * `(state, line) -> new state or error`; `RunFrom` and `Compile` fold it over
 * the script. `ReadTests` is the imperative loop of the source, proved to
 * compute exactly `Compile`.
 */
module Screentest {
  import opened Wrappers
  import opened GoStrings

  // ---------------------------------------------------------------------
  // Data model

  /** A browser action run before the screenshot: chromedp.Click or chromedp.WaitReady. */
  datatype Action = Click(selector: string) | WaitReady(selector: string)

  /** How the page is framed: the whole page, the viewport, or one element. */
  datatype ScreenshotType = Full | Viewport | Element

  /** One resolved comparison: load `pathname` on both origins and compare the screenshots. */
  datatype TestCase = TestCase(
    name: string,
    pathname: string,
    tasks: seq<Action>,
    originA: string,
    originB: string,
    viewportWidth: int,
    viewportHeight: int,
    screenshotType: ScreenshotType,
    screenshotElement: string)

  /** Why splitDimensions rejects its text. */
  datatype DimensionsError =
    | FieldCount(text: string)               // not exactly one 'x'
    | BadInt(field: string, cause: NumError)  // strconv.Atoi failed on one side

  /** Why a script does not compile. Only some of the source's messages carry a line number. */
  datatype ParseError =
    | IndexOutOfRange                                  // `compare` with one field: Go panics
    | BadUrl(url: string)                              // url.Parse rejected it
    | BadDimensions(text: string, cause: DimensionsError)
    | DuplicateTestName(lineNo: nat, name: string)
    | DuplicatePathname(lineNo: nat, pathname: string)
    | MissingCompare(lineNo: nat)
    | MissingPathname(lineNo: nat)
    | InvalidSyntax(lineNo: nat, line: string)

  /**
   * The locals of readTests. `originA`, `originB`, `width` and `height`
   * persist for the whole script; `testName`, `pathname` and `tasks` belong to
   * the current block and a blank line clears them.
   */
  datatype ParseState = ParseState(
    testName: string,
    pathname: string,
    tasks: seq<Action>,
    originA: string,
    originB: string,
    width: int,
    height: int,
    tests: seq<TestCase>)

  const Initial: ParseState := ParseState("", "", [], "", "", 0, 0, [])

  // ---------------------------------------------------------------------
  // Pure helpers of the source

  /** splitOneField: the text up to the first space or tab, and the rest without its leading blanks. */
  function SplitOneField(text: string): (r: (string, string))
    ensures |r.0| + |r.1| <= |text|
  {
    var i := IndexAny(text, Blank);
    if i < 0 then (text, "") else (text[..i], TrimLeft(text[i..], Blank))
  }

  /**
   * The field is the longest blank-free prefix of the text; the rest is a
   * suffix with no leading blank, and only blanks lie between the two.
   */
  lemma SplitOneFieldSpec(text: string)
    ensures var (field, rest) := SplitOneField(text);
      && field <= text
      && (forall i :: 0 <= i < |field| ==> field[i] !in Blank)
      && (|field| < |text| ==> text[|field|] in Blank)
      && rest == text[|text| - |rest|..]
      && (forall i :: |field| <= i < |text| - |rest| ==> text[i] in Blank)
      && (rest == [] || rest[0] !in Blank)
  {
    IndexAnySpec(text, Blank);
    var i := IndexAny(text, Blank);
    if i >= 0 {
      TrimLeftSpec(text[i..], Blank);
      var rest := TrimLeft(text[i..], Blank);
      assert forall j :: i <= j < |text| - |rest| ==> text[j] == text[i..][j - i];
    }
  }

  /** With no space or tab in the text, the whole text is the field and nothing is left. */
  lemma SplitOneFieldNoBlank(text: string)
    requires forall i :: 0 <= i < |text| ==> text[i] !in Blank
    ensures SplitOneField(text) == (text, "")
  {
    IndexAnySpec(text, Blank);
  }

  /** splitDimensions: "WxH" with exactly one 'x' and an integer on each side. */
  function SplitDimensions(text: string): (r: Result<(int, int), DimensionsError>)
    ensures r.Success? ==> MinInt <= r.value.0 <= MaxInt && MinInt <= r.value.1 <= MaxInt
  {
    var parts := Split(text, 'x');
    if |parts| != 2 then Failure(FieldCount(text))
    else match Atoi(parts[0])
      case Failure(e) => Failure(BadInt(parts[0], e))
      case Success(width) =>
        match Atoi(parts[1])
        case Failure(e) => Failure(BadInt(parts[1], e))
        case Success(height) => Success((width, height))
  }

  /**
   * splitDimensions succeeds exactly when the text holds one 'x' with an
   * integer before and after it, and then returns those two integers.
   */
  lemma SplitDimensionsSpec(text: string)
    ensures var k := IndexAny(text, {'x'});
      && (SplitDimensions(text).Success? <==>
            && k >= 0 && 'x' !in text[k + 1..]
            && Atoi(text[..k]).Success? && Atoi(text[k + 1..]).Success?)
      && (SplitDimensions(text).Success? ==>
            SplitDimensions(text).value == (Atoi(text[..k]).value, Atoi(text[k + 1..]).value))
      && (k < 0 ==> SplitDimensions(text) == Failure(FieldCount(text)))
  {
    SplitAtX(text);
  }

  /** How Split cuts a size at 'x': one part, two parts, or more than two. */
  lemma SplitAtX(text: string)
    ensures var k := IndexAny(text, {'x'});
      var parts := Split(text, 'x');
      && (k < 0 ==> parts == [text])
      && (k >= 0 && 'x' !in text[k + 1..] ==> parts == [text[..k], text[k + 1..]])
      && (k >= 0 && 'x' in text[k + 1..] ==> |parts| > 2)
  {
    var k := IndexAny(text, {'x'});
    var parts := Split(text, 'x');
    if k >= 0 {
      var tail := text[k + 1..];
      var k' := IndexAny(tail, {'x'});
      IndexAnySpec(tail, {'x'});
      assert parts == [text[..k]] + Split(tail, 'x');
      assert 'x' !in tail <==> k' < 0 by {
        if 'x' in tail {
          var j :| 0 <= j < |tail| && tail[j] == 'x';
        }
      }
      if k' < 0 {
        assert parts == [text[..k], tail];
      } else {
        assert |parts| > 2;
      }
    }
  }

  /** The class of the regular expression "[.*<>?`'|/\\: ]" (line 215): backslash is not in it. */
  const SanitizeSet: set<char> := {'.', '*', '<', '>', '?', '`', '\'', '|', '/', ':', ' '}

  /** sanitized: replace every character of SanitizeSet by '-'. */
  function Sanitized(text: string): (r: string)
    ensures |r| == |text|
    ensures forall i :: 0 <= i < |text| ==> (text[i] in SanitizeSet ==> r[i] == '-')
    ensures forall i :: 0 <= i < |text| ==> (text[i] !in SanitizeSet ==> r[i] == text[i])
  {
    if text == [] then []
    else [if text[0] in SanitizeSet then '-' else text[0]] + Sanitized(text[1..])
  }

  // ---------------------------------------------------------------------
  // The per-line specification

  /** A script line after trimming: a comment, or an upper-cased directive with its argument. */
  datatype Line = Comment | Command(directive: string, args: string, text: string)

  function Classify(raw: string): Line
  {
    var line := TrimSpace(raw);
    if HasPrefix(line, "#") then Comment
    else
      var line := TrimRight(line, Blank);
      var fields := SplitOneField(line);
      Command(ToUpper(fields.0), fields.1, line)
  }

  /** Some test case already emitted carries this name. */
  predicate Taken(tests: seq<TestCase>, name: string)
  {
    exists i :: 0 <= i < |tests| && tests[i].name == name
  }

  function OnCompare(st: ParseState, args: string, urlOk: string -> bool): Result<ParseState, ParseError>
  {
    var origins := Split(args, ' ');
    if |origins| < 2 then Failure(IndexOutOfRange)
    else if !urlOk(origins[0]) then Failure(BadUrl(origins[0]))
    else if !urlOk(origins[1]) then Failure(BadUrl(origins[1]))
    else Success(st.(originA := origins[0], originB := origins[1]))
  }

  function OnWindowSize(st: ParseState, args: string): Result<ParseState, ParseError>
  {
    match SplitDimensions(args)
    case Failure(e) => Failure(BadDimensions(args, e))
    case Success(size) => Success(st.(width := size.0, height := size.1))
  }

  function OnTest(st: ParseState, lineNo: nat, args: string): Result<ParseState, ParseError>
  {
    if Taken(st.tests, args) then Failure(DuplicateTestName(lineNo, args))
    else Success(st.(testName := args))
  }

  function OnPathname(st: ParseState, lineNo: nat, args: string, urlOk: string -> bool): Result<ParseState, ParseError>
  {
    if !urlOk(st.originA + args) then Failure(BadUrl(st.originA + args))
    else if !urlOk(st.originB + args) then Failure(BadUrl(st.originB + args))
    else
      var name := if st.testName == "" then args else st.testName;
      if Taken(st.tests, name) then Failure(DuplicatePathname(lineNo, args))
      else Success(st.(pathname := args, testName := name))
  }

  /** The record a `capture` line appends before looking at its sub-directive. */
  function CaptureBase(st: ParseState): TestCase
  {
    TestCase(st.testName, st.pathname, st.tasks, st.originA, st.originB, st.width, st.height, Viewport, "")
  }

  /** The sub-directive of a `capture` line applied to the appended record. */
  function Framed(test: TestCase, testName: string, args: string): Result<TestCase, ParseError>
  {
    var fields := SplitOneField(args);
    var kind := ToUpper(fields.0);
    var arg := fields.1;
    if kind == "FULLSCREEN" || kind == "VIEWPORT" then
      var framed := if kind == "FULLSCREEN" then test.(screenshotType := Full) else test;
      if arg == "" then Success(framed)
      else match SplitDimensions(arg)
        case Failure(e) => Failure(BadDimensions(arg, e))
        case Success(size) =>
          Success(framed.(name := testName + " " + FormatInt(size.0) + "x" + FormatInt(size.1),
                          viewportWidth := size.0, viewportHeight := size.1))
    else if kind == "ELEMENT" then
      Success(test.(name := testName + " " + arg, screenshotType := Element, screenshotElement := arg))
    else Success(test)
  }

  /** The test case a `capture` line emits. */
  function CaptureCase(st: ParseState, args: string): Result<TestCase, ParseError>
  {
    Framed(CaptureBase(st), st.testName, args)
  }

  function OnCapture(st: ParseState, lineNo: nat, args: string): Result<ParseState, ParseError>
  {
    if st.originA == "" || st.originB == "" then Failure(MissingCompare(lineNo))
    else if st.pathname == "" then Failure(MissingPathname(lineNo))
    else match CaptureCase(st, args)
      case Failure(e) => Failure(e)
      case Success(test) => Success(st.(tests := st.tests + [test]))
  }

  /** The effect of script line number `lineNo` (counting from 1). */
  function Step(st: ParseState, lineNo: nat, raw: string, urlOk: string -> bool): Result<ParseState, ParseError>
  {
    match Classify(raw)
    case Comment => Success(st)
    case Command(directive, args, text) => OnCommand(st, lineNo, directive, args, text, urlOk)
  }

  /** A directive line: `directive` is its upper-cased first field, `text` the trimmed line. */
  function OnCommand(st: ParseState, lineNo: nat, directive: string, args: string, text: string, urlOk: string -> bool)
    : Result<ParseState, ParseError>
  {
      if directive == "" then Success(st.(testName := "", pathname := "", tasks := []))
      else if directive == "COMPARE" then OnCompare(st, args, urlOk)
      else if directive == "WINDOWSIZE" then OnWindowSize(st, args)
      else if directive == "TEST" then OnTest(st, lineNo, args)
      else if directive == "PATHNAME" then OnPathname(st, lineNo, args, urlOk)
      else if directive == "CLICK" then Success(st.(tasks := st.tasks + [Click(args)]))
      else if directive == "WAIT" then Success(st.(tasks := st.tasks + [WaitReady(args)]))
      else if directive == "CAPTURE" then OnCapture(st, lineNo, args)
      else Failure(InvalidSyntax(lineNo, text))
  }

  /** The lines `rest` run from `st`, where `lineNo` lines were read before them. */
  function RunFrom(st: ParseState, rest: seq<string>, lineNo: nat, urlOk: string -> bool): Result<ParseState, ParseError>
    decreases |rest|
  {
    if rest == [] then Success(st)
    else match Step(st, lineNo + 1, rest[0], urlOk)
      case Failure(e) => Failure(e)
      case Success(next) => RunFrom(next, rest[1..], lineNo + 1, urlOk)
  }

  /** The test cases a whole script compiles to. */
  function Compile(lines: seq<string>, urlOk: string -> bool): Result<seq<TestCase>, ParseError>
  {
    match RunFrom(Initial, lines, 0, urlOk)
    case Failure(e) => Failure(e)
    case Success(st) => Success(st.tests)
  }

  // ---------------------------------------------------------------------
  // The imperative compiler

  /** The `for _, t := range tests` scan for a test already named `name`. */
  method NameTaken(tests: seq<TestCase>, name: string) returns (found: bool)
    ensures found <==> Taken(tests, name)
  {
    var i := 0;
    while i < |tests|
      invariant 0 <= i <= |tests|
      invariant forall j :: 0 <= j < i ==> tests[j].name != name
    {
      if tests[i].name == name {
        return true;
      }
      i := i + 1;
    }
    return false;
  }

  /**
   * The inner switch of a `capture` line. The source edits the appended
   * record through its pointer; here the edited record is returned.
   */
  method Frame(test: TestCase, testName: string, args: string) returns (r: Result<TestCase, ParseError>)
    ensures r == Framed(test, testName, args)
  {
    var sub := SplitOneField(args);
    var kind := ToUpper(sub.0);
    var arg := sub.1;
    var framed := test;
    if kind == "FULLSCREEN" || kind == "VIEWPORT" {
      if kind == "FULLSCREEN" {
        framed := framed.(screenshotType := Full);
      }
      if arg != "" {
        var size := SplitDimensions(arg);
        if size.Failure? {
          return Failure(BadDimensions(arg, size.error));
        }
        var w, h := size.value.0, size.value.1;
        framed := framed.(name := testName + " " + FormatInt(w) + "x" + FormatInt(h),
                          viewportWidth := w, viewportHeight := h);
      }
    } else if kind == "ELEMENT" {
      framed := framed.(name := testName + " " + arg, screenshotType := Element, screenshotElement := arg);
    }
    return Success(framed);
  }

  /**
   * The body of readTests' loop: one script line applied to the parse state.
   * `lineNo` is the number of the line, counting from 1.
   */
  method ReadLine(st: ParseState, lineNo: nat, raw: string, urlOk: string -> bool)
    returns (r: Result<ParseState, ParseError>)
    ensures r == Step(st, lineNo, raw, urlOk)
  {
    var line := TrimSpace(raw);
    if HasPrefix(line, "#") {
      return Success(st);
    }
    line := TrimRight(line, Blank);
    var fields := SplitOneField(line);
    var field := ToUpper(fields.0);
    var args := fields.1;
    assert Classify(raw) == Command(field, args, line);
    var next := st;
    if field == "" {
      // A blank line ends the block: forget what belongs to the current test.
      next := next.(testName := "", pathname := "", tasks := []);
    } else if field == "COMPARE" {
      var origins := Split(args, ' ');
      if |origins| < 2 {
        return Failure(IndexOutOfRange);
      }
      next := next.(originA := origins[0], originB := origins[1]);
      if !urlOk(next.originA) {
        return Failure(BadUrl(next.originA));
      }
      if !urlOk(next.originB) {
        return Failure(BadUrl(next.originB));
      }
    } else if field == "WINDOWSIZE" {
      var size := SplitDimensions(args);
      if size.Failure? {
        return Failure(BadDimensions(args, size.error));
      }
      next := next.(width := size.value.0, height := size.value.1);
    } else if field == "TEST" {
      next := next.(testName := args);
      var taken := NameTaken(next.tests, next.testName);
      if taken {
        return Failure(DuplicateTestName(lineNo, next.testName));
      }
    } else if field == "PATHNAME" {
      if !urlOk(next.originA + args) {
        return Failure(BadUrl(next.originA + args));
      }
      if !urlOk(next.originB + args) {
        return Failure(BadUrl(next.originB + args));
      }
      next := next.(pathname := args);
      if next.testName == "" {
        next := next.(testName := next.pathname);
      }
      var taken := NameTaken(next.tests, next.testName);
      if taken {
        return Failure(DuplicatePathname(lineNo, next.pathname));
      }
    } else if field == "CLICK" {
      next := next.(tasks := next.tasks + [Click(args)]);
    } else if field == "WAIT" {
      next := next.(tasks := next.tasks + [WaitReady(args)]);
    } else if field == "CAPTURE" {
      if next.originA == "" || next.originB == "" {
        return Failure(MissingCompare(lineNo));
      }
      if next.pathname == "" {
        return Failure(MissingPathname(lineNo));
      }
      var test := TestCase(next.testName, next.pathname, next.tasks, next.originA, next.originB,
                           next.width, next.height, Viewport, "");
      next := next.(tests := next.tests + [test]);
      var framed := Frame(test, next.testName, args);
      if framed.Failure? {
        return Failure(framed.error);
      }
      // The source edits the appended record through its pointer: the slot
      // it was appended to now holds the edited record.
      next := next.(tests := next.tests[|next.tests| - 1 := framed.value]);
      assert next.tests == st.tests + [framed.value];
    } else {
      return Failure(InvalidSyntax(lineNo, line));
    }
    return Success(next);
  }

  /**
   * readTests over the lines of a script file, which stand for what
   * bufio.Scanner reads; `urlOk` stands for the success of url.Parse.
   */
  method ReadTests(lines: seq<string>, urlOk: string -> bool) returns (r: Result<seq<TestCase>, ParseError>)
    ensures r == Compile(lines, urlOk)
  {
    var st := Initial;
    var lineNo := 0;
    while lineNo < |lines|
      invariant 0 <= lineNo <= |lines|
      invariant RunFrom(st, lines[lineNo..], lineNo, urlOk) == RunFrom(Initial, lines, 0, urlOk)
    {
      assert lines[lineNo..][1..] == lines[lineNo + 1..];
      lineNo := lineNo + 1;
      var step := ReadLine(st, lineNo, lines[lineNo - 1], urlOk);
      if step.Failure? {
        return Failure(step.error);
      }
      st := step.value;
    }
    return Success(st.tests);
  }
}
