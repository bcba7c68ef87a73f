/**
 * What the script compiler promises: how each directive changes the parse
 * state, which errors it raises and with which line number, and how the list
 * of test cases grows over a whole script.
 */
module ScriptProperties {
  import opened Wrappers
  import opened GoStrings
  import opened Screentest

  // ---------------------------------------------------------------------
  // Line classification

  predicate IsBlankLine(raw: string)
  {
    forall i :: 0 <= i < |raw| ==> raw[i] in AsciiSpace
  }

  /** A line is read as the empty directive, which closes a block, exactly when it is blank. */
  lemma EmptyDirectiveIffBlank(raw: string)
    ensures (Classify(raw).Command? && Classify(raw).directive == "") <==> IsBlankLine(raw)
  {
    TrimSpaceSpec(raw);
    var line := TrimSpace(raw);
    if line != [] && line[0] != '#' {
      var text := TrimRight(line, Blank);
      TrimRightSpec(line, Blank);
      assert text != [] && text[0] == line[0];
      SplitOneFieldSpec(text);
      assert |SplitOneField(text).0| > 0;
    }
  }

  /** A blank line clears the test name, pathname and actions, and keeps origins, size and tests. */
  lemma BlankLineResets(st: ParseState, lineNo: nat, raw: string, urlOk: string -> bool)
    requires IsBlankLine(raw)
    ensures Step(st, lineNo, raw, urlOk) == Success(st.(testName := "", pathname := "", tasks := []))
  {
    EmptyDirectiveIffBlank(raw);
  }

  /** A line whose trimmed text starts with '#' changes nothing. */
  lemma CommentSkipped(st: ParseState, lineNo: nat, raw: string, urlOk: string -> bool)
    requires HasPrefix(TrimSpace(raw), "#")
    ensures Step(st, lineNo, raw, urlOk) == Success(st)
  {
  }

  // ---------------------------------------------------------------------
  // Persistent state

  /** Only `compare` and `windowsize` lines change the origins and the window size. */
  lemma PersistentStateOnlyByCompareOrWindowSize(st: ParseState, lineNo: nat, raw: string, urlOk: string -> bool)
    requires Step(st, lineNo, raw, urlOk).Success?
    requires Classify(raw).Command? ==> Classify(raw).directive !in {"COMPARE", "WINDOWSIZE"}
    ensures var next := Step(st, lineNo, raw, urlOk).value;
      next.originA == st.originA && next.originB == st.originB &&
      next.width == st.width && next.height == st.height
  {
    match Classify(raw)
    case Comment =>
    case Command(directive, args, text) =>
      if directive == "CAPTURE" {
        assert Step(st, lineNo, raw, urlOk) == OnCapture(st, lineNo, args);
      } else if directive == "PATHNAME" {
        assert Step(st, lineNo, raw, urlOk) == OnPathname(st, lineNo, args, urlOk);
      } else if directive == "TEST" {
        assert Step(st, lineNo, raw, urlOk) == OnTest(st, lineNo, args);
      }
  }

  /**
   * `compare A B` splits its argument at single spaces and keeps the first
   * two fields; it panics when there is no space, and fails when either field
   * is not a URL. Nothing else changes.
   */
  lemma CompareSetsOrigins(st: ParseState, lineNo: nat, raw: string, urlOk: string -> bool)
    requires Classify(raw).Command? && Classify(raw).directive == "COMPARE"
    ensures var args := Classify(raw).args;
      var r := Step(st, lineNo, raw, urlOk);
      && (' ' !in args ==> r == Failure(IndexOutOfRange))
      && (r.Success? ==>
            && ' ' in args
            && args == r.value.originA + " " + args[|r.value.originA| + 1..]
            && ' ' !in r.value.originA
            && r.value.originB <= args[|r.value.originA| + 1..]
            && ' ' !in r.value.originB
            && (var rest := args[|r.value.originA| + 1..];
                r.value.originB == rest || rest[|r.value.originB|] == ' ')
            && urlOk(r.value.originA) && urlOk(r.value.originB)
            && r.value == st.(originA := r.value.originA, originB := r.value.originB))
  {
    var args := Classify(raw).args;
    assert Step(st, lineNo, raw, urlOk) == OnCompare(st, args, urlOk);
    OnCompareSetsOrigins(st, args, urlOk);
  }

  /**
   * The converse of `CompareSetsOrigins`: when the argument starts with two
   * space-separated fields A and B, the line checks A, then B, with url.Parse
   * and otherwise sets the origins to A and B.
   */
  lemma CompareAccepts(st: ParseState, lineNo: nat, raw: string, a: string, b: string, tail: string,
                       urlOk: string -> bool)
    requires Classify(raw).Command? && Classify(raw).directive == "COMPARE"
    requires Classify(raw).args == a + " " + b + tail
    requires ' ' !in a && ' ' !in b && (tail == [] || tail[0] == ' ')
    ensures Step(st, lineNo, raw, urlOk) ==
      if !urlOk(a) then Failure(BadUrl(a))
      else if !urlOk(b) then Failure(BadUrl(b))
      else Success(st.(originA := a, originB := b))
  {
    assert Step(st, lineNo, raw, urlOk) == OnCompare(st, a + " " + b + tail, urlOk);
    OnCompareAccepts(st, a, b, tail, urlOk);
  }

  /** The handler behind `CompareAccepts`, on the argument text. */
  lemma OnCompareAccepts(st: ParseState, a: string, b: string, tail: string, urlOk: string -> bool)
    requires ' ' !in a && ' ' !in b && (tail == [] || tail[0] == ' ')
    ensures OnCompare(st, a + " " + b + tail, urlOk) ==
      if !urlOk(a) then Failure(BadUrl(a))
      else if !urlOk(b) then Failure(BadUrl(b))
      else Success(st.(originA := a, originB := b))
  {
    var rest := b + tail;
    assert a + " " + b + tail == a + [' '] + rest;
    SplitAfterField(a, ' ', rest);
    if tail == [] {
      assert rest == b;
      IndexAnySpec(b, {' '});
      assert Split(rest, ' ') == [b];
    } else {
      assert rest == b + [' '] + tail[1..];
      SplitAfterField(b, ' ', tail[1..]);
    }
  }

  /** Split cuts at the first separator: a field free of `sep`, then the rest. */
  lemma SplitAfterField(field: string, sep: char, rest: string)
    requires sep !in field
    ensures Split(field + [sep] + rest, sep) == [field] + Split(rest, sep)
  {
    var s := field + [sep] + rest;
    IndexAnySpec(s, {sep});
    assert s[|field|] == sep;
    assert forall i :: 0 <= i < |field| ==> s[i] == field[i];
    assert IndexAny(s, {sep}) == |field|;
    assert s[..|field|] == field && s[|field| + 1..] == rest;
  }

  /** The handler behind `CompareSetsOrigins`, on the argument text. */
  lemma OnCompareSetsOrigins(st: ParseState, args: string, urlOk: string -> bool)
    ensures var r := OnCompare(st, args, urlOk);
      && (' ' !in args ==> r == Failure(IndexOutOfRange))
      && (r.Success? ==>
            && ' ' in args
            && args == r.value.originA + " " + args[|r.value.originA| + 1..]
            && ' ' !in r.value.originA
            && r.value.originB <= args[|r.value.originA| + 1..]
            && ' ' !in r.value.originB
            && (var rest := args[|r.value.originA| + 1..];
                r.value.originB == rest || rest[|r.value.originB|] == ' ')
            && urlOk(r.value.originA) && urlOk(r.value.originB)
            && r.value == st.(originA := r.value.originA, originB := r.value.originB))
  {
    SplitJoin(args, ' ');
    var parts := Split(args, ' ');
    if |parts| >= 2 {
      var rest := Join(parts[1..], ' ');
      assert args == parts[0] + " " + rest;
      assert rest == args[|parts[0]| + 1..];
      if |parts| > 2 {
        assert parts[1..][1..] == parts[2..];
        assert rest == parts[1] + [' '] + Join(parts[2..], ' ');
      }
      assert parts[1] <= rest;
    } else {
      assert args == parts[0];
    }
  }

  /**
   * `compare A  B` with two spaces: the field between the spaces is empty, so
   * the second origin becomes "" and a later `capture` reports a missing compare.
   */
  lemma CompareDoubleSpaceEmptiesOriginB(st: ParseState, lineNo: nat, raw: string, a: string, b: string,
                                         urlOk: string -> bool)
    requires Classify(raw).Command? && Classify(raw).directive == "COMPARE"
    requires Classify(raw).args == a + "  " + b && ' ' !in a
    requires urlOk(a) && urlOk("")
    ensures Step(st, lineNo, raw, urlOk) == Success(st.(originA := a, originB := ""))
  {
    assert Step(st, lineNo, raw, urlOk) == OnCompare(st, a + "  " + b, urlOk);
    OnCompareDoubleSpace(st, a, b, urlOk);
  }

  /** The handler behind `CompareDoubleSpaceEmptiesOriginB`, on the argument text. */
  lemma OnCompareDoubleSpace(st: ParseState, a: string, b: string, urlOk: string -> bool)
    requires ' ' !in a && urlOk(a) && urlOk("")
    ensures OnCompare(st, a + "  " + b, urlOk) == Success(st.(originA := a, originB := ""))
  {
    var args := a + "  " + b;
    IndexAnySpec(args, {' '});
    assert IndexAny(args, {' '}) == |a| by {
      assert args[|a|] == ' ';
      forall i | 0 <= i < |a| ensures args[i] !in {' '} { assert args[i] == a[i]; }
    }
    assert args[..|a|] == a && args[|a| + 1..] == " " + b;
    assert Split(" " + b, ' ') == [""] + Split(b, ' ');
  }

  /** `windowsize WxH` sets the persistent size to the parsed pair, or fails on a malformed size. */
  lemma WindowSizeSetsSize(st: ParseState, lineNo: nat, raw: string, urlOk: string -> bool)
    requires Classify(raw).Command? && Classify(raw).directive == "WINDOWSIZE"
    ensures var args := Classify(raw).args;
      match SplitDimensions(args)
      case Failure(e) => Step(st, lineNo, raw, urlOk) == Failure(BadDimensions(args, e))
      case Success(size) => Step(st, lineNo, raw, urlOk) == Success(st.(width := size.0, height := size.1))
  {
  }

  // ---------------------------------------------------------------------
  // Names

  /** `test NAME` fails, citing its line, exactly when an emitted test already has that name. */
  lemma TestRejectsTakenName(st: ParseState, lineNo: nat, raw: string, urlOk: string -> bool)
    requires Classify(raw).Command? && Classify(raw).directive == "TEST"
    ensures var name := Classify(raw).args;
      && (Step(st, lineNo, raw, urlOk).Failure? <==> exists t :: t in st.tests && t.name == name)
      && (Step(st, lineNo, raw, urlOk).Failure? ==> Step(st, lineNo, raw, urlOk).error == DuplicateTestName(lineNo, name))
      && (Step(st, lineNo, raw, urlOk).Success? ==> Step(st, lineNo, raw, urlOk).value == st.(testName := name))
  {
    var name := Classify(raw).args;
    if exists t :: t in st.tests && t.name == name {
      var t :| t in st.tests && t.name == name;
      var i :| 0 <= i < |st.tests| && st.tests[i] == t;
    }
  }

  /**
   * `pathname P`, once both origins joined with P parse as URLs, names the
   * block P if it has no name yet, and fails, citing its line, when the
   * block's name is already taken by an emitted test.
   */
  lemma PathnameRejectsTakenName(st: ParseState, lineNo: nat, raw: string, urlOk: string -> bool)
    requires Classify(raw).Command? && Classify(raw).directive == "PATHNAME"
    requires urlOk(st.originA + Classify(raw).args) && urlOk(st.originB + Classify(raw).args)
    ensures var path := Classify(raw).args;
      var name := if st.testName == "" then path else st.testName;
      && (Step(st, lineNo, raw, urlOk).Failure? <==> exists t :: t in st.tests && t.name == name)
      && (Step(st, lineNo, raw, urlOk).Failure? ==> Step(st, lineNo, raw, urlOk).error == DuplicatePathname(lineNo, path))
      && (Step(st, lineNo, raw, urlOk).Success? ==>
            Step(st, lineNo, raw, urlOk).value == st.(pathname := path, testName := name))
  {
    var path := Classify(raw).args;
    var name := if st.testName == "" then path else st.testName;
    if exists t :: t in st.tests && t.name == name {
      var t :| t in st.tests && t.name == name;
      var i :| 0 <= i < |st.tests| && st.tests[i] == t;
    }
  }

  /** `pathname P` fails on the first origin that does not make a URL with P. */
  lemma PathnameChecksUrls(st: ParseState, lineNo: nat, raw: string, urlOk: string -> bool)
    requires Classify(raw).Command? && Classify(raw).directive == "PATHNAME"
    ensures var path := Classify(raw).args;
      && (!urlOk(st.originA + path) ==> Step(st, lineNo, raw, urlOk) == Failure(BadUrl(st.originA + path)))
      && (urlOk(st.originA + path) && !urlOk(st.originB + path) ==>
            Step(st, lineNo, raw, urlOk) == Failure(BadUrl(st.originB + path)))
  {
  }

  /** Any directive other than the seven known ones, and not empty, is a syntax error citing its line. */
  lemma UnknownDirectiveRejected(st: ParseState, lineNo: nat, raw: string, urlOk: string -> bool)
    requires Classify(raw).Command?
    requires Classify(raw).directive !in {"", "COMPARE", "WINDOWSIZE", "TEST", "PATHNAME", "CLICK", "WAIT", "CAPTURE"}
    ensures Step(st, lineNo, raw, urlOk) == Failure(InvalidSyntax(lineNo, Classify(raw).text))
  {
  }

  /** `click` and `wait` append one action to the block's list and change nothing else. */
  lemma ActionsAppend(st: ParseState, lineNo: nat, raw: string, urlOk: string -> bool)
    requires Classify(raw).Command? && Classify(raw).directive in {"CLICK", "WAIT"}
    ensures var c := Classify(raw);
      Step(st, lineNo, raw, urlOk) ==
        Success(st.(tasks := st.tasks + [if c.directive == "CLICK" then Click(c.args) else WaitReady(c.args)]))
  {
  }

  // ---------------------------------------------------------------------
  // Capture

  /** `capture` fails, citing its line, without both origins, and then without a pathname. */
  lemma CaptureNeedsCompareAndPathname(st: ParseState, lineNo: nat, raw: string, urlOk: string -> bool)
    requires Classify(raw).Command? && Classify(raw).directive == "CAPTURE"
    ensures st.originA == "" || st.originB == "" ==> Step(st, lineNo, raw, urlOk) == Failure(MissingCompare(lineNo))
    ensures st.originA != "" && st.originB != "" && st.pathname == "" ==>
      Step(st, lineNo, raw, urlOk) == Failure(MissingPathname(lineNo))
  {
  }

  /**
   * With both origins and a pathname set, `capture` emits the case its
   * sub-directive frames; the only way it can still fail is a malformed size.
   */
  lemma CaptureAccepts(st: ParseState, lineNo: nat, raw: string, urlOk: string -> bool)
    requires Classify(raw).Command? && Classify(raw).directive == "CAPTURE"
    requires st.originA != "" && st.originB != "" && st.pathname != ""
    ensures Step(st, lineNo, raw, urlOk) ==
      match CaptureCase(st, Classify(raw).args)
      case Failure(e) => Failure(e)
      case Success(t) => Success(st.(tests := st.tests + [t]))
    ensures Step(st, lineNo, raw, urlOk).Failure? ==> Step(st, lineNo, raw, urlOk).error.BadDimensions?
  {
    var args := Classify(raw).args;
    assert Step(st, lineNo, raw, urlOk) == OnCapture(st, lineNo, args);
    FramedFailsOnlyOnSize(CaptureBase(st), st.testName, args);
  }

  /**
   * A successful `capture` appends exactly one test case, leaves the earlier
   * ones and all other state alone, and the new case carries the block's
   * pathname, actions and the current origins.
   */
  lemma CaptureAppendsOne(st: ParseState, lineNo: nat, raw: string, urlOk: string -> bool)
    requires Classify(raw).Command? && Classify(raw).directive == "CAPTURE"
    requires Step(st, lineNo, raw, urlOk).Success?
    ensures var next := Step(st, lineNo, raw, urlOk).value;
      && |next.tests| == |st.tests| + 1
      && next.tests[..|st.tests|] == st.tests
      && next == st.(tests := next.tests)
      && var t := next.tests[|st.tests|];
         && t.pathname == st.pathname && t.tasks == st.tasks
         && t.originA == st.originA && t.originB == st.originB
         && st.originA != "" && st.originB != "" && st.pathname != ""
  {
    var args := Classify(raw).args;
    assert Step(st, lineNo, raw, urlOk) == OnCapture(st, lineNo, args);
    FramedKeepsBlock(CaptureBase(st), st.testName, args);
    var next := Step(st, lineNo, raw, urlOk).value;
    assert next.tests[..|st.tests|] == st.tests;
  }

  /** The sub-directive only touches the name, the kind of screenshot and the viewport. */
  lemma FramedKeepsBlock(test: TestCase, testName: string, args: string)
    ensures Framed(test, testName, args).Success? ==>
      var t := Framed(test, testName, args).value;
      t.pathname == test.pathname && t.tasks == test.tasks && t.originA == test.originA && t.originB == test.originB
  {
  }

  /**
   * The sub-directive of `capture`. Without one, or with one that is not
   * FULLSCREEN, VIEWPORT or ELEMENT, the case is a viewport screenshot at the
   * persistent size under the block's name. FULLSCREEN switches to a full
   * page. A size after FULLSCREEN or VIEWPORT overrides this case's viewport
   * only and is added to the name as " WxH" printed from the parsed numbers.
   * ELEMENT SEL takes an element screenshot of SEL, named with " SEL".
   */
  lemma CaptureFraming(st: ParseState, args: string)
    ensures var (sub, arg) := SplitOneField(args);
      var kind := ToUpper(sub);
      var r := CaptureCase(st, args);
      && (r.Success? ==>
            && r.value.pathname == st.pathname && r.value.tasks == st.tasks
            && r.value.originA == st.originA && r.value.originB == st.originB)
      && (kind !in {"FULLSCREEN", "VIEWPORT", "ELEMENT"} ==>
            r == Success(TestCase(st.testName, st.pathname, st.tasks, st.originA, st.originB,
                                  st.width, st.height, Viewport, "")))
      && (kind in {"FULLSCREEN", "VIEWPORT"} && arg == "" ==>
            && r.Success? && r.value.name == st.testName
            && r.value.viewportWidth == st.width && r.value.viewportHeight == st.height
            && r.value.screenshotType == (if kind == "FULLSCREEN" then Full else Viewport))
      && (kind in {"FULLSCREEN", "VIEWPORT"} && arg != "" ==>
            match SplitDimensions(arg)
            case Failure(e) => r == Failure(BadDimensions(arg, e))
            case Success(size) =>
              && r.Success?
              && r.value.name == st.testName + " " + FormatInt(size.0) + "x" + FormatInt(size.1)
              && r.value.viewportWidth == size.0 && r.value.viewportHeight == size.1
              && r.value.screenshotType == (if kind == "FULLSCREEN" then Full else Viewport))
      && (kind == "ELEMENT" ==>
            && r.Success? && r.value.name == st.testName + " " + arg
            && r.value.screenshotType == Element && r.value.screenshotElement == arg
            && r.value.viewportWidth == st.width && r.value.viewportHeight == st.height)
  {
  }

  /** A printed integer holds no 'x', so it never splits a size. */
  lemma FormatIntHasNoX(n: int)
    ensures 'x' !in FormatInt(n)
  {
    var a := FormatInt(n);
    forall i | 0 <= i < |a| ensures a[i] != 'x' {
      if i > 0 || a[0] != '-' {
        var u := Unsigned(a);
        if u == a[1..] { assert a[i] == u[i - 1]; } else { assert a[i] == u[i]; }
      }
    }
  }

  /** The " WxH" a capture adds to its name reads back, through splitDimensions, as the size it set. */
  lemma SizeSuffixReadsBack(w: int, h: int)
    requires MinInt <= w <= MaxInt && MinInt <= h <= MaxInt
    ensures SplitDimensions(FormatInt(w) + "x" + FormatInt(h)) == Success((w, h))
  {
    var a, b := FormatInt(w), FormatInt(h);
    FormatIntHasNoX(w);
    FormatIntHasNoX(h);
    SplitAtOneX(a, b);
    AtoiFormatInt(w);
    AtoiFormatInt(h);
  }

  /** A size written as A "x" B, with no other 'x', splits into A and B. */
  lemma SplitAtOneX(a: string, b: string)
    requires 'x' !in a && 'x' !in b
    ensures Split(a + "x" + b, 'x') == [a, b]
  {
    assert a + "x" + b == a + ['x'] + b;
    SplitAfterField(a, 'x', b);
    IndexAnySpec(b, {'x'});
  }

  /** Two `capture` lines in a row share origins, pathname and actions. */
  lemma ConsecutiveCapturesShare(st: ParseState, n: nat, raw1: string, raw2: string, urlOk: string -> bool)
    requires Classify(raw1).Command? && Classify(raw1).directive == "CAPTURE"
    requires Classify(raw2).Command? && Classify(raw2).directive == "CAPTURE"
    requires Step(st, n, raw1, urlOk).Success?
    requires Step(Step(st, n, raw1, urlOk).value, n + 1, raw2, urlOk).Success?
    ensures var mid := Step(st, n, raw1, urlOk).value;
      var last := Step(mid, n + 1, raw2, urlOk).value;
      var t1, t2 := last.tests[|st.tests|], last.tests[|st.tests| + 1];
      && |last.tests| == |st.tests| + 2
      && t1.originA == t2.originA && t1.originB == t2.originB
      && t1.pathname == t2.pathname && t1.tasks == t2.tasks
  {
    var mid := Step(st, n, raw1, urlOk).value;
    CaptureAppendsOne(st, n, raw1, urlOk);
    CaptureAppendsOne(mid, n + 1, raw2, urlOk);
    var last := Step(mid, n + 1, raw2, urlOk).value;
    assert last.tests[|st.tests|] == last.tests[..|mid.tests|][|st.tests|];
  }

  /** `capture` never checks names: the same capture line twice emits the same test case twice. */
  lemma RepeatedCaptureDuplicatesName(st: ParseState, n: nat, raw: string, urlOk: string -> bool)
    requires Classify(raw).Command? && Classify(raw).directive == "CAPTURE"
    requires Step(st, n, raw, urlOk).Success?
    ensures var mid := Step(st, n, raw, urlOk).value;
      && Step(mid, n + 1, raw, urlOk).Success?
      && var last := Step(mid, n + 1, raw, urlOk).value;
         && |last.tests| == |st.tests| + 2
         && last.tests[|st.tests|] == last.tests[|st.tests| + 1]
  {
  }

  /** After a blank line, a `capture` fails: the block has no pathname any more. */
  lemma BlankThenCaptureFails(st: ParseState, n: nat, blank: string, raw: string, urlOk: string -> bool)
    requires IsBlankLine(blank)
    requires Classify(raw).Command? && Classify(raw).directive == "CAPTURE"
    ensures Step(st, n, blank, urlOk).Success?
    ensures var mid := Step(st, n, blank, urlOk).value;
      Step(mid, n + 1, raw, urlOk) ==
        Failure(if st.originA == "" || st.originB == "" then MissingCompare(n + 1) else MissingPathname(n + 1))
  {
    BlankLineResets(st, n, blank, urlOk);
  }

  // ---------------------------------------------------------------------
  // Whole scripts

  predicate IsCapture(raw: string)
  {
    Classify(raw).Command? && Classify(raw).directive == "CAPTURE"
  }

  /** The number of `capture` lines in a script. */
  function CaptureLines(lines: seq<string>): nat
  {
    if lines == [] then 0 else (if IsCapture(lines[0]) then 1 else 0) + CaptureLines(lines[1..])
  }

  /** A directive line adds a test case exactly when it is `capture`, and never drops one. */
  lemma CommandGrowsTests(st: ParseState, n: nat, directive: string, args: string, text: string, urlOk: string -> bool)
    requires OnCommand(st, n, directive, args, text, urlOk).Success?
    ensures var next := OnCommand(st, n, directive, args, text, urlOk).value;
      && next.tests == st.tests + (if directive == "CAPTURE" then [CaptureCase(st, args).value] else [])
  {
    var r := OnCommand(st, n, directive, args, text, urlOk);
    if directive == "COMPARE" || directive == "WINDOWSIZE" {
      assert r == OnCompare(st, args, urlOk) || r == OnWindowSize(st, args);
    } else if directive == "TEST" || directive == "PATHNAME" {
      assert r == OnTest(st, n, args) || r == OnPathname(st, n, args, urlOk);
    } else if directive == "CAPTURE" {
      assert r == OnCapture(st, n, args);
    }
  }

  /** One line adds a test case exactly when it is a capture line, and never drops one. */
  lemma StepGrowsTests(st: ParseState, n: nat, raw: string, urlOk: string -> bool)
    requires Step(st, n, raw, urlOk).Success?
    ensures var next := Step(st, n, raw, urlOk).value;
      && |next.tests| == |st.tests| + (if IsCapture(raw) then 1 else 0)
      && next.tests[..|st.tests|] == st.tests
  {
    match Classify(raw)
    case Comment =>
    case Command(directive, args, text) =>
      CommandGrowsTests(st, n, directive, args, text, urlOk);
      var next := Step(st, n, raw, urlOk).value;
      assert next.tests[..|st.tests|] == st.tests;
  }

  /** Running a script from a state adds one test case per capture line and keeps the earlier ones. */
  lemma {:induction false} RunFromCountsCaptures(st: ParseState, lines: seq<string>, n: nat, urlOk: string -> bool)
    requires RunFrom(st, lines, n, urlOk).Success?
    ensures var fin := RunFrom(st, lines, n, urlOk).value;
      && |fin.tests| == |st.tests| + CaptureLines(lines)
      && fin.tests[..|st.tests|] == st.tests
    decreases |lines|
  {
    if lines != [] {
      var next := Step(st, n + 1, lines[0], urlOk).value;
      StepGrowsTests(st, n + 1, lines[0], urlOk);
      RunFromCountsCaptures(next, lines[1..], n + 1, urlOk);
      var fin := RunFrom(st, lines, n, urlOk).value;
      assert fin.tests[..|next.tests|][..|st.tests|] == fin.tests[..|st.tests|];
    }
  }

  /** A script that compiles yields exactly one test case per capture line. */
  lemma CompileCountsCaptures(lines: seq<string>, urlOk: string -> bool)
    requires Compile(lines, urlOk).Success?
    ensures |Compile(lines, urlOk).value| == CaptureLines(lines)
  {
    RunFromCountsCaptures(Initial, lines, 0, urlOk);
  }

  /** The errors whose message names a line. */
  predicate CitesLine(e: ParseError)
  {
    e.DuplicateTestName? || e.DuplicatePathname? || e.MissingCompare? || e.MissingPathname? || e.InvalidSyntax?
  }

  /** The sub-directive of a capture can only fail on a malformed size. */
  lemma FramedFailsOnlyOnSize(test: TestCase, testName: string, args: string)
    ensures Framed(test, testName, args).Failure? ==> Framed(test, testName, args).error.BadDimensions?
  {
  }

  /** `compare` and `windowsize` failures cite no line. */
  lemma PersistentHandlersCiteNoLine(st: ParseState, args: string, urlOk: string -> bool)
    ensures OnCompare(st, args, urlOk).Failure? ==> !CitesLine(OnCompare(st, args, urlOk).error)
    ensures OnWindowSize(st, args).Failure? ==> !CitesLine(OnWindowSize(st, args).error)
  {
  }

  /** `test` and `pathname` failures that cite a line cite the one they are given. */
  lemma NamingHandlersCiteTheirLine(st: ParseState, n: nat, args: string, urlOk: string -> bool)
    ensures OnTest(st, n, args).Failure? ==> OnTest(st, n, args).error.lineNo == n
    ensures OnPathname(st, n, args, urlOk).Failure? && CitesLine(OnPathname(st, n, args, urlOk).error) ==>
      OnPathname(st, n, args, urlOk).error.lineNo == n
  {
  }

  /** `capture` failures that cite a line cite the one they are given. */
  lemma CaptureCitesItsLine(st: ParseState, n: nat, args: string)
    ensures OnCapture(st, n, args).Failure? && CitesLine(OnCapture(st, n, args).error) ==>
      OnCapture(st, n, args).error.lineNo == n
  {
    FramedFailsOnlyOnSize(CaptureBase(st), st.testName, args);
  }

  /** A directive line that fails with a line-citing error cites its own number. */
  lemma CommandCitesItsLine(st: ParseState, n: nat, directive: string, args: string, text: string, urlOk: string -> bool)
    requires OnCommand(st, n, directive, args, text, urlOk).Failure?
    requires CitesLine(OnCommand(st, n, directive, args, text, urlOk).error)
    ensures OnCommand(st, n, directive, args, text, urlOk).error.lineNo == n
  {
    var r := OnCommand(st, n, directive, args, text, urlOk);
    if directive == "COMPARE" || directive == "WINDOWSIZE" {
      assert r == OnCompare(st, args, urlOk) || r == OnWindowSize(st, args);
      PersistentHandlersCiteNoLine(st, args, urlOk);
    } else if directive == "TEST" || directive == "PATHNAME" {
      assert r == OnTest(st, n, args) || r == OnPathname(st, n, args, urlOk);
      NamingHandlersCiteTheirLine(st, n, args, urlOk);
    } else if directive == "CAPTURE" {
      assert r == OnCapture(st, n, args);
      CaptureCitesItsLine(st, n, args);
    }
  }

  /** A line that fails with a line-citing error cites its own number. */
  lemma StepCitesItsLine(st: ParseState, n: nat, raw: string, urlOk: string -> bool)
    requires Step(st, n, raw, urlOk).Failure? && CitesLine(Step(st, n, raw, urlOk).error)
    ensures Step(st, n, raw, urlOk).error.lineNo == n
  {
    match Classify(raw)
    case Comment =>
    case Command(directive, args, text) =>
      CommandCitesItsLine(st, n, directive, args, text, urlOk);
  }

  /** The per-line effect with the URL check fixed, as a value. */
  function StepWith(urlOk: string -> bool): (ParseState, nat, string) -> Result<ParseState, ParseError>
  {
    (s: ParseState, m: nat, raw: string) => Step(s, m, raw, urlOk)
  }

  /** `RunFrom` for an arbitrary per-line function `step`. */
  function Fold(step: (ParseState, nat, string) -> Result<ParseState, ParseError>, st: ParseState,
                rest: seq<string>, lineNo: nat): Result<ParseState, ParseError>
    decreases |rest|
  {
    if rest == [] then Success(st)
    else match step(st, lineNo + 1, rest[0])
      case Failure(e) => Failure(e)
      case Success(next) => Fold(step, next, rest[1..], lineNo + 1)
  }

  lemma {:induction false} RunFromIsFold(st: ParseState, rest: seq<string>, n: nat, urlOk: string -> bool)
    ensures RunFrom(st, rest, n, urlOk) == Fold(StepWith(urlOk), st, rest, n)
    decreases |rest|
  {
    if rest != [] {
      assert StepWith(urlOk)(st, n + 1, rest[0]) == Step(st, n + 1, rest[0], urlOk);
      match Step(st, n + 1, rest[0], urlOk)
      case Failure(_) =>
      case Success(next) => RunFromIsFold(next, rest[1..], n + 1, urlOk);
    }
  }

  /**
   * A fold that fails fails at some line k, numbered m: every line before k
   * is accepted, and line k's step raises the fold's error.
   */
  lemma {:induction false} FoldFailureAt(step: (ParseState, nat, string) -> Result<ParseState, ParseError>,
                                         st: ParseState, lines: seq<string>, n: nat)
    returns (k: nat, m: nat)
    requires Fold(step, st, lines, n).Failure?
    ensures k < |lines| && m == n + k + 1
    ensures Fold(step, st, lines[..k], n).Success?
    ensures step(Fold(step, st, lines[..k], n).value, m, lines[k]) == Fold(step, st, lines, n)
    decreases |lines|
  {
    match step(st, n + 1, lines[0])
    case Failure(_) =>
      k, m := 0, n + 1;
      assert lines[..0] == [];
    case Success(next) =>
      var j;
      j, m := FoldFailureAt(step, next, lines[1..], n + 1);
      k := j + 1;
      var before := lines[..k];
      assert before[0] == lines[0] && before[1..] == lines[1..][..j];
      assert lines[k] == lines[1..][j];
  }

  /** `FoldFailureAt` for the compiler's own step. */
  lemma RunFailureAt(st: ParseState, lines: seq<string>, n: nat, urlOk: string -> bool) returns (k: nat, m: nat)
    requires RunFrom(st, lines, n, urlOk).Failure?
    ensures k < |lines| && m == n + k + 1
    ensures RunFrom(st, lines[..k], n, urlOk).Success?
    ensures Step(RunFrom(st, lines[..k], n, urlOk).value, m, lines[k], urlOk) == RunFrom(st, lines, n, urlOk)
  {
    RunFromIsFold(st, lines, n, urlOk);
    k, m := FoldFailureAt(StepWith(urlOk), st, lines, n);
    RunFromIsFold(st, lines[..k], n, urlOk);
    StepWithApplies(urlOk, RunFrom(st, lines[..k], n, urlOk).value, m, lines[k]);
  }

  /**
   * When a script fails with a line-citing error, the cited line is line k
   * of the script, every line before it was accepted, and that line itself
   * raises the error.
   */
  lemma FailureCitesFailingLine(st: ParseState, lines: seq<string>, n: nat, urlOk: string -> bool) returns (k: nat)
    requires RunFrom(st, lines, n, urlOk).Failure?
    requires CitesLine(RunFrom(st, lines, n, urlOk).error)
    ensures k < |lines| && RunFrom(st, lines, n, urlOk).error.lineNo == n + k + 1
    ensures RunFrom(st, lines[..k], n, urlOk).Success?
    ensures Step(RunFrom(st, lines[..k], n, urlOk).value, RunFrom(st, lines, n, urlOk).error.lineNo, lines[k], urlOk)
         == RunFrom(st, lines, n, urlOk)
  {
    var m;
    k, m := RunFailureAt(st, lines, n, urlOk);
    FailingStepCitesItsLine(RunFrom(st, lines[..k], n, urlOk).value, m, lines[k], urlOk, RunFrom(st, lines, n, urlOk));
  }

  /** `StepCitesItsLine` for a step whose result is known by another name. */
  lemma FailingStepCitesItsLine(st: ParseState, m: nat, raw: string, urlOk: string -> bool, r: Result<ParseState, ParseError>)
    ensures Step(st, m, raw, urlOk) == r && r.Failure? && CitesLine(r.error) ==> r.error.lineNo == m
  {
    if Step(st, m, raw, urlOk) == r && r.Failure? && CitesLine(r.error) {
      StepCitesItsLine(st, m, raw, urlOk);
    }
  }

  lemma StepWithApplies(urlOk: string -> bool, s: ParseState, m: nat, raw: string)
    ensures StepWith(urlOk)(s, m, raw) == Step(s, m, raw, urlOk)
  {
  }
}
