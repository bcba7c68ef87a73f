# screentest script compiler, in Dafny

This project models the script compiler of the `screentest` package: the
code that reads a screentest script and turns it into the ordered list of
test cases that the visual-diff runner later executes against two origins.

A script is a sequence of lines. `compare A B` and `windowsize WxH` set state
that persists for the rest of the file. `test`, `pathname`, `click` and `wait`
describe the current block, and a blank line ends that block. Each `capture`
line emits one test case built from that state. Lines starting with `#` are
comments.

Layout:

- `wrappers.dfy`: `Result`, standing in for Go's `(value, error)` returns.
- `go_strings.dfy` (module `GoStrings`): the library functions the compiler
  calls. These are `strings.TrimSpace`, `TrimLeft`, `TrimRight`, `IndexAny`,
  `ToUpper` and `Split`, plus `strconv.Atoi` and fmt's `%d`. Each is a small
  function, most of them recursive. Those whose contract does not already say
  what they compute have a lemma beside them that characterises them.
- `screentest.dfy` (module `Screentest`): the data types `TestCase`,
  `ScreenshotType`, `Action` and `ParseError`, and the helpers
  `SplitOneField`, `SplitDimensions` and `Sanitized`.
  - `Step` is the per-line specification: a pure function from the parse
    state and one line to the new state or an error.
  - `RunFrom` and `Compile` fold `Step` over a script.
  - `ReadTests` is readTests' loop. `ReadLine` is the body of that loop, and
    `Frame` is the inner switch of a `capture` line. Each method is proved to
    compute exactly its specification function.
  - readTests' locals (`testName`, `pathname`, `tasks`, `originA`, `originB`,
    `width`, `height`, `tests`) are the fields of `ParseState`.
- `properties.dfy` (module `ScriptProperties`): what each directive does,
  which errors it raises and with which line number. Over whole scripts, it
  proves that one test case is emitted per `capture` line and that a failure
  cites the line that raised it.
- `sanitize.dfy` (module `SanitizeProperties`): the file-name sanitiser as
  written, and the corrected version described under Findings.

A few behaviours of the code are easy to misread. The model follows the
code:

- Only duplicate-name, capture-order and syntax errors carry a line number.
  URL errors, size errors and the `compare` panic do not.
- `compare` takes the first two space-separated fields and ignores any more.
  With fewer than two fields it panics. It does not demand exactly two.
- `pathname` does not itself require a prior `compare`. It only requires that
  `originA + P` and `originB + P` parse as URLs.
- The sanitiser does not replace backslash.

## Model

| member | source | states |
|---|---|---|
| `GoStrings.TrimSpaceSpec` | internal/screentest/screentest.go:255 | The trimmed line is the slice of the raw line between its leading and trailing white space: everything cut off is white space, and no white space is left at either end. It is empty exactly when the raw line is all white space. |
| `GoStrings.TrimRightSpec` | internal/screentest/screentest.go:259 | The result is a prefix of the input. Everything removed is in the cutset, and the last kept character is not. |
| `GoStrings.TrimLeftSpec` | internal/screentest/screentest.go:369 | The result is a suffix of the input. Everything removed is in the cutset, and the first kept character is not. |
| `GoStrings.IndexAnySpec` | internal/screentest/screentest.go:365 | The result is -1 exactly when no character is in the set. Otherwise it is the first position holding one. |
| `GoStrings.ToUpperSpec` | internal/screentest/screentest.go:261 | Each character is upper-cased on its own, so lengths and positions are kept. |
| `GoStrings.SplitJoin` | internal/screentest/screentest.go:375 | No part contains the separator, and joining the parts with it gives back the text. |
| `GoStrings.Atoi` | internal/screentest/screentest.go:379-386 | A syntax error happens exactly when there is not one-or-more digits after an optional sign, unless the digits before the first non-digit already pass 2^64-1, which ParseUint reports as ErrRange first. A value is always within 64-bit int range, it comes from digits only, and a negative value comes only from a leading '-'. |
| `GoStrings.AtoiOfDigits` | internal/screentest/screentest.go:379-386 | A sign followed by digits only reads as its signed value, or fails with ErrRange outside int's range. |
| `GoStrings.AtoiOverflowBeforeSyntax` | internal/screentest/screentest.go:379-386 | Twenty-one or more digits, the first not zero, followed by a non-digit give ErrRange, although the text is not a number. |
| `GoStrings.FormatInt` | internal/screentest/screentest.go:342 | %d writes a leading '-' exactly for negative numbers, followed by digits only, with no leading zero. |
| `GoStrings.AtoiFormatInt` | internal/screentest/screentest.go:342 | Atoi reads back exactly the number that %d printed. |
| `Screentest.SplitOneFieldSpec` | internal/screentest/screentest.go:362-370 | The field is a blank-free prefix ending at the first space or tab. The rest is a suffix with no leading blank, and only blanks lie between the two. |
| `Screentest.SplitOneFieldNoBlank` | internal/screentest/screentest.go:366-368 | With no space or tab in the text, the result is (text, ""). |
| `Screentest.SplitDimensionsSpec` | internal/screentest/screentest.go:372-388 | Success happens exactly when the text has one 'x' and an integer on each side, and then the result is those two integers. With no 'x' the error is the field-count error. |
| `Screentest.SplitAtX` | internal/screentest/screentest.go:375-377 | Splitting a size at 'x' gives the whole text when there is no 'x', the two sides when there is one, and more than two parts otherwise. |
| `Screentest.Sanitized` | internal/screentest/screentest.go:493-495 | The length is kept. Each character of the class becomes '-', and every other character is unchanged. |
| `Screentest.NameTaken` | internal/screentest/screentest.go:284-289 | The scan reports true exactly when some emitted test already has the name. |
| `Screentest.Frame` | internal/screentest/screentest.go:330-350 | The in-place edits of the appended record are exactly the capture sub-directive specification `Framed`. |
| `Screentest.ReadLine` | internal/screentest/screentest.go:254-354 | One loop iteration computes exactly the per-line specification `Step`: the new state or the error. |
| `Screentest.ReadTests` | internal/screentest/screentest.go:238-360 | The loop returns exactly `Compile(lines)`: the fold of `Step` over the lines, stopping at the first error. |
| `ScriptProperties.EmptyDirectiveIffBlank` | internal/screentest/screentest.go:255-263 | A line is read as the empty directive exactly when it is blank. |
| `ScriptProperties.BlankLineResets` | internal/screentest/screentest.go:263-267 | A blank line clears the test name, pathname and actions. It keeps the origins, the window size and the emitted tests. |
| `ScriptProperties.CommentSkipped` | internal/screentest/screentest.go:256-258 | A line whose trimmed text starts with '#' changes nothing. |
| `ScriptProperties.PersistentStateOnlyByCompareOrWindowSize` | internal/screentest/screentest.go:262-354 | Every successful line that is not `compare` or `windowsize` leaves both origins and the window size unchanged. |
| `ScriptProperties.CompareSetsOrigins` | internal/screentest/screentest.go:268-276 | With no space in the argument the line panics (IndexOutOfRange). On success originA is the text before the first space, and originB is the text after it up to the next space or the end. Both are accepted by url.Parse, and nothing else changes. |
| `ScriptProperties.CompareAccepts` | internal/screentest/screentest.go:268-276 | When the argument starts with two space-separated fields A and B, the line fails with BadUrl(A) if url.Parse rejects A, then with BadUrl(B) if it rejects B, and otherwise sets the origins to A and B. |
| `ScriptProperties.CompareDoubleSpaceEmptiesOriginB` | internal/screentest/screentest.go:269-270 | `compare A  B` (two spaces) sets originB to the empty string. |
| `ScriptProperties.WindowSizeSetsSize` | internal/screentest/screentest.go:277-281 | The persistent size becomes the parsed pair, or the line fails with the splitDimensions error. |
| `ScriptProperties.TestRejectsTakenName` | internal/screentest/screentest.go:282-289 | `test NAME` fails with its line number exactly when an emitted test has that name. Otherwise it only sets the name. |
| `ScriptProperties.PathnameRejectsTakenName` | internal/screentest/screentest.go:297-306 | Once both URLs parse, the block is named P if it had no name. The line fails with its line number exactly when the block's name is already taken. |
| `ScriptProperties.PathnameChecksUrls` | internal/screentest/screentest.go:291-296 | `pathname P` fails on the first origin whose concatenation with P does not parse. |
| `ScriptProperties.ActionsAppend` | internal/screentest/screentest.go:307-310 | `click` and `wait` append one action and change nothing else. |
| `ScriptProperties.UnknownDirectiveRejected` | internal/screentest/screentest.go:351-353 | Any other non-empty directive is a syntax error quoting its line and line number. |
| `ScriptProperties.CaptureNeedsCompareAndPathname` | internal/screentest/screentest.go:311-317 | `capture` fails with its line number if an origin is empty, and otherwise if the pathname is empty. |
| `ScriptProperties.CaptureAccepts` | internal/screentest/screentest.go:311-329 | With both origins and a pathname set, capture appends the case its sub-directive frames, and it can fail only on a malformed size. |
| `ScriptProperties.CaptureAppendsOne` | internal/screentest/screentest.go:318-329 | A successful capture appends exactly one test case and keeps earlier ones and all other state. The new case has the block's pathname and actions and the current origins. |
| `ScriptProperties.CaptureFraming` | internal/screentest/screentest.go:330-350 | FULLSCREEN gives a full-page case. A WxH after FULLSCREEN or VIEWPORT overrides only this case's viewport and is named " WxH" from the parsed numbers. ELEMENT SEL gives an element case named " SEL". Any other or missing sub-directive gives a viewport case at the persistent size. |
| `ScriptProperties.FramedKeepsBlock` | internal/screentest/screentest.go:330-350 | The sub-directive never changes the case's pathname, actions or origins. |
| `ScriptProperties.FramedFailsOnlyOnSize` | internal/screentest/screentest.go:337-341 | The only way a capture's sub-directive fails is a malformed size. |
| `ScriptProperties.SizeSuffixReadsBack` | internal/screentest/screentest.go:342-344 | The re-rendered size in the name parses back through splitDimensions to the size that was set. |
| `ScriptProperties.FormatIntHasNoX` | internal/screentest/screentest.go:342 | A number printed with %d contains no 'x'. |
| `ScriptProperties.ConsecutiveCapturesShare` | internal/screentest/screentest.go:318-329 | Two captures in a row emit cases with the same origins, pathname and actions. |
| `ScriptProperties.RepeatedCaptureDuplicatesName` | internal/screentest/screentest.go:311-350 | `capture` never checks names: repeating a capture line succeeds and emits an identical test case. |
| `ScriptProperties.BlankThenCaptureFails` | internal/screentest/screentest.go:263-317 | A capture right after a blank line fails, with a missing compare or a missing pathname. |
| `ScriptProperties.StepGrowsTests` | internal/screentest/screentest.go:253-354 | A successful line adds one test case exactly when it is a capture line, and keeps the earlier ones. |
| `ScriptProperties.CommandGrowsTests` | internal/screentest/screentest.go:262-354 | A successful directive appends the capture's test case when it is `capture`, and otherwise leaves the test list unchanged. |
| `ScriptProperties.RunFromCountsCaptures` | internal/screentest/screentest.go:253-355 | Running lines from a state adds one test case per capture line and keeps the earlier ones as a prefix. |
| `ScriptProperties.CompileCountsCaptures` | internal/screentest/screentest.go:238-360 | A script that compiles yields exactly as many test cases as it has capture lines. |
| `ScriptProperties.StepCitesItsLine` | internal/screentest/screentest.go:282-353 | A line that fails with a line-numbered error cites its own number. |
| `ScriptProperties.PersistentHandlersCiteNoLine` | internal/screentest/screentest.go:268-281 | `compare` and `windowsize` failures never carry a line number. |
| `ScriptProperties.NamingHandlersCiteTheirLine` | internal/screentest/screentest.go:282-306 | The duplicate-name errors of `test` and `pathname` cite the line being read. |
| `ScriptProperties.CaptureCitesItsLine` | internal/screentest/screentest.go:311-317 | A capture's missing-compare and missing-pathname errors cite the line being read. |
| `ScriptProperties.FoldFailureAt` | internal/screentest/screentest.go:253-355 | For any line-by-line compiler that stops at the first error, a failure is raised by some line k (numbered n + k + 1), and every line before k was accepted. |
| `ScriptProperties.RunFailureAt` | internal/screentest/screentest.go:253-355 | The same for this compiler: the lines before k run successfully, and line k's step, from the state they leave, returns the run's error. |
| `ScriptProperties.FailureCitesFailingLine` | internal/screentest/screentest.go:253-355 | When a script fails with a line-numbered error, the number is that of a line k in the script, all lines before k were accepted, and line k raises the error. |
| `SanitizeProperties.SanitizedIdempotent` | internal/screentest/screentest.go:493-495 | Sanitising twice equals sanitising once. |
| `SanitizeProperties.SanitizedAvoidsClass` | internal/screentest/screentest.go:215 | No character of the class appears in the output. Backslashes appear exactly where the input has them. |
| `SanitizeProperties.BackslashSurvivesSanitized` | internal/screentest/screentest.go:215 | The code as written leaves "a\b" unchanged. |
| `SanitizeProperties.SanitizedIntended` | internal/screentest/screentest.go:215 | The corrected sanitiser keeps the length and leaves no class character and no backslash. Every other character is unchanged. |
| `SanitizeProperties.SanitizedIntendedIdempotent` | internal/screentest/screentest.go:491-495 | The corrected sanitiser is idempotent. |
| `SanitizeProperties.SanitizedAgreesWithoutBackslash` | internal/screentest/screentest.go:215 | The two sanitisers agree on every text without a backslash, and differ on "a\b". |

## Left out

- CheckHandler and TestHandler: file globbing, browser allocators and contexts, and testing.T registration are I/O and test-harness plumbing.
- outDir: the user cache directory, RemoveAll and MkdirAll are filesystem calls.
- runDiff and captureScreenshot: browser automation, byte comparison of screenshots, image decoding and the floating-point image diff are external libraries.
- runDiff's three concurrent PNG writes (errgroup) and writePNG: concurrency and file I/O.
- waitForEvent: event listeners, channels and context cancellation.
- Opening the file and bufio.Scanner: the model takes the script as a sequence of lines. Splitting on "\n", dropping "\r", the scanner's token-size limit and scan.Err are not modelled.
- url.Parse is the parameter `urlOk`, with no assumptions about which strings it accepts.
- GoStrings.TrimSpaceSpec: trims ASCII whitespace only. Unicode spaces such as U+0085 and U+00A0, which Go also trims, are not modelled.
- GoStrings.ToUpperSpec: upper-cases ASCII letters only. Go's Unicode case mapping is not modelled.
- Strings are sequences of characters, not UTF-8 bytes.
- Error values keep the kind and the quoted values of the source's messages, not the formatted text.
- A `compare` with fewer than two fields panics in Go. Here it is the error value `IndexOutOfRange`, which ends compilation like an error.
- chromedp.Click and chromedp.WaitReady are plain data (`Action`). Their query options are not modelled.
- The `*testcase` edited after being appended: modelled as the edited value written back into the appended slot. The shared backing array of `tasks` needs no model, because later appends never change elements that an emitted test case can see.
- The sanitiser's callers (outDir and runDiff) are not part of this model, so neither sanitiser is used by the rest of the model.

## Findings

| source | as written | input that shows it | evidently intended | confidence | as-written member | corrected member |
|---|---|---|---|---|---|---|
| internal/screentest/screentest.go:215 | The Go string literal gives the regular expression a class in which the backslash only escapes the colon, so backslash is not replaced | `a\b` sanitizes to `a\b`, and the Windows path separator ends up in an artifact file name | backslash replaced by '-' like the other path and reserved file-name characters | medium, not executed | `SanitizeProperties.BackslashSurvivesSanitized` | `SanitizeProperties.SanitizedIntended` |
