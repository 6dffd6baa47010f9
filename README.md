# Builtrix test-framework core, modelled in Dafny

Builtrix is a Playwright and TypeScript test framework for Salesforce. Most
of it drives a browser. The parts modelled here make decisions on strings,
rows and small pieces of state:

- **Failure triage.** There are two copies of the error handler, both in
  `helpers/`. Each takes a failed test's stack trace and:
  - chooses the first stack line that mentions the test file;
  - parses a location out of that line with the regular expression
    `/at .*?\(?(.+):(\d+):(\d+)\)?/`, modelled as written (module
    `StackLocation`);
  - reads the file and renders a six-row code frame around the line (module
    `Triage`);
  - builds a prompt and chat-completion requests, and classifies the
    responses (modules `ErrorHandler` and `AiErrorHandler`).
- **The CSV reader** `readCSVSync`, working on the file's text (module
  `CsvUtil`).
- **The spreadsheet data provider** `ExcelDataProvider`, over a workbook
  given as a map from sheet name to rows (module `ExcelDd`).
- **The summary reporter** `MyReporter` (module `Reporter`).
  - `onTestEnd` files each test under its describe path and counts
    statuses. It is a class method with a proved invariant: one entry per
    call, each counter equal to the number of entries with its status, no
    empty group, and each key listed once in insertion order.
  - `onEnd` renders the report lines with nested loops, proved against the
    function `ReportLines`.
- **The wrapper's decisions** in `core/PlaywrightWrapper.ts` (module
  `PlaywrightWrapper`):
  - the current-page cursor over the browser context's pages;
  - the class-wide slot for a newly opened tab;
  - the wait table;
  - the dropdown option priority;
  - the selectors built for ids and classes;
  - the frame-or-main-page fallback;
  - checking a radio button only when it is unchecked.
- **The account-creation spec.** It builds ids `TC001`, `TC002`, … and
  titles from the CSV rows, and records each account name under its id in
  the JSON registry that a later spec reads `TC001` from (module
  `AccountTests`).

Shared modules:

- `Wrappers` holds `Option` and `Result`.
- `Text` holds the JavaScript string operations the core uses:
  - `split` and `join`;
  - `includes`;
  - `trim`, with the whitespace set of `String.prototype.trim`;
  - `Number.prototype.toString` and `parseInt` on digit runs;
  - `padStart` and `repeat`.

I/O becomes data:

- A file read is a lookup in a map from path to text. A missing path is a
  read that throws.
- The network is a function parameter from request to response.
- Anything the browser would report is a parameter: element counts, checked
  states, the page a click opens.

## Model

| member | source | states |
|---|---|---|
| Text.Split | helpers/dataUtils/csvUtil.ts:7 | `split(sep)` gives at least one piece and no piece contains the separator; `JoinSplit` and `SplitJoin` make it the inverse of `join` |
| Text.Trim | helpers/dataUtils/csvUtil.ts:6 | `trim()` removes exactly the whitespace in front and behind: the result occurs in the input with only whitespace before and after it there, and neither starts nor ends with whitespace |
| Text.WhitespaceTrimsAway | helpers/dataUtils/csvUtil.ts:13 | `trim()` of a text made only of whitespace is the empty string |
| Text.SplitKeepsWhitespace | helpers/dataUtils/csvUtil.ts:10 | every piece `split` makes of a whitespace-only text is whitespace-only |
| Text.NatToString | tests/TC001_create_account.spec.ts:24 | `toString()` of a non-negative number is a digit string with no leading zero, and it parses back to the number |
| Text.PadStart | tests/TC001_create_account.spec.ts:24 | `padStart(width, c)` pads on the left to the width, keeps the whole input as a suffix, and never truncates |
| StackLocation.MatchIsFirstWay | helpers/ai_errorHandler/errorHandler.ts:40-41 | `line.match(regex)` finds no location exactly when no way to match exists; otherwise it returns the captures of the way that precedes every other way in the backtracking order |
| StackLocation.MatchLocation | helpers/ai_errorHandler/errorHandler.ts:40-50 | a location is reported only as the captures of some way the regex can match the line, with both digit groups parsed |
| StackLocation.MatchTakesLastPair | helpers/ai_errorHandler/errorHandler.ts:40 | the lazy `.*?` matches nothing; the path group starts right after `at `, skipping one `(` only when one stands there; and no `:<digits>:<digits>` pair follows the reported one on the line |
| StackLocation.FirstPrecedesAll | helpers/errorHandler/errorHandler.ts:27-28 | the computed way comes before every other way to match the chosen line |
| StackLocation.PlainFrameExample | helpers/ai_errorHandler/errorHandler.ts:48-50 | `at /p.ts:10:5` gives path `/p.ts`, line 10 and column 5 |
| StackLocation.NamedFrameExample | helpers/ai_errorHandler/errorHandler.ts:48-50 | `at fn (/p.ts:10:5)` gives the path `fn (/p.ts`, line 10 and column 5 |
| Triage.FindFirst | helpers/ai_errorHandler/errorHandler.ts:31 | `find` returns the first element satisfying the predicate, or none when no element does |
| Triage.ChosenLine | helpers/ai_errorHandler/errorHandler.ts:30-31 | the chosen line is the first `'\n'`-separated stack line containing the test file; none is chosen exactly when no line contains it |
| Triage.Extract | helpers/ai_errorHandler/errorHandler.ts:23-85 | the path `extractAndAnalyzeWithGroq` takes up to `errorInfo`: past the early returns the stack is truthy; the read throws only for an absent file; a record names a readable file and carries the test's message and title |
| Triage.Neighbour | helpers/ai_errorHandler/errorHandler.ts:56 | `fileLines[k] \|\| ''` is the file line inside the file and `''` outside it |
| Triage.ErrorLineAt | helpers/errorHandler/errorHandler.ts:40 | `fileLines[lineNum - 1]` is present exactly when the line is inside the file, and has no empty fallback |
| Triage.CodeFrame | helpers/ai_errorHandler/errorHandler.ts:55-62 | the frame template, after `.trim()`, neither starts nor ends with whitespace |
| Triage.CodeFrameRows | helpers/ai_errorHandler/errorHandler.ts:55-62 | after `.trim()` the frame splits into exactly its six rows in order (L-2, L-1 with the copy's indentation, L with the error line, the caret, L+1, L+2); only the last row loses trailing spaces |
| Triage.FrameRowsClean | helpers/errorHandler/errorHandler.ts:42-49 | no row of the frame contains a line break, and the first and last rows start with their line number: a digit, or the minus sign of a negative number |
| Triage.CaretUnderColumn | helpers/ai_errorHandler/errorHandler.ts:59 | the caret line is `colNum + digits(lineNum) + 3` spaces and then `^`, which puts it under character `colNum` (0-based) of the error line in its row |
| Triage.ExtractAborts | helpers/ai_errorHandler/errorHandler.ts:24-46 | the run stops silently exactly when the stack is missing or empty, when no stack line contains the test file (or the first such line is empty), or when the regex cannot match the chosen line |
| Triage.AbortReadsNoFile | helpers/errorHandler/errorHandler.ts:11-33 | an early return reads no file: the outcome is the same whatever the files hold |
| Triage.ExtractReads | helpers/ai_errorHandler/errorHandler.ts:52 | past the early returns the source file is read outside any `try`, and the read throws exactly when the parsed path is absent |
| Triage.ExtractedRecord | helpers/errorHandler/errorHandler.ts:35-59 | the record carries the parsed location, the file line it names, the six-row frame around it, and the test's message and title |
| Triage.PromptSections | helpers/errorHandler/errorHandler.ts:81-90 | the trimmed prompt is the error message, then the error line, then the code frame, each under its heading |
| Triage.ChatRequest | helpers/errorHandler/errorHandler.ts:99-133 | the request carries the model and messages given, temperature 0.3 and at most 3000 tokens |
| Triage.Classify | helpers/errorHandler/errorHandler.ts:140-157 | the `try` body reports a suggestion only for an ok answer whose content is present and non-empty, and the suggestion is that content |
| Triage.ClassifyOutcomes | helpers/errorHandler/errorHandler.ts:140-157 | a suggestion is reported exactly for an ok response with non-empty content, and it is that content; a non-ok status fails with its HTTP error before the content is looked at; otherwise the invalid-format error is caught |
| ErrorHandler.Analyze | helpers/errorHandler/errorHandler.ts:92-157 | exactly one request is sent, to `llama-3.3-70b-versatile`, with messages `[system, user(prompt)]`; the outcome is the classified response |
| ErrorHandler.ExtractAndAnalyze | helpers/errorHandler/errorHandler.ts:10-62 | the run stops, or throws on the file read, exactly when the extraction does; otherwise it analyses the extracted record |
| ErrorHandler.PromptLayout | helpers/errorHandler/errorHandler.ts:81-90 | the user message of the request is the message, the error line and the six-row frame of the read file, under their headings |
| AiErrorHandler.Screenshot | helpers/ai_errorHandler/errorHandler.ts:65-74 | the screenshot is the data URL of the first attachment named `screenshot` or with an image content type, present only when that attachment has a path that can be read |
| AiErrorHandler.UserMessage | helpers/ai_errorHandler/errorHandler.ts:150-160 | the user content is `[text part, image_url part]` exactly when the model supports images and a screenshot exists, and otherwise the plain prompt |
| AiErrorHandler.AnalyzeMulti | helpers/ai_errorHandler/errorHandler.ts:145-210 | one request per model in table order, each with `[system, user]` messages; every model is asked whatever the earlier ones answered, and each outcome is that model's classified response |
| AiErrorHandler.AskEachModel | helpers/ai_errorHandler/errorHandler.ts:145-160 | the `for` loop over the model table asks every model in order with `[system, user(prompt)]`, and each outcome is that model's classified response |
| AiErrorHandler.OnlyImageModelSeesScreenshot | helpers/ai_errorHandler/errorHandler.ts:14-18 | only the first model can receive the image; the text-only model always gets the plain prompt |
| AiErrorHandler.ExtractAndAnalyze | helpers/ai_errorHandler/errorHandler.ts:23-88 | an early return sends nothing, an unreadable source file propagates the throw, and otherwise every model is asked about the extracted record with the chosen screenshot |
| CsvUtil.Lines | helpers/dataUtils/csvUtil.ts:6 | the lines are the newline-separated pieces of the trimmed text: joined by line breaks they give it back, none holds a line break, and there is always at least one |
| CsvUtil.ParseCsv | helpers/dataUtils/csvUtil.ts:4-17 | one row per line after the header line, the i-th row being line i + 1 read against the header line's fields |
| CsvUtil.FillRow | helpers/dataUtils/csvUtil.ts:12-14 | the `forEach` assignment loop leaves the map that assigning each header's key its column's value, in column order, produces |
| CsvUtil.RowFrom | helpers/dataUtils/csvUtil.ts:9-15 | the row of a line is the assignment of each trimmed header to its trimmed field |
| CsvUtil.ReadCsv | helpers/dataUtils/csvUtil.ts:4-17 | the rows are, in order, the rows of the lines after the header line of the trimmed text |
| CsvUtil.RowsFrom | helpers/dataUtils/csvUtil.ts:9-16 | the `lines.map` loop gives one row per data line, in order, each the trimmed-header row of that line |
| CsvUtil.RowCount | helpers/dataUtils/csvUtil.ts:6-9 | there is one row per line after the first; text without a line break after trimming, including empty text, gives no rows |
| CsvUtil.AssignedKeys | helpers/dataUtils/csvUtil.ts:12-14 | the filled map's keys are exactly the keys assigned |
| CsvUtil.LastAssignmentWins | helpers/dataUtils/csvUtil.ts:12-14 | a key holds the value of its last assignment |
| CsvUtil.RowKeys | helpers/dataUtils/csvUtil.ts:7-13 | a row's keys are exactly the trimmed headers |
| CsvUtil.LaterColumnWins | helpers/dataUtils/csvUtil.ts:13 | the value under a header is the trimmed field of the last column whose header trims to that name, or `''` when the line has no such field |
| CsvUtil.ValuesAreTrimmedFields | helpers/dataUtils/csvUtil.ts:10-13 | no value begins or ends with whitespace, so a CRLF `\r` is removed, and no value contains a comma |
| CsvUtil.BlankLineRow | helpers/dataUtils/csvUtil.ts:9-15 | a blank line (empty, or only whitespace such as the lone `\r` of a CRLF file) gives a row whose every value is `''` |
| ExcelDd.Filter | helpers/dataUtils/excelDD.ts:35 | `filter` keeps only elements satisfying the predicate and never lengthens the sequence |
| ExcelDd.GetTestData | helpers/dataUtils/excelDD.ts:18-25 | the sheet's rows when the workbook has the sheet, and an error exactly when it does not |
| ExcelDd.GetTestDataByIds | helpers/dataUtils/excelDD.ts:33-36 | fails exactly when the sheet is missing; otherwise keeps at most the sheet's rows, each with a listed `TestCaseID` |
| ExcelDd.GetTestDataByCriteria | helpers/dataUtils/excelDD.ts:44-49 | fails exactly when the sheet is missing; otherwise keeps at most the sheet's rows, each meeting every criterion |
| ExcelDd.FilterCounts | helpers/dataUtils/excelDD.ts:35 | `filter` keeps every copy of a passing element and no copy of a failing one |
| ExcelDd.FilterAppend | helpers/dataUtils/excelDD.ts:46-48 | `filter` keeps the original order: filtering a concatenation concatenates the filtered parts |
| ExcelDd.MissingSheetFails | helpers/dataUtils/excelDD.ts:18-25 | `getTestData` fails exactly when the sheet is absent, with the `Sheet "<name>" not found in workbook` error; both filters propagate that error and succeed otherwise |
| ExcelDd.ByIdsKeepsListed | helpers/dataUtils/excelDD.ts:33-36 | `getTestDataByIds` keeps each copy of a row exactly when its `TestCaseID` is listed |
| ExcelDd.ByIdsOnlySeesTheSetOfIds | helpers/dataUtils/excelDD.ts:35 | repeating or reordering ids selects the same rows in the same order, and no ids select no rows |
| ExcelDd.ByCriteriaKeepsMatching | helpers/dataUtils/excelDD.ts:44-49 | `getTestDataByCriteria` keeps each copy of a row exactly when every criterion equals the row's value under its key |
| ExcelDd.NoCriteriaKeepsAll | helpers/dataUtils/excelDD.ts:47 | empty criteria return the whole sheet |
| ExcelDd.ExtraCriterionNarrows | helpers/dataUtils/excelDD.ts:46-48 | a criterion on a new key filters the earlier answer further, so it never adds a row |
| Reporter.MyReporter.constructor | my-reporter.ts:7-8 | a new reporter has no groups and zero counters, and satisfies its invariant |
| Reporter.MyReporter.OnTestEnd | my-reporter.ts:10-26 | the entry `{last title part, status}` is appended to its describe key's list, which is created only when absent and listed last in key order; each of passed, failed and skipped increments exactly its own counter, and other statuses change none; the invariant is kept |
| Reporter.MyReporter.OnEnd | my-reporter.ts:28-43 | the lines are each group's block in first-insertion order, then the four summary lines |
| Reporter.DescribeKey | my-reporter.ts:13 | the describe key is never empty, and a title path of at most one part goes under `Root` |
| Reporter.TestName | my-reporter.ts:14 | the test name is the last title part, and there is none (`undefined`) exactly for an empty title path |
| Reporter.ReportLines | my-reporter.ts:28-42 | the report always ends with the four summary lines, starting at `Summary:` |
| Reporter.RenderGroups | my-reporter.ts:31-37 | the outer loop produces, per key in order, `<key>:`, the group's entry lines and `''` |
| Reporter.PushEntryLines | my-reporter.ts:33-35 | the inner loop pushes one `  › <name> : <status>` line per entry, in push order |
| Reporter.PushListed | my-reporter.ts:20 | pushing under an existing key adds exactly one entry, and one to the count of its status only |
| Reporter.PushNewKey | my-reporter.ts:16-20 | pushing under a new key appends the entry after all earlier entries |
| Reporter.EntriesIgnore | my-reporter.ts:20 | a change to an unlisted key's group leaves the listed entries unchanged |
| Reporter.PushKeepsKeys | my-reporter.ts:16-20 | after a push the keys are still listed once each in insertion order, and no group is empty |
| Reporter.PushKeepsTally | my-reporter.ts:16-25 | one call adds one entry and one to the count of its status, and keeps the keys listed once each |
| Reporter.RecordKeepsTallied | my-reporter.ts:10-26 | the invariant holds after every `onTestEnd`: one entry per call, and each counter equals the number of entries with its status |
| Reporter.SummaryBounded | my-reporter.ts:23-25 | passed + failed + skipped never exceeds the number of entries |
| Reporter.ReportLength | my-reporter.ts:31-42 | the report has one line per entry, two per group and four of summary |
| Reporter.DescribeKeyExamples | my-reporter.ts:12-14 | the titles except the last are joined with ` › `; a top-level test goes under `Root`; an empty title path has no name (`undefined`) |
| Reporter.EmptyReport | my-reporter.ts:39-42 | a reporter that saw no test writes only the summary, all zero |
| PlaywrightWrapper.Wrapper.constructor | core/PlaywrightWrapper.ts:14-17 | the wrapper starts on the given page and context, sharing the class-wide slot |
| PlaywrightWrapper.Wrapper.GetNewPage | core/PlaywrightWrapper.ts:19-24 | returns the slot, logging the not-initialized error exactly when it is null |
| PlaywrightWrapper.Wrapper.ChildTab | core/PlaywrightWrapper.ts:716-724 | the context gains the opened page, the slot holds it, and the current page becomes the context's last page; with no current page the click throws and nothing changes |
| PlaywrightWrapper.Wrapper.SwitchToParentPage | core/PlaywrightWrapper.ts:726-734 | the current page becomes `pages[0]` when the context has pages, and is otherwise unchanged with an error logged |
| PlaywrightWrapper.Wrapper.SwitchToChildPage | core/PlaywrightWrapper.ts:736-745 | the current page becomes `pages[index]` exactly when `0 <= index < pages.length`; a larger index logs and leaves it unchanged; a negative index passes the test, leaves the page `undefined` and throws |
| PlaywrightWrapper.Wrapper.RadioButton | core/PlaywrightWrapper.ts:704-714 | `check` is called only when the control is not checked, and the control is checked afterwards; otherwise the already-checked message is logged |
| PlaywrightWrapper.ChildTabIsSharedBySlot | core/PlaywrightWrapper.ts:11 | the slot is class-wide: the tab one wrapper opens is what another wrapper's `getNewPage` returns |
| PlaywrightWrapper.RadioButtonTwice | core/PlaywrightWrapper.ts:707-712 | calling `radioButton` twice leaves the control checked, with one `check` call if it was unchecked and none otherwise |
| PlaywrightWrapper.Wait | core/PlaywrightWrapper.ts:643-662 | `wait` pauses exactly for a listed wait-type name, and otherwise logs `Invalid wait type: <name>` |
| PlaywrightWrapper.SelectDropdown | core/PlaywrightWrapper.ts:523-534 | any selection made is one of the options the caller made applicable |
| PlaywrightWrapper.InteractWithElement | core/PlaywrightWrapper.ts:770-836 | `fill` is refused exactly for TEXT, TITLE and ALTTEXT; a fill that happens fills with the caller's data |
| PlaywrightWrapper.ClickInFrame | core/PlaywrightWrapper.ts:397-404 | the click always targets the given locator, and a click in the frame uses the given frame and index |
| PlaywrightWrapper.WaitTable | core/PlaywrightWrapper.ts:643-662 | `wait` pauses 3000, 5000 and 10000 ms for `minWait`, `mediumWait` and `maxWait`, and only logs for every other string |
| PlaywrightWrapper.WaitTypesListed | core/IPlaywrightWrapper.ts:3-4 | every wait type's name is listed in `WaitTypes`, the names are distinct, each one waits, and a later name in the list waits longer |
| PlaywrightWrapper.DropdownPriority | core/PlaywrightWrapper.ts:523-534 | `selectDropdown` makes at most one selection, the first applicable of a truthy value, a defined index, a truthy label; it makes none exactly when none applies |
| PlaywrightWrapper.DropdownUsesGivenOption | core/PlaywrightWrapper.ts:523-531 | the selection passes on the caller's option; index 0 counts, and an empty value or label does not |
| PlaywrightWrapper.IdSelectorRoundTrip | core/PlaywrightWrapper.ts:748-750 | `getById`'s selector `#loc` gives its locator back, so distinct locators never share a selector |
| PlaywrightWrapper.ClassAttributeRoundTrip | core/PlaywrightWrapper.ts:751-753 | `getByClass`'s selector `[class='loc']` gives its locator back, so distinct locators never share a selector |
| PlaywrightWrapper.ClassSelectorsDiffer | core/PlaywrightWrapper.ts:828-829 | the CLASS case's `.loc` is never the selector `getByClass` builds, nor an id selector |
| PlaywrightWrapper.InteractionPlan | core/PlaywrightWrapper.ts:770-836 | `click` clicks the attribute's target; `fill` fills it with the data exactly for LABEL, PLACEHOLDER, ID and CLASS, and only logs for TEXT, TITLE and ALTTEXT; a missing locator or missing data is logged and never changes the step |
| PlaywrightWrapper.SelectorResolution | core/PlaywrightWrapper.ts:819-835 | ID resolves to `#loc` and CLASS to `.loc` for either action |
| PlaywrightWrapper.FrameFallback | core/PlaywrightWrapper.ts:397-404 | the frame's `nth(index)` is clicked exactly when the frame has a match; the main-page fallback does not depend on the frame or the index |
| AccountTests.CaseIdDigits | tests/TC001_create_account.spec.ts:24 | after `TC` come exactly max(3, numeral length) digits: the 1-based row number's numeral, left-padded with zeros to three and never cut, which parses back to that number |
| AccountTests.CaseId | tests/TC001_create_account.spec.ts:24 | every id is `TC` followed by at least three characters |
| AccountTests.CaseTitle | tests/TC001_create_account.spec.ts:25 | the title is the fixed prefix followed by the row's industry as the template renders it |
| AccountTests.RegisterTests | tests/TC001_create_account.spec.ts:22-27 | one registration per row, the i-th for row i under id `CaseId(i)` |
| AccountTests.Record | tests/TC001_create_account.spec.ts:41-43 | the update sets the id to the name, adds only that key, and keeps every other key's value |
| AccountTests.RunAll | tests/TC001_create_account.spec.ts:23-43 | running the tests keeps every earlier registry key and leaves every test's id present |
| AccountTests.CaseIdInjective | tests/TC001_create_account.spec.ts:24 | distinct row indices give distinct ids |
| AccountTests.CaseIdExamples | tests/TC001_create_account.spec.ts:24 | rows 0, 9 and 999 get `TC001`, `TC010` and `TC1000` |
| AccountTests.TitlesFollowIndustry | tests/TC001_create_account.spec.ts:25 | two rows get the same title exactly when their industries render the same |
| AccountTests.OneTestPerRow | tests/TC001_create_account.spec.ts:12-27 | one test per row in row order, with that row's id and title and distinct ids; none when the CSV is missing or unreadable |
| AccountTests.LastRecordWins | tests/TC001_create_account.spec.ts:41-43 | a registry key keeps the name of the last test that recorded under it |
| AccountTests.RegistryHoldsEachName | tests/TC001_create_account.spec.ts:41-43 | after the tests run, each test's id holds the account name it generated |
| AccountTests.FirstAccountReadBack | tests/TC005_create_newOpportunity_for_exist_account.spec.ts:17 | the `TC001` read back is the name the first row's test generated |

## Left out

- File and environment I/O is data here. `readFileSync`, `writeFileSync`, `XLSX.readFile` and the `GROQKEY` load-time check are not modelled. The reporter's `writeFileSync` of `lines.join('\n')` is left out; its lines are the result of `OnEnd`.
- `XLSX.utils.sheet_to_json` is not modelled. A sheet is given as its rows.
- The network is a parameter. The `fetch` calls, headers and JSON serialisation are not modelled, nor anything under `api/`.
- Base64 encoding is opaque. The screenshot's encoded text is given per path.
- Logging is not modelled where it has no effect on the result: `console.log`, `console.warn`, `console.error`, winston, `test.step` titles and annotations. The early-return messages are modelled as the `Abort` reasons.
- Concurrency and events are not modelled: `Promise.all`, `waitForEvent`, and the parallel or out-of-order running of tests. `ChildTab` is one sequential step that appends the opened page. A concurrent read-and-merge of the JSON registry is not modelled.
- `bringToFront`, `waitForLoadState`, `focus` and the real-time duration of `waitForTimeout` are not modelled. The other browser verbs of the wrapper (`type`, `click`, hover, drag, upload, verifications) are pass-throughs to Playwright and are not modelled.
- PlaywrightWrapper.InteractWithElement: the `default` branch of the attribute switch is not modelled. The TypeScript union type rules out any other attribute, and the model's datatype does too.
- PlaywrightWrapper.Wrapper.SwitchToChildPage: a fractional index is not modelled. The index is an integer.
- PlaywrightWrapper.Wrapper.ChildTab: the page a click opens is assumed to be the context's last page, which is the order Playwright's `pages()` reports. The locator clicked is not modelled.
- PlaywrightWrapper.ChildTabIsSharedBySlot: the static `newPage` field is shared by every instance in the source. Dafny has no static mutable fields, so the model shares one `TabSlot` object, and that two wrappers use the same slot is the caller's obligation (`requires opener.slot == other.slot`), not a class-wide fact.
- helpers/dataUtils/jsonDataHandler.ts is not part of this model. `updateJSONFile` is modelled as setting the one key and keeping the others.
- Reporter: `for..in` visits keys in first-insertion order here. JavaScript visits integer-like keys first in ascending order, and that is not modelled. Neither are keys shadowing `Object.prototype` members such as `toString` or `__proto__`.
- CsvUtil: a `__proto__` header name, which a plain object treats specially, is not modelled.
- ExcelDd: cell values are of an arbitrary equality type. A criterion whose value is `undefined`, and `NaN` (never `===` to itself), are not modelled. A criterion key missing from the row never matches.
- Reporter.MyReporter.OnEnd requires only the key listing that `Valid` implies, not the whole invariant. The counters are printed whatever they are.
- Floating point is not modelled. Line and column numbers are naturals, and the temperature is the real 0.3.
- The FakerData account names are parameters.
