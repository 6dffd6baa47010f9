/**
 * Failure triage shared by the two error handlers
 * (helpers/ai_errorHandler/errorHandler.ts and helpers/errorHandler/errorHandler.ts):
 * choose the stack line that mentions the test file, parse a location out of
 * it, read the source file, render a six-line code frame, build the prompt,
 * and classify the chat-completion response.
 *
 * The two copies differ in the code frame only by the four spaces in front of
 * its first two lines, so the frame takes the indentation as a parameter.
 * Reading the source file is a lookup in a map from path to text; a path that
 * is not in the map is a read that throws.
 */
module Triage {
  import opened Wrappers
  import opened Text
  import opened StackLocation

  // ---------------------------------------------------------------------------
  // JavaScript helpers

  /** `array.find(p)`, as the index of the first element satisfying `p`. */
  function FindFirst<T>(s: seq<T>, p: T -> bool): (r: Option<nat>)
    ensures r.Some? ==> r.value < |s| && p(s[r.value]) && forall j :: 0 <= j < r.value ==> !p(s[j])
    ensures r.None? ==> forall j :: 0 <= j < |s| ==> !p(s[j])
  {
    if |s| == 0 then None
    else if p(s[0]) then Some(0)
    else
      match FindFirst(s[1..], p)
      case None => None
      case Some(i) => Some(i + 1)
  }

  /** A string-or-undefined value is truthy: present and not empty. */
  predicate Truthy(o: Option<string>)
  {
    o.Some? && o.value != ""
  }

  /** A string-or-undefined value inside a template literal: `undefined` renders as its name. */
  function Render(o: Option<string>): string
  {
    o.GetOr("undefined")
  }

  // ---------------------------------------------------------------------------
  // inputs and results

  /** A Playwright attachment: `name`, optional `contentType`, optional `path`. */
  datatype Attachment = Attachment(name: string, contentType: Option<string>, path: Option<string>)

  /** What the handlers read from `testInfo`: the error's stack and message, the test file and title, the attachments. */
  datatype TestFailure = TestFailure(
    stack: Option<string>,
    message: Option<string>,
    file: string,
    title: string,
    attachments: seq<Attachment>)

  /** The three silent early returns. */
  datatype Abort = NoStack | NoMatchingLine | NoRegexMatch

  /** The `errorInfo` record both copies build (without the screenshot). */
  datatype ErrorInfo = ErrorInfo(
    filePath: string,
    lineNum: nat,
    colNum: nat,
    errorLine: Option<string>,
    codeFrame: string,
    errorMessage: Option<string>,
    testTitle: string)

  /** An early return, the uncaught throw of `readFileSync`, or the record. */
  datatype Extraction = Aborted(reason: Abort) | ReadThrew(path: string) | Extracted(info: ErrorInfo)

  // ---------------------------------------------------------------------------
  // choosing the stack line

  /** `stack.split('\n').find(line => line.includes(file))`. */
  function ChosenLine(stack: string, file: string): (r: Option<string>)
    ensures r.None? ==> forall i :: 0 <= i < |Split(stack, '\n')| ==> !Contains(Split(stack, '\n')[i], file)
    ensures r.Some? ==>
      exists i :: 0 <= i < |Split(stack, '\n')| && Split(stack, '\n')[i] == r.value && Contains(r.value, file)
        && forall j :: 0 <= j < i ==> !Contains(Split(stack, '\n')[j], file)
  {
    var lines := Split(stack, '\n');
    var found := FindFirst(lines, line => Contains(line, file));
    if found.None? then None
    else
      var i := found.value;
      assert Contains(lines[i], file);
      assert forall j :: 0 <= j < i ==> !Contains(lines[j], file) by {
        forall j | 0 <= j < i
          ensures !Contains(lines[j], file)
        {
          assert !(line => Contains(line, file))(lines[j]);
        }
      }
      Some(lines[i])
  }

  // ---------------------------------------------------------------------------
  // the code frame

  /** `fileLines[k] || ''`: a line of the file, or the empty string outside it. */
  function Neighbour(lines: seq<string>, k: int): (r: string)
    ensures 0 <= k < |lines| ==> r == lines[k]
    ensures !(0 <= k < |lines|) ==> r == ""
  {
    if 0 <= k < |lines| then lines[k] else ""
  }

  /** `fileLines[lineNum - 1]`, with no fallback: undefined outside the file. */
  function ErrorLineAt(lines: seq<string>, lineNum: nat): (r: Option<string>)
    ensures r.Some? <==> 1 <= lineNum <= |lines|
    ensures r.Some? ==> r.value == lines[lineNum - 1]
  {
    if 1 <= lineNum <= |lines| then Some(lines[lineNum - 1]) else None
  }

  /** One numbered row of the frame: `${n} | ${text}`. */
  function Row(n: int, text: string): string
  {
    IntToString(n) + " | " + text
  }

  /** `' '.repeat(colNum + lineNum.toString().length + 3) + '^'`. */
  function CaretLine(lineNum: nat, colNum: nat): string
  {
    Repeat(' ', colNum + |NatToString(lineNum)| + 3) + "^"
  }

  /** The template literal of the code frame, before `.trim()`. */
  function RawFrame(lines: seq<string>, lineNum: nat, colNum: nat, indent: string): string
  {
    "\n" + indent + Row(lineNum - 2, Neighbour(lines, lineNum - 3)) + "\n"
    + indent + Row(lineNum - 1, Neighbour(lines, lineNum - 2)) + "\n"
    + Row(lineNum, Render(ErrorLineAt(lines, lineNum))) + "\n"
    + CaretLine(lineNum, colNum) + "\n"
    + Row(lineNum + 1, Neighbour(lines, lineNum)) + "\n"
    + Row(lineNum + 2, Neighbour(lines, lineNum + 1)) + "\n"
  }

  /** The indentation of the first two rows in the copy under helpers/ai_errorHandler. */
  const AiIndent: string := "    "

  /** The plain copy under helpers/errorHandler indents nothing. */
  const PlainIndent: string := ""

  /** The code frame: the template literal, trimmed. */
  function CodeFrame(lines: seq<string>, lineNum: nat, colNum: nat, indent: string): (frame: string)
    ensures |frame| > 0 ==> !IsWhitespace(frame[0]) && !IsWhitespace(frame[|frame| - 1])
  {
    Trim(RawFrame(lines, lineNum, colNum, indent))
  }

  /** The six rows the trimmed frame consists of, in order. */
  function FrameRows(lines: seq<string>, lineNum: nat, colNum: nat, indent: string): seq<string>
  {
    [ Row(lineNum - 2, Neighbour(lines, lineNum - 3)),
      indent + Row(lineNum - 1, Neighbour(lines, lineNum - 2)),
      Row(lineNum, Render(ErrorLineAt(lines, lineNum))),
      CaretLine(lineNum, colNum),
      Row(lineNum + 1, Neighbour(lines, lineNum)),
      TrimEnd(Row(lineNum + 2, Neighbour(lines, lineNum + 1))) ]
  }

  lemma {:induction false} RowHasNoNewline(n: int, text: string)
    requires '\n' !in text
    ensures '\n' !in Row(n, text)
    ensures !IsWhitespace(Row(n, text)[0])
    ensures Row(n, text)[0] == '-' || IsDigit(Row(n, text)[0])
  {
    var d := IntToString(n);
    assert Row(n, text) == d + (" | " + text);
    assert Row(n, text)[0] == d[0];
    assert '\n' !in d by {
      forall k | 0 <= k < |d|
        ensures d[k] != '\n'
      {
        if k > 0 {
          assert IsDigit(d[k]);
        }
      }
    }
  }

  /** The rows of the frame hold no line break, and its first and last rows start with their line number (a digit, or the minus sign of a negative number). */
  lemma {:induction false} FrameRowsClean(lines: seq<string>, lineNum: nat, colNum: nat, indent: string)
    requires indent == AiIndent || indent == PlainIndent
    requires forall i :: 0 <= i < |lines| ==> '\n' !in lines[i]
    ensures '\n' !in Row(lineNum - 2, Neighbour(lines, lineNum - 3))
    ensures '\n' !in indent + Row(lineNum - 1, Neighbour(lines, lineNum - 2))
    ensures '\n' !in Row(lineNum, Render(ErrorLineAt(lines, lineNum)))
    ensures '\n' !in CaretLine(lineNum, colNum)
    ensures '\n' !in Row(lineNum + 1, Neighbour(lines, lineNum))
    ensures '\n' !in TrimEnd(Row(lineNum + 2, Neighbour(lines, lineNum + 1)))
    ensures var a := Row(lineNum - 2, Neighbour(lines, lineNum - 3)); |a| > 0 && !IsWhitespace(a[0]) && (a[0] == '-' || IsDigit(a[0]))
    ensures var f := Row(lineNum + 2, Neighbour(lines, lineNum + 1)); |f| > 0 && !IsWhitespace(f[0]) && (f[0] == '-' || IsDigit(f[0]))
  {
    RowHasNoNewline(lineNum - 2, Neighbour(lines, lineNum - 3));
    RowHasNoNewline(lineNum - 1, Neighbour(lines, lineNum - 2));
    RowHasNoNewline(lineNum, Render(ErrorLineAt(lines, lineNum)));
    RowHasNoNewline(lineNum + 1, Neighbour(lines, lineNum));
    RowHasNoNewline(lineNum + 2, Neighbour(lines, lineNum + 1));
  }

  /**
   * After `.trim()` the frame is its six rows joined by line breaks; only the
   * last row loses trailing whitespace (` | ` of an empty line beyond the end
   * of the file becomes ` |`).
   */
  lemma {:induction false} CodeFrameRows(lines: seq<string>, lineNum: nat, colNum: nat, indent: string)
    requires indent == AiIndent || indent == PlainIndent
    requires forall i :: 0 <= i < |lines| ==> '\n' !in lines[i]
    ensures Split(CodeFrame(lines, lineNum, colNum, indent), '\n') == FrameRows(lines, lineNum, colNum, indent)
    ensures |CodeFrame(lines, lineNum, colNum, indent)| > 0
  {
    FrameRowsClean(lines, lineNum, colNum, indent);
    var a := Row(lineNum - 2, Neighbour(lines, lineNum - 3));
    var b := Row(lineNum - 1, Neighbour(lines, lineNum - 2));
    var c := Row(lineNum, Render(ErrorLineAt(lines, lineNum)));
    var d := CaretLine(lineNum, colNum);
    var e := Row(lineNum + 1, Neighbour(lines, lineNum));
    var f := Row(lineNum + 2, Neighbour(lines, lineNum + 1));
    assert AllWhitespace(indent);
    FrameTrim(indent, a, b, c, d, e, f);
    FrameSplit(indent, a, b, c, d, e, TrimEnd(f));
  }

  /** `.trim()` of the six-row template literal, for rows whose ends are as `Row` makes them. */
  lemma {:induction false} FrameTrim(indent: string, a: string, b: string, c: string, d: string, e: string, f: string)
    requires AllWhitespace(indent)
    requires |a| > 0 && !IsWhitespace(a[0]) && |f| > 0 && !IsWhitespace(f[0])
    ensures Trim("\n" + indent + a + "\n" + indent + b + "\n" + c + "\n" + d + "\n" + e + "\n" + f + "\n")
      == a + "\n" + indent + b + "\n" + c + "\n" + d + "\n" + e + "\n" + TrimEnd(f)
  {
    var lead := "\n" + indent;
    assert AllWhitespace(lead);
    var s1 := lead + a;
    var s2 := s1 + "\n";
    var s3 := s2 + indent;
    var s4 := s3 + b;
    var s5 := s4 + "\n";
    var s6 := s5 + c;
    var s7 := s6 + "\n";
    var s8 := s7 + d;
    var s9 := s8 + "\n";
    var s10 := s9 + e;
    var s11 := s10 + "\n";
    var s12 := s11 + f;
    TrimStartDropsLead(lead, a);
    TrimStartAppend(s1, "\n");
    TrimStartAppend(s2, indent);
    TrimStartAppend(s3, b);
    TrimStartAppend(s4, "\n");
    TrimStartAppend(s5, c);
    TrimStartAppend(s6, "\n");
    TrimStartAppend(s7, d);
    TrimStartAppend(s8, "\n");
    TrimStartAppend(s9, e);
    TrimStartAppend(s10, "\n");
    TrimStartAppend(s11, f);
    TrimStartAppend(s12, "\n");
    var u11 := a + "\n" + indent + b + "\n" + c + "\n" + d + "\n" + e + "\n";
    TrimEndDropsTrail(u11 + f, "\n");
    TrimEndStopsAt(u11, f);
  }

  /** The trimmed frame splits back into its six rows. */
  lemma {:induction false} FrameSplit(indent: string, a: string, b: string, c: string, d: string, e: string, g: string)
    requires '\n' !in a && '\n' !in indent + b && '\n' !in c && '\n' !in d && '\n' !in e && '\n' !in g
    ensures Split(a + "\n" + indent + b + "\n" + c + "\n" + d + "\n" + e + "\n" + g, '\n')
      == [a, indent + b, c, d, e, g]
  {
    var u4 := a + "\n" + indent + b;
    var u6 := u4 + "\n" + c;
    var u8 := u6 + "\n" + d;
    var u10 := u8 + "\n" + e;
    SplitAtLastSeparator(u10, '\n', g);
    SplitAtLastSeparator(u8, '\n', e);
    SplitAtLastSeparator(u6, '\n', d);
    SplitAtLastSeparator(u4, '\n', c);
    assert u4 == a + "\n" + (indent + b);
    SplitAtLastSeparator(a, '\n', indent + b);
    SplitWithoutSeparator(a, '\n');
  }

  /**
   * The caret points at 0-based index `colNum` of the error line: it stands
   * after `colNum + digits(lineNum) + 3` spaces, which is where character
   * `colNum` of the error line sits in its row `${lineNum} | ${errorLine}`.
   */
  lemma {:induction false} CaretUnderColumn(lineNum: nat, colNum: nat, errorLine: string)
    ensures var caret := CaretLine(lineNum, colNum);
      && caret[|caret| - 1] == '^'
      && (forall i :: 0 <= i < |caret| - 1 ==> caret[i] == ' ')
      && |caret| - 1 == colNum + |NatToString(lineNum)| + 3
      && (colNum < |errorLine| ==> Row(lineNum, errorLine)[|caret| - 1] == errorLine[colNum])
  {
    var caret := CaretLine(lineNum, colNum);
    var k := colNum + |NatToString(lineNum)| + 3;
    assert |caret| == k + 1;
    assert IntToString(lineNum) == NatToString(lineNum);
    assert Row(lineNum, errorLine) == (NatToString(lineNum) + " | ") + errorLine;
    if colNum < |errorLine| {
      assert Row(lineNum, errorLine)[k] == errorLine[colNum];
    }
  }

  // ---------------------------------------------------------------------------
  // extraction

  /** The body of `extractAndAnalyzeWithGroq` up to the `errorInfo` record. */
  function Extract(f: TestFailure, files: map<string, string>, indent: string): (r: Extraction)
    ensures !r.Aborted? ==> Truthy(f.stack)
    ensures r.ReadThrew? ==> r.path !in files
    ensures r.Extracted? ==> r.info.filePath in files && r.info.errorMessage == f.message && r.info.testTitle == f.title
  {
    if !Truthy(f.stack) then Aborted(NoStack)
    else
      match ChosenLine(f.stack.value, f.file)
      case None => Aborted(NoMatchingLine)
      case Some(line) =>
        if line == "" then Aborted(NoMatchingLine)
        else
          match MatchLocation(line)
          case None => Aborted(NoRegexMatch)
          case Some(loc) =>
            if loc.filePath !in files then ReadThrew(loc.filePath)
            else
              var lines := Split(files[loc.filePath], '\n');
              Extracted(ErrorInfo(
                loc.filePath, loc.lineNum, loc.colNum,
                ErrorLineAt(lines, loc.lineNum),
                CodeFrame(lines, loc.lineNum, loc.colNum, indent),
                f.message, f.title))
  }

  /**
   * The three early returns happen exactly when the stack is missing or
   * empty, when no stack line mentions the test file (or the first one that
   * does is empty, which is falsy), and when the regex has no way to match
   * the chosen line.
   */
  lemma {:induction false} ExtractAborts(f: TestFailure, files: map<string, string>, indent: string)
    ensures Extract(f, files, indent) == Aborted(NoStack) <==> !Truthy(f.stack)
    ensures Extract(f, files, indent) == Aborted(NoMatchingLine) <==>
      Truthy(f.stack) && !Truthy(ChosenLine(f.stack.value, f.file))
    ensures Extract(f, files, indent) == Aborted(NoRegexMatch) <==>
      Truthy(f.stack) && Truthy(ChosenLine(f.stack.value, f.file))
        && forall w :: !IsWay(ChosenLine(f.stack.value, f.file).value, w)
  {
    if Truthy(f.stack) && Truthy(ChosenLine(f.stack.value, f.file)) {
      MatchIsFirstWay(ChosenLine(f.stack.value, f.file).value);
    }
  }

  /** An early return happens before any file is read: it is the same whatever the files hold. */
  lemma {:induction false} AbortReadsNoFile(f: TestFailure, files: map<string, string>, other: map<string, string>, indent: string)
    requires Extract(f, files, indent).Aborted?
    ensures Extract(f, other, indent) == Extract(f, files, indent)
  {
  }

  /**
   * Past the early returns the handler reads the file the location names,
   * and that read throws exactly when the file is absent.
   */
  lemma {:induction false} ExtractReads(f: TestFailure, files: map<string, string>, indent: string)
    requires !Extract(f, files, indent).Aborted?
    ensures Truthy(f.stack) && Truthy(ChosenLine(f.stack.value, f.file))
    ensures var loc := MatchLocation(ChosenLine(f.stack.value, f.file).value);
      && loc.Some?
      && (Extract(f, files, indent).ReadThrew? <==> loc.value.filePath !in files)
      && (Extract(f, files, indent).ReadThrew? ==> Extract(f, files, indent).path == loc.value.filePath)
  {
  }

  /**
   * The record carries the first way's location on the chosen line, the
   * file line it names, the six-row frame around it, and the test's message
   * and title.
   */
  lemma {:induction false} ExtractedRecord(f: TestFailure, files: map<string, string>, indent: string, info: ErrorInfo)
    requires indent == AiIndent || indent == PlainIndent
    requires Extract(f, files, indent) == Extracted(info)
    ensures Truthy(f.stack) && Truthy(ChosenLine(f.stack.value, f.file))
    ensures MatchLocation(ChosenLine(f.stack.value, f.file).value) == Some(Location(info.filePath, info.lineNum, info.colNum))
    ensures info.filePath in files
    ensures info.errorLine == ErrorLineAt(Split(files[info.filePath], '\n'), info.lineNum)
    ensures Split(info.codeFrame, '\n') == FrameRows(Split(files[info.filePath], '\n'), info.lineNum, info.colNum, indent)
    ensures |info.codeFrame| > 0 && !IsWhitespace(info.codeFrame[|info.codeFrame| - 1])
    ensures info.errorMessage == f.message && info.testTitle == f.title
  {
    var loc := MatchLocation(ChosenLine(f.stack.value, f.file).value).value;
    assert loc == Location(info.filePath, info.lineNum, info.colNum) && loc.filePath in files;
    var lines := Split(files[info.filePath], '\n');
    assert info.codeFrame == CodeFrame(lines, info.lineNum, info.colNum, indent);
    CodeFrameRows(lines, info.lineNum, info.colNum, indent);
  }

  // ---------------------------------------------------------------------------
  // the prompt

  /** The user prompt both copies send, before and after `.trim()`. */
  function TextPrompt(message: Option<string>, errorLine: Option<string>, codeFrame: string): string
  {
    Trim("\n🔧 Error Message:\n" + Render(message) + "\n\n💥 Error Line:\n" + Render(errorLine)
      + "\n\n🧩 Code Frame:\n" + codeFrame + "\n")
  }

  /**
   * The prompt holds the error message, then the error line, then the code
   * frame, each under its heading; trimming removes only the surrounding line
   * breaks, since a trimmed frame ends in a non-space.
   */
  lemma {:induction false} PromptSections(message: Option<string>, errorLine: Option<string>, codeFrame: string)
    requires |codeFrame| > 0 && !IsWhitespace(codeFrame[|codeFrame| - 1])
    ensures TextPrompt(message, errorLine, codeFrame)
      == "🔧 Error Message:\n" + Render(message) + "\n\n💥 Error Line:\n" + Render(errorLine)
        + "\n\n🧩 Code Frame:\n" + codeFrame
  {
    var h1 := "🔧 Error Message:\n";
    var h2 := "\n\n💥 Error Line:\n";
    var h3 := "\n\n🧩 Code Frame:\n";
    assert "\n🔧 Error Message:\n" == "\n" + h1;
    var s1 := "\n" + h1;
    var s2 := s1 + Render(message);
    var s3 := s2 + h2;
    var s4 := s3 + Render(errorLine);
    var s5 := s4 + h3;
    var s6 := s5 + codeFrame;
    TrimStartDropsLead("\n", h1);
    TrimStartAppend(s1, Render(message));
    TrimStartAppend(s2, h2);
    TrimStartAppend(s3, Render(errorLine));
    TrimStartAppend(s4, h3);
    TrimStartAppend(s5, codeFrame);
    TrimStartAppend(s6, "\n");
    var body := h1 + Render(message) + h2 + Render(errorLine) + h3 + codeFrame;
    TrimEndDropsTrail(body, "\n");
  }

  // ---------------------------------------------------------------------------
  // the chat-completion request and its response

  /** One part of a multi-part user message. */
  datatype Part = TextPart(text: string) | ImageUrlPart(url: string)

  datatype Content = Plain(text: string) | Parts(parts: seq<Part>)

  datatype Role = System | User

  datatype Message = Message(role: Role, content: Content)

  /** The JSON body of the POST to the chat-completions endpoint. */
  datatype Request = Request(model: string, messages: seq<Message>, temperature: real, maxTokens: nat)

  /** What `fetch` and `response.json()` give: a thrown error, or a status with `choices?.[0]?.message?.content`. */
  datatype Response = Threw(reason: string) | Answered(ok: bool, status: int, content: Option<string>)

  /** The request both copies send, with temperature 0.3 and at most 3000 tokens. */
  function ChatRequest(model: string, messages: seq<Message>): (r: Request)
    ensures r.model == model && r.messages == messages && r.temperature == 0.3 && r.maxTokens == 3000
  {
    Request(model, messages, 0.3, 3000)
  }

  const InvalidFormat: string := "⚠️ Invalid response format from Groq API"

  /**
   * The body of the `try`: the suggestion when the status is ok and a
   * non-empty content is present, and otherwise the message of the error that
   * the `catch` logs.
   */
  function Classify(r: Response): (c: Result<string, string>)
    ensures c.Success? ==> r.Answered? && r.ok && r.content == Some(c.value) && c.value != ""
  {
    match r
    case Threw(reason) => Failure(reason)
    case Answered(ok, status, content) =>
      if !ok then Failure("HTTP error! status: " + IntToString(status))
      else if !Truthy(content) then Failure(InvalidFormat)
      else Success(content.value)
  }

  /**
   * A suggestion is reported exactly for an ok response with non-empty
   * content, and it is that content; a non-ok status is reported before the
   * content is looked at.
   */
  lemma {:induction false} ClassifyOutcomes(r: Response)
    ensures Classify(r).Success? <==> r.Answered? && r.ok && Truthy(r.content)
    ensures Classify(r).Success? ==> Classify(r).value == r.content.value && Classify(r).value != ""
    ensures r.Answered? && !r.ok ==> Classify(r) == Failure("HTTP error! status: " + IntToString(r.status))
    ensures r.Answered? && r.ok && !Truthy(r.content) ==> Classify(r) == Failure(InvalidFormat)
  {
  }
}
