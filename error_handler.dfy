/**
 * The single-model copy of the failure triage (helpers/errorHandler/errorHandler.ts):
 * after the shared extraction, with a frame that indents nothing, it sends
 * one request to one model and logs the suggestion or the caught error.
 * The network is the parameter `respond`.
 */
module ErrorHandler {
  import opened Wrappers
  import opened Text
  import opened Triage

  const ModelName: string := "llama-3.3-70b-versatile"

  /** The system prompt, as `.trim()` leaves the template literal. */
  const SystemPrompt: string :=
    "You are acting as a Senior SDET with deep experience in Playwright + TypeScript automation frameworks.\n"
    + "You will be given a test failure log, including:\n"
    + "*'Error message'\n"
    + "*'Code line'\n"
    + "*'Code frame or stack trace'\n"
    + "Your job is to:\n"
    + "Diagnose the failure precisely – point out the actual cause in the context of Playwright/TypeScript.\n"
    + "Provide the exact fix, ensuring it aligns with Playwright best practices and the existing TypeScript-based framework.\n"
    + "Include code changes if necessary – formatted in a readable and complete way.\n"
    + "Keep your explanation minimal, direct, and developer-friendly, like a senior engineer reviewing code.\n"
    + "Always assume:\n"
    + "The fix will be implemented by another SDET, so clarity and correctness are key.\n"
    + "returnFormat:\n"
    + "🔍 Root Cause:\n"
    + "[Clearly explain the issue]\n"
    + "🛠️ Fix:\n"
    + "[Provide corrected code or steps]\n"
    + "💡 Note (Optional):\n"
    + "[Optional tip or caution related to the fix]"

  /** How `extractAndAnalyzeWithGroq` ends. */
  datatype Run =
    | Stopped(reason: Abort)
    | FileReadThrew(path: string)
    | Analyzed(info: ErrorInfo, request: Request, outcome: Result<string, string>)

  /** `analyzeWithGroq`: the one request, and what its `try`/`catch` logs. */
  function Analyze(info: ErrorInfo, respond: Request -> Response): (r: (Request, Result<string, string>))
    ensures r.0.model == ModelName && |r.0.messages| == 2
    ensures r.0.messages[0] == Message(System, Plain(SystemPrompt))
    ensures r.0.messages[1] == Message(User, Plain(TextPrompt(info.errorMessage, info.errorLine, info.codeFrame)))
    ensures r.1 == Classify(respond(r.0))
  {
    var prompt := TextPrompt(info.errorMessage, info.errorLine, info.codeFrame);
    var request := ChatRequest(ModelName, [Message(System, Plain(SystemPrompt)), Message(User, Plain(prompt))]);
    (request, Classify(respond(request)))
  }

  /** `extractAndAnalyzeWithGroq`. */
  function ExtractAndAnalyze(f: TestFailure, files: map<string, string>, respond: Request -> Response): (r: Run)
    ensures Extract(f, files, PlainIndent).Aborted? <==> r.Stopped?
    ensures Extract(f, files, PlainIndent).ReadThrew? <==> r.FileReadThrew?
    ensures r.Stopped? ==> r.reason == Extract(f, files, PlainIndent).reason
    ensures r.FileReadThrew? ==> r.path == Extract(f, files, PlainIndent).path
    ensures r.Analyzed? ==> r.info == Extract(f, files, PlainIndent).info && (r.request, r.outcome) == Analyze(r.info, respond)
  {
    match Extract(f, files, PlainIndent)
    case Aborted(reason) => Stopped(reason)
    case ReadThrew(path) => FileReadThrew(path)
    case Extracted(info) =>
      var (request, outcome) := Analyze(info, respond);
      Analyzed(info, request, outcome)
  }

  /**
   * The user prompt of the one request holds the error message, the error
   * line and the six-row code frame under their headings, in that order.
   */
  lemma {:induction false} PromptLayout(f: TestFailure, files: map<string, string>, respond: Request -> Response)
    requires ExtractAndAnalyze(f, files, respond).Analyzed?
    ensures var r := ExtractAndAnalyze(f, files, respond);
      && r.request.messages[1].content
        == Plain("🔧 Error Message:\n" + Render(f.message) + "\n\n💥 Error Line:\n" + Render(r.info.errorLine)
          + "\n\n🧩 Code Frame:\n" + r.info.codeFrame)
      && r.info.filePath in files
      && Split(r.info.codeFrame, '\n') == FrameRows(
        Split(files[r.info.filePath], '\n'), r.info.lineNum, r.info.colNum, PlainIndent)
  {
    var r := ExtractAndAnalyze(f, files, respond);
    ExtractedRecord(f, files, PlainIndent, r.info);
    PromptSections(f.message, r.info.errorLine, r.info.codeFrame);
  }
}
