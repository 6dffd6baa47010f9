/**
 * The multi-model copy of the failure triage (helpers/ai_errorHandler/errorHandler.ts):
 * after the shared extraction it picks a screenshot attachment, then sends the
 * same prompt to each configured model in turn, attaching the screenshot only
 * for a model that accepts images, and logs each model's suggestion or error.
 *
 * The network is the parameter `respond`, which maps a request to what
 * `fetch` and `response.json()` give back; the screenshot files are a map
 * from path to their base64 encoding, a path missing from it being a read
 * that throws.
 */
module AiErrorHandler {
  import opened Wrappers
  import opened Text
  import opened Triage

  /** An entry of the `models` table. */
  datatype Model = Model(name: string, supportsImages: bool)

  /** The models, in the order they are asked: one that accepts images, one for text only. */
  const Models: seq<Model> := [
    Model("meta-llama/llama-4-maverick-17b-128e-instruct", true),
    Model("llama-3.3-70b-versatile", false)
  ]

  /** The system prompt, as `.trim()` leaves the template literal. */
  const SystemPrompt: string :=
    "You are acting as a Senior SDET with deep experience in Playwright + TypeScript automation frameworks.\n"
    + "You will be given a test failure log, including:\n"
    + "* 'Error message'\n"
    + "* 'Code line'\n"
    + "* 'Code frame or stack trace'\n"
    + "* (Optional) A screenshot of the UI at the moment of failure\n"
    + "\n"
    + "Your job is to:\n"
    + "Diagnose the failure precisely – point out the actual cause in the context of Playwright/TypeScript.\n"
    + "Provide the exact fix, ensuring it aligns with Playwright best practices and the existing TypeScript-based framework.\n"
    + "Include code changes if necessary – formatted in a readable and complete way.\n"
    + "Keep your explanation minimal, direct, and developer-friendly, like a senior engineer reviewing code.\n"
    + "Return format:\n"
    + "🔍 Root Cause:\n"
    + "[Clearly explain the issue]\n"
    + "🛠️ Fix:\n"
    + "[Provide corrected code or steps]\n"
    + "💡 Note (Optional):\n"
    + "[Optional tip or caution related to the fix]"

  // ---------------------------------------------------------------------------
  // the screenshot

  /** `att.name === 'screenshot' || att.contentType?.includes('image')`. */
  predicate IsScreenshot(a: Attachment)
  {
    a.name == "screenshot" || (a.contentType.Some? && Contains(a.contentType.value, "image"))
  }

  /** Attachment `i` is the one `attachments.find(IsScreenshot)` returns. */
  predicate FirstScreenshotAt(attachments: seq<Attachment>, i: int)
  {
    0 <= i < |attachments| && IsScreenshot(attachments[i])
    && forall j :: 0 <= j < i ==> !IsScreenshot(attachments[j])
  }

  const DataUrlPrefix: string := "data:image/png;base64,"

  /**
   * `screenshotBase64`: the data URL of the first screenshot attachment when
   * it has a path and reading that path succeeds, and null otherwise (no such
   * attachment, no path, or a read error that is caught and logged).
   */
  function Screenshot(attachments: seq<Attachment>, images: map<string, string>): (r: Option<string>)
    ensures r.Some? ==>
      exists i :: FirstScreenshotAt(attachments, i) && Truthy(attachments[i].path)
        && attachments[i].path.value in images && r.value == DataUrlPrefix + images[attachments[i].path.value]
    ensures (exists i ::
               FirstScreenshotAt(attachments, i) && Truthy(attachments[i].path) && attachments[i].path.value in images)
      ==> r.Some?
  {
    match FindFirst(attachments, IsScreenshot)
    case None => None
    case Some(i) =>
      assert FirstScreenshotAt(attachments, i);
      var path := attachments[i].path;
      if Truthy(path) && path.value in images then Some(DataUrlPrefix + images[path.value]) else None
  }

  // ---------------------------------------------------------------------------
  // the messages and the per-model loop

  const SystemMessage: Message := Message(System, Plain(SystemPrompt))

  /**
   * The user message for one model: text and image parts exactly when the
   * model accepts images and a screenshot is present, the plain prompt
   * otherwise.
   */
  function UserMessage(supportsImages: bool, prompt: string, screenshot: Option<string>): (m: Message)
    ensures m.role == User
    ensures m.content.Parts? <==> supportsImages && Truthy(screenshot)
    ensures m.content.Parts? ==> m.content.parts == [TextPart(prompt), ImageUrlPart(screenshot.value)]
    ensures m.content.Plain? ==> m.content.text == prompt
  {
    if supportsImages && Truthy(screenshot) then Message(User, Parts([TextPart(prompt), ImageUrlPart(screenshot.value)]))
    else Message(User, Plain(prompt))
  }

  /** What one model's iteration logs: its suggestion, or the message of the error it caught. */
  datatype Report = Report(model: string, outcome: Result<string, string>)

  /**
   * `analyzeWithGroqMulti`: one request per model, in table order, each with
   * the system message and that model's user message; every model is asked
   * whatever the earlier ones answered, since each error is caught inside the
   * iteration.
   */
  method AnalyzeMulti(info: ErrorInfo, screenshot: Option<string>, respond: Request -> Response)
    returns (requests: seq<Request>, reports: seq<Report>)
    ensures |requests| == |Models| && |reports| == |Models|
    ensures forall i :: 0 <= i < |Models| ==>
      requests[i] == ChatRequest(Models[i].name,
        [SystemMessage, UserMessage(Models[i].supportsImages, TextPrompt(info.errorMessage, info.errorLine, info.codeFrame), screenshot)])
    ensures forall i :: 0 <= i < |Models| ==> reports[i] == Report(Models[i].name, Classify(respond(requests[i])))
  {
    var textPrompt := TextPrompt(info.errorMessage, info.errorLine, info.codeFrame);
    requests, reports := AskEachModel(textPrompt, screenshot, respond);
  }

  /** The `for` loop of `analyzeWithGroqMulti` over the model table, for a given prompt. */
  method AskEachModel(textPrompt: string, screenshot: Option<string>, respond: Request -> Response)
    returns (requests: seq<Request>, reports: seq<Report>)
    ensures |requests| == |Models| && |reports| == |Models|
    ensures forall i :: 0 <= i < |Models| ==>
      requests[i] == ChatRequest(Models[i].name, [SystemMessage, UserMessage(Models[i].supportsImages, textPrompt, screenshot)])
    ensures forall i :: 0 <= i < |Models| ==> reports[i] == Report(Models[i].name, Classify(respond(requests[i])))
  {
    requests, reports := [], [];
    var k := 0;
    while k < |Models|
      invariant 0 <= k <= |Models|
      invariant |requests| == k && |reports| == k
      invariant forall i :: 0 <= i < k ==>
        requests[i] == ChatRequest(Models[i].name,
          [SystemMessage, UserMessage(Models[i].supportsImages, textPrompt, screenshot)])
      invariant forall i :: 0 <= i < k ==> reports[i] == Report(Models[i].name, Classify(respond(requests[i])))
    {
      var model := Models[k];
      var messages := [SystemMessage];
      if model.supportsImages && Truthy(screenshot) {
        messages := messages + [Message(User, Parts([TextPart(textPrompt), ImageUrlPart(screenshot.value)]))];
      } else {
        messages := messages + [Message(User, Plain(textPrompt))];
      }
      var request := ChatRequest(model.name, messages);
      requests := requests + [request];
      reports := reports + [Report(model.name, Classify(respond(request)))];
      k := k + 1;
    }
  }

  /** Only the first model can receive the screenshot; the text-only model always gets the plain prompt. */
  lemma {:induction false} OnlyImageModelSeesScreenshot(prompt: string, screenshot: Option<string>)
    ensures UserMessage(Models[0].supportsImages, prompt, screenshot).content.Parts? <==> Truthy(screenshot)
    ensures UserMessage(Models[1].supportsImages, prompt, screenshot) == Message(User, Plain(prompt))
  {
  }

  // ---------------------------------------------------------------------------
  // the entry point

  /** How `extractAndAnalyzeWithGroq` ends. */
  datatype Run =
    | Stopped(reason: Abort)
    | FileReadThrew(path: string)
    | Analyzed(info: ErrorInfo, screenshot: Option<string>, requests: seq<Request>, reports: seq<Report>)

  /**
   * `extractAndAnalyzeWithGroq`: an early return sends nothing, an unreadable
   * source file propagates the throw, and otherwise every model is asked
   * about the record the extraction built.
   */
  method ExtractAndAnalyze(f: TestFailure, files: map<string, string>, images: map<string, string>, respond: Request -> Response)
    returns (run: Run)
    ensures Extract(f, files, AiIndent).Aborted? ==> run == Stopped(Extract(f, files, AiIndent).reason)
    ensures Extract(f, files, AiIndent).ReadThrew? ==> run == FileReadThrew(Extract(f, files, AiIndent).path)
    ensures Extract(f, files, AiIndent).Extracted? ==>
      && run.Analyzed?
      && run.info == Extract(f, files, AiIndent).info
      && run.screenshot == Screenshot(f.attachments, images)
      && |run.requests| == |Models| && |run.reports| == |Models|
      && (forall i :: 0 <= i < |Models| ==>
        run.requests[i] == ChatRequest(Models[i].name,
          [SystemMessage, UserMessage(Models[i].supportsImages, TextPrompt(run.info.errorMessage, run.info.errorLine, run.info.codeFrame), run.screenshot)]))
      && (forall i :: 0 <= i < |Models| ==> run.reports[i] == Report(Models[i].name, Classify(respond(run.requests[i]))))
  {
    var extraction := Extract(f, files, AiIndent);
    match extraction
    case Aborted(reason) =>
      run := Stopped(reason);
    case ReadThrew(path) =>
      run := FileReadThrew(path);
    case Extracted(info) =>
      var screenshot := Screenshot(f.attachments, images);
      var requests, reports := AnalyzeMulti(info, screenshot, respond);
      run := Analyzed(info, screenshot, requests, reports);
  }
}
