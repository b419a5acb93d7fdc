/** Coaching feedback (app/services/feedback_generator.py): the prompt and
    the conversation built from a session's errors, and the retry loop
    around the Gemini client. The client is an oracle: its `k`-th call
    answers `answer(k)`, a response or an exception. The texts of the two
    system prompts are not modelled, only which one is sent. */
module FeedbackGeneration {
  import opened PyBuiltins
  import opened Schemas

  const MAX_FEEDBACK_TOKENS: nat := 8192
  const MAX_CHAT_TOKENS: nat := 4096
  const MAX_RETRIES: nat := 2

  const DEFAULT_MODEL := "gemini-2.5-flash"
  const MAX_TOKENS_REASON := "MAX_TOKENS"
  const EMPTY_RESPONSE := "empty response"
  /** `last_error` before any failure: `f"{None}"`. */
  const NO_ERROR_YET := "None"
  const TRUNCATION_NOTE := "\n\n---\n*Your coach had more to say! Ask a follow-up question below to continue the conversation.*"

  const NO_ERRORS_SUMMARY := "No significant form errors were detected in the session."
  const ISSUES_HEADER := "Issues found:\n"
  const PROMPT_HEADER := "=== DETECTED FORM ERRORS (ranked by priority) ==="
  const NO_ERRORS_DETECTED := "No significant form errors detected! All metrics within ideal ranges."
  const OPENING_REQUEST := "Please analyze my surf session."

  const USER := "user"
  const MODEL := "model"
  const ASSISTANT := "assistant"

  // ---------------------------------------------------------------------------
  // _format_errors_summary
  // ---------------------------------------------------------------------------

  /** `metric.replace("_", " ").title()`. */
  function DisplayName(metric: string): string
  {
    Title(ReplaceChar(metric, '_', ' '))
  }

  /** One character of the display name: an underscore becomes a space; a
      letter is lowered when it follows a letter and raised when it starts a
      word. */
  lemma DisplayNameAt(metric: string, i: int)
    requires 0 <= i < |metric|
    ensures DisplayName(metric)[i] ==
      if metric[i] == '_' then ' '
      else if i > 0 && IsLetter(metric[i - 1]) then Lower(metric[i])
      else Upper(metric[i])
  {
    TitleAt(ReplaceChar(metric, '_', ' '), false, i);
  }

  /** The display name keeps the length and turns every underscore into a
      space; a letter is lowered when it follows a letter and raised when it
      starts a word; no underscore is left, and a line break stays exactly
      where the metric has one. */
  lemma DisplayNameShape(metric: string)
    ensures |DisplayName(metric)| == |metric|
    ensures forall i :: 0 <= i < |metric| ==>
      DisplayName(metric)[i] ==
        if metric[i] == '_' then ' '
        else if i > 0 && IsLetter(metric[i - 1]) then Lower(metric[i])
        else Upper(metric[i])
    ensures '_' !in DisplayName(metric)
    ensures '\n' in DisplayName(metric) <==> '\n' in metric
  {
    var replaced := ReplaceChar(metric, '_', ' ');
    forall i | 0 <= i < |metric|
      ensures DisplayName(metric)[i] ==
        if metric[i] == '_' then ' '
        else if i > 0 && IsLetter(metric[i - 1]) then Lower(metric[i])
        else Upper(metric[i])
    {
      DisplayNameAt(metric, i);
    }
    TitleNonLetterOccurs(replaced, false, '_');
    TitleNonLetterOccurs(replaced, false, '\n');
    if '\n' in metric {
      var i :| 0 <= i < |metric| && metric[i] == '\n';
      assert replaced[i] == '\n';
    }
  }

  /** The metric of the summary test reads "Left Knee Angle". */
  lemma DisplayNameExample()
    ensures DisplayName("left_knee_angle") == "Left Knee Angle"
  {
    LeftKneeAngleName("left_knee_angle");
  }

  lemma LeftKneeAngleName(metric: string)
    requires metric == "left_knee_angle"
    ensures DisplayName(metric) == "Left Knee Angle"
  {
    for k := 0 to 15
      invariant forall j :: 0 <= j < k ==> DisplayName(metric)[j] == "Left Knee Angle"[j]
    {
      DisplayNameAt(metric, k);
    }
  }

  function SummaryLine(err: AggregatedError): string
  {
    "- " + DisplayName(err.metric) + " (" + SeverityValue(err.severity) + " severity)"
  }

  /** What `_format_errors_summary` returns. */
  function ErrorsSummary(errors: seq<AggregatedError>): string
  {
    if errors == [] then NO_ERRORS_SUMMARY
    else ISSUES_HEADER + Join("\n", seq(|errors|, i requires 0 <= i < |errors| => SummaryLine(errors[i])))
  }

  /** The summary is the fixed sentence for no errors; otherwise the header
      and then one line per error, in order, naming the metric and the
      severity. */
  lemma ErrorsSummaryLines(errors: seq<AggregatedError>)
    requires forall i :: 0 <= i < |errors| ==> '\n' !in errors[i].metric
    ensures errors == [] ==> ErrorsSummary(errors) == NO_ERRORS_SUMMARY
    ensures errors != [] ==>
      |ErrorsSummary(errors)| >= |ISSUES_HEADER| &&
      ErrorsSummary(errors)[..|ISSUES_HEADER|] == ISSUES_HEADER &&
      Split(ErrorsSummary(errors)[|ISSUES_HEADER|..], '\n') == seq(|errors|, i requires 0 <= i < |errors| => SummaryLine(errors[i]))
  {
    if errors != [] {
      var lines := seq(|errors|, i requires 0 <= i < |errors| => SummaryLine(errors[i]));
      forall i | 0 <= i < |lines|
        ensures '\n' !in lines[i]
      {
        DisplayNameShape(errors[i].metric);
        var name, sev := DisplayName(errors[i].metric), SeverityValue(errors[i].severity);
        assert lines[i] == "- " + name + " (" + sev + " severity)";
      }
      SplitJoin(lines, '\n');
      var summary := ErrorsSummary(errors);
      assert summary == ISSUES_HEADER + Join("\n", lines);
      assert summary[|ISSUES_HEADER|..] == Join("\n", lines);
    }
  }

  // ---------------------------------------------------------------------------
  // _format_errors_for_prompt
  // ---------------------------------------------------------------------------

  /** The `Surfer:` and `Skill Level:` lines, each only for a non-empty value. */
  function ProfileLines(surferName: Option<string>, skillLevel: Option<string>): seq<string>
  {
    (if Truthy(surferName) then ["Surfer: " + surferName.value] else []) +
    (if Truthy(skillLevel) then ["Skill Level: " + skillLevel.value] else [])
  }

  function ErrorHeading(n: nat, metric: string): string
  {
    "Error #" + NatToString(n) + ": " + metric
  }

  /** The seven indented detail lines of an error; `repr` is Python's `str`
      of a float. */
  function ErrorDetails(err: AggregatedError, repr: real -> string): (details: seq<string>)
    ensures |details| == 7
  {
    ["  Severity: " + SeverityValue(err.severity),
     "  Average measured value: " + repr(err.avgMeasuredValue),
     "  Ideal range: " + repr(err.idealMin) + " - " + repr(err.idealMax),
     "  Average deviation from range: " + repr(err.avgDeviation),
     "  Max deviation: " + repr(err.maxDeviation),
     "  Frequency: " + repr(err.frequencyPct) + "% of frames (" +
       IntToString(err.frameCount) + "/" + IntToString(err.totalFramesAnalyzed) + ")",
     "  Time span: " + repr(err.firstTimestampSec) + "s - " + repr(err.lastTimestampSec) +
       "s (duration: " + repr(err.durationSec) + "s)"]
  }

  /** The nine lines of error number `n`: heading, details, blank line. */
  function ErrorBlock(n: nat, err: AggregatedError, repr: real -> string): (block: seq<string>)
    ensures |block| == 9 && block[0] == ErrorHeading(n, err.metric) && block[8] == ""
  {
    [ErrorHeading(n, err.metric)] + ErrorDetails(err, repr) + [""]
  }

  /** The blocks of `errors`, numbered from 1 (`enumerate(errors, 1)`). */
  function ErrorBlocks(errors: seq<AggregatedError>, repr: real -> string): seq<seq<string>>
  {
    seq(|errors|, k requires 0 <= k < |errors| => ErrorBlock(k + 1, errors[k], repr))
  }

  /** The lines of the blocks, one block after the other. */
  function Flatten(blocks: seq<seq<string>>): seq<string>
  {
    if blocks == [] then [] else blocks[0] + Flatten(blocks[1..])
  }

  /** Blocks of nine lines each: line `i` of block `k` is line `9 * k + i`. */
  lemma {:induction false} FlattenNines(blocks: seq<seq<string>>)
    requires forall k :: 0 <= k < |blocks| ==> |blocks[k]| == 9
    ensures |Flatten(blocks)| == 9 * |blocks|
    ensures forall k, i :: 0 <= k < |blocks| && 0 <= i < 9 ==> Flatten(blocks)[9 * k + i] == blocks[k][i]
  {
    if blocks != [] {
      var rest := blocks[1..];
      FlattenNines(rest);
      forall k, i | 1 <= k < |blocks| && 0 <= i < 9
        ensures Flatten(blocks)[9 * k + i] == blocks[k][i]
      {
        assert Flatten(blocks)[9 * k + i] == Flatten(rest)[9 * (k - 1) + i];
        assert rest[k - 1] == blocks[k];
      }
    }
  }

  function PromptLines(errors: seq<AggregatedError>, surferName: Option<string>, skillLevel: Option<string>,
                       repr: real -> string): seq<string>
  {
    ProfileLines(surferName, skillLevel) + ["", PROMPT_HEADER, ""] + Flatten(ErrorBlocks(errors, repr)) +
    (if errors == [] then [NO_ERRORS_DETECTED] else [])
  }

  /** What `_format_errors_for_prompt` returns. */
  function ErrorsPrompt(errors: seq<AggregatedError>, surferName: Option<string>, skillLevel: Option<string>,
                        repr: real -> string): string
  {
    Join("\n", PromptLines(errors, surferName, skillLevel, repr))
  }

  /** The prompt opens with a `Surfer:` line exactly when a name is given,
      and has a `Skill Level:` line, last before the header, exactly when a
      level is given. */
  lemma PromptProfile(errors: seq<AggregatedError>, surferName: Option<string>, skillLevel: Option<string>,
                      repr: real -> string)
    ensures |ProfileLines(surferName, skillLevel)| == (if Truthy(surferName) then 1 else 0) + (if Truthy(skillLevel) then 1 else 0)
    ensures Truthy(surferName) <==>
      |PromptLines(errors, surferName, skillLevel, repr)[0]| >= 8 &&
      PromptLines(errors, surferName, skillLevel, repr)[0][..8] == "Surfer: "
    ensures Truthy(skillLevel) ==>
      PromptLines(errors, surferName, skillLevel, repr)[|ProfileLines(surferName, skillLevel)| - 1] == "Skill Level: " + skillLevel.value
  {
    ProfileOpening(surferName, skillLevel, Flatten(ErrorBlocks(errors, repr)),
                   if errors == [] then [NO_ERRORS_DETECTED] else []);
  }

  /** The profile lines in front of the header and whatever follows it. */
  lemma ProfileOpening(surferName: Option<string>, skillLevel: Option<string>, body: seq<string>, trailer: seq<string>)
    ensures |ProfileLines(surferName, skillLevel)| == (if Truthy(surferName) then 1 else 0) + (if Truthy(skillLevel) then 1 else 0)
    ensures Truthy(surferName) <==>
      |(ProfileLines(surferName, skillLevel) + ["", PROMPT_HEADER, ""] + body + trailer)[0]| >= 8 &&
      (ProfileLines(surferName, skillLevel) + ["", PROMPT_HEADER, ""] + body + trailer)[0][..8] == "Surfer: "
    ensures Truthy(skillLevel) ==>
      (ProfileLines(surferName, skillLevel) + ["", PROMPT_HEADER, ""] + body + trailer)[|ProfileLines(surferName, skillLevel)| - 1] ==
        "Skill Level: " + skillLevel.value
  {
    var profile := ProfileLines(surferName, skillLevel);
    var lines := profile + ["", PROMPT_HEADER, ""] + body + trailer;
    if Truthy(skillLevel) {
      assert lines[|profile| - 1] == profile[|profile| - 1];
    }
    if Truthy(surferName) {
      assert lines[0] == profile[0] == "Surfer: " + surferName.value;
    } else if Truthy(skillLevel) {
      assert lines[0] == profile[0] == "Skill Level: " + skillLevel.value;
      assert lines[0][1] == 'k';
    } else {
      assert lines[0] == "";
    }
  }

  /** Every block is nine lines long, opens with its numbered heading and
      closes with a blank line. */
  lemma ErrorBlocksShape(errors: seq<AggregatedError>, repr: real -> string)
    ensures |ErrorBlocks(errors, repr)| == |errors|
    ensures forall k :: 0 <= k < |errors| ==>
      |ErrorBlocks(errors, repr)[k]| == 9 &&
      ErrorBlocks(errors, repr)[k][0] == ErrorHeading(k + 1, errors[k].metric) &&
      ErrorBlocks(errors, repr)[k][8] == ""
  {
    forall k | 0 <= k < |errors|
      ensures |ErrorBlocks(errors, repr)[k]| == 9
      ensures ErrorBlocks(errors, repr)[k][0] == ErrorHeading(k + 1, errors[k].metric)
      ensures ErrorBlocks(errors, repr)[k][8] == ""
    {
      var block := ErrorBlock(k + 1, errors[k], repr);
      assert ErrorBlocks(errors, repr)[k] == block;
    }
  }

  /** After the header, the errors are numbered `Error #1`, `Error #2`, ...
      in input order, nine lines apart, and the prompt ends with the "no
      errors" sentence exactly when there are none. */
  lemma PromptErrors(errors: seq<AggregatedError>, surferName: Option<string>, skillLevel: Option<string>,
                     repr: real -> string)
    ensures |PromptLines(errors, surferName, skillLevel, repr)| ==
      |ProfileLines(surferName, skillLevel)| + 3 + 9 * |errors| + (if errors == [] then 1 else 0)
    ensures forall k :: 0 <= k < |errors| ==>
      PromptLines(errors, surferName, skillLevel, repr)[|ProfileLines(surferName, skillLevel)| + 3 + 9 * k] ==
        ErrorHeading(k + 1, errors[k].metric)
    ensures PromptLines(errors, surferName, skillLevel, repr)[|PromptLines(errors, surferName, skillLevel, repr)| - 1] == NO_ERRORS_DETECTED
      <==> errors == []
  {
    var blocks := ErrorBlocks(errors, repr);
    ErrorBlocksShape(errors, repr);
    FlattenNines(blocks);
    var header := ProfileLines(surferName, skillLevel) + ["", PROMPT_HEADER, ""];
    var trailer := if errors == [] then [NO_ERRORS_DETECTED] else [];
    var lines := PromptLines(errors, surferName, skillLevel, repr);
    assert lines == header + Flatten(blocks) + trailer;
    LayoutLines(header, blocks, trailer);
    forall k | 0 <= k < |errors|
      ensures lines[|header| + 9 * k] == ErrorHeading(k + 1, errors[k].metric)
    {
      assert lines[|header| + 9 * k] == blocks[k][0];
    }
  }

  /** The line positions of a header, nine-line blocks and a trailer. */
  lemma LayoutLines(header: seq<string>, blocks: seq<seq<string>>, trailer: seq<string>)
    requires forall k :: 0 <= k < |blocks| ==> |blocks[k]| == 9 && blocks[k][8] == ""
    requires |Flatten(blocks)| == 9 * |blocks|
    requires forall k, i :: 0 <= k < |blocks| && 0 <= i < 9 ==> Flatten(blocks)[9 * k + i] == blocks[k][i]
    requires trailer == [] <==> blocks != []
    requires trailer != [] ==> trailer == [NO_ERRORS_DETECTED]
    ensures |header + Flatten(blocks) + trailer| == |header| + 9 * |blocks| + |trailer|
    ensures forall k :: 0 <= k < |blocks| ==> (header + Flatten(blocks) + trailer)[|header| + 9 * k] == blocks[k][0]
    ensures (header + Flatten(blocks) + trailer)[|header| + 9 * |blocks| + |trailer| - 1] == NO_ERRORS_DETECTED
      <==> blocks == []
  {
    var lines := header + Flatten(blocks) + trailer;
    forall k | 0 <= k < |blocks|
      ensures lines[|header| + 9 * k] == blocks[k][0]
    {
      assert lines[|header| + 9 * k] == Flatten(blocks)[9 * k + 0];
    }
    if blocks != [] {
      var last := |blocks| - 1;
      assert lines[|lines| - 1] == Flatten(blocks)[9 * last + 8] == blocks[last][8] == "";
      assert |NO_ERRORS_DETECTED| > 0;
    }
  }

  // ---------------------------------------------------------------------------
  // The Gemini oracle and the retry loop of _call_gemini
  // ---------------------------------------------------------------------------

  /** One answer of `generate_content`: a response (its `text`, and the first
      candidate's `finish_reason`, `None` without candidates), or an
      exception with its message. */
  datatype Reply =
    | Response(text: Option<string>, finishReason: Option<string>)
    | Raised(message: string)

  /** One conversation turn (`types.Content` with a single text part). */
  datatype Content = Content(role: string, text: string)

  /** What is sent as `contents`: a single prompt or a list of turns. */
  datatype Contents = Prompt(prompt: string) | Turns(turns: seq<Content>)

  /** The system instruction: `SYSTEM_PROMPT`, or `CHAT_SYSTEM_PROMPT`
      joined by newlines with the context lines that follow it. */
  datatype SystemInstruction = FeedbackPrompt | ChatPrompt(context: seq<string>)

  datatype Request = Request(model: string, contents: Contents, instruction: SystemInstruction, maxOutputTokens: nat)

  datatype GenerationError = FeedbackGenerationError(message: string)

  /** A response the loop accepts: text present and not blank. */
  predicate Usable(reply: Reply)
  {
    reply.Response? && reply.text.Some? && !IsBlank(reply.text.value)
  }

  /** The text handed back for an accepted response: with the follow-up
      note when the model stopped at the token limit. */
  function Delivered(reply: Reply): (text: string)
    requires Usable(reply)
  {
    if reply.finishReason == Some(MAX_TOKENS_REASON) then reply.text.value + TRUNCATION_NOTE else reply.text.value
  }

  /** The delivered text starts with the response text and carries the note
      exactly when the finish reason is `MAX_TOKENS`. */
  lemma DeliveredText(reply: Reply)
    requires Usable(reply)
    ensures |Delivered(reply)| >= |reply.text.value| && Delivered(reply)[..|reply.text.value|] == reply.text.value
    ensures Delivered(reply) == reply.text.value + TRUNCATION_NOTE <==> reply.finishReason == Some(MAX_TOKENS_REASON)
  {
    if reply.finishReason == Some(MAX_TOKENS_REASON) {
      assert (reply.text.value + TRUNCATION_NOTE)[..|reply.text.value|] == reply.text.value;
    } else {
      assert |reply.text.value + TRUNCATION_NOTE| > |reply.text.value|;
    }
  }

  /** The loop from attempt `attempt` on, with `lastError` as it stands: the
      outcome, and the number of calls made from the first attempt. The
      calls are answered from `answer(base)` on. */
  function Retry(answer: nat -> Reply, base: nat, attempt: nat, lastError: string): (Result<string, GenerationError>, nat)
    requires attempt <= MAX_RETRIES
    decreases MAX_RETRIES - attempt
  {
    if attempt == MAX_RETRIES then
      (Err(FeedbackGenerationError("Gemini returned " + lastError + " after " + NatToString(MAX_RETRIES) + " attempts")), attempt)
    else
      var reply := answer(base + attempt);
      if reply.Raised? then
        if attempt < MAX_RETRIES - 1 then Retry(answer, base, attempt + 1, reply.message)
        else (Err(FeedbackGenerationError("Gemini API error: " + reply.message)), attempt + 1)
      else if !Usable(reply) then Retry(answer, base, attempt + 1, EMPTY_RESPONSE)
      else (Ok(Delivered(reply)), attempt + 1)
  }

  /** `_call_gemini` with two attempts, case by case: the first usable
      response wins after one or two calls; otherwise the second answer
      decides the error, an exception on the last attempt being reported as
      an API error and an empty answer as "empty response". */
  lemma RetryCases(answer: nat -> Reply, base: nat)
    ensures 1 <= Retry(answer, base, 0, NO_ERROR_YET).1 <= MAX_RETRIES
    ensures Usable(answer(base)) ==> Retry(answer, base, 0, NO_ERROR_YET) == (Ok(Delivered(answer(base))), 1)
    ensures !Usable(answer(base)) && Usable(answer(base + 1)) ==>
      Retry(answer, base, 0, NO_ERROR_YET) == (Ok(Delivered(answer(base + 1))), 2)
    ensures !Usable(answer(base)) && answer(base + 1).Raised? ==>
      Retry(answer, base, 0, NO_ERROR_YET) == (Err(FeedbackGenerationError("Gemini API error: " + answer(base + 1).message)), 2)
    ensures !Usable(answer(base)) && answer(base + 1).Response? && !Usable(answer(base + 1)) ==>
      Retry(answer, base, 0, NO_ERROR_YET) == (Err(FeedbackGenerationError("Gemini returned empty response after 2 attempts")), 2)
  {
    assert NatToString(MAX_RETRIES) == "2";
    assert "Gemini returned " + EMPTY_RESPONSE + " after " + "2" + " attempts" == "Gemini returned empty response after 2 attempts";
  }

  /** The requests `n` calls send. */
  function Repeat(request: Request, n: nat): (requests: seq<Request>)
    ensures |requests| == n && forall k :: 0 <= k < n ==> requests[k] == request
  {
    seq(n, _ => request)
  }

  /** The Gemini client: answers the `k`-th call with `answer(k)` and
      records every request. */
  class GeminiClient {
    const answer: nat -> Reply
    var requests: seq<Request>

    constructor (answer: nat -> Reply)
      ensures this.answer == answer && requests == []
    {
      this.answer := answer;
      requests := [];
    }

    method GenerateContent(request: Request) returns (reply: Reply)
      modifies this
      ensures requests == old(requests) + [request]
      ensures reply == answer(|old(requests)|)
    {
      reply := answer(|requests|);
      requests := requests + [request];
    }
  }

  // ---------------------------------------------------------------------------
  // chat: the conversation and the system instruction
  // ---------------------------------------------------------------------------

  /** The turn a stored message becomes: `assistant` is sent as `model`,
      every other role as `user`. */
  function HistoryTurn(message: ChatMessage): Content
  {
    Content(if message.role == ASSISTANT then MODEL else USER, message.content)
  }

  function HistoryTurns(history: seq<ChatMessage>): (turns: seq<Content>)
    ensures |turns| == |history|
    ensures forall k :: 0 <= k < |history| ==> turns[k] == HistoryTurn(history[k])
  {
    if history == [] then [] else [HistoryTurn(history[0])] + HistoryTurns(history[1..])
  }

  /** The `contents` of `chat`. */
  function ChatContents(coachingFeedback: string, history: seq<ChatMessage>, newMessage: string): (contents: seq<Content>)
    ensures |contents| == 3 + |history|
    ensures contents[0] == Content(USER, OPENING_REQUEST) && contents[1] == Content(MODEL, coachingFeedback)
    ensures forall k :: 0 <= k < |history| ==> contents[2 + k] == HistoryTurn(history[k])
    ensures contents[|contents| - 1] == Content(USER, newMessage)
  {
    [Content(USER, OPENING_REQUEST), Content(MODEL, coachingFeedback)] + HistoryTurns(history) + [Content(USER, newMessage)]
  }

  /** A history turn keeps the message text, and its role is `model` exactly
      for an assistant message. */
  lemma HistoryRoles(message: ChatMessage)
    ensures HistoryTurn(message).text == message.content
    ensures HistoryTurn(message).role == MODEL <==> message.role == ASSISTANT
    ensures HistoryTurn(message).role == USER <==> message.role != ASSISTANT
  {
  }

  /** The lines that follow `CHAT_SYSTEM_PROMPT` in the chat's system instruction. */
  function ChatContext(errors: seq<AggregatedError>, surferName: Option<string>, skillLevel: Option<string>): seq<string>
  {
    [""] + ProfileLines(surferName, skillLevel) + ["", "Session analysis summary:\n" + ErrorsSummary(errors)]
  }

  /** The conversation `chat` sends, built turn by turn: the opening request,
      the coaching feedback, the stored history, the new message. */
  method ChatTurns(coachingFeedback: string, history: seq<ChatMessage>, newMessage: string)
    returns (contents: seq<Content>)
    ensures contents == ChatContents(coachingFeedback, history, newMessage)
  {
    contents := [Content(USER, OPENING_REQUEST), Content(MODEL, coachingFeedback)];
    for i := 0 to |history|
      invariant contents == [Content(USER, OPENING_REQUEST), Content(MODEL, coachingFeedback)] + HistoryTurns(history[..i])
    {
      assert history[..i + 1] == history[..i] + [history[i]];
      HistoryTurnsAppend(history[..i], [history[i]]);
      contents := contents + [HistoryTurn(history[i])];
    }
    assert history[..|history|] == history;
    contents := contents + [Content(USER, newMessage)];
  }

  class FeedbackGenerator {
    const client: GeminiClient
    const model: string

    constructor (client: GeminiClient, model: string := DEFAULT_MODEL)
      ensures this.client == client && this.model == model
    {
      this.client := client;
      this.model := model;
    }

    /** `_call_gemini`: at most `MAX_RETRIES` identical requests, and the
        outcome `Retry` describes. */
    method CallGemini(contents: Contents, instruction: SystemInstruction, maxTokens: nat)
      returns (result: Result<string, GenerationError>)
      modifies client
      ensures result == Retry(client.answer, |old(client.requests)|, 0, NO_ERROR_YET).0
      ensures client.requests == old(client.requests) +
        Repeat(Request(model, contents, instruction, maxTokens), Retry(client.answer, |old(client.requests)|, 0, NO_ERROR_YET).1)
    {
      var request := Request(model, contents, instruction, maxTokens);
      ghost var base := |client.requests|;
      var lastError := NO_ERROR_YET;
      var attempt := 0;
      while attempt < MAX_RETRIES
        invariant 0 <= attempt <= MAX_RETRIES
        invariant client.requests == old(client.requests) + Repeat(request, attempt)
        invariant Retry(client.answer, base, 0, NO_ERROR_YET) == Retry(client.answer, base, attempt, lastError)
      {
        var reply := client.GenerateContent(request);
        assert client.requests == old(client.requests) + Repeat(request, attempt + 1);
        if reply.Raised? {
          if attempt < MAX_RETRIES - 1 {
            lastError := reply.message;
            attempt := attempt + 1;
            continue;
          }
          return Err(FeedbackGenerationError("Gemini API error: " + reply.message));
        }
        var text := reply.text;
        if text.None? || IsBlank(text.value) {
          lastError := EMPTY_RESPONSE;
          attempt := attempt + 1;
          continue;
        }
        var delivered := text.value;
        if reply.finishReason == Some(MAX_TOKENS_REASON) {
          delivered := delivered + TRUNCATION_NOTE;
        }
        return Ok(delivered);
      }
      return Err(FeedbackGenerationError("Gemini returned " + lastError + " after " + NatToString(MAX_RETRIES) + " attempts"));
    }

    /** `generate_feedback`: the errors prompt, `SYSTEM_PROMPT`, 8192 tokens. */
    method GenerateFeedback(errors: seq<AggregatedError>, surferName: Option<string>, skillLevel: Option<string>,
                            repr: real -> string)
      returns (result: Result<string, GenerationError>)
      modifies client
      ensures result == Retry(client.answer, |old(client.requests)|, 0, NO_ERROR_YET).0
      ensures client.requests == old(client.requests) +
        Repeat(Request(model, Prompt(ErrorsPrompt(errors, surferName, skillLevel, repr)), FeedbackPrompt, MAX_FEEDBACK_TOKENS),
               Retry(client.answer, |old(client.requests)|, 0, NO_ERROR_YET).1)
    {
      var userMessage := ErrorsPrompt(errors, surferName, skillLevel, repr);
      result := CallGemini(Prompt(userMessage), FeedbackPrompt, MAX_FEEDBACK_TOKENS);
    }

    /** `chat`: the conversation after the session's feedback, the chat
        instruction with the session summary, 4096 tokens. */
    method Chat(errors: seq<AggregatedError>, coachingFeedback: string, history: seq<ChatMessage>, newMessage: string,
                surferName: Option<string>, skillLevel: Option<string>)
      returns (result: Result<string, GenerationError>)
      modifies client
      ensures result == Retry(client.answer, |old(client.requests)|, 0, NO_ERROR_YET).0
      ensures client.requests == old(client.requests) +
        Repeat(Request(model, Turns(ChatContents(coachingFeedback, history, newMessage)),
                       ChatPrompt(ChatContext(errors, surferName, skillLevel)), MAX_CHAT_TOKENS),
               Retry(client.answer, |old(client.requests)|, 0, NO_ERROR_YET).1)
    {
      var context := ChatContext(errors, surferName, skillLevel);
      var contents := ChatTurns(coachingFeedback, history, newMessage);
      result := CallGemini(Turns(contents), ChatPrompt(context), MAX_CHAT_TOKENS);
    }
  }

  lemma {:induction false} HistoryTurnsAppend(a: seq<ChatMessage>, b: seq<ChatMessage>)
    ensures HistoryTurns(a + b) == HistoryTurns(a) + HistoryTurns(b)
  {
    if a == [] {
      assert a + b == b;
    } else {
      assert (a + b)[1..] == a[1..] + b;
      HistoryTurnsAppend(a[1..], b);
    }
  }
}
