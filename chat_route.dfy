/**
 * The chat endpoint: validates the request, renders the last ten turns of the conversation,
 * assembles the prompt around the assistant's system text and forwards the model's reply.
 * The model call is an oracle; the fixed persona text is the parameter `system`.
 */
module ChatRoute {
  import opened Common

  /** The `message` field of the request body: absent, a string, or a value of another type. */
  datatype MessageField = Missing | Text(s: string) | NotText

  /** One earlier turn sent along with the request. */
  datatype Turn = Turn(role: string, content: string)

  /**
   * The `history` field of the request body: absent or null (`?.` stops there), an array of turns,
   * or any other value, on which `slice(...).map` throws.
   */
  datatype HistoryField = NoHistory | Turns(turns: seq<Turn>) | NotList

  datatype ChatBody = ChatBody(message: MessageField, history: HistoryField)

  /** The endpoint's answer: HTTP status and either the reply or the error. */
  datatype ChatResponse = ChatResponse(status: nat, message: Option<string>, error: Option<string>)

  /** The answer together with the prompt sent to the model, none when the model was not called. */
  datatype Handled = Handled(response: ChatResponse, modelPrompt: Option<string>)

  const HistoryLimit := 10

  const MessageRequired := "Message is required"

  const KeyMissingError := "GEMINI_API_KEY is not configured"

  const GenerateError := "Failed to generate a response. Please try again."

  const HistoryHeader := "## Previous Conversation:\n"

  /** `!message || typeof message !== 'string'` is false: a non-empty string. */
  predicate ValidMessage(m: MessageField) {
    m.Text? && m.s != ""
  }

  /** One turn as a transcript line, labelled by who spoke. */
  function TurnLine(t: Turn): (line: string)
    ensures t.role == "user" ==> line == "User: " + t.content
    ensures t.role != "user" ==> line == "SyS-aI: " + t.content
    ensures |line| > 0
  {
    (if t.role == "user" then "User" else "SyS-aI") + ": " + t.content
  }

  /** The transcript lines of the last ten turns, in order. */
  function HistoryLines(h: seq<Turn>): (lines: seq<string>)
    ensures |lines| == Min(|h|, HistoryLimit)
    ensures forall i :: 0 <= i < |lines| ==> lines[i] == TurnLine(h[|h| - |lines| + i])
  {
    var recent := TakeLast(h, HistoryLimit);
    seq(|recent|, i requires 0 <= i < |recent| => TurnLine(recent[i]))
  }

  /**
   * The transcript of an array of turns: the lines joined by newlines. It is empty exactly when
   * there are no turns, and otherwise ends with the latest turn's line.
   */
  function HistoryText(h: seq<Turn>): (text: string)
    ensures text == "" <==> |h| == 0
    ensures |h| > 0 ==> EndsWith(text, TurnLine(h[|h| - 1]))
  {
    var lines := HistoryLines(h);
    var text := Join(lines, "\n");
    assert |h| > 0 ==>
      |lines[0]| > 0 && StartsWith(text, lines[0]) && lines[|lines| - 1] == TurnLine(h[|h| - 1]);
    text
  }

  /**
   * `history?.slice(-10).map(...).join('\n') || ''`: empty for an absent history, the transcript
   * of an array, and none, because the expression throws, for any other value.
   */
  function Transcript(history: HistoryField): (text: Option<string>)
    ensures text.None? <==> history.NotList?
    ensures history.NoHistory? ==> text == Some("")
    ensures history.Turns? ==> text == Some(HistoryText(history.turns))
  {
    match history
    case NoHistory => Some("")
    case Turns(h) => Some(HistoryText(h))
    case NotList => None
  }

  /** Turns older than the last ten play no part in the transcript. */
  lemma HistoryKeepsLastTen(h: seq<Turn>, older: seq<Turn>)
    requires |h| >= HistoryLimit
    ensures HistoryText(older + h) == HistoryText(h[|h| - HistoryLimit..])
  {
    var a, b := HistoryLines(older + h), HistoryLines(h[|h| - HistoryLimit..]);
    assert |a| == |b| == HistoryLimit;
    forall i | 0 <= i < HistoryLimit ensures a[i] == b[i] {
      assert (older + h)[|older + h| - HistoryLimit + i] == h[|h| - HistoryLimit + i];
    }
    assert a == b;
  }

  /** The conversation section, present only for a non-empty transcript. */
  function HistorySection(hist: string): (section: string)
    ensures hist == "" ==> section == ""
    ensures hist != "" ==> section == HistoryHeader + hist + "\n"
  {
    if hist != "" then HistoryHeader + hist + "\n" else ""
  }

  /** The fixed end of every prompt: the current message, then the assistant's cue. */
  function PromptTail(message: string): (tail: string)
    ensures StartsWith(tail, "\n## Current User Message:\nUser: ")
    ensures EndsWith(tail, "User: " + message + "\n\nSyS-aI:")
  {
    var tail := "\n## Current User Message:\nUser: " + message + "\n\nSyS-aI:";
    assert tail == "\n## Current User Message:\n" + ("User: " + message + "\n\nSyS-aI:");
    tail
  }

  /** The full prompt: system text, the conversation section when there is one, the current message. */
  function ChatPrompt(system: string, hist: string, message: string): (prompt: string)
    ensures StartsWith(prompt, system + "\n")
    ensures EndsWith(prompt, "User: " + message + "\n\nSyS-aI:")
  {
    var head := system + "\n" + HistorySection(hist);
    var tail := PromptTail(message);
    assert (head + tail)[..|system + "\n"|] == system + "\n";
    assert (head + tail)[|head + tail| - |tail|..] == tail;
    assert tail[|tail| - |"User: " + message + "\n\nSyS-aI:"|..] == "User: " + message + "\n\nSyS-aI:";
    head + tail
  }

  /**
   * Right after the system text and its newline, the prompt carries the conversation header when
   * the transcript is non-empty, and the blank line that opens the current message otherwise.
   */
  lemma PromptHistorySection(system: string, hist: string, message: string)
    ensures var prompt := ChatPrompt(system, hist, message);
      var at := |system| + 1;
      && (hist != "" ==> Within(HistoryHeader + hist, prompt, at))
      && (hist == "" ==> at < |prompt| && prompt[at] == '\n')
  {
    var prompt := ChatPrompt(system, hist, message);
    var tail := PromptTail(message);
    var head := system + "\n";
    if hist != "" {
      var section := HistoryHeader + hist;
      assert prompt == head + (section + "\n") + tail;
      assert head + (section + "\n") + tail == head + section + ("\n" + tail);
      MiddleWithin(head, section, "\n" + tail);
    } else {
      assert prompt == head + tail;
      assert tail[0] == "\n## Current User Message:\nUser: "[0];
      assert prompt[|head|] == tail[0];
    }
  }

  /** The middle part of a three-part concatenation occurs right after the first. */
  lemma MiddleWithin(a: string, b: string, c: string)
    ensures Within(b, a + b + c, |a|)
  {
    assert (a + b + c)[|a|..|a| + |b|] == b;
  }

  /**
   * POST: an unreadable or null body answers 500 with the generic error; a missing, empty or
   * non-string message answers 400 before the API key is looked at; a missing key answers 500;
   * a history that is neither absent nor an array makes the transcript throw, and a failing model
   * call too, both answered 500 with the generic error; otherwise the model's text is the reply.
   */
  function HandleChat(body: Option<ChatBody>, system: string, hasApiKey: bool,
                      generate: string -> Result<string>): (h: Handled)
    ensures body.Some? && !ValidMessage(body.value.message) ==>
      h == Handled(ChatResponse(400, None, Some(MessageRequired)), None)
    ensures body.Some? && ValidMessage(body.value.message) && !hasApiKey ==>
      h == Handled(ChatResponse(500, None, Some(KeyMissingError)), None)
    ensures h.modelPrompt.Some? <==>
      body.Some? && ValidMessage(body.value.message) && hasApiKey && !body.value.history.NotList?
    ensures h.modelPrompt.Some? ==>
      h.modelPrompt.value == ChatPrompt(system, Transcript(body.value.history).value, body.value.message.s)
    ensures h.response.status == 200 <==> h.modelPrompt.Some? && generate(h.modelPrompt.value).Ok?
    ensures h.response.status == 200 ==>
      h.response.message == Some(generate(h.modelPrompt.value).value) && h.response.error.None?
    ensures h.response.status != 200 ==> h.response.message.None? && h.response.error.Some?
    ensures body.Some? && ValidMessage(body.value.message) && hasApiKey && body.value.history.NotList? ==>
      h == Handled(ChatResponse(500, None, Some(GenerateError)), None)
    ensures body.None? || (h.modelPrompt.Some? && h.response.status != 200) ==>
      h.response == ChatResponse(500, None, Some(GenerateError))
  {
    if body.None? then Handled(ChatResponse(500, None, Some(GenerateError)), None)
    else if !ValidMessage(body.value.message) then Handled(ChatResponse(400, None, Some(MessageRequired)), None)
    else if !hasApiKey then Handled(ChatResponse(500, None, Some(KeyMissingError)), None)
    else
      match Transcript(body.value.history)
      case None => Handled(ChatResponse(500, None, Some(GenerateError)), None)
      case Some(transcript) =>
        var prompt := ChatPrompt(system, transcript, body.value.message.s);
        match generate(prompt)
        case Ok(text) => Handled(ChatResponse(200, Some(text), None), Some(prompt))
        case Err(_) => Handled(ChatResponse(500, None, Some(GenerateError)), Some(prompt))
  }
}
