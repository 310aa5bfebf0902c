/**
 * The project-idea endpoint: builds the generation prompt from the request options, strips the
 * markdown fences the model may wrap its reply in, and answers with the parsed array of ideas or
 * with an error. The model call and JSON parsing are oracles.
 */
module ProjectGenRoute {
  import opened Common

  /** One generated project idea, as the endpoint forwards it. */
  datatype Idea = Idea(
    id: string,
    title: string,
    summary: string,
    description: string,
    difficulty: string,
    estimatedTime: string,
    technologies: seq<string>,
    features: seq<string>,
    learningOutcomes: seq<string>,
    category: string)

  /** The request body's options, each possibly absent. */
  datatype GenRequest = GenRequest(
    prompt: Option<string>,
    difficulty: Option<string>,
    category: Option<string>,
    count: Option<int>)

  /**
   * The parsed request body: not JSON at all, the JSON value `null` (on which `buildPrompt` throws
   * reading `options.count`), or any other value; a primitive such as `5` has no option fields and
   * so arrives as a request with every option absent.
   */
  datatype GenBody = Unparsable | NullBody | Request(req: GenRequest)

  /** What the JSON parser makes of the cleaned reply: a syntax error, an array, or another value. */
  datatype Json = Malformed | JsonArray(ideas: seq<Idea>) | JsonOther

  /** The endpoint's answer: HTTP status, the error field when present, and the ideas. */
  datatype Response = Response(status: nat, error: Option<string>, ideas: seq<Idea>)

  /** The answer together with the prompt sent to the model, none when the model was not called. */
  datatype Handled = Handled(response: Response, modelPrompt: Option<string>)

  const Categories: seq<string> := [
    "Web Application", "Mobile App", "CLI Tool", "API/Backend", "Full Stack",
    "DevOps/Automation", "AI/ML Project", "Game Development", "Browser Extension"]

  /** `CATEGORIES.join(', ')`. */
  const CategoryList := Join(Categories, ", ")

  const DefaultCount := 6

  const KeyMissingError := "GEMINI_API_KEY not configured"

  const GenerateError := "Failed to generate project ideas. Please try again."

  // ---------------------------------------------------------------------------------------------
  // Prompt

  /** `options.count || 6`: absent and zero both mean six. */
  function PromptCount(count: Option<int>): (n: int)
    ensures count.None? || count.value == 0 ==> n == DefaultCount
    ensures count.Some? && count.value != 0 ==> n == count.value
  {
    if count.Some? && count.value != 0 then count.value else DefaultCount
  }

  /** `options.difficulty || 'any'`, then the line shown only when the difficulty is not "any". */
  function DifficultyLine(difficulty: Option<string>): (line: string)
    ensures line != "" <==> difficulty.Some? && difficulty.value != "" && difficulty.value != "any"
    ensures line != "" ==> line == "- Suitable for " + difficulty.value + " level developers"
  {
    var d := if difficulty.Some? && difficulty.value != "" then difficulty.value else "any";
    if d != "any" then "- Suitable for " + d + " level developers" else ""
  }

  /** `options.category || ''`, then the line shown only for a non-empty category. */
  function CategoryLine(category: Option<string>): (line: string)
    ensures line != "" <==> category.Some? && category.value != ""
    ensures line != "" ==> line == "- In the " + category.value + " category"
  {
    if category.Some? && category.value != "" then "- In the " + category.value + " category" else ""
  }

  /** The template's fixed opening line and blank line. */
  const Opening: seq<string> := [
    "You are an expert software engineering mentor creating portfolio-worthy project ideas.",
    ""]

  /** The fixed requirement bullets after the count line. */
  const Requirements: seq<string> := [
    "- Practical and implementable",
    "- Good for building a developer portfolio",
    "- Clear in scop and requirements"]

  /** The fixed description of the fields each idea must have, up to the category field. */
  const FieldLines: seq<string> := [
    "",
    "For each project, provide a JSON object with these exact fields:",
    "- id: A unique kebab-case identifier (e.g., \"task-tracker-pro\")",
    "- title: Creative, memorable project name",
    "- summary: 1-2 sentence elevator pitch",
    "- description: 2-3 paragraphs explaining the project, its purpose, and potential users",
    "- difficulty: Exactly one of \"beginner\", \"intermediate\", or \"advanced\"",
    "- estimatedTime: Realistic completion estimate (e.g., \"2-3 weeks)",
    "- technologies: Array of 4-6 recommended technologies",
    "- features: Array of 4-6 specific features to implement",
    "- learningOutcomes: Array of 3-5 skills/concepts the developer will learn"]

  /** The fixed closing instructions. */
  const Closing: seq<string> := [
    "",
    "IMPORTANT: Respond with only a valid JSON array. No markdown, no code blocks, no additional text.",
    "Example: [{\"id\": \"project-1\", \"title\": \"...\", ...}]"]

  /** The text around the number of ideas in the count line. */
  const CountPrefix := "Generate "
  const CountSuffix := " unique project ideas that are:"

  /** The line that states how many ideas to generate. */
  function CountLine(count: Option<int>): (line: string)
    ensures |line| > |CountPrefix| + |CountSuffix|
    ensures StartsWith(line, CountPrefix) && EndsWith(line, CountSuffix)
    ensures var n := line[|CountPrefix|..|line| - |CountSuffix|]; IntText(n) && IntValue(n) == PromptCount(count)
  {
    var n := IntToString(PromptCount(count));
    var line := CountPrefix + n + CountSuffix;
    assert line[|CountPrefix|..|line| - |CountSuffix|] == n;
    assert line[..|CountPrefix|] == CountPrefix && line[|line| - |CountSuffix|..] == CountSuffix;
    line
  }

  /** The lines of the prompt template. */
  function PromptLines(req: GenRequest): (lines: seq<string>)
    ensures |lines| == 23
    ensures lines[2] == CountLine(req.count)
    ensures lines[6] == DifficultyLine(req.difficulty) && lines[7] == CategoryLine(req.category)
    ensures lines[19] == "- category: One of: " + CategoryList
    ensures lines[0] == Opening[0] && lines[22] == Closing[2]
  {
    var head := Opening + [CountLine(req.count)] + Requirements;
    var options := [DifficultyLine(req.difficulty), CategoryLine(req.category)];
    var tail := FieldLines + ["- category: One of: " + CategoryList] + Closing;
    HeadIndex(CountLine(req.count));
    TailIndex("- category: One of: " + CategoryList);
    SegmentsIndex(head, options, tail);
    head + options + tail
  }

  lemma HeadIndex(count: string)
    ensures var head := Opening + [count] + Requirements; |head| == 6 && head[2] == count && head[0] == Opening[0]
  {
    assert |Opening| == 2 && |Requirements| == 3;
  }

  lemma TailIndex(categories: string)
    ensures var tail := FieldLines + [categories] + Closing;
      |tail| == 15 && tail[11] == categories && tail[14] == Closing[2]
  {
    assert |FieldLines| == 11 && |Closing| == 3;
  }

  lemma SegmentsIndex(head: seq<string>, options: seq<string>, tail: seq<string>)
    requires |head| == 6 && |options| == 2 && |tail| == 15
    ensures var lines := head + options + tail;
      && |lines| == 23 && lines[2] == head[2] && lines[6] == options[0] && lines[7] == options[1]
      && lines[19] == tail[11] && lines[0] == head[0] && lines[22] == tail[14]
  {
  }

  /**
   * buildPrompt: the template lines joined by newlines. It opens with the mentor persona and
   * closes with the example of the JSON array the reply must be.
   */
  function BuildPrompt(req: GenRequest): (prompt: string)
    ensures StartsWith(prompt, Opening[0])
    ensures EndsWith(prompt, Closing[2])
  {
    Join(PromptLines(req), "\n")
  }

  /**
   * The prompt states the requested count (six by default), carries the difficulty line exactly
   * when a difficulty other than "any" is given and the category line exactly when a category is.
   */
  lemma PromptContents(req: GenRequest)
    ensures var lines := PromptLines(req);
      && Within(lines[2], BuildPrompt(req), JoinOffset(lines, "\n", 2))
      && Within(lines[6], BuildPrompt(req), JoinOffset(lines, "\n", 6))
      && Within(lines[7], BuildPrompt(req), JoinOffset(lines, "\n", 7))
      && (lines[6] != "" <==> req.difficulty.Some? && req.difficulty.value !in {"", "any"})
      && (lines[7] != "" <==> req.category.Some? && req.category.value != "")
  {
    var lines := PromptLines(req);
    JoinContains(lines, "\n", 2);
    JoinContains(lines, "\n", 6);
    JoinContains(lines, "\n", 7);
  }

  /** The free-text `prompt` option plays no part in the prompt. */
  lemma BuildPromptIgnoresPromptOption(req: GenRequest, text: Option<string>)
    ensures BuildPrompt(req.(prompt := text)) == BuildPrompt(req)
  {
  }

  // ---------------------------------------------------------------------------------------------
  // Cleaning the reply

  /** How many leading characters the fence strip removes from the trimmed reply. */
  function OpeningFenceLength(t: string): (n: nat)
    ensures n <= |t|
    ensures n == 7 <==> StartsWith(t, "```json")
    ensures n == 3 <==> StartsWith(t, "```") && !StartsWith(t, "```json")
    ensures n == 0 <==> !StartsWith(t, "```")
  {
    if StartsWith(t, "```json") then
      assert t[..3] == t[..7][..3];
      7
    else if StartsWith(t, "```") then 3
    else 0
  }

  /** How many trailing characters the closing-fence strip removes. */
  function ClosingFenceLength(t: string): (n: nat)
    ensures n <= |t|
    ensures n == 3 <==> EndsWith(t, "```")
    ensures n == 0 <==> !EndsWith(t, "```")
  {
    if EndsWith(t, "```") then 3 else 0
  }

  /** The trimmed reply without its opening fence and its closing fence. */
  function StripFences(t: string): (b: string)
    ensures Within(b, t, OpeningFenceLength(t))
    ensures |b| == |t| - OpeningFenceLength(t) - ClosingFenceLength(t[OpeningFenceLength(t)..])
  {
    var n := OpeningFenceLength(t);
    var a := t[n..];
    var m := ClosingFenceLength(a);
    DropBothEnds(t, n, m);
    a[..|a| - m]
  }

  /** Dropping `n` characters in front and `m` behind leaves a piece that starts at `n`. */
  lemma DropBothEnds(t: string, n: nat, m: nat)
    requires n + m <= |t|
    ensures Within(t[n..][..|t| - n - m], t, n)
  {
    assert t[n..][..|t| - n - m] == t[n..|t| - m];
  }

  /** Where the cleaned reply starts in the raw reply. */
  function CleanOffset(text: string): nat
  {
    TrimOffset(StripFences(Trim(text))) + OpeningFenceLength(Trim(text)) + TrimOffset(text)
  }

  /**
   * The reply with surrounding white space, one leading "```json" or "```" and one trailing "```"
   * removed: a contiguous piece of the raw reply with no white space at either end.
   */
  function CleanReply(text: string): (r: string)
    ensures Within(r, text, CleanOffset(text))
    ensures r == [] || (!IsSpace(r[0]) && !IsSpace(r[|r| - 1]))
  {
    var r := Trim(StripFences(Trim(text)));
    assert Within(r, text, CleanOffset(text)) by {
      CleanWithin(text);
    }
    r
  }

  lemma CleanWithin(text: string)
    ensures Within(Trim(StripFences(Trim(text))), text, CleanOffset(text))
  {
    var t := Trim(text);
    var b := StripFences(t);
    WithinThree(Trim(b), b, t, text, TrimOffset(b), OpeningFenceLength(t), TrimOffset(text), CleanOffset(text));
  }

  /** A piece of a piece of a piece of `s` is a piece of `s`, at the summed offset. */
  lemma WithinThree(r: string, b: string, t: string, s: string, p: nat, k: nat, o: nat, c: nat)
    requires Within(r, b, p) && Within(b, t, k) && Within(t, s, o)
    requires c == p + k + o
    ensures Within(r, s, c)
  {
    WithinTrans(r, b, t, p, k);
    WithinTrans(r, t, s, p + k, o);
  }

  /** A reply wrapped as "```json … ```" comes back as its trimmed body. */
  lemma CleanStripsJsonFence(body: string)
    ensures CleanReply("```json" + body + "```") == Trim(body)
  {
    var text := "```json" + body + "```";
    assert text[0] == '`' && text[|text| - 1] == '`';
    TrimKeepsUnpadded(text);
    StripJsonFence(body);
  }

  /** A text that neither starts nor ends with white space is its own trim. */
  lemma TrimKeepsUnpadded(text: string)
    requires text != [] && !IsSpace(text[0]) && !IsSpace(text[|text| - 1])
    ensures Trim(text) == text
  {
    assert TrimStart(text) == text;
    assert TrimEnd(text) == text;
  }

  /** Both fences come off a fenced JSON body. */
  lemma StripJsonFence(body: string)
    ensures StripFences("```json" + body + "```") == body
  {
    var text := "```json" + body + "```";
    assert text[..7] == "```json";
    var a := text[7..];
    assert a == body + "```";
    assert a[|a| - 3..] == "```";
    assert a[..|a| - 3] == body;
  }

  /** A bare reply without fences or surrounding white space is kept as it is. */
  lemma CleanKeepsBareReply(text: string)
    requires Trim(text) == text && !StartsWith(text, "```") && !EndsWith(text, "```")
    ensures CleanReply(text) == text
  {
    assert text[..|text|] == text;
  }

  // ---------------------------------------------------------------------------------------------
  // The handler

  /**
   * POST: a body that is not JSON answers 500 with the generic error; a missing API key then
   * answers 500 before the prompt is built, whatever the body holds; a null body makes the prompt
   * builder throw and a failing model call fails too, both answered 500 with the generic error;
   * a reply that parses to an array answers 200 with those ideas; anything else answers 500 with
   * the generic error. Errors always come with an empty list of ideas.
   */
  function HandleGenerate(body: GenBody, hasApiKey: bool,
                          generate: string -> Result<string>, parse: string -> Json): (h: Handled)
    ensures h.modelPrompt.Some? <==> body.Request? && hasApiKey
    ensures h.modelPrompt.Some? ==> h.modelPrompt.value == BuildPrompt(body.req)
    ensures h.response.status == 200 || h.response.status == 500
    ensures h.response.status == 200 <==> h.response.error.None?
    ensures h.response.status == 500 ==> h.response.ideas == []
    ensures !body.Unparsable? && !hasApiKey ==> h.response == Response(500, Some(KeyMissingError), [])
    ensures body.NullBody? && hasApiKey ==> h == Handled(Response(500, Some(GenerateError), []), None)
    ensures h.response.status == 200 <==>
      && body.Request? && hasApiKey && generate(BuildPrompt(body.req)).Ok?
      && parse(CleanReply(generate(BuildPrompt(body.req)).value)).JsonArray?
    ensures h.response.status == 200 ==>
      h.response.ideas == parse(CleanReply(generate(BuildPrompt(body.req)).value)).ideas
    ensures h.response.status == 500 && (body.Unparsable? || hasApiKey) ==>
      h.response.error == Some(GenerateError)
  {
    if body.Unparsable? then Handled(Response(500, Some(GenerateError), []), None)
    else if !hasApiKey then Handled(Response(500, Some(KeyMissingError), []), None)
    else if body.NullBody? then Handled(Response(500, Some(GenerateError), []), None)
    else
      var prompt := BuildPrompt(body.req);
      var reply := generate(prompt);
      if reply.Err? then Handled(Response(500, Some(GenerateError), []), Some(prompt))
      else match parse(CleanReply(reply.value))
        case JsonArray(ideas) => Handled(Response(200, None, ideas), Some(prompt))
        case _ => Handled(Response(500, Some(GenerateError), []), Some(prompt))
  }
}
