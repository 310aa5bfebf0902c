/**
 * The project-idea generator's client state: the ideas shown, whether a request is running, the
 * last error and the idea the user opened. `GenerateIdeas` is the part before the await and
 * returns the posted body; `Complete` takes what came back.
 */
module IdeaGenerator {
  import opened Common
  import opened ProjectGenRoute

  /** What the posted request came back with: a decoded response, or a thrown value. */
  datatype GenReply =
    | Answered(ok: bool, ideas: seq<Idea>, error: Option<string>)
    | Failed(thrown: Thrown)

  const DefaultError := "Failed to generate project ideas"

  /** `options || {}`: no options posts an empty object, every field absent. */
  const NoOptions := GenRequest(None, None, None, None)

  /**
   * The ideas, or the error message: a response that is not ok or carries an error is an error with
   * that text (or the default); a thrown Error gives its message.
   */
  function Outcome(reply: GenReply): (r: Result<seq<Idea>>)
    ensures r.Ok? <==> reply.Answered? && reply.ok && !HasError(reply.error)
    ensures r.Ok? ==> r.value == reply.ideas
    ensures reply.Answered? && HasError(reply.error) ==> r == Err(reply.error.value)
    ensures reply.Answered? && !reply.ok && !HasError(reply.error) ==> r == Err(DefaultError)
    ensures reply.Failed? ==> r == Err(ErrorMessage(reply.thrown, UnknownError))
  {
    match reply
    case Answered(ok, ideas, error) =>
      if !ok || HasError(error) then Err(if HasError(error) then error.value else DefaultError)
      else Ok(ideas)
    case Failed(t) => Err(ErrorMessage(t, UnknownError))
  }

  /** How the endpoint's answer reaches the client: ok for status 200, with its ideas and error fields. */
  function ReplyOf(r: Response): (reply: GenReply)
    ensures reply == Answered(r.status == 200, r.ideas, r.error)
  {
    Answered(r.status == 200, r.ideas, r.error)
  }

  /**
   * Against the endpoint as modelled: the client shows new ideas exactly when the endpoint answered
   * 200, and otherwise reports the endpoint's own error text.
   */
  lemma EndpointAnswerReachesUser(body: GenBody, hasApiKey: bool,
                                  generate: string -> Result<string>, parse: string -> Json)
    ensures var resp := HandleGenerate(body, hasApiKey, generate, parse).response;
      && (Outcome(ReplyOf(resp)).Ok? <==> resp.status == 200)
      && (resp.status == 200 ==> Outcome(ReplyOf(resp)) == Ok(resp.ideas))
      && (!body.Unparsable? && !hasApiKey ==> Outcome(ReplyOf(resp)) == Err(KeyMissingError))
      && ((body.Unparsable? || hasApiKey) && resp.status != 200 ==> Outcome(ReplyOf(resp)) == Err(GenerateError))
  {
    var resp := HandleGenerate(body, hasApiKey, generate, parse).response;
    assert resp.status == 200 <==> resp.error.None?;
    if resp.status != 200 {
      assert resp.error == Some(GenerateError) || resp.error == Some(KeyMissingError);
    }
  }

  class Generator {
    var ideas: seq<Idea>
    var isLoading: bool
    var error: Option<string>
    var selected: Option<Idea>

    constructor ()
      ensures ideas == [] && !isLoading && error.None? && selected.None?
    {
      ideas, isLoading, error, selected := [], false, None, None;
    }

    /** generateIdeas up to its await: loading starts, the error clears, the options are posted. */
    method GenerateIdeas(options: Option<GenRequest>) returns (body: GenRequest)
      modifies this
      ensures body == options.GetOr(NoOptions)
      ensures isLoading && error.None?
      ensures ideas == old(ideas) && selected == old(selected)
    {
      isLoading := true;
      error := None;
      body := options.GetOr(NoOptions);
    }

    /**
     * generateIdeas after its await: success replaces the ideas wholesale, failure records the
     * error and keeps the ideas already shown; loading ends either way.
     */
    method Complete(reply: GenReply)
      modifies this
      ensures Outcome(reply).Ok? ==> ideas == Outcome(reply).value && error == old(error)
      ensures Outcome(reply).Err? ==> ideas == old(ideas) && error == Some(Outcome(reply).message)
      ensures !isLoading && selected == old(selected)
    {
      var outcome := Outcome(reply);
      if outcome.Ok? {
        ideas := outcome.value;
      } else {
        error := Some(outcome.message);
      }
      isLoading := false;
    }

    /** clearIdeas: ideas, error and selection reset; loading untouched. */
    method ClearIdeas()
      modifies this
      ensures ideas == [] && error.None? && selected.None? && isLoading == old(isLoading)
    {
      ideas, error, selected := [], None, None;
    }

    /** selectIdea: only the selection changes. */
    method SelectIdea(idea: Option<Idea>)
      modifies this
      ensures selected == idea
      ensures ideas == old(ideas) && isLoading == old(isLoading) && error == old(error)
    {
      selected := idea;
    }

    /** A whole generateIdeas call: on success error is null, on failure the ideas survive. */
    method Generate(options: Option<GenRequest>, reply: GenReply) returns (body: GenRequest)
      modifies this
      ensures body == options.GetOr(NoOptions)
      ensures Outcome(reply).Ok? ==> ideas == reply.ideas && error.None?
      ensures Outcome(reply).Err? ==> ideas == old(ideas) && error == Some(Outcome(reply).message)
      ensures !isLoading && selected == old(selected)
    {
      body := GenerateIdeas(options);
      Complete(reply);
    }
  }
}
