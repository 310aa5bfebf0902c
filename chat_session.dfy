/**
 * The chat widget's session state: the conversation, whether a reply is awaited, and the last
 * error. Sending is split at its await: `SendMessage` records the user's turn and returns the
 * request it posts, `Receive` takes what came back.
 */
module ChatSession {
  import opened Common
  import opened ChatRoute

  /** What the posted request came back with: a decoded response, or a thrown value. */
  datatype ChatReply =
    | Answered(ok: bool, message: string, error: Option<string>)
    | Failed(thrown: Thrown)

  const FallbackReply := "Apologies, I encountered a system error."

  /** The default error, spelled as the client spells it. */
  const DefaultError := "Failed to get repsonse"

  const UserRole := "user"

  const AssistantRole := "assistant"

  /**
   * The reply text, or the error message: a response that is not ok or carries an error is an
   * error with that text (or the default); a thrown Error gives its message.
   */
  function Outcome(reply: ChatReply): (r: Result<string>)
    ensures r.Ok? <==> reply.Answered? && reply.ok && !HasError(reply.error)
    ensures r.Ok? ==> r.value == reply.message
    ensures reply.Answered? && HasError(reply.error) ==> r == Err(reply.error.value)
    ensures reply.Answered? && !reply.ok && !HasError(reply.error) ==> r == Err(DefaultError)
    ensures reply.Failed? ==> r == Err(ErrorMessage(reply.thrown, UnknownError))
  {
    match reply
    case Answered(ok, message, error) =>
      if !ok || HasError(error) then Err(if HasError(error) then error.value else DefaultError)
      else Ok(message)
    case Failed(t) => Err(ErrorMessage(t, UnknownError))
  }

  /** The assistant turn appended once the reply is in: the reply, or the fixed apology. */
  function AssistantTurn(reply: ChatReply): (t: Turn)
    ensures t.role == AssistantRole
    ensures Outcome(reply).Ok? ==> t.content == reply.message
    ensures Outcome(reply).Err? ==> t.content == FallbackReply
  {
    Turn(AssistantRole, if Outcome(reply).Ok? then reply.message else FallbackReply)
  }

  /** The history posted with a message: the last ten turns including the new user turn. */
  function SentHistory(messages: seq<Turn>, user: Turn): (h: seq<Turn>)
    ensures |h| == Min(|messages| + 1, HistoryLimit)
    ensures h[|h| - 1] == user
    ensures h == (messages + [user])[|messages| + 1 - |h|..]
  {
    TakeLastKeepsLast(messages, user, HistoryLimit);
    TakeLast(messages + [user], HistoryLimit)
  }

  /** How the endpoint's answer reaches the client: ok for status 200, with its message and error fields. */
  function ReplyOf(r: ChatResponse): (reply: ChatReply)
    ensures reply.Answered? && reply.ok == (r.status == 200) && reply.error == r.error
  {
    Answered(r.status == 200, r.message.GetOr(""), r.error)
  }

  /**
   * A request the session sends is never refused by the endpoint's validation, and because the new
   * user turn is the last history entry, the prompt's transcript ends with the very line the prompt
   * then repeats as the current message.
   */
  lemma SentRequestIsValid(messages: seq<Turn>, content: string)
    requires Trim(content) != ""
    ensures var text := Trim(content);
      var user := Turn(UserRole, text);
      var body := ChatBody(Text(text), Turns(SentHistory(messages, user)));
      var lines := HistoryLines(body.history.turns);
      && ValidMessage(body.message)
      && lines[|lines| - 1] == "User: " + text
      && Transcript(body.history) == Some(HistoryText(body.history.turns))
      && EndsWith(HistoryText(body.history.turns), "User: " + text)
  {
  }

  /** An endpoint error reaches the user as that error's text; a reply reaches them as the assistant turn. */
  lemma EndpointAnswerReachesUser(r: ChatResponse)
    requires r.status == 200 <==> r.error.None?
    requires r.status == 200 ==> r.message.Some?
    ensures r.status == 200 ==> Outcome(ReplyOf(r)) == Ok(r.message.value)
    ensures r.status != 200 && r.error.value != "" ==> Outcome(ReplyOf(r)) == Err(r.error.value)
  {
  }

  class Session {
    var messages: seq<Turn>
    var isLoading: bool
    var error: Option<string>

    constructor ()
      ensures messages == [] && !isLoading && error.None?
    {
      messages, isLoading, error := [], false, None;
    }

    /**
     * sendMessage up to its await: ignored for blank content or while a reply is awaited; otherwise
     * clears the error, appends the trimmed user turn, starts loading and returns the posted body.
     */
    method SendMessage(content: string) returns (request: Option<ChatBody>)
      modifies this
      ensures Trim(content) == "" || old(isLoading) ==>
        request.None? && messages == old(messages) && isLoading == old(isLoading) && error == old(error)
      ensures Trim(content) != "" && !old(isLoading) ==>
        var user := Turn(UserRole, Trim(content));
        && request == Some(ChatBody(Text(Trim(content)), Turns(SentHistory(old(messages), user))))
        && messages == old(messages) + [user]
        && isLoading && error.None?
    {
      var text := Trim(content);
      if text == "" || isLoading {
        return None;
      }
      error := None;
      var user := Turn(UserRole, text);
      request := Some(ChatBody(Text(text), Turns(SentHistory(messages, user))));
      messages := messages + [user];
      isLoading := true;
    }

    /** sendMessage after its await: one assistant turn is appended, the error recorded, loading ends. */
    method Receive(reply: ChatReply)
      modifies this
      ensures messages == old(messages) + [AssistantTurn(reply)]
      ensures error == (if Outcome(reply).Ok? then old(error) else Some(Outcome(reply).message))
      ensures !isLoading
    {
      var outcome := Outcome(reply);
      if outcome.Err? {
        error := Some(outcome.message);
      }
      messages := messages + [AssistantTurn(reply)];
      isLoading := false;
    }

    /** clearMessages. */
    method ClearMessages()
      modifies this
      ensures messages == [] && error.None? && isLoading == old(isLoading)
    {
      messages := [];
      error := None;
    }

    /** A whole exchange: an accepted message adds exactly the user turn and then one assistant turn. */
    method Exchange(content: string, reply: ChatReply) returns (request: Option<ChatBody>)
      requires !isLoading
      modifies this
      ensures Trim(content) == "" ==> request.None? && messages == old(messages) && error == old(error)
      ensures Trim(content) != "" ==>
        && messages == old(messages) + [Turn(UserRole, Trim(content))] + [AssistantTurn(reply)]
        && error == (if Outcome(reply).Ok? then None else Some(Outcome(reply).message))
      ensures !isLoading
    {
      request := SendMessage(content);
      if request.Some? {
        Receive(reply);
      }
    }
  }
}
