/** The in-memory conversation state of the chat client in openai_model.py:
    the model token budget, the validated message history, the effect of a
    chat completion on that history, and the stored last response. The remote
    endpoint is a function from the request the client builds to the outcome
    the endpoint reports. */
module Conversation {
  import opened Wrappers
  import opened PyStr

  // ---------------------------------------------------------------------------
  // Token budget
  // ---------------------------------------------------------------------------

  /** The budget used for a model the table does not know. */
  const DefaultMaxTokens: nat := 4096

  /** The per-model token limits known to the client. */
  const TokenLimits: map<string, nat> := map["gpt-4o-mini" := 16384, "gpt-3.5-turbo" := 4096]

  /** `get_model_max_tokens`: a table lookup that falls back to the default when
      the name is missing or maps to a falsy (zero) limit. Every name gets a
      positive budget, so construction never fails on an unknown model. */
  function GetModelMaxTokens(modelName: string): (r: nat)
    ensures r > 0
    ensures modelName == "gpt-4o-mini" ==> r == 16384
    ensures modelName != "gpt-4o-mini" ==> r == DefaultMaxTokens
  {
    if modelName in TokenLimits && TokenLimits[modelName] != 0 then TokenLimits[modelName]
    else DefaultMaxTokens
  }

  // ---------------------------------------------------------------------------
  // Messages
  // ---------------------------------------------------------------------------

  datatype Role = User | Assistant | System

  /** The role string stored in a message dictionary. */
  function RoleName(role: Role): string {
    match role
    case User => "user"
    case Assistant => "assistant"
    case System => "system"
  }

  /** The role check of `add_message`: the three accepted role strings, and no other. */
  function ParseRole(name: string): (r: Option<Role>)
    ensures forall role :: r == Some(role) <==> RoleName(role) == name
  {
    if name == "user" then Some(User)
    else if name == "assistant" then Some(Assistant)
    else if name == "system" then Some(System)
    else None
  }

  /** One entry of the history, `{"role": ..., "content": ...}`. */
  datatype Message = Message(role: Role, content: string)

  /** What every history entry satisfies: non-empty content without leading or
      trailing whitespace. */
  predicate WellFormed(m: Message) {
    m.content != [] && Trimmed(m.content)
  }

  /** The two ways `add_message` rejects its arguments. */
  datatype ValidationError = InvalidRole | EmptyContent

  // ---------------------------------------------------------------------------
  // The remote completion endpoint
  // ---------------------------------------------------------------------------

  /** A message as the endpoint receives it, with its role as a string. */
  datatype WireMessage = WireMessage(role: string, content: string)

  /** The arguments of the completion request that depend on the client state:
      the model name, the whole history and the token budget. */
  datatype ChatRequest = ChatRequest(model: string, messages: seq<WireMessage>, maxTokens: nat)

  function ToWire(m: Message): WireMessage {
    WireMessage(RoleName(m.role), m.content)
  }

  /** `messages=self._messages`: the history, entry by entry, in order. */
  function Payload(history: seq<Message>): seq<WireMessage> {
    seq(|history|, i requires 0 <= i < |history| => ToWire(history[i]))
  }

  /** `choices[k].message`: the content of a candidate completion, which the
      endpoint may leave null. */
  datatype Choice = Choice(content: Option<string>)

  /** The response object of a completion request. */
  datatype RawResponse = RawResponse(choices: seq<Choice>)

  /** What the remote call gives back: an exception, or a response. */
  datatype RemoteOutcome = RemoteError | Received(response: RawResponse)

  /** `response.choices[0].message.content`: absent when there is no candidate
      (an IndexError) or its content is null (`.strip()` then fails). */
  function FirstContent(response: RawResponse): (r: Option<string>)
    ensures forall c :: r == Some(c) <==> |response.choices| > 0 && response.choices[0] == Choice(Some(c))
  {
    if |response.choices| == 0 then None else response.choices[0].content
  }

  /** A response worth storing: its first candidate has content that does not
      strip to empty. */
  predicate Answered(response: RawResponse) {
    FirstContent(response).Some? && Strip(FirstContent(response).value) != []
  }

  /** The value `chat` returns for a remote outcome: the stripped first
      candidate, or nothing when the call failed, the content is missing, or it
      strips to empty (then `add_message` raises inside the `try`). A reply is
      always acceptable as an assistant history entry. */
  function ChatReply(outcome: RemoteOutcome): (r: Option<string>)
    ensures r.Some? <==> outcome.Received? && Answered(outcome.response)
    ensures r.Some? ==> WellFormed(Message(Assistant, r.value))
    ensures r.Some? ==> r.value == Strip(FirstContent(outcome.response).value)
  {
    match outcome
    case RemoteError => None
    case Received(response) =>
      match FirstContent(response)
      case None => None
      case Some(content) =>
        var stripped := Strip(content);
        if stripped == [] then None else Some(stripped)
  }

  // ---------------------------------------------------------------------------
  // The client
  // ---------------------------------------------------------------------------

  /** `OpenAIModel`: one conversation with one model. */
  class OpenAIModel {
    const modelName: string
    const maxTokens: nat
    var messages: seq<Message>
    var response: Option<RawResponse>

    /** The object invariant every operation keeps: the budget comes from the
        table, every history entry is well formed, and a stored response is
        one that a successful chat accepted. */
    ghost predicate Valid()
      reads this
    {
      && maxTokens == GetModelMaxTokens(modelName)
      && (forall i | 0 <= i < |messages| :: WellFormed(messages[i]))
      && (response.Some? ==> Answered(response.value))
    }

    /** The request `chat` sends for the current state. */
    function Request(): ChatRequest
      reads this
    {
      ChatRequest(modelName, Payload(messages), maxTokens)
    }

    /** `__init__`: resolves the budget once and starts with no history and no
        response. The model name defaults to "gpt-4o-mini". */
    constructor (modelName: string := "gpt-4o-mini")
      ensures Valid()
      ensures this.modelName == modelName && maxTokens == GetModelMaxTokens(modelName)
      ensures messages == [] && response == None
    {
      this.modelName := modelName;
      maxTokens := GetModelMaxTokens(modelName);
      messages := [];
      response := None;
    }

    /** `add_message`: the role is checked first, then the content; on success
        the stripped content is appended as one new entry at the end. A
        rejected call changes nothing. */
    method AddMessage(role: string, content: string) returns (outcome: Outcome<ValidationError>)
      requires Valid()
      modifies this
      ensures Valid()
      ensures response == old(response)
      ensures ParseRole(role).None? ==> outcome == Fail(InvalidRole) && messages == old(messages)
      ensures ParseRole(role).Some? && Strip(content) == [] ==>
                outcome == Fail(EmptyContent) && messages == old(messages)
      ensures ParseRole(role).Some? && Strip(content) != [] ==>
                outcome == Pass && messages == old(messages) + [Message(ParseRole(role).value, Strip(content))]
    {
      var parsed := ParseRole(role);
      if parsed.None? {
        return Fail(InvalidRole);
      }
      var stripped := Strip(content);
      if stripped == [] {
        return Fail(EmptyContent);
      }
      messages := messages + [Message(parsed.value, stripped)];
      return Pass;
    }

    /** `chat`: sends the current request; on a usable reply, appends it as an
        assistant entry through `add_message`, then stores the response and
        returns the stripped reply. Any failure, including a reply that strips
        to empty, is swallowed: the history and the stored response stay as
        they were. */
    method Chat(endpoint: ChatRequest -> RemoteOutcome) returns (reply: Option<string>)
      requires Valid()
      modifies this
      ensures Valid()
      ensures reply == ChatReply(endpoint(old(Request())))
      ensures reply.Some? ==> messages == old(messages) + [Message(Assistant, reply.value)]
                              && response == Some(endpoint(old(Request())).response)
      ensures reply.None? ==> messages == old(messages) && response == old(response)
    {
      var outcome := endpoint(Request());
      if outcome.RemoteError? {
        return None;
      }
      var content := FirstContent(outcome.response);
      if content.None? {
        return None;
      }
      var stripped := Strip(content.value);
      StripIdempotent(content.value);
      var added := AddMessage(RoleName(Assistant), stripped);
      if added.Fail? {
        return None;
      }
      response := Some(outcome.response);
      return Some(stripped);
    }

    /** `reset_conversation`: clears the history and forgets the response. */
    method ResetConversation()
      requires Valid()
      modifies this
      ensures Valid()
      ensures messages == [] && response == None
    {
      messages := [];
      response := None;
    }

    /** `get_last_response`: the unstripped content of the stored response's
        first candidate, or nothing when no response is stored. It is present
        exactly when a response is stored, and stripping it gives back what
        the chat that stored it returned. */
    method GetLastResponse() returns (last: Option<string>)
      requires Valid()
      ensures last.Some? <==> response.Some?
      ensures response.Some? ==> last == FirstContent(response.value)
      ensures last.Some? ==> ChatReply(Received(response.value)) == Some(Strip(last.value))
    {
      if response.Some? {
        last := Some(response.value.choices[0].content.value);
      } else {
        last := None;
      }
    }
  }

  /** A client built with the default model name gets the "gpt-4o-mini"
      budget; a user greeting is recorded as one trimmed turn; an unknown role
      and a blank text are rejected without touching the history. */
  method AddMessageScenario() returns (client: OpenAIModel, badRole: Outcome<ValidationError>,
                                       blank: Outcome<ValidationError>)
    ensures fresh(client) && client.Valid()
    ensures client.modelName == "gpt-4o-mini" && client.maxTokens == 16384
    ensures client.messages == [Message(User, "Hi")] && client.response == None
    ensures badRole == Fail(InvalidRole) && blank == Fail(EmptyContent)
  {
    var greeting: string := "Hi";
    assert !IsWhitespace(greeting[0]) && !IsWhitespace(greeting[1]);
    StripFixedPoint(greeting);
    var spaces: string := "   ";
    assert AllWhitespace(spaces) by {
      assert IsWhitespace(spaces[0]) && IsWhitespace(spaces[1]) && IsWhitespace(spaces[2]);
    }

    client := new OpenAIModel();
    var added := client.AddMessage("user", greeting);
    assert client.messages == [Message(User, greeting)];
    badRole := client.AddMessage("narrator", greeting);
    blank := client.AddMessage("user", spaces);
  }

  /** After the greeting, a failing endpoint leaves the conversation as it was,
      and a reply is appended after the user turn and is what the last response
      reads back. */
  method ChatScenario() returns (client: OpenAIModel, failed: Option<string>,
                                 reply: Option<string>, last: Option<string>)
    ensures fresh(client) && client.Valid()
    ensures failed == None
    ensures reply == Some("Bonjour!") && last == Some("Bonjour!")
    ensures client.messages == [Message(User, "Hi")] + [Message(Assistant, "Bonjour!")]
    ensures client.response.Some? && FirstContent(client.response.value) == Some("Bonjour!")
  {
    var bonjour: string := "Bonjour!";
    assert !IsWhitespace(bonjour[0]) && !IsWhitespace(bonjour[7]);
    StripFixedPoint(bonjour);
    var answer := RawResponse([Choice(Some(bonjour))]);
    assert FirstContent(answer) == Some(bonjour);
    assert ChatReply(Received(answer)) == Some(bonjour);

    var badRole, blank;
    client, badRole, blank := AddMessageScenario();
    failed := client.Chat(request => RemoteError);
    assert client.messages == [Message(User, "Hi")] && client.response == None;

    reply := client.Chat(request => Received(answer));
    assert client.response == Some(answer);
    last := client.GetLastResponse();
  }

  /** A reset after a successful exchange leaves no history and no last
      response, and a second reset leaves the same state. */
  method ResetScenario() returns (client: OpenAIModel, last: Option<string>)
    ensures fresh(client) && client.Valid()
    ensures client.messages == [] && client.response == None && last == None
  {
    var failed, reply, answered;
    client, failed, reply, answered := ChatScenario();
    client.ResetConversation();
    last := client.GetLastResponse();
    assert last == None && client.messages == [] && client.response == None;
    client.ResetConversation();
  }
}
