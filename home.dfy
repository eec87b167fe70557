/** The home page: a first message starts a new conversation in five steps,
    each waiting for the previous request. It creates the chat, saves the
    user's message, asks the model, saves the reply and navigates to the
    chat. A failed request aborts the rest and resets the loading state. */
module Home {
  import opened Wrappers
  import opened Text
  import opened Schema
  import opened QueryClient
  import ChatRoutes

  /** The title of the new chat: the first 30 characters of the message,
      with `...` when it is longer. */
  function ChatTitle(message: string): string {
    if |message| > 30 then message[..30] + "..." else message
  }

  /** The title has at most 33 characters; it is the message itself when
      the message has at most 30, and otherwise its first 30 characters
      followed by `...`. */
  lemma ChatTitleSpec(message: string)
    ensures |ChatTitle(message)| <= 33
    ensures |message| <= 30 ==> ChatTitle(message) == message
    ensures |message| > 30 ==> |ChatTitle(message)| == 33 && ChatTitle(message) == message[..30] + "..."
    ensures message[..if |message| <= 30 then |message| else 30] <= ChatTitle(message)
  {
  }

  /** The converse fails: a longer message can be its own title, when it has
      33 characters and ends in `...`. */
  lemma LongMessageOwnTitle()
    ensures var m := "012345678901234567890123456789...";
      |m| > 30 && ChatTitle(m) == m
  {
    var m := "012345678901234567890123456789...";
    assert m[..30] + "..." == m;
  }

  /** The store keeps the derived title as it is: a non-empty message never
      gets the default title. */
  lemma StoredTitle(message: string)
    requires message != ""
    ensures ChatRoutes.TitleOrDefault(Some(ChatTitle(message))) == ChatTitle(message)
  {
    if |message| > 30 {
      assert ChatTitle(message)[30] == '.';
    }
  }

  const CreatingChat := "Creando nuevo chat..."
  const SendingMessage := "Enviando tu mensaje..."
  const Thinking := "La IA está pensando..."
  const SavingReply := "Guardando la respuesta..."
  const Redirecting := "Redirigiendo al chat..."
  /** The loading labels, one per step, in order. */
  const Labels: seq<string> := [CreatingChat, SendingMessage, Thinking, SavingReply, Redirecting]

  const GeneratePath := "/api/ollama/api/generate"

  /** `/api/chats/<id>/messages`. */
  function MessagesPath(chatId: nat): string {
    "/api/chats/" + NatToString(chatId) + "/messages"
  }

  /** The id in a messages path reads back as the chat's id. */
  lemma MessagesPathId(chatId: nat)
    ensures var p := MessagesPath(chatId); var n := |NatToString(chatId)|;
      && StartsWith(p, "/api/chats/")
      && |p| == 11 + n + 9
      && AllDigits(p[11..11 + n]) && ParseNat(p[11..11 + n]) == chatId
  {
    var p := MessagesPath(chatId);
    assert p[11..11 + |NatToString(chatId)|] == NatToString(chatId);
    ParseNatToString(chatId);
  }

  /** One `apiRequest(method, url, data)` call the page makes. */
  datatype Call = Call(verb: string, path: string, data: Json)

  /** The request a call sends, through `apiRequest` as written (its JSON
      payloads are sent the same way by the corrected helper). */
  function Sent(c: Config, call: Call): Request {
    ApiRequestAsWritten(c, call.verb, call.path, Some(JsonData(call.data)))
  }

  function CreateChatCall(message: string): Call {
    Call("POST", "/api/chats", JObject([("title", JString(ChatTitle(message)))]))
  }

  /** A save of one message to the chat, as `{ messages: [ ... ] }`. */
  function SaveCall(chatId: nat, role: Role, content: string): Call {
    Call("POST", MessagesPath(chatId), JObject([
      ("messages", JArray([JObject([("role", JString(RoleName(role))), ("content", JString(content)), ("chatId", JNumber(chatId))])]))]))
  }

  /** The model call; an unset model name is left out of the JSON. */
  function GenerateCall(model: Option<string>, message: string): Call {
    Call("POST", GeneratePath, JObject(
      (if model.Some? then [("model", JString(model.value))] else [])
      + [("prompt", JString(message)), ("stream", JBool(false))]))
  }

  /** The four calls of a complete run, in order. */
  function FlowCalls(model: Option<string>, message: string, chatId: nat, reply: string): seq<Call> {
    [CreateChatCall(message), SaveCall(chatId, User, message),
     GenerateCall(model, message), SaveCall(chatId, Assistant, reply)]
  }

  /** The chat is created on the API server with the derived title, as JSON. */
  lemma CreateChatSent(c: Config, message: string)
    ensures var r := Sent(c, CreateChatCall(message));
      && r.verb == "POST" && r.url == c.apiBaseUrl + "/api/chats" && r.headers == [JsonContentType]
      && r.body == JsonBody(JObject([("title", JString(ChatTitle(message)))]))
  {
    RequestUrlExamples(c);
  }

  /** Both saves go, as JSON, to the new chat's messages path on the API
      server, carrying the role and the content. */
  lemma SaveSent(c: Config, chatId: nat, role: Role, content: string)
    ensures var r := Sent(c, SaveCall(chatId, role, content));
      && r.verb == "POST" && r.url == c.apiBaseUrl + MessagesPath(chatId) && r.headers == [JsonContentType]
      && r.body.JsonBody? && r.body.json.members[0].1.items[0].members[..2]
         == [("role", JString(RoleName(role))), ("content", JString(content))]
  {
    assert !IsOllamaRequest(MessagesPath(chatId)) by {
      assert MessagesPath(chatId)[5] == 'c';
    }
  }

  /** The model call goes, as JSON, to the model server's `/api/generate`,
      with the original text as the prompt and streaming off. */
  lemma GenerateSent(c: Config, model: Option<string>, message: string)
    ensures var r := Sent(c, GenerateCall(model, message));
      && r.verb == "POST" && r.url == c.ollamaUrl + "/api/generate" && r.headers == [JsonContentType]
      && r.body.JsonBody? && var ms := r.body.json.members;
      && |ms| >= 2 && ms[|ms| - 2..] == [("prompt", JString(message)), ("stream", JBool(false))]
  {
    RequestUrlExamples(c);
  }

  /** What the page gets back at each await: a response, and for the chat and
      the model call the field its `json()` yields (the new chat's id, the
      model's `response`). */
  datatype Replies = Replies(created: Response, chatId: nat, savedUser: Response,
                             generated: Response, reply: string, savedReply: Response)

  /** Every request succeeded. */
  predicate AllOk(env: Replies) {
    Ok(env.created) && Ok(env.savedUser) && Ok(env.generated) && Ok(env.savedReply)
  }

  /** How many requests a run makes: up to and including the first that fails. */
  function Reached(env: Replies): (n: nat)
    ensures 1 <= n <= 4
    ensures n < 4 ==> !AllOk(env)
  {
    if !Ok(env.created) then 1
    else if !Ok(env.savedUser) then 2
    else if !Ok(env.generated) then 3
    else 4
  }

  /** The error of the first failed request. */
  function FirstError(env: Replies): string
    requires !AllOk(env)
  {
    var res := if !Ok(env.created) then env.created
      else if !Ok(env.savedUser) then env.savedUser
      else if !Ok(env.generated) then env.generated
      else env.savedReply;
    ApiFailurePrefix + NatToString(res.status)
  }

  /** Where a run is: waiting for the response to some step's request. */
  datatype Phase =
    | Idle
    | AwaitingChat
    | AwaitingUserSave(chatId: nat)
    | AwaitingModel(chatId: nat)
    | AwaitingReplySave(chatId: nat)
    | Navigated

  class Page {
    var isLoading: bool
    var loadingState: Option<string>
    var inputValue: string
    /** The path navigated to, once the run completes. */
    var location: Option<string>
    /** The error toast shown, if any. */
    var toast: Option<string>
    /** The calls made so far, in order. */
    var requests: seq<Call>
    /** The loading labels shown so far, in order. */
    var shown: seq<string>
    var phase: Phase
    /** The message of the current run. */
    var draft: string

    constructor ()
      ensures !isLoading && loadingState == None && inputValue == "" && location == None
      ensures toast == None && requests == [] && shown == [] && phase == Idle
    {
      isLoading := false;
      loadingState := None;
      inputValue := "";
      location := None;
      toast := None;
      requests := [];
      shown := [];
      phase := Idle;
      draft := "";
    }

    /** Shows a step's label and sends its request. */
    method Step(caption: string, req: Call)
      modifies this
      ensures loadingState == Some(caption) && shown == old(shown) + [caption] && requests == old(requests) + [req]
      ensures isLoading == old(isLoading) && inputValue == old(inputValue) && location == old(location)
      ensures toast == old(toast) && phase == old(phase) && draft == old(draft)
    {
      loadingState := Some(caption);
      shown := shown + [caption];
      requests := requests + [req];
    }

    /** The catch block: the error is shown and the loading state reset;
        what earlier steps did stays done. */
    method Abort(error: string)
      modifies this
      ensures toast == Some(error) && !isLoading && loadingState == None && phase == Idle
      ensures requests == old(requests) && shown == old(shown) && location == old(location)
      ensures inputValue == old(inputValue) && draft == old(draft)
    {
      toast := Some(error);
      isLoading := false;
      loadingState := None;
      phase := Idle;
    }

    /** Sending a message: a blank one does nothing; otherwise the run starts
        by creating the chat. */
    method HandleSendMessage(message: string)
      requires phase == Idle
      modifies this
      ensures Blank(message) ==>
        && isLoading == old(isLoading) && loadingState == old(loadingState) && phase == Idle
        && requests == old(requests) && shown == old(shown) && toast == old(toast)
        && draft == old(draft)
      ensures !Blank(message) ==>
        && isLoading && loadingState == Some(CreatingChat) && phase == AwaitingChat && draft == message
        && requests == old(requests) + [CreateChatCall(message)]
        && shown == old(shown) + [CreatingChat] && toast == old(toast)
      ensures location == old(location) && inputValue == old(inputValue)
    {
      TrimSpec(message);
      if Trim(message) == [] {
        return;
      }
      isLoading := true;
      draft := message;
      phase := AwaitingChat;
      Step(CreatingChat, CreateChatCall(message));
    }

    /** The chat is created: the user's message is saved to it next. */
    method OnChatCreated(res: Response, chatId: nat)
      requires phase == AwaitingChat
      modifies this
      ensures Ok(res) ==>
        && phase == AwaitingUserSave(chatId) && loadingState == Some(SendingMessage)
        && requests == old(requests) + [SaveCall(chatId, User, draft)]
        && shown == old(shown) + [SendingMessage]
        && isLoading == old(isLoading) && toast == old(toast)
      ensures !Ok(res) ==>
        && phase == Idle && toast == Some(ApiResponse(res).error) && !isLoading && loadingState == None
        && requests == old(requests) && shown == old(shown)
      ensures location == old(location) && inputValue == old(inputValue) && draft == old(draft)
    {
      var r := ApiResponse(res);
      if r.Failure? {
        Abort(r.error);
        return;
      }
      phase := AwaitingUserSave(chatId);
      Step(SendingMessage, SaveCall(chatId, User, draft));
    }

    /** The user's message is saved: the model is asked next. */
    method OnUserMessageSaved(model: Option<string>, res: Response)
      requires phase.AwaitingUserSave?
      modifies this
      ensures Ok(res) ==>
        && phase == AwaitingModel(old(phase).chatId) && loadingState == Some(Thinking)
        && requests == old(requests) + [GenerateCall(model, draft)]
        && shown == old(shown) + [Thinking]
        && isLoading == old(isLoading) && toast == old(toast)
      ensures !Ok(res) ==>
        && phase == Idle && toast == Some(ApiResponse(res).error) && !isLoading && loadingState == None
        && requests == old(requests) && shown == old(shown)
      ensures location == old(location) && inputValue == old(inputValue) && draft == old(draft)
    {
      var r := ApiResponse(res);
      if r.Failure? {
        Abort(r.error);
        return;
      }
      phase := AwaitingModel(phase.chatId);
      Step(Thinking, GenerateCall(model, draft));
    }

    /** The model replied: its `response` is saved as the assistant's message. */
    method OnModelReplied(res: Response, reply: string)
      requires phase.AwaitingModel?
      modifies this
      ensures Ok(res) ==>
        && phase == AwaitingReplySave(old(phase).chatId) && loadingState == Some(SavingReply)
        && requests == old(requests) + [SaveCall(old(phase).chatId, Assistant, reply)]
        && shown == old(shown) + [SavingReply]
        && isLoading == old(isLoading) && toast == old(toast)
      ensures !Ok(res) ==>
        && phase == Idle && toast == Some(ApiResponse(res).error) && !isLoading && loadingState == None
        && requests == old(requests) && shown == old(shown)
      ensures location == old(location) && inputValue == old(inputValue) && draft == old(draft)
    {
      var r := ApiResponse(res);
      if r.Failure? {
        Abort(r.error);
        return;
      }
      phase := AwaitingReplySave(phase.chatId);
      Step(SavingReply, SaveCall(phase.chatId, Assistant, reply));
    }

    /** The reply is saved: the page navigates to the new chat. */
    method OnReplySaved(res: Response)
      requires phase.AwaitingReplySave?
      modifies this
      ensures Ok(res) ==>
        && phase == Navigated && loadingState == Some(Redirecting)
        && location == Some("/chat/" + NatToString(old(phase).chatId))
        && shown == old(shown) + [Redirecting]
        && isLoading == old(isLoading) && toast == old(toast)
      ensures !Ok(res) ==>
        && phase == Idle && toast == Some(ApiResponse(res).error) && !isLoading && loadingState == None
        && shown == old(shown) && location == old(location)
      ensures requests == old(requests) && inputValue == old(inputValue) && draft == old(draft)
    {
      var r := ApiResponse(res);
      if r.Failure? {
        Abort(r.error);
        return;
      }
      var id := phase.chatId;
      phase := Navigated;
      loadingState := Some(Redirecting);
      shown := shown + [Redirecting];
      location := Some("/chat/" + NatToString(id));
    }

    /** The Cancel button: only the loading indicator is reset; a run in
        progress goes on. */
    method Cancel()
      modifies this
      ensures !isLoading && loadingState == None
      ensures phase == old(phase) && requests == old(requests) && shown == old(shown)
      ensures location == old(location) && toast == old(toast) && inputValue == old(inputValue) && draft == old(draft)
    {
      isLoading := false;
      loadingState := None;
    }

    /** A suggestion card: its example becomes the page's input value. */
    method HandleRecommendationClick(example: string)
      modifies this
      ensures inputValue == example
      ensures isLoading == old(isLoading) && loadingState == old(loadingState) && phase == old(phase)
      ensures requests == old(requests) && shown == old(shown) && location == old(location)
      ensures toast == old(toast) && draft == old(draft)
    {
      inputValue := example;
    }
  }

  /** A whole run on a fresh page, each request answered from `env`. A blank
      message sends nothing. Otherwise the requests sent are the first
      `Reached(env)` of the four, in order, with one label shown per request.
      The page navigates to the new chat exactly when every request
      succeeded. Otherwise the first error is shown, the loading state is
      reset and nothing further is sent. */
  method Run(model: Option<string>, message: string, env: Replies)
    returns (requests: seq<Call>, shown: seq<string>, location: Option<string>, toast: Option<string>, isLoading: bool)
    ensures Blank(message) ==> requests == [] && shown == [] && location == None && toast == None && !isLoading
    ensures !Blank(message) ==>
      && requests == FlowCalls(model, message, env.chatId, env.reply)[..Reached(env)]
      && shown == Labels[..if AllOk(env) then 5 else Reached(env)]
      && (location.Some? <==> AllOk(env))
      && (AllOk(env) ==> location == Some("/chat/" + NatToString(env.chatId)) && toast == None && isLoading)
      && (!AllOk(env) ==> toast == Some(FirstError(env)) && !isLoading)
  {
    var page := new Page();
    var all := FlowCalls(model, message, env.chatId, env.reply);
    page.HandleSendMessage(message);
    if Blank(message) {
      return page.requests, page.shown, page.location, page.toast, page.isLoading;
    }
    assert page.requests == all[..1] && page.shown == Labels[..1];
    page.OnChatCreated(env.created, env.chatId);
    if !Ok(env.created) {
      assert Reached(env) == 1 && FirstError(env) == ApiResponse(env.created).error;
      return page.requests, page.shown, page.location, page.toast, page.isLoading;
    }
    assert page.requests == all[..2] by { assert all[..2] == all[..1] + [all[1]]; }
    assert page.shown == Labels[..2] by { assert Labels[..2] == Labels[..1] + [Labels[1]]; }
    page.OnUserMessageSaved(model, env.savedUser);
    if !Ok(env.savedUser) {
      assert Reached(env) == 2 && FirstError(env) == ApiResponse(env.savedUser).error;
      return page.requests, page.shown, page.location, page.toast, page.isLoading;
    }
    assert page.requests == all[..3] by { assert all[..3] == all[..2] + [all[2]]; }
    assert page.shown == Labels[..3] by { assert Labels[..3] == Labels[..2] + [Labels[2]]; }
    page.OnModelReplied(env.generated, env.reply);
    if !Ok(env.generated) {
      assert Reached(env) == 3 && FirstError(env) == ApiResponse(env.generated).error;
      return page.requests, page.shown, page.location, page.toast, page.isLoading;
    }
    assert page.requests == all[..4] by { assert all[..4] == all[..3] + [all[3]]; }
    assert page.shown == Labels[..4] by { assert Labels[..4] == Labels[..3] + [Labels[3]]; }
    assert Reached(env) == 4;
    page.OnReplySaved(env.savedReply);
    if Ok(env.savedReply) {
      assert page.shown == Labels[..5] by { assert Labels[..5] == Labels[..4] + [Labels[4]]; }
    } else {
      assert FirstError(env) == ApiResponse(env.savedReply).error;
    }
    return page.requests, page.shown, page.location, page.toast, page.isLoading;
  }

  /** After a failed first or second step the model is never called, and
      after a failed first step only the chat creation was attempted. */
  lemma FailureStopsLaterSteps(model: Option<string>, message: string, env: Replies)
    ensures !Ok(env.created) ==> FlowCalls(model, message, env.chatId, env.reply)[..Reached(env)] == [CreateChatCall(message)]
    ensures !(Ok(env.created) && Ok(env.savedUser)) ==>
      forall call :: call in FlowCalls(model, message, env.chatId, env.reply)[..Reached(env)] ==> call.path != GeneratePath
  {
    var all := FlowCalls(model, message, env.chatId, env.reply);
    assert all[1].path[5] == 'c';
  }
}
