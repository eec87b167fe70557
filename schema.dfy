/** The record shapes of chats and messages and the field constraints their
    schema declares: `title` is required on a chat; `chatId`, `role` and
    `content` are required on a message; `role` is one of `user` and
    `assistant`; `createdAt` and `timestamp` default to the time of the insert. */
module Schema {
  import opened Wrappers

  /** The `role` enumeration. */
  datatype Role = User | Assistant

  function RoleName(r: Role): string {
    match r
    case User => "user"
    case Assistant => "assistant"
  }

  /** The enum check on `role`: only the two declared names are accepted. */
  function ParseRole(s: string): (r: Option<Role>)
    ensures r.Some? <==> (s == "user" || s == "assistant")
    ensures r.Some? ==> RoleName(r.value) == s
  {
    if s == "user" then Some(User)
    else if s == "assistant" then Some(Assistant)
    else None
  }

  /** Reading a role back from its name gives the same role. */
  lemma ParseRoleName(r: Role)
    ensures ParseRole(RoleName(r)) == Some(r)
  {
  }

  /** A stored chat. Ids are integers; times are milliseconds. */
  datatype Chat = Chat(id: nat, title: string, createdAt: nat)

  /** A stored message; `chatId` refers to the chat that owns it. */
  datatype Message = Message(id: nat, chatId: nat, role: Role, content: string, timestamp: nat)

  /** The fields an insert supplies; an absent field is `None`. */
  datatype ChatFields = ChatFields(title: Option<string>, createdAt: Option<nat>)

  datatype MessageFields =
    MessageFields(chatId: Option<nat>, role: Option<string>, content: Option<string>, timestamp: Option<nat>)

  /** A validation failure on one path of a document. */
  datatype FieldError = Required(path: string) | NotInEnum(path: string, value: string)

  /** `required: true` on a string path: it must be present and not empty. */
  predicate PresentText(v: Option<string>) {
    v.Some? && v.value != ""
  }

  predicate ValidChat(c: Chat) {
    c.title != ""
  }

  predicate ValidMessage(m: Message) {
    m.content != ""
  }

  /** The errors validating a chat reports: at most one, for a missing title. */
  function ChatErrors(f: ChatFields): (errs: seq<FieldError>)
    ensures errs == [] <==> PresentText(f.title)
    ensures errs != [] ==> errs == [Required("title")]
  {
    if PresentText(f.title) then [] else [Required("title")]
  }

  /** The error of one message path, checked in declaration order: the
      required check first, then the enum. */
  function RoleError(role: Option<string>): (errs: seq<FieldError>)
    ensures errs == [] <==> (role.Some? && ParseRole(role.value).Some?)
    ensures |errs| <= 1
  {
    if !PresentText(role) then [Required("role")]
    else if ParseRole(role.value).None? then [NotInEnum("role", role.value)]
    else []
  }

  /** The errors validating a message reports, one per failing path, in the
      order `chatId`, `role`, `content`; none exactly when all three are fine. */
  function MessageErrors(f: MessageFields): (errs: seq<FieldError>)
    ensures errs == [] <==> (f.chatId.Some? && f.role.Some? && ParseRole(f.role.value).Some? && PresentText(f.content))
  {
    (if f.chatId.None? then [Required("chatId")] else [])
    + RoleError(f.role)
    + (if PresentText(f.content) then [] else [Required("content")])
  }

  /** Each failing path is named by exactly its own error: a missing
      `chatId`, `role` or `content`, or a `role` outside the enumeration. */
  lemma MessageErrorPaths(f: MessageFields)
    ensures Required("chatId") in MessageErrors(f) <==> f.chatId.None?
    ensures Required("role") in MessageErrors(f) <==> !PresentText(f.role)
    ensures Required("content") in MessageErrors(f) <==> !PresentText(f.content)
    ensures forall v :: NotInEnum("role", v) in MessageErrors(f) <==> f.role == Some(v) && v != "" && ParseRole(v).None?
  {
  }

  /** Inserting a chat document: it is stored only when the title is present,
      and its `createdAt` is the supplied value or, when absent, `now`. */
  function NewChat(id: nat, f: ChatFields, now: nat): (r: Result<Chat, seq<FieldError>>)
    ensures r.Success? <==> PresentText(f.title)
    ensures r.Success? ==>
              && ValidChat(r.value)
              && r.value == Chat(id, f.title.value, if f.createdAt.Some? then f.createdAt.value else now)
    ensures r.Failure? ==> r.error == [Required("title")]
  {
    var errs := ChatErrors(f);
    if errs != [] then Failure(errs) else Success(Chat(id, f.title.value, f.createdAt.GetOr(now)))
  }

  /** Inserting a message document: it is stored only when `chatId`, a
      declared `role` and a non-empty `content` are all there, with the
      fields copied and `timestamp` the supplied value or, when absent, `now`;
      otherwise every failing path is reported. */
  function NewMessage(id: nat, f: MessageFields, now: nat): (r: Result<Message, seq<FieldError>>)
    ensures r.Success? <==> (f.chatId.Some? && f.role.Some? && ParseRole(f.role.value).Some? && PresentText(f.content))
    ensures r.Success? ==>
              && ValidMessage(r.value)
              && r.value.id == id && r.value.chatId == f.chatId.value
              && RoleName(r.value.role) == f.role.value && r.value.content == f.content.value
              && r.value.timestamp == (if f.timestamp.Some? then f.timestamp.value else now)
    ensures r.Failure? ==> r.error == MessageErrors(f) && r.error != []
  {
    var errs := MessageErrors(f);
    if errs != [] then Failure(errs)
    else Success(Message(id, f.chatId.value, ParseRole(f.role.value).value, f.content.value, f.timestamp.GetOr(now)))
  }
}
