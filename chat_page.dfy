/** The chat page: it keeps a local transcript, sends each prompt to the
    endpoint its prefix selects, and appends the reply or shows an error. */
module ChatPage {
  import opened Wrappers
  import opened Text
  import opened Schema
  import opened QueryClient
  import MessageInput

  /** The endpoint for a prompt, by prefix, checked in this order. */
  function Endpoint(prompt: string): string {
    if StartsWith(prompt, "/code") then "/api/chat/code"
    else if StartsWith(prompt, "/image") then "/api/chat/image"
    else if StartsWith(prompt, "/paraphrase") then "/api/chat/paraphrase"
    else "/api/chat"
  }

  /** The endpoint of a composer command: the chat path followed by the label. */
  function CommandEndpoint(c: string): string {
    "/api/chat" + c
  }

  /** A prompt that starts with a label goes to that label's endpoint; the
      three labels share no prefix. */
  lemma EndpointOfLabel(p: string, c: string)
    requires c in MessageInput.Commands && StartsWith(p, c)
    ensures Endpoint(p) == CommandEndpoint(c)
  {
    if c == "/image" {
      assert !StartsWith(p, "/code") by { assert p[1] == 'i'; }
    } else if c == "/paraphrase" {
      assert !StartsWith(p, "/code") by { assert p[1] == 'p'; }
      assert !StartsWith(p, "/image") by { assert p[1] == 'p'; }
    }
  }

  /** A prompt composed with a command active goes to that command's
      endpoint, whatever the draft. */
  lemma EndpointOfCommand(c: string, draft: string)
    requires c in MessageInput.Commands
    ensures Endpoint(MessageInput.ComposedText(Some(c), draft)) == CommandEndpoint(c)
  {
    var p := MessageInput.ComposedText(Some(c), draft);
    assert StartsWith(p, c) by {
      MessageInput.ComposedWithCommand(c, draft);
    }
    EndpointOfLabel(p, c);
  }

  /** A prompt that does not start with `/` goes to the general endpoint. */
  lemma EndpointDefault(prompt: string)
    requires !StartsWith(prompt, "/")
    ensures Endpoint(prompt) == "/api/chat"
  {
  }

  /** The test is a plain prefix, not a word: `/codex` also selects the code
      endpoint. */
  lemma CodexSelectsCode(rest: string)
    ensures Endpoint("/codex" + rest) == "/api/chat/code"
  {
    assert ("/codex" + rest)[..5] == "/code";
  }

  /** The entry for the `k`-th attached file. */
  function FileEntry(k: nat, f: File): FormEntry {
    FormEntry("file" + NatToString(k), FileValue(f))
  }

  /** The form the page builds: the prompt, then `file0`, `file1`, ... in file order. */
  function FormEntries(prompt: string, files: seq<File>): (es: seq<FormEntry>)
    ensures |es| == |files| + 1
    ensures es[0] == FormEntry("prompt", TextValue(prompt))
    ensures forall k :: 0 <= k < |files| ==> es[k + 1] == FileEntry(k, files[k])
  {
    [FormEntry("prompt", TextValue(prompt))] + seq(|files|, k requires 0 <= k < |files| => FileEntry(k, files[k]))
  }

  /** No two entries of the form share a name, so the server sees every file. */
  lemma FormNamesDistinct(prompt: string, files: seq<File>)
    ensures var es := FormEntries(prompt, files);
      forall i, j :: 0 <= i < j < |es| ==> es[i].name != es[j].name
  {
    forall i, j | 0 <= i < j <= |files|
      ensures FormEntries(prompt, files)[i].name != FormEntries(prompt, files)[j].name
    {
      EntryNamesDiffer(prompt, files, i, j);
    }
  }

  /** Two entries at different places have different names. */
  lemma EntryNamesDiffer(prompt: string, files: seq<File>, i: nat, j: nat)
    requires i < j <= |files|
    ensures FormEntries(prompt, files)[i].name != FormEntries(prompt, files)[j].name
  {
    var es := FormEntries(prompt, files);
    assert es[j] == FileEntry(j - 1, files[j - 1]);
    if i == 0 {
      PromptNameDiffers(j - 1);
    } else {
      assert es[i] == FileEntry(i - 1, files[i - 1]);
      FileNamesDiffer(i - 1, j - 1);
    }
  }

  /** No file entry is named like the prompt. */
  lemma PromptNameDiffers(k: nat)
    ensures "prompt" != "file" + NatToString(k)
  {
    assert ("file" + NatToString(k))[0] == 'f';
  }

  /** Files at different positions get different entry names. */
  lemma FileNamesDiffer(k1: nat, k2: nat)
    requires k1 != k2
    ensures "file" + NatToString(k1) != "file" + NatToString(k2)
  {
    assert ("file" + NatToString(k1))[4..] == NatToString(k1);
    assert ("file" + NatToString(k2))[4..] == NatToString(k2);
    NatToStringInjective(k1, k2);
  }

  /** Builds the form entry by entry, as the page's `forEach` appends them. */
  method BuildFormData(prompt: string, files: seq<File>) returns (es: seq<FormEntry>)
    ensures es == FormEntries(prompt, files)
  {
    es := [FormEntry("prompt", TextValue(prompt))];
    var k := 0;
    while k < |files|
      invariant 0 <= k <= |files|
      invariant |es| == k + 1
      invariant es[0] == FormEntry("prompt", TextValue(prompt))
      invariant forall i :: 0 <= i < k ==> es[i + 1] == FileEntry(i, files[i])
    {
      es := es + [FileEntry(k, files[k])];
      k := k + 1;
    }
    var expected := FormEntries(prompt, files);
    assert forall i :: 0 <= i < |es| ==> es[i] == expected[i] by {
      forall i | 0 <= i < |es| ensures es[i] == expected[i] {
        if i > 0 {
          assert es[(i - 1) + 1] == FileEntry(i - 1, files[i - 1]);
        }
      }
    }
  }

  /** The request data: the form when a file list is given (even an empty
      one), otherwise `{ prompt }`. */
  function PromptPayload(prompt: string, files: Option<seq<File>>): Payload {
    match files
    case Some(fs) => FormData(FormEntries(prompt, fs))
    case None => JsonData(JObject([("prompt", JString(prompt))]))
  }

  /** The request the mutation sends for a prompt, through `apiRequest` as
      written: with a file list the form arrives as the JSON `{}`, and
      without one the prompt goes as `{ prompt }`. */
  method MutationRequest(c: Config, prompt: string, files: Option<seq<File>>) returns (req: Request)
    ensures req == ApiRequestAsWritten(c, "POST", Endpoint(prompt), Some(PromptPayload(prompt, files)))
    ensures req.url == RequestUrl(c, Endpoint(prompt)) && req.headers == [JsonContentType]
    ensures files.Some? ==> req.body == JsonBody(JObject([]))
    ensures files.None? ==> req.body == JsonBody(JObject([("prompt", JString(prompt))]))
  {
    var endpoint := "/api/chat";
    if StartsWith(prompt, "/code") {
      endpoint := "/api/chat/code";
    } else if StartsWith(prompt, "/image") {
      endpoint := "/api/chat/image";
    } else if StartsWith(prompt, "/paraphrase") {
      endpoint := "/api/chat/paraphrase";
    }
    var data: Payload;
    if files.Some? {
      var es := BuildFormData(prompt, files.value);
      data := FormData(es);
    } else {
      data := JsonData(JObject([("prompt", JString(prompt))]));
    }
    req := ApiRequestAsWritten(c, "POST", endpoint, Some(data));
  }

  /** The request the mutation is evidently meant to send: the same payload
      through the corrected helper. */
  function IntendedRequest(c: Config, prompt: string, files: Option<seq<File>>): Request {
    ApiRequest(c, "POST", Endpoint(prompt), Some(PromptPayload(prompt, files)))
  }

  /** The intended request sends the prompt and every file: the form body
      carries the prompt first and the files after it, in order; without a
      file list it is `{ prompt }` as JSON. */
  lemma MutationCarriesPrompt(c: Config, prompt: string, files: Option<seq<File>>)
    ensures var r := IntendedRequest(c, prompt, files);
      && r.url == RequestUrl(c, Endpoint(prompt))
      && (files.Some? ==>
            && r.body.FormBody? && r.headers == []
            && r.body.entries[0] == FormEntry("prompt", TextValue(prompt))
            && forall k :: 0 <= k < |files.value| ==> r.body.entries[k + 1].value == FileValue(files.value[k]))
      && (files.None? ==> r.body == JsonBody(JObject([("prompt", JString(prompt))])) && r.headers == [JsonContentType])
  {
  }

  /** As written, the composer always hands over a file list, so every prompt
      goes as form data, and `apiRequest` turns any form into `{}`: the server
      never receives the prompt. */
  lemma AsWrittenPromptLost(c: Config, prompt: string, files: seq<File>)
    ensures ApiRequestAsWritten(c, "POST", Endpoint(prompt), Some(PromptPayload(prompt, Some(files)))).body
         == JsonBody(JObject([]))
  {
  }

  /** One entry of the local transcript. */
  datatype ChatMessage = ChatMessage(id: nat, role: Role, content: string)

  /** The transcript after sending: the user's message appended with id
      one past the length. */
  function WithUserMessage(ms: seq<ChatMessage>, text: string): (r: seq<ChatMessage>)
    ensures |r| == |ms| + 1 && r[..|ms|] == ms
    ensures r[|ms|] == ChatMessage(|ms| + 1, User, text)
  {
    ms + [ChatMessage(|ms| + 1, User, text)]
  }

  /** The transcript after a reply: the assistant's message appended with id
      two past the length. */
  function WithReply(ms: seq<ChatMessage>, response: string): (r: seq<ChatMessage>)
    ensures |r| == |ms| + 1 && r[..|ms|] == ms
    ensures r[|ms|] == ChatMessage(|ms| + 2, Assistant, response)
  {
    ms + [ChatMessage(|ms| + 2, Assistant, response)]
  }

  /** Ids taken from the length are not unique: from an empty transcript, a
      message, its reply and a second message give ids 1, 3 and 3. */
  lemma TranscriptIdsCollide(a: string, reply: string, b: string)
    ensures var ms := WithUserMessage(WithReply(WithUserMessage([], a), reply), b);
      && ms[0].id == 1 && ms[1].id == 3 && ms[2].id == 3
      && ms[1].id == ms[2].id
  {
    var m1 := WithUserMessage([], a);
    var m2 := WithReply(m1, reply);
    var m3 := WithUserMessage(m2, b);
    assert m3[..2] == m2;
    assert m2[..1] == m1;
  }

  /** The text of the error toast. */
  const ErrorDescription := "No se pudo obtener una respuesta del AI"

  class Page {
    var messages: seq<ChatMessage>
    /** The mutation is in flight; the composer is disabled meanwhile. */
    var pending: bool

    constructor ()
      ensures messages == [] && !pending
    {
      messages := [];
      pending := false;
    }

    /** Sending: the user's message is appended at once, then the request
        for the prompt is issued, as `apiRequest` builds it. */
    method HandleSend(c: Config, text: string, files: Option<seq<File>>) returns (req: Request)
      modifies this
      ensures messages == WithUserMessage(old(messages), text)
      ensures pending
      ensures req == ApiRequestAsWritten(c, "POST", Endpoint(text), Some(PromptPayload(text, files)))
    {
      messages := WithUserMessage(messages, text);
      pending := true;
      req := MutationRequest(c, text, files);
    }

    /** A reply arrived: its `response` is appended as the assistant's message. */
    method OnSuccess(response: string)
      modifies this
      ensures messages == WithReply(old(messages), response)
      ensures !pending
    {
      messages := WithReply(messages, response);
      pending := false;
    }

    /** The request failed: a toast is shown and the transcript is kept. */
    method OnError() returns (toast: string)
      modifies this
      ensures messages == old(messages)
      ensures !pending
      ensures toast == ErrorDescription
    {
      pending := false;
      toast := ErrorDescription;
    }
  }
}
