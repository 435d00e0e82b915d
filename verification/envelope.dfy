/**
  The request envelope: how the transcript and the active preset are turned
  into the message list the chat-completion endpoint expects, and how such a
  list is read back.
 */
module Envelope {

  import opened Options
  import opened Transcript

  /** The role of one entry of the request's message list. */
  datatype ApiRole = System | User | Assistant {

    /** The role as written on the wire. */
    function Name(): string {
      match this
      case System => "system"
      case User => "user"
      case Assistant => "assistant"
    }
  }

  datatype ApiMessage = ApiMessage(role: ApiRole, content: string)

  /** The JSON request body, before serialisation. */
  datatype RequestBody = RequestBody(model: string, messages: seq<ApiMessage>)

  /** The model identifier sent with every request. */
  const ModelName: string := "gpt-4-1106-preview"

  /** The entry that carries the active preset at the head of every request. */
  function SystemMessage(preset: string): ApiMessage {
    ApiMessage(System, preset)
  }

  /** Only the bot's own sender name maps to the assistant role; every other
      sender, whatever it is, is reported as the user. */
  function RoleOf(sender: string): (r: ApiRole)
    ensures r == Assistant <==> sender == Chatbot
    ensures r != System
  {
    if sender == Chatbot then Assistant else User
  }

  /** The per-entry mapping applied to the transcript. */
  function ApiMessageOf(m: Message): ApiMessage {
    ApiMessage(RoleOf(m.sender), m.message)
  }

  /** The transcript, entry by entry and in order, as API messages. */
  function ApiMessages(t: seq<Message>): (r: seq<ApiMessage>)
    ensures |r| == |t|
    ensures forall i :: 0 <= i < |t| ==> r[i].content == t[i].message
    ensures forall i :: 0 <= i < |t| ==> (r[i].role == Assistant <==> t[i].sender == Chatbot)
    ensures forall i :: 0 <= i < |t| ==> r[i].role != System
  {
    if |t| == 0 then [] else ApiMessages(t[..|t| - 1]) + [ApiMessageOf(t[|t| - 1])]
  }

  /** The mapping as a loop over the transcript. */
  method FormatMessages(chat: seq<Message>) returns (api: seq<ApiMessage>)
    ensures api == ApiMessages(chat)
  {
    api := [];
    var i := 0;
    while i < |chat|
      invariant 0 <= i <= |chat|
      invariant api == ApiMessages(chat[..i])
    {
      assert chat[..i + 1][..i] == chat[..i];
      api := api + [ApiMessageOf(chat[i])];
      i := i + 1;
    }
    assert chat[..i] == chat;
  }

  /** The body of the request issued for transcript `chat` under `preset`. */
  function BuildRequestBody(preset: string, chat: seq<Message>): (r: RequestBody)
    ensures r.model == ModelName
    ensures |r.messages| == |chat| + 1
    ensures r.messages[0].role == System && r.messages[0].content == preset
    ensures forall i :: 0 <= i < |chat| ==> r.messages[i + 1].content == chat[i].message
    ensures forall i :: 0 <= i < |chat| ==>
              (r.messages[i + 1].role == Assistant <==> chat[i].sender == Chatbot)
    ensures forall i :: 0 <= i < |chat| ==> (r.messages[i + 1].role == User <==> chat[i].sender != Chatbot)
  {
    var api := ApiMessages(chat);
    var ms := [SystemMessage(preset)] + api;
    assert forall i :: 0 <= i < |chat| ==> ms[i + 1] == api[i];
    RequestBody(ModelName, ms)
  }

  /** On the wire, the request's roles are the strings the endpoint expects:
      `"system"` for the preset entry, then `"assistant"` exactly for the
      bot's messages and `"user"` for every other one. */
  lemma WireRoleNames(preset: string, chat: seq<Message>)
    ensures var ms := BuildRequestBody(preset, chat).messages;
            && ms[0].role.Name() == "system"
            && (forall i :: 0 <= i < |chat| ==>
                  (ms[i + 1].role.Name() == "assistant" <==> chat[i].sender == Chatbot))
            && (forall i :: 0 <= i < |chat| ==>
                  (ms[i + 1].role.Name() == "user" <==> chat[i].sender != Chatbot))
  {
  }

  /** Appending to the transcript appends to the mapped list and changes
      nothing already in it. */
  lemma ApiMessagesAppend(a: seq<Message>, b: seq<Message>)
    ensures ApiMessages(a + b) == ApiMessages(a) + ApiMessages(b)
  {
  }

  /** Switching presets changes the system entry of the request and nothing else. */
  lemma PresetOnlyChangesSystemEntry(p: string, q: string, chat: seq<Message>)
    ensures BuildRequestBody(p, chat).messages[1..] == BuildRequestBody(q, chat).messages[1..]
    ensures BuildRequestBody(p, chat).model == BuildRequestBody(q, chat).model
    ensures BuildRequestBody(p, chat).messages[0] == BuildRequestBody(q, chat).messages[0] <==> p == q
  {
  }

  /** Reads one non-system API message back as the transcript entry the
      controller would have created for it. */
  function TurnOf(a: ApiMessage): (r: Option<Message>)
    ensures r.Some? <==> a.role != System
    ensures r.Some? ==> Canonical(r.value) && ApiMessageOf(r.value) == a
  {
    match a.role
    case System => None
    case Assistant => Some(ReplyMessage(a.content))
    case User => Some(UserMessage(a.content))
  }

  /** Reads a list of non-system API messages back as a transcript. */
  function ParseTurns(ms: seq<ApiMessage>): Option<seq<Message>> {
    if |ms| == 0 then Some([])
    else
      match ParseTurns(ms[..|ms| - 1])
      case None => None
      case Some(prefix) =>
        match TurnOf(ms[|ms| - 1])
        case None => None
        case Some(m) => Some(prefix + [m])
  }

  /** Reads a request's message list back as the preset and transcript it was
      built from; `None` when it does not start with exactly one system entry. */
  function ParseRequest(ms: seq<ApiMessage>): Option<(string, seq<Message>)> {
    if |ms| == 0 || ms[0].role != System then None
    else
      match ParseTurns(ms[1..])
      case None => None
      case Some(t) => Some((ms[0].content, t))
  }

  lemma {:induction false} ParseTurnsOfApiMessages(t: seq<Message>)
    requires AllCanonical(t)
    ensures ParseTurns(ApiMessages(t)) == Some(t)
    decreases |t|
  {
    if |t| > 0 {
      var t' := t[..|t| - 1];
      var ms := ApiMessages(t);
      assert ms[..|ms| - 1] == ApiMessages(t');
      ParseTurnsOfApiMessages(t');
      var m := t[|t| - 1];
      assert Canonical(m);
      assert TurnOf(ApiMessageOf(m)) == Some(m);
      assert t' + [m] == t;
    }
  }

  /** Mapping a transcript with one more entry adds that entry's mapping at the end. */
  lemma ApiMessagesSnoc(t: seq<Message>, m: Message)
    ensures ApiMessages(t + [m]) == ApiMessages(t) + [ApiMessageOf(m)]
  {
    assert (t + [m])[..|t|] == t;
  }

  /** A list that reads back as a transcript reads back entry by entry. */
  lemma ParseTurnsLast(ms: seq<ApiMessage>)
    requires |ms| > 0
    requires ParseTurns(ms).Some?
    ensures ParseTurns(ms[..|ms| - 1]).Some?
    ensures TurnOf(ms[|ms| - 1]).Some?
    ensures ParseTurns(ms).value
            == ParseTurns(ms[..|ms| - 1]).value + [TurnOf(ms[|ms| - 1]).value]
  {
  }

  /** What reads back as a transcript consists of controller-shaped entries. */
  lemma {:induction false} ParseTurnsCanonical(ms: seq<ApiMessage>, t: seq<Message>)
    requires ParseTurns(ms) == Some(t)
    ensures AllCanonical(t)
    decreases |ms|
  {
    if |ms| > 0 {
      ParseTurnsLast(ms);
      ParseTurnsCanonical(ms[..|ms| - 1], ParseTurns(ms[..|ms| - 1]).value);
    }
  }

  lemma {:induction false} ApiMessagesOfParseTurns(ms: seq<ApiMessage>, t: seq<Message>)
    requires ParseTurns(ms) == Some(t)
    ensures AllCanonical(t)
    ensures ApiMessages(t) == ms
    decreases |ms|
  {
    ParseTurnsCanonical(ms, t);
    if |ms| > 0 {
      var init := ms[..|ms| - 1];
      ParseTurnsLast(ms);
      var prefix := ParseTurns(init).value;
      var m := TurnOf(ms[|ms| - 1]).value;
      ApiMessagesOfParseTurns(init, prefix);
      ApiMessagesSnoc(prefix, m);
      assert ms == init + [ms[|ms| - 1]];
    }
  }

  /** Every request built from a transcript of controller-created entries can
      be read back as exactly that preset and transcript. */
  lemma RequestRoundTrip(preset: string, chat: seq<Message>)
    requires AllCanonical(chat)
    ensures ParseRequest(BuildRequestBody(preset, chat).messages) == Some((preset, chat))
  {
    var ms := BuildRequestBody(preset, chat).messages;
    assert ms[1..] == ApiMessages(chat);
    ParseTurnsOfApiMessages(chat);
  }

  /** Conversely, a message list that reads back as a preset and transcript is
      exactly the request built from them. */
  lemma ParsedRequestRebuilds(ms: seq<ApiMessage>, preset: string, chat: seq<Message>)
    requires ParseRequest(ms) == Some((preset, chat))
    ensures AllCanonical(chat)
    ensures BuildRequestBody(preset, chat).messages == ms
  {
    ApiMessagesOfParseTurns(ms[1..], chat);
    assert ms[0] == SystemMessage(preset);
    assert ms == [SystemMessage(preset)] + ApiMessages(chat);
  }
}
