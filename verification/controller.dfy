/**
  The conversation controller: the state the chat page keeps (active preset,
  transcript, typing flag) and the transitions that change it.
 */
module Controller {

  import opened Options
  import opened Presets
  import opened Transcript
  import opened Envelope

  datatype State = State(selectedRole: string, messages: seq<Message>, isTyping: bool)

  /** A request in flight: the transcript it was issued for (which its reply
      handler rebuilds from) and the body sent to the completion endpoint. */
  datatype Request = Request(snapshot: seq<Message>, body: RequestBody)

  /** How a request settles. `Rejected` covers every failure of the request
      chain: the network call fails, the body is not JSON, or it has no
      `choices[0].message` (an error status yields such a body). */
  datatype Response = Completion(content: string) | Rejected

  datatype SendOutcome = SendOutcome(state: State, request: Request)

  /** The states the controller can be in. */
  predicate Valid(s: State) {
    IsPreset(s.selectedRole) && WellFormed(s.messages)
  }

  /** A request the controller can have issued: its snapshot is a transcript
      the controller could hold, and its body is that snapshot under a preset. */
  predicate ValidRequest(r: Request) {
    && WellFormed(r.snapshot)
    && |r.body.messages| >= 1
    && IsPreset(r.body.messages[0].content)
    && r.body == BuildRequestBody(r.body.messages[0].content, r.snapshot)
  }

  /** The state when the page is first shown. */
  function Init(): (s: State)
    ensures Valid(s)
    ensures !s.isTyping
    ensures s.selectedRole == RoleContents[0]
    ensures |s.messages| == 1 && s.messages[0].sender == Chatbot
  {
    State(DefaultPreset(), [Greeting], false)
  }

  /** The user sends `text`: it is appended as an outgoing user message, the
      typing flag is raised, and a request is issued for the new transcript
      under the preset active at that moment. */
  function HandleSend(s: State, text: string): (o: SendOutcome)
    ensures |o.state.messages| == |s.messages| + 1
    ensures o.state.messages[..|s.messages|] == s.messages
    ensures o.state.messages[|s.messages|] == Message(text, UserSender, Outgoing)
    ensures o.state.isTyping
    ensures o.state.selectedRole == s.selectedRole
    ensures o.request.snapshot == o.state.messages
    ensures o.request.body == BuildRequestBody(s.selectedRole, o.state.messages)
    ensures Valid(s) ==> Valid(o.state) && ValidRequest(o.request)
  {
    var newMessages := s.messages + [UserMessage(text)];
    SendOutcome(s.(messages := newMessages, isTyping := true),
                Request(newMessages, BuildRequestBody(s.selectedRole, newMessages)))
  }

  /** `req` settles with `resp`. A completion replaces the transcript with the
      request's snapshot followed by the reply and lowers the typing flag; a
      rejection is not handled, so nothing changes and the flag stays as it was. */
  function OnResponse(s: State, req: Request, resp: Response): (s': State)
    ensures resp.Completion? ==>
              && |s'.messages| == |req.snapshot| + 1
              && s'.messages[..|req.snapshot|] == req.snapshot
              && s'.messages[|req.snapshot|] == Message(resp.content, Chatbot, Unmarked)
              && !s'.isTyping
              && s'.selectedRole == s.selectedRole
    ensures resp.Rejected? ==> s' == s
    ensures Valid(s) && WellFormed(req.snapshot) ==> Valid(s')
  {
    match resp
    case Rejected => s
    case Completion(content) =>
      s.(messages := req.snapshot + [ReplyMessage(content)], isTyping := false)
  }

  /** The user picks `value` in the role selector, which only offers presets. */
  function SelectRole(s: State, value: string): (s': State)
    requires IsPreset(value)
    ensures s'.selectedRole == value
    ensures s'.messages == s.messages && s'.isTyping == s.isTyping
    ensures Valid(s) ==> Valid(s')
  {
    s.(selectedRole := value)
  }

  /** Sending raises the typing flag, and of all the transitions only a
      completed reply lowers it: a rejection leaves a raised flag raised. */
  lemma TypingFlagTransitions(s: State, text: string, req: Request, resp: Response, value: string)
    requires IsPreset(value)
    ensures HandleSend(s, text).state.isTyping
    ensures SelectRole(s, value).isTyping == s.isTyping
    ensures s.isTyping ==> (!OnResponse(s, req, resp).isTyping <==> resp.Completion?)
  {
  }

  /** When no other send happened in between, a reply extends the current
      transcript: earlier entries are untouched and the reply is last. */
  lemma ReplyAppendsToCurrent(s: State, text: string, reply: string)
    ensures var sent := HandleSend(s, text);
            var s' := OnResponse(sent.state, sent.request, Completion(reply));
            s'.messages == s.messages + [UserMessage(text), ReplyMessage(reply)] && !s'.isTyping
  {
  }

  /** One exchange from the initial state: the greeting is sent back to the
      endpoint as an assistant turn, and the transcript ends up as exactly
      greeting, user message, reply. */
  lemma FirstRoundTrip(text: string, reply: string)
    ensures var sent := HandleSend(Init(), text);
            && sent.request.body.messages
               == [ApiMessage(System, RoleContents[0]),
                   ApiMessage(Assistant, GreetingText),
                   ApiMessage(User, text)]
            && OnResponse(sent.state, sent.request, Completion(reply))
               == State(RoleContents[0], [Greeting, UserMessage(text), ReplyMessage(reply)], false)
  {
  }

  /** Changing the preset before a send changes only the system entry of the
      request that send issues. */
  lemma SelectRoleOnlyChangesSystemEntry(s: State, value: string, text: string)
    requires IsPreset(value)
    ensures var before := HandleSend(s, text).request.body.messages;
            var after := HandleSend(SelectRole(s, value), text).request.body.messages;
            && after[0] == ApiMessage(System, value)
            && after[1..] == before[1..]
            && (after[0] == before[0] <==> value == s.selectedRole)
  {
  }

  /** A request issued by a valid controller carries exactly its transcript
      and preset: reading its body back recovers both. */
  lemma RequestCarriesTranscript(s: State, text: string)
    requires Valid(s)
    ensures var sent := HandleSend(s, text);
            ParseRequest(sent.request.body.messages) == Some((s.selectedRole, sent.state.messages))
  {
    var sent := HandleSend(s, text);
    RequestRoundTrip(s.selectedRole, sent.state.messages);
  }
}
