/**
  A browser session as a sequence of user and network events: the controller
  state together with the requests still in flight. Sends are not serialised,
  so several requests can be in flight and they can settle in any order.
 */
module Sessions {

  import opened Options
  import opened Presets
  import opened Transcript
  import opened Envelope
  import opened Controller

  datatype Session = Session(ui: State, inFlight: seq<Request>)

  datatype Event =
    | Send(text: string)                      // the user submits a message
    | Settle(index: nat, response: Response)  // in-flight request `index` settles
    | Choose(value: string)                   // the user picks a preset

  const Start: Session := Session(Init(), [])

  /** The events that can occur: only in-flight requests settle, and the
      selector only offers presets. */
  predicate Enabled(s: Session, e: Event) {
    match e
    case Send(_) => true
    case Settle(i, _) => i < |s.inFlight|
    case Choose(v) => IsPreset(v)
  }

  function Step(s: Session, e: Event): (s': Session)
    requires Enabled(s, e)
    ensures e.Send? ==> |s'.inFlight| == |s.inFlight| + 1
    ensures e.Send? ==> s'.inFlight[..|s.inFlight|] == s.inFlight
    ensures e.Send? ==> s'.inFlight[|s.inFlight|] == HandleSend(s.ui, e.text).request
    ensures e.Send? ==> s'.ui == HandleSend(s.ui, e.text).state
    ensures e.Settle? ==> |s'.inFlight| == |s.inFlight| - 1
    ensures e.Settle? ==> multiset(s'.inFlight) + multiset{s.inFlight[e.index]} == multiset(s.inFlight)
    ensures e.Settle? ==> s'.ui == OnResponse(s.ui, s.inFlight[e.index], e.response)
    ensures e.Choose? ==> s'.inFlight == s.inFlight
    ensures e.Choose? ==> s'.ui == SelectRole(s.ui, e.value)
  {
    match e
    case Send(text) =>
      var sent := HandleSend(s.ui, text);
      Session(sent.state, s.inFlight + [sent.request])
    case Settle(i, resp) =>
      RemoveAtMultiset(s.inFlight, i);
      Session(OnResponse(s.ui, s.inFlight[i], resp), s.inFlight[..i] + s.inFlight[i + 1..])
    case Choose(v) =>
      Session(SelectRole(s.ui, v), s.inFlight)
  }

  /** Removing the element at `k` takes exactly that element out of the multiset. */
  lemma RemoveAtMultiset(rs: seq<Request>, k: nat)
    requires k < |rs|
    ensures multiset(rs[..k] + rs[k + 1..]) + multiset{rs[k]} == multiset(rs)
  {
    assert rs == rs[..k] + [rs[k]] + rs[k + 1..];
  }

  /** `events` can happen one after another from `s`. */
  predicate Feasible(s: Session, events: seq<Event>)
    decreases |events|
  {
    |events| == 0 || (Enabled(s, events[0]) && Feasible(Step(s, events[0]), events[1..]))
  }

  function Run(s: Session, events: seq<Event>): Session
    requires Feasible(s, events)
    decreases |events|
  {
    if |events| == 0 then s else Run(Step(s, events[0]), events[1..])
  }

  /** What holds in every session state: the controller is valid and every
      in-flight request was issued by a valid controller. */
  predicate Inv(s: Session) {
    Valid(s.ui) && AllValidRequests(s.inFlight)
  }

  predicate AllValidRequests(rs: seq<Request>) {
    forall i :: 0 <= i < |rs| ==> ValidRequest(rs[i])
  }

  lemma StartSatisfiesInv()
    ensures Inv(Start)
    ensures !Start.ui.isTyping && Start.inFlight == []
  {
  }

  /** Requests already in flight stay valid when one is added or removed. */
  lemma AppendRequestKeepsValid(rs: seq<Request>, r: Request)
    requires AllValidRequests(rs)
    requires ValidRequest(r)
    ensures AllValidRequests(rs + [r])
  {
  }

  lemma RemoveRequestKeepsValid(rs: seq<Request>, k: nat)
    requires k < |rs|
    requires AllValidRequests(rs)
    ensures AllValidRequests(rs[..k] + rs[k + 1..])
  {
  }

  lemma StepPreservesInv(s: Session, e: Event)
    requires Inv(s)
    requires Enabled(s, e)
    ensures Inv(Step(s, e))
  {
    match e
    case Send(text) =>
      var sent := HandleSend(s.ui, text);
      AppendRequestKeepsValid(s.inFlight, sent.request);
    case Settle(i, resp) =>
      assert ValidRequest(s.inFlight[i]);
      RemoveRequestKeepsValid(s.inFlight, i);
    case Choose(v) =>
  }

  /** Every reachable session satisfies the invariant: the preset is always one
      of the offered presets, the transcript always opens with the greeting,
      and every request carries a preset and a well-formed transcript. */
  lemma {:induction false} RunPreservesInv(s: Session, events: seq<Event>)
    requires Inv(s)
    requires Feasible(s, events)
    ensures Inv(Run(s, events))
    decreases |events|
  {
    if |events| > 0 {
      StepPreservesInv(s, events[0]);
      RunPreservesInv(Step(s, events[0]), events[1..]);
    }
  }

  /** Each request in flight names the fixed model, carries one of the
      presets in its system entry, and reads back as that preset and the
      transcript it was sent for. */
  lemma InFlightRequestsReadBack(s: Session, i: nat)
    requires Inv(s)
    requires i < |s.inFlight|
    ensures var r := s.inFlight[i];
            && r.body.model == ModelName
            && ParseRequest(r.body.messages) == Some((r.body.messages[0].content, r.snapshot))
            && IsPreset(r.body.messages[0].content)
  {
    var r := s.inFlight[i];
    RequestRoundTrip(r.body.messages[0].content, r.snapshot);
  }

  /** Of all events, only a request settling with a completion lowers the
      typing flag. */
  lemma OnlyCompletionLowersTyping(s: Session, e: Event)
    requires Enabled(s, e)
    requires s.ui.isTyping
    requires !Step(s, e).ui.isTyping
    ensures e.Settle? && e.response.Completion?
  {
  }

  /** After a failed request the typing flag stays raised: with nothing else
      in flight, no later event can lower it except another send's reply. */
  lemma RejectionKeepsTyping(s: Session, text: string)
    ensures var s1 := Step(s, Send(text));
            var s2 := Step(s1, Settle(|s.inFlight|, Rejected));
            s2.ui.isTyping && s2.ui.messages == s1.ui.messages && s2.inFlight == s.inFlight
  {
  }

  /** Two sends before the first reply: the first reply rebuilds the transcript
      from its own snapshot, so the second user message disappears from it. */
  lemma StaleReplyDropsLaterSend(s: Session, a: string, b: string, reply: string)
    ensures var s1 := Step(s, Send(a));
            var s2 := Step(s1, Send(b));
            var s3 := Step(s2, Settle(|s.inFlight|, Completion(reply)));
            && s2.ui.messages == s.ui.messages + [UserMessage(a), UserMessage(b)]
            && s3.ui.messages == s.ui.messages + [UserMessage(a), ReplyMessage(reply)]
            && !s3.ui.isTyping
            && |s3.inFlight| == |s.inFlight| + 1
  {
  }
}
