# Chat front-end conversation controller

A Dafny model of the conversation controller of a single-page chat client
that forwards what the user types to a chat-completion endpoint
(`src/App.jsx`). The controller keeps three pieces of state: the selected
"system role" preset, the transcript of chat messages, and the typing flag.
It builds a request from the transcript and the preset, and it merges the
reply back into the transcript.

Modules:

- `Presets`: the four role presets and the default preset.
- `Transcript`: transcript entries. Each entry has a text (`message`), a
  sender name and a direction marker. The greeting, user messages and bot
  replies are the three shapes the controller creates.
- `Envelope`: the request body sent to the endpoint. The transcript maps
  entry by entry to `{role, content}`: sender `"ChatGPT"` gives role
  `assistant` and every other sender gives role `user`. A `system` entry
  carrying the preset goes in front. `ParseRequest` reads such a list back,
  and two lemmas prove it is the inverse of `BuildRequestBody` on
  controller-created transcripts.
- `Controller`: the state, the initial state, and the send, reply and
  preset-selection transitions.
- `Sessions`: event traces. Several requests can be in flight at once and
  can settle in any order. This module proves the state invariant over
  every feasible trace.

The network reply is an input to the model. `Response` is either
`Completion(content)` or `Rejected`. `Rejected` stands for every way the
request chain fails: a network error, a body that is not JSON, or a body with
no `choices[0].message` (an error status produces such a body). The
source has no handler for these failures. So a rejection changes nothing,
and the typing flag stays raised.

The reply handler rebuilds the transcript from the transcript captured when
the request was sent (its snapshot), not from the current one. When two
sends overlap, the first reply therefore drops the second user message.
`Sessions.StaleReplyDropsLaterSend` states this.

Three facts about the code shape the model:

- The bot's sender name is `"ChatGPT"`.
- A failed request leaves the typing flag raised: the reply chain has no
  rejection handler (src/App.jsx:90-113).
- Messages are not checked for emptiness before they are sent.

## Model

| member | source | states |
|---|---|---|
| `Presets.DefaultPreset` | src/App.jsx:15-29 | the initial preset is a member of the preset list, namely its first entry |
| `Presets.PresetsDistinct` | src/App.jsx:125-129 | the option values are pairwise distinct, so a selected value names exactly one option |
| `Envelope.RoleOf` | src/App.jsx:70-75 | the role is `assistant` exactly when the sender is `"ChatGPT"`; no sender ever gets the `system` role |
| `Envelope.ApiMessages` | src/App.jsx:69-77 | one API message per transcript entry, in order; entry i's content is message i's text, and its role is `assistant` iff that sender is `"ChatGPT"`, otherwise `user` |
| `Envelope.FormatMessages` | src/App.jsx:69-77 | an alternative, loop-based formulation of the `.map`: it computes exactly the entry-by-entry mapping `ApiMessages` defines |
| `Envelope.BuildRequestBody` | src/App.jsx:82-88 | the body names the fixed model and has one more message than the transcript; message 0 is the `system` entry with the preset; message i+1 comes from transcript entry i (same content, `assistant` iff sender `"ChatGPT"`, else `user`) |
| `Envelope.WireRoleNames` | src/App.jsx:70-88 | the request's roles as written on the wire: `"system"` for entry 0, then `"assistant"` exactly for entries from sender `"ChatGPT"` and `"user"` for all others |
| `Envelope.ApiMessagesAppend` | src/App.jsx:69-77 | mapping a concatenation yields the concatenation of the mappings, so growing the transcript only grows the request's tail |
| `Envelope.PresetOnlyChangesSystemEntry` | src/App.jsx:32-35 | two requests for the same transcript under different presets agree on every message after the first and on the model; their first messages agree iff the presets are equal |
| `Envelope.TurnOf` | src/App.jsx:71-76 | a non-system API message reads back as a controller-shaped entry that maps to that same API message; a system entry does not read back |
| `Envelope.ParseTurnsOfApiMessages` | src/App.jsx:69-77 | reading back the mapped list of a controller-created transcript recovers the transcript |
| `Envelope.ApiMessagesOfParseTurns` | src/App.jsx:69-77 | a list that reads back as a transcript is exactly that transcript's mapping, and the transcript is controller-shaped |
| `Envelope.RequestRoundTrip` | src/App.jsx:82-88 | a request body's messages read back as exactly the preset and transcript it was built from |
| `Envelope.ParsedRequestRebuilds` | src/App.jsx:82-88 | a message list that reads back as (preset, transcript) is exactly the request built from them |
| `Controller.Init` | src/App.jsx:27-44 | the initial state is valid: a preset from the list (the first), a transcript that is just the bot's greeting, typing off |
| `Controller.HandleSend` | src/App.jsx:46-61 | the transcript grows by one outgoing `"user"` message with the typed text and earlier entries are unchanged; typing is on; the preset is kept; the request is built from the new transcript under the current preset; validity is preserved |
| `Controller.OnResponse` | src/App.jsx:98-113 | a completion makes the transcript the request's snapshot plus a `"ChatGPT"` reply and turns typing off; a rejection changes nothing; validity is preserved |
| `Controller.SelectRole` | src/App.jsx:120-130 | the chosen preset becomes active; transcript and typing flag are untouched; the preset stays in the list |
| `Controller.TypingFlagTransitions` | src/App.jsx:44-112 | sending turns typing on, selecting a preset leaves it alone, and while typing is on a settled request turns it off iff it is a completion |
| `Controller.ReplyAppendsToCurrent` | src/App.jsx:53-111 | a send followed by its reply grows the transcript by the user message and then the reply, earlier entries unchanged |
| `Controller.FirstRoundTrip` | src/App.jsx:37-112 | from the initial state the first request is [system preset 0, assistant greeting, user text], and its reply yields exactly [greeting, user message, reply] with typing off |
| `Controller.SelectRoleOnlyChangesSystemEntry` | src/App.jsx:27-35 | changing the preset before a send changes only message 0 of the request that send issues |
| `Controller.RequestCarriesTranscript` | src/App.jsx:53-88 | from a valid state, the issued request reads back as exactly the current preset and the new transcript |
| `Sessions.Step` | src/App.jsx:46-130 | a send applies the send transition and appends its request behind the existing ones; a settle applies the reply handling of that request and removes exactly that one request, keeping the others; a preset choice applies the selection and leaves the in-flight list alone |
| `Sessions.StartSatisfiesInv` | src/App.jsx:27-44 | the session starts in the invariant, not typing, with nothing in flight |
| `Sessions.StepPreservesInv` | src/App.jsx:46-130 | every enabled event preserves the invariant: preset from the list, transcript opening with the greeting and holding only controller-created entries, every in-flight request built from such a transcript under a listed preset |
| `Sessions.RunPreservesInv` | src/App.jsx:15-130 | the invariant holds after every feasible sequence of events |
| `Sessions.InFlightRequestsReadBack` | src/App.jsx:82-88 | in a reachable session every in-flight request names the fixed model, carries a listed preset, and reads back as its preset and its snapshot |
| `Sessions.OnlyCompletionLowersTyping` | src/App.jsx:59-112 | no event except a request settling with a completion turns a raised typing flag off |
| `Sessions.RejectionKeepsTyping` | src/App.jsx:90-113 | a send whose request is rejected leaves typing on and the transcript as it was after the send |
| `Sessions.StaleReplyDropsLaterSend` | src/App.jsx:105-111 | after two sends, the first reply leaves the transcript as the first snapshot plus the reply: the second user message is gone and typing is off |

## Left out

- The HTTP call, its headers, JSON serialisation and parsing, and the endpoint URL. The reply is an input (`Response`) to the model.
- Loading the API key from the build environment: this is configuration.
- JSX rendering, the chat widget components, styles and the console logging: these are UI.
- A reply whose `choices[0].message` exists but whose `content` is missing or not a string: the source appends it as-is as a `"ChatGPT"` message and clears the typing flag, but `Completion` carries only strings, so this case is not modelled.
- The `sentTime` display label of the greeting: it is an opaque constant with no behaviour.
- The event loop's scheduling is left out. `Sessions` lets in-flight requests settle in any order, but it does not model when React re-renders or batches state updates.
- Controller.SelectRole: requires the value to be one of the presets. The selector element only emits its option values, so this is a property of the widget and not a check in the code.
