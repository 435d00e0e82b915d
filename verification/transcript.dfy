/**
  Chat transcript entries as the controller keeps them, and the three shapes
  in which the controller ever creates one.
 */
module Transcript {

  /** The sender name the controller gives to the bot's own messages. */
  const Chatbot: string := "ChatGPT"

  /** The sender name the controller gives to messages the user types. */
  const UserSender: string := "user"

  const GreetingText: string := "Hello, I'm ChatGPT! Ask me anything!"

  /** Rendering hint: user messages are marked outgoing; bot messages carry no marker. */
  datatype Direction = Outgoing | Unmarked

  /** One transcript entry. The display-only time label is not modelled. */
  datatype Message = Message(message: string, sender: string, direction: Direction)

  /** The synthetic bot greeting that opens every session. */
  const Greeting: Message := Message(GreetingText, Chatbot, Unmarked)

  /** The entry appended when the user sends `text`. */
  function UserMessage(text: string): Message {
    Message(text, UserSender, Outgoing)
  }

  /** The entry appended when the completion service answers with `text`. */
  function ReplyMessage(text: string): Message {
    Message(text, Chatbot, Unmarked)
  }

  /** An entry of one of the shapes the controller creates. */
  predicate Canonical(m: Message) {
    m == UserMessage(m.message) || m == ReplyMessage(m.message)
  }

  predicate AllCanonical(t: seq<Message>) {
    forall i :: 0 <= i < |t| ==> Canonical(t[i])
  }

  /** A transcript the controller can hold: the greeting first, then only
      user messages and replies. */
  predicate WellFormed(t: seq<Message>) {
    |t| >= 1 && t[0] == Greeting && AllCanonical(t)
  }
}
