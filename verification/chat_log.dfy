/** The message log both chat assistants keep: a greeting to start with, the
    user's message appended on send, and one bot reply appended later for each
    message sent. The reply arrives in a separate step, standing for the
    one-second delay; replies come in the order the messages were sent. */
module ChatLog {
  import opened Text

  datatype Message<R> = Greeting | UserText(text: string) | BotReply(reply: R)

  function UserCount<R>(ms: seq<Message<R>>): nat {
    if ms == [] then 0 else (if ms[0].UserText? then 1 else 0) + UserCount(ms[1..])
  }

  function ReplyCount<R>(ms: seq<Message<R>>): nat {
    if ms == [] then 0 else (if ms[0].BotReply? then 1 else 0) + ReplyCount(ms[1..])
  }

  lemma {:induction false} CountsSnoc<R>(ms: seq<Message<R>>, m: Message<R>)
    ensures UserCount(ms + [m]) == UserCount(ms) + (if m.UserText? then 1 else 0)
    ensures ReplyCount(ms + [m]) == ReplyCount(ms) + (if m.BotReply? then 1 else 0)
  {
    if ms != [] {
      assert (ms + [m])[1..] == ms[1..] + [m];
      CountsSnoc(ms[1..], m);
    }
  }

  class Chat<R> {
    var messages: seq<Message<R>>
    var input: string
    /** Sent messages still waiting for their reply, oldest first. */
    var pending: seq<string>

    /** The log opens with the greeting, and every user message has its reply
        or is waiting for it. */
    predicate Valid()
      reads this
    {
      |messages| > 0 && messages[0].Greeting? &&
      UserCount(messages) == ReplyCount(messages) + |pending|
    }

    constructor ()
      ensures Valid()
      ensures messages == [Greeting] && input == "" && pending == []
    {
      messages := [Greeting];
      input := "";
      pending := [];
    }

    /** The input box's change handler. */
    method Type(text: string)
      modifies this
      ensures input == text
      ensures messages == old(messages) && pending == old(pending)
    {
      input := text;
    }

    /** Sends the input: blank input is ignored; otherwise the message as typed
        joins the log, its reply is scheduled and the input box is cleared. */
    method Send()
      requires Valid()
      modifies this
      ensures Valid()
      ensures IsBlank(old(input)) ==>
        messages == old(messages) && input == old(input) && pending == old(pending)
      ensures !IsBlank(old(input)) ==>
        messages == old(messages) + [UserText(old(input))] && input == "" &&
        pending == old(pending) + [old(input)]
    {
      if !IsBlank(input) {
        CountsSnoc(messages, UserText(input));
        messages := messages + [UserText(input)];
        pending := pending + [input];
        input := "";
      }
    }

    /** The delayed step: the reply to the oldest waiting message joins the log. */
    method Deliver(respond: string -> R)
      requires Valid() && pending != []
      modifies this
      ensures Valid()
      ensures messages == old(messages) + [BotReply(respond(old(pending)[0]))]
      ensures pending == old(pending)[1..] && input == old(input)
    {
      CountsSnoc(messages, BotReply(respond(pending[0])));
      messages := messages + [BotReply(respond(pending[0]))];
      pending := pending[1..];
    }
  }

  /** A session with either assistant: a blank message is ignored, and a
      message with text gets exactly one reply, the one `respond` gives it. */
  method Conversation<R>(respond: string -> R, blank: string, message: string) returns (log: seq<Message<R>>)
    requires IsBlank(blank) && !IsBlank(message)
    ensures log == [Greeting, UserText(message), BotReply(respond(message))]
  {
    var chat := new Chat<R>();
    chat.Type(blank);
    chat.Send();
    chat.Type(message);
    chat.Send();
    chat.Deliver(respond);
    log := chat.messages;
  }
}
