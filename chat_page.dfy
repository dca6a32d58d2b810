/** The assistant chat page: the transcript and the send protocol. */
module ChatPage {
  import opened Wrappers
  import opened Text
  import opened Ui

  datatype Role = UserRole | AssistantRole

  datatype Message = Message(role: Role, content: string)

  const Greeting := Message(AssistantRole,
    "Hello! I'm Hexa, your AI assistant for tender bidding. I can help you with tender analysis, bidding strategy, market insights, and answer questions about the procurement process. How can I assist you today?")

  const Apology := Message(AssistantRole, "Sorry, I encountered an error. Please try again.")

  /** The greeting, then user and assistant messages alternating. */
  ghost predicate IsTranscript(ms: seq<Message>) {
    |ms| >= 1 && ms[0] == Greeting &&
    forall i | 1 <= i < |ms| :: (ms[i].role == UserRole <==> i % 2 == 1)
  }

  /** A message with the role due at the end keeps the transcript well formed. */
  lemma AppendKeepsTranscript(ms: seq<Message>, m: Message)
    requires IsTranscript(ms) && (m.role == UserRole <==> |ms| % 2 == 1)
    ensures IsTranscript(ms + [m])
  {
    var r := ms + [m];
    forall i | 1 <= i < |r| ensures r[i].role == UserRole <==> i % 2 == 1 {
      if i < |ms| {
        assert r[i] == ms[i];
      }
    }
  }

  /** The reply appended for an outcome of `POST /chat` (`None` on failure). */
  function ReplyFor(reply: Option<string>): (m: Message)
    ensures m.role == AssistantRole
    ensures reply.Some? ==> m.content == reply.value
    ensures reply.None? ==> m == Apology
  {
    if reply.Some? then Message(AssistantRole, reply.value) else Apology
  }

  class ChatPage {
    var messages: seq<Message>
    var input: string
    var loading: bool
    var notices: seq<Notice>

    /** While a reply is awaited the transcript ends with the user's message and the input is empty. */
    ghost predicate Valid()
      reads this
    {
      IsTranscript(messages) && (loading <==> |messages| % 2 == 0) && (loading ==> input == "")
    }

    constructor ()
      ensures Valid() && messages == [Greeting] && input == "" && !loading && notices == []
    {
      messages := [Greeting];
      input := "";
      loading := false;
      notices := [];
    }

    /** Typing; the input field is disabled while a reply is awaited. */
    method SetInput(s: string)
      requires Valid() && !loading
      modifies this
      ensures Valid() && input == s && messages == old(messages) && !loading
      ensures notices == old(notices)
    {
      input := s;
    }

    /**
     * First half of `handleSendMessage`, up to the request: `sent` is the
     * message posted, `None` when the input is blank (which is also the
     * case whenever a reply is still awaited).
     */
    method BeginSend() returns (sent: Option<string>)
      requires Valid()
      modifies this
      ensures Valid()
      ensures IsBlank(old(input)) ==>
        sent.None? && messages == old(messages) && input == old(input) && loading == old(loading)
      ensures !IsBlank(old(input)) ==>
        sent == Some(old(input)) && messages == old(messages) + [Message(UserRole, old(input))] &&
        input == "" && loading
      ensures old(loading) ==> sent.None?
      ensures notices == old(notices)
    {
      TrimEmptyIffBlank(input);
      if Trim(input) == "" {
        sent := None;
        return;
      }
      var text := input;
      AppendKeepsTranscript(messages, Message(UserRole, text));
      messages := messages + [Message(UserRole, text)];
      input := "";
      loading := true;
      sent := Some(text);
    }

    /** Second half: the reply (or the apology) is appended and loading ends. */
    method FinishSend(reply: Option<string>)
      requires Valid() && loading
      modifies this
      ensures Valid() && !loading
      ensures messages == old(messages) + [ReplyFor(reply)]
      ensures notices == if reply.Some? then old(notices) else old(notices) + [ErrorNotice("Failed to get response")]
      ensures input == old(input)
    {
      AppendKeepsTranscript(messages, ReplyFor(reply));
      if reply.Some? {
        messages := messages + [Message(AssistantRole, reply.value)];
      } else {
        notices := notices + [ErrorNotice("Failed to get response")];
        messages := messages + [Apology];
      }
      loading := false;
    }

    /** `handleSendMessage` from start to end: a non-blank send adds exactly two messages. */
    method HandleSendMessage(reply: Option<string>) returns (sent: Option<string>)
      requires Valid() && !loading
      modifies this
      ensures Valid() && !loading
      ensures IsBlank(old(input)) ==> sent.None? && messages == old(messages) && input == old(input)
      ensures !IsBlank(old(input)) ==>
        sent == Some(old(input)) && input == "" &&
        messages == old(messages) + [Message(UserRole, old(input)), ReplyFor(reply)]
      ensures notices == if IsBlank(old(input)) || reply.Some? then old(notices)
                         else old(notices) + [ErrorNotice("Failed to get response")]
    {
      sent := BeginSend();
      if sent.Some? {
        FinishSend(reply);
      }
    }
  }
}
