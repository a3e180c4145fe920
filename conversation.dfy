/** The conversation log the assistant keeps and sends to the response generator. */
module Conversation {

  /** Who spoke a turn. */
  datatype Role = System | User | Assistant

  /** One `{role, content}` entry of the log. */
  datatype Turn = Turn(role: Role, content: string)

  /** The persona the log is seeded with. */
  const Persona: string := "You are a receptionist at a restaurant. Be resourceful and efficient."

  /** The fixed utterance spoken at start-up, before the first listening session. */
  const Greeting: string := "Thank you for choosing our restaurant. I am Rachel, how can I help you with your order today?"

  /** The log a freshly constructed assistant holds: the system persona turn alone. */
  function Seed(): seq<Turn> {
    [Turn(System, Persona)]
  }

  /** The role the turn at position `i >= 2` must have: users speak at even positions. */
  function ExpectedRole(i: nat): Role {
    if i % 2 == 0 then User else Assistant
  }

  /** The shape the log has between exchanges: system persona, assistant greeting,
      then complete (user, assistant) pairs. */
  predicate Conversational(log: seq<Turn>) {
    && |log| >= 2
    && |log| % 2 == 0
    && log[0] == Turn(System, Persona)
    && log[1] == Turn(Assistant, Greeting)
    && forall i :: 2 <= i < |log| ==> log[i].role == ExpectedRole(i)
  }

  /** The contents of the user turns of `log`, in order. */
  function UserTexts(log: seq<Turn>): seq<string> {
    if log == [] then []
    else
      var last := log[|log| - 1];
      UserTexts(log[..|log| - 1]) + (if last.role == User then [last.content] else [])
  }

  /** Appending a turn extends the user texts only when it is a user turn. */
  lemma UserTextsAppend(log: seq<Turn>, t: Turn)
    ensures UserTexts(log + [t]) == UserTexts(log) + (if t.role == User then [t.content] else [])
  {
    assert (log + [t])[..|log|] == log;
  }

  /** An exchange keeps the shape of the log and adds exactly the user's words to its user texts. */
  lemma {:induction false} ExchangeKeepsShape(log: seq<Turn>, heard: string, reply: string)
    requires Conversational(log)
    ensures Conversational(log + [Turn(User, heard), Turn(Assistant, reply)])
    ensures UserTexts(log + [Turn(User, heard), Turn(Assistant, reply)]) == UserTexts(log) + [heard]
  {
    var asked := log + [Turn(User, heard)];
    assert asked + [Turn(Assistant, reply)] == log + [Turn(User, heard), Turn(Assistant, reply)];
    UserTextsAppend(log, Turn(User, heard));
    UserTextsAppend(asked, Turn(Assistant, reply));
  }
}
