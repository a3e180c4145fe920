/** The response generator as the constructor actually wires it: the field through which
    the generator is reached holds the API key string rather than a client built from it,
    so the request for a reply fails on every final transcript. */
module Findings {
  import opened Conversation
  import opened Collaborators
  import opened Machine
  import opened Runs

  /** The collaborators as wired: every request to the generator raises, because a string
      has no chat-completions attribute; synthesis and voice listing are as given. */
  function KeyAsClient(svc: Services): Services {
    svc.(complete := (messages: seq<Turn>) => Raise(OtherError))
  }

  /** As wired, the first final transcript with text ends the conversation: handling it
      raises, the user turn is the last thing logged, the transcriber stays closed, and no
      later event is ever handled. */
  lemma KeyAsClientEndsConversation(svc: Services, text: string, later: seq<Transcript>)
    requires text != ""
    ensures var wired := KeyAsClient(svc);
      var r := Run(Boot(wired), [FinalTranscript(text)] + later, wired);
      Boot(wired).status.Returned? ==>
        && r.status == Raised(OtherError)
        && !r.state.open
        && r.state.log == [Turn(System, Persona), Turn(Assistant, Greeting), Turn(User, text)]
  {
  }
}
