/** A whole conversation: start-up, then transcript events delivered one at a time by the
    open session, and what the log and the calls made look like after any number of them. */
module Runs {
  import opened Conversation
  import opened Collaborators
  import opened Machine

  /** The text of an event that leads to a response (a final transcript with text), if it is one. */
  function Heard(t: Transcript): seq<string> {
    if t.FinalTranscript? && t.text != "" then [t.text] else []
  }

  /** The texts of the events that lead to a response, in order. */
  function FinalTexts(events: seq<Transcript>): seq<string> {
    if events == [] then [] else Heard(events[0]) + FinalTexts(events[1..])
  }

  /** Event delivery: each event goes to the assistant's handler in order, for as long as a
      transcription session is open to deliver it. */
  function Run(st: Step, events: seq<Transcript>, svc: Services): Step
    decreases |events|
  {
    if events == [] || !st.state.open then st
    else Run(OnData(st.state, events[0], svc), events[1..], svc)
  }

  /** One event delivered to an open session: the invariant is kept; an exception leaves
      no session open; a normal return leaves it open, with the log still in shape and one
      exchange longer exactly when the event was a final transcript with text. */
  lemma OnDataStep(s: State, t: Transcript, svc: Services)
    requires Inv(s) && s.open && Conversational(s.log)
    ensures var r := OnData(s, t, svc);
      && Inv(r.state)
      && (r.status.Returned? <==> r.state.open)
      && Completions(r.state.trace) == Completions(s.trace) + |Heard(t)|
      && (r.status.Returned? ==>
            && Conversational(r.state.log)
            && |r.state.log| == |s.log| + 2 * |Heard(t)|
            && UserTexts(r.state.log) == UserTexts(s.log) + Heard(t))
  {
    var r := OnData(s, t, svc);
    OnDataKeepsInv(s, t, svc);
    if t.FinalTranscript? && t.text != "" && r.status.Returned? {
      var reply :| r.state.log == s.log + [Turn(User, t.text), Turn(Assistant, reply)];
      ExchangeKeepsShape(s.log, t.text, reply);
    }
  }

  /** Delivering events to an open session keeps the invariant; when no exception escaped,
      the session is still open and the generator was called once per final transcript
      with text; after an exception no session is open. */
  lemma {:induction false} RunKeepsInv(st: Step, events: seq<Transcript>, svc: Services)
    requires Inv(st.state) && st.state.open && st.status.Returned? && Conversational(st.state.log)
    ensures var r := Run(st, events, svc);
      && Inv(r.state)
      && (r.status.Raised? ==> !r.state.open)
      && (r.status.Returned? ==>
            && r.state.open
            && Completions(r.state.trace) == Completions(st.state.trace) + |FinalTexts(events)|)
    decreases |events|
  {
    if events != [] {
      var e := events[0];
      var next := OnData(st.state, e, svc);
      OnDataStep(st.state, e, svc);
      assert FinalTexts(events) == Heard(e) + FinalTexts(events[1..]);
      assert Run(st, events, svc) == Run(next, events[1..], svc);
      if next.status.Returned? {
        RunKeepsInv(next, events[1..], svc);
      } else {
        assert Run(next, events[1..], svc) == next;
      }
    }
  }

  /** Delivering events to an open session, when no exception escaped, keeps the shape of
      the log and grows it by one exchange per final transcript with text, whose words are
      its new user turns, in order. */
  lemma {:induction false} RunKeepsLog(st: Step, events: seq<Transcript>, svc: Services)
    requires Inv(st.state) && st.state.open && st.status.Returned? && Conversational(st.state.log)
    ensures var r := Run(st, events, svc);
      r.status.Returned? ==>
        && Conversational(r.state.log)
        && |r.state.log| == |st.state.log| + 2 * |FinalTexts(events)|
        && UserTexts(r.state.log) == UserTexts(st.state.log) + FinalTexts(events)
    decreases |events|
  {
    if events != [] {
      var e := events[0];
      var next := OnData(st.state, e, svc);
      OnDataStep(st.state, e, svc);
      assert FinalTexts(events) == Heard(e) + FinalTexts(events[1..]);
      assert Run(st, events, svc) == Run(next, events[1..], svc);
      if next.status.Returned? {
        RunKeepsLog(next, events[1..], svc);
      } else {
        assert Run(next, events[1..], svc) == next;
      }
    }
  }

  /** After start-up and any sequence of transcript events: every call made was
      half-duplex; and when no exception escaped, the log is the persona, the greeting and
      one (user, assistant) pair per final transcript with text, in order, so that it holds
      2 + 2N turns after N such transcripts, and the generator was called N times. */
  lemma ConversationAfterTranscripts(events: seq<Transcript>, svc: Services)
    ensures var r := Run(Boot(svc), events, svc);
      && HalfDuplex(r.state.trace)
      && Listening(r.state.trace) == r.state.open
      && (r.status.Returned? ==>
            && r.state.open
            && Conversational(r.state.log)
            && |r.state.log| == 2 + 2 * |FinalTexts(events)|
            && UserTexts(r.state.log) == FinalTexts(events)
            && Completions(r.state.trace) == |FinalTexts(events)|)
  {
    var boot := Boot(svc);
    BootKeepsInv(svc);
    if boot.status.Returned? {
      var greeted := [Turn(System, Persona), Turn(Assistant, Greeting)];
      UserTextsAppend([], Turn(System, Persona));
      assert [] + [Turn(System, Persona)] == [Turn(System, Persona)];
      UserTextsAppend([Turn(System, Persona)], Turn(Assistant, Greeting));
      assert UserTexts(greeted) == [];
      RunKeepsInv(boot, events, svc);
      RunKeepsLog(boot, events, svc);
    } else {
      assert !boot.state.open;
    }
  }
}
