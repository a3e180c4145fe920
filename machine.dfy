/** The assistant's turn coordination as functions on its state: each function says what
    one method of the assistant does to the log, to the transcriber and to the calls made. */
module Machine {
  import opened Conversation
  import opened Collaborators

  /** The assistant's state: the log, whether a transcriber is held, and every call
      made to a collaborator so far. */
  datatype State = State(log: seq<Turn>, open: bool, trace: seq<Call>)

  /** A state together with how the operation that produced it ended. */
  datatype Step = Step(state: State, status: Status)

  /** The synthesis calls made for one text and the audio (or exception) they produce. */
  datatype Synthesized = Synthesized(calls: seq<Call>, audio: Answer<Audio>)

  /** The state right after construction. */
  function Initial(): State {
    State(Seed(), false, [])
  }

  /** Opening a transcriber: the handle is set and a session is opened. */
  function Start(s: State): State {
    State(s.log, true, s.trace + [OpenSession(SampleRate, SilenceThresholdMs)])
  }

  /** Closing the transcriber, if one is held. */
  function Stop(s: State): State {
    if s.open then State(s.log, false, s.trace + [CloseSession]) else s
  }

  /** Synthesis with its fallback policy: the primary voice first; on a `ValueError`,
      list the voices and try once more with the fallback voice. */
  function Synthesis(text: string, svc: Services): Synthesized {
    var first := svc.synthesize(text, PrimaryVoice);
    if first != Raise(ValueError) then
      Synthesized([Synthesize(text, PrimaryVoice)], first)
    else
      match svc.voices
      case Raise(e) => Synthesized([Synthesize(text, PrimaryVoice), ListVoices], Raise(e))
      case Ok(voices) =>
        var fallback := FallbackVoice(voices);
        Synthesized([Synthesize(text, PrimaryVoice), ListVoices, Synthesize(text, fallback)],
                    svc.synthesize(text, fallback))
  }

  /** Speaking `text`: the assistant turn is logged first, then the text is synthesised
      and, if audio came back, played. */
  function Speak(s: State, text: string, svc: Services): (r: Step)
    ensures r.state.log == s.log + [Turn(Assistant, text)]
    ensures r.state.open == s.open
    ensures r.status.Returned? <==> Synthesis(text, svc).audio.Ok?
  {
    var logged := s.(log := s.log + [Turn(Assistant, text)]);
    var synth := Synthesis(text, svc);
    match synth.audio
    case Raise(e) => Step(logged.(trace := s.trace + synth.calls), Raised(e))
    case Ok(audio) => Step(logged.(trace := s.trace + synth.calls + [Play(audio)]), Returned)
  }

  /** Responding to a final transcript: close the transcriber, log the user turn, ask the
      generator, speak its reply, and only then open a new transcriber. */
  function Respond(s: State, text: string, svc: Services): (r: Step)
    ensures var asked := s.log + [Turn(User, text)];
      && (svc.complete(asked).Raise? ==> r.state.log == asked && r.status == Raised(svc.complete(asked).exc))
      && (svc.complete(asked).Ok? ==> r.state.log == asked + [Turn(Assistant, svc.complete(asked).value)])
    ensures r.status.Returned? <==> r.state.open
  {
    var closed := Stop(s);
    var asked := closed.(log := closed.log + [Turn(User, text)]);
    var called := asked.(trace := asked.trace + [Complete(ChatModel, asked.log)]);
    match svc.complete(asked.log)
    case Raise(e) => Step(called, Raised(e))
    case Ok(reply) => SpeakThenListen(called, reply, svc)
  }

  /** Speaking `text` and, if no exception escaped, starting a new transcriber: the tail
      that responses and start-up share. */
  function SpeakThenListen(s: State, text: string, svc: Services): (r: Step)
    ensures r.state.log == s.log + [Turn(Assistant, text)]
    ensures r.status.Returned? <==> Synthesis(text, svc).audio.Ok?
    ensures r.status.Returned? ==> r.state.open
    ensures r.status.Raised? ==> r.state.open == s.open
  {
    var spoken := Speak(s, text, svc);
    if spoken.status.Raised? then spoken else Step(Start(spoken.state), Returned)
  }

  /** Handling one transcript event: empty text and partial transcripts change nothing;
      a final transcript with text is responded to. */
  function OnData(s: State, t: Transcript, svc: Services): (r: Step)
    ensures t.text == "" || t.PartialTranscript? ==> r == Step(s, Returned)
    ensures t.FinalTranscript? && t.text != "" && r.status.Returned? ==>
      exists reply :: r.state.log == s.log + [Turn(User, t.text), Turn(Assistant, reply)]
  {
    if t.text == "" then Step(s, Returned)
    else if t.FinalTranscript? then Respond(s, t.text, svc)
    else Step(s, Returned)
  }

  /** The start-up sequence: construct, speak the greeting, then start listening. */
  function Boot(svc: Services): (r: Step)
    ensures r.state.log == [Turn(System, Persona), Turn(Assistant, Greeting)]
    ensures r.status.Returned? <==> r.state.open
  {
    SpeakThenListen(Initial(), Greeting, svc)
  }

  /** The fallback-voice policy: the first attempt uses the primary voice; only a
      `ValueError` leads to listing the voices, and then to exactly one retry with the
      first listed voice (or the default id); any other outcome is final. */
  lemma SynthesisPolicy(text: string, svc: Services)
    ensures var r := Synthesis(text, svc);
      var first := svc.synthesize(text, PrimaryVoice);
      && |r.calls| >= 1 && r.calls[0] == Synthesize(text, PrimaryVoice)
      && (forall k :: 0 <= k < |r.calls| ==> r.calls[k].Busy())
      && Attempts(r.calls) == (if first == Raise(ValueError) && svc.voices.Ok? then 2 else 1)
      && Completions(r.calls) == 0
      && (ListVoices in r.calls <==> first == Raise(ValueError))
      && (first != Raise(ValueError) ==> r.audio == first)
      && (first == Raise(ValueError) && svc.voices.Raise? ==> r.audio == Raise(svc.voices.exc))
      && (first == Raise(ValueError) && svc.voices.Ok? ==>
            && r.calls[|r.calls| - 1] == Synthesize(text, FallbackVoice(svc.voices.value))
            && r.audio == svc.synthesize(text, FallbackVoice(svc.voices.value)))
  {
    var r := Synthesis(text, svc);
    var one := [Synthesize(text, PrimaryVoice)];
    Extend([], Synthesize(text, PrimaryVoice));
    assert [] + one == one;
    var two := one + [ListVoices];
    Extend(one, ListVoices);
    if svc.voices.Ok? {
      var retry := Synthesize(text, FallbackVoice(svc.voices.value));
      Extend(two, retry);
      assert two + [retry] == [Synthesize(text, PrimaryVoice), ListVoices, retry];
    }
  }

  /** The calls made while speaking: busy calls only (synthesis, voice listing, playback),
      so no session is opened or closed; the first is synthesis with the primary voice, and
      the last is playback when audio came back. */
  lemma SpeakCalls(s: State, text: string, svc: Services)
    ensures var r := Speak(s, text, svc);
      && |r.state.trace| > |s.trace| && r.state.trace[..|s.trace|] == s.trace
      && r.state.trace[|s.trace|] == Synthesize(text, PrimaryVoice)
      && (forall k :: |s.trace| <= k < |r.state.trace| ==> r.state.trace[k].Busy())
      && Completions(r.state.trace) == Completions(s.trace)
      && Listening(r.state.trace) == Listening(s.trace)
      && (HalfDuplex(s.trace) && !Listening(s.trace) ==> HalfDuplex(r.state.trace))
      && (r.status.Returned? ==> r.state.trace[|r.state.trace| - 1] == Play(Synthesis(text, svc).audio.value))
  {
    var r := Speak(s, text, svc);
    var synth := Synthesis(text, svc);
    SynthesisPolicy(text, svc);
    var d := if synth.audio.Ok? then synth.calls + [Play(synth.audio.value)] else synth.calls;
    assert forall k :: 0 <= k < |d| ==> d[k].Busy();
    assert r.state.trace == s.trace + d;
    ExtendBusy(s.trace, d);
    if synth.audio.Ok? {
      Extend(synth.calls, Play(synth.audio.value));
    }
  }

  /** The assistant's own view of the session agrees with the calls made, and those calls
      were half-duplex. */
  predicate Inv(s: State) {
    Listening(s.trace) == s.open && HalfDuplex(s.trace)
  }

  /** The calls before a response: a close when a transcriber is held. */
  function Closing(s: State): seq<Call> {
    if s.open then [CloseSession] else []
  }

  /** Half-duplex ordering of a response, up to the generator: the transcriber is closed
      before the generator is called, and the generator is given the log ending in the
      new user turn. */
  lemma RespondCallsGenerator(s: State, text: string, svc: Services)
    ensures var r := Respond(s, text, svc);
      var n := |s.trace| + |Closing(s)|;
      && |r.state.trace| > n
      && r.state.trace[..n + 1] == s.trace + Closing(s) + [Complete(ChatModel, s.log + [Turn(User, text)])]
      && (Listening(s.trace) == s.open ==> !Listening(r.state.trace[..n]))
  {
    var r := Respond(s, text, svc);
    var n := |s.trace| + |Closing(s)|;
    var upTo := Stop(s).trace + [Complete(ChatModel, s.log + [Turn(User, text)])];
    assert Stop(s).trace == s.trace + Closing(s);
    if s.open {
      Extend(s.trace, CloseSession);
    }
    if svc.complete(s.log + [Turn(User, text)]).Ok? {
      var called := State(s.log + [Turn(User, text)], false, upTo);
      var reply := svc.complete(s.log + [Turn(User, text)]).value;
      SpeakCalls(called, reply, svc);
      var spoken := Speak(called, reply, svc);
      assert spoken.state.trace[..n + 1] == upTo;
      if spoken.status.Returned? {
        assert r.state.trace == spoken.state.trace + [OpenSession(SampleRate, SilenceThresholdMs)];
        assert r.state.trace[..n + 1] == spoken.state.trace[..n + 1];
      }
    }
    assert r.state.trace[..n] == upTo[..n];
  }

  /** The calls made by speaking and then listening extend the trace; every one of them is
      a busy call except the session opened last on a normal return. */
  lemma SpeakThenListenBusy(s: State, text: string, svc: Services)
    ensures var r := SpeakThenListen(s, text, svc);
      && |r.state.trace| > |s.trace| && r.state.trace[..|s.trace|] == s.trace
      && (forall k :: |s.trace| <= k < |r.state.trace| - 1 ==> r.state.trace[k].Busy())
      && (r.status.Raised? ==> r.state.trace[|r.state.trace| - 1].Busy())
  {
    var r := SpeakThenListen(s, text, svc);
    var spoken := Speak(s, text, svc);
    SpeakCalls(s, text, svc);
    if spoken.status.Returned? {
      assert r.state.trace == spoken.state.trace + [OpenSession(SampleRate, SilenceThresholdMs)];
      forall k | |s.trace| <= k < |r.state.trace| - 1
        ensures r.state.trace[k].Busy()
      {
        assert r.state.trace[k] == spoken.state.trace[k];
      }
    } else {
      assert r == spoken;
    }
  }

  /** Speaking and then listening keeps the invariant of a state with no session open and
      does not call the generator; on a normal return the last call opens a session, right
      after playback, and after an exception no session is open. */
  lemma SpeakThenListenCalls(s: State, text: string, svc: Services)
    requires Inv(s) && !s.open
    ensures var r := SpeakThenListen(s, text, svc);
      && Inv(r.state)
      && Completions(r.state.trace) == Completions(s.trace)
      && (r.status.Returned? ==>
            && |r.state.trace| >= |s.trace| + 2
            && r.state.trace[|r.state.trace| - 1] == OpenSession(SampleRate, SilenceThresholdMs)
            && r.state.trace[|r.state.trace| - 2].Play?)
      && (r.status.Raised? ==> !Listening(r.state.trace))
  {
    var spoken := Speak(s, text, svc);
    SpeakCalls(s, text, svc);
    if spoken.status.Returned? {
      Extend(spoken.state.trace, OpenSession(SampleRate, SilenceThresholdMs));
    }
  }

  /** Half-duplex ordering of a response, after the generator: the generator is called
      once; on a normal return the last call opens a session, right after playback; after
      an exception no session is open. */
  lemma RespondReopens(s: State, text: string, svc: Services)
    requires Inv(s)
    ensures var r := Respond(s, text, svc);
      && Inv(r.state)
      && Completions(r.state.trace) == Completions(s.trace) + 1
      && (r.status.Returned? ==>
            && |r.state.trace| >= |s.trace| + 3
            && r.state.trace[|r.state.trace| - 1] == OpenSession(SampleRate, SilenceThresholdMs)
            && r.state.trace[|r.state.trace| - 2].Play?)
      && (r.status.Raised? ==> !Listening(r.state.trace))
  {
    var closed := Stop(s);
    StopIdempotent(s);
    var asked := s.log + [Turn(User, text)];
    var call := Complete(ChatModel, asked);
    var called := State(asked, false, closed.trace + [call]);
    Extend(closed.trace, call);
    if svc.complete(asked).Ok? {
      SpeakThenListenCalls(called, svc.complete(asked).value, svc);
    }
  }

  /** The calls a response makes after closing the transcriber: the generator request and
      then only busy calls, except a session opened last on a normal return. So between
      the close and the end of the response no session is opened or closed early. */
  lemma RespondBusy(s: State, text: string, svc: Services)
    ensures var r := Respond(s, text, svc);
      var n := |s.trace| + |Closing(s)|;
      && |r.state.trace| > n
      && r.state.trace[..n] == s.trace + Closing(s)
      && (forall k :: n <= k < |r.state.trace| - 1 ==> r.state.trace[k].Busy())
      && (r.status.Raised? ==> r.state.trace[|r.state.trace| - 1].Busy())
  {
    var r := Respond(s, text, svc);
    var closed := Stop(s);
    assert closed.trace == s.trace + Closing(s);
    var asked := s.log + [Turn(User, text)];
    var call := Complete(ChatModel, asked);
    var called := State(asked, false, closed.trace + [call]);
    if svc.complete(asked).Ok? {
      var reply := svc.complete(asked).value;
      assert r == SpeakThenListen(called, reply, svc);
      SpeakThenListenBusy(called, reply, svc);
      assert r.state.trace[..|called.trace|] == called.trace;
      assert r.state.trace[|closed.trace|] == call;
      assert r.state.trace[..|closed.trace|] == closed.trace;
    } else {
      assert r.state.trace == called.trace;
    }
  }

  /** Handling one event keeps the invariant, and calls the generator exactly once for a
      final transcript with text and never otherwise. */
  lemma OnDataKeepsInv(s: State, t: Transcript, svc: Services)
    requires Inv(s)
    ensures Inv(OnData(s, t, svc).state)
    ensures Completions(OnData(s, t, svc).state.trace)
      == Completions(s.trace) + (if t.FinalTranscript? && t.text != "" then 1 else 0)
  {
    if t.FinalTranscript? && t.text != "" {
      RespondReopens(s, t.text, svc);
    }
  }

  /** Start-up keeps the invariant and does not call the generator. */
  lemma BootKeepsInv(svc: Services)
    ensures Inv(Boot(svc).state)
    ensures Completions(Boot(svc).state.trace) == 0
  {
    assert HalfDuplex([]);
    SpeakThenListenCalls(Initial(), Greeting, svc);
  }

  /** Closing is idempotent: it always leaves no transcriber, never touches the log,
      changes nothing when none is held, and closes a session at most once. */
  lemma StopIdempotent(s: State)
    ensures !Stop(s).open && Stop(s).log == s.log
    ensures Stop(Stop(s)) == Stop(s)
    ensures !s.open ==> Stop(s) == s
    ensures |Stop(s).trace| <= |s.trace| + 1 && Stop(s).trace[..|s.trace|] == s.trace
    ensures Inv(s) ==> Inv(Stop(s)) && !Listening(Stop(s).trace)
  {
    if s.open {
      Extend(s.trace, CloseSession);
    }
  }
}
