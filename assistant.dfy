/** The voice assistant object: a conversation log it appends to, a transcriber it opens
    and closes, and the handlers that coordinate listening, generating and speaking. Each
    method is proved to do to the object what the matching function of `Machine` does to
    a state. */
module Assistant {
  import opened Conversation
  import opened Collaborators
  import Machine

  class AIAssistant {
    /** The conversation log sent to the response generator. */
    var log: seq<Turn>
    /** Whether a transcriber is held (the handle is not none). */
    var transcriberOpen: bool
    /** Every call made to a collaborator, in order. */
    ghost var trace: seq<Call>

    /** The object's state as a value. */
    ghost function Snapshot(): Machine.State
      reads this
    {
      Machine.State(log, transcriberOpen, trace)
    }

    /** A new assistant: the log holds the persona turn alone and no transcriber is held. */
    constructor ()
      ensures log == [Turn(System, Persona)] && !transcriberOpen && trace == []
      ensures Snapshot() == Machine.Initial()
    {
      log := Seed();
      transcriberOpen := false;
      trace := [];
    }

    /** Opens a transcriber at 16000 Hz with a 1000 ms end-of-utterance threshold and
        streams the microphone to it. */
    method StartTranscription()
      modifies this
      ensures Snapshot() == Machine.Start(old(Snapshot()))
      ensures transcriberOpen && log == old(log)
    {
      transcriberOpen := true;
      trace := trace + [OpenSession(SampleRate, SilenceThresholdMs)];
    }

    /** Closes the transcriber if one is held and clears the handle. */
    method StopTranscription()
      modifies this
      ensures Snapshot() == Machine.Stop(old(Snapshot()))
      ensures !transcriberOpen && log == old(log)
      ensures !old(transcriberOpen) ==> trace == old(trace)
    {
      if transcriberOpen {
        trace := trace + [CloseSession];
        transcriberOpen := false;
      }
    }

    /** Handles one transcript event: nothing for an empty text or a partial transcript,
        a response for a final one. */
    method OnData(transcript: Transcript, svc: Services) returns (status: Status)
      modifies this
      ensures Machine.Step(Snapshot(), status) == Machine.OnData(old(Snapshot()), transcript, svc)
    {
      if transcript.text == "" {
        return Returned;
      }
      if transcript.FinalTranscript? {
        status := GenerateAiResponse(transcript, svc);
      } else {
        status := Returned;
      }
    }

    /** Responds to a final transcript: stops listening, logs the user turn, asks the
        generator with the whole log, speaks the reply, then listens again. An exception
        from the generator or the synthesiser escapes before listening resumes. */
    method GenerateAiResponse(transcript: Transcript, svc: Services) returns (status: Status)
      modifies this
      ensures Machine.Step(Snapshot(), status) == Machine.Respond(old(Snapshot()), transcript.text, svc)
    {
      StopTranscription();
      log := log + [Turn(User, transcript.text)];
      trace := trace + [Complete(ChatModel, log)];
      var response := svc.complete(log);
      if response.Raise? {
        return Raised(response.exc);
      }
      var aiResponse := response.value;
      status := GenerateAudio(aiResponse, svc);
      if status.Raised? {
        return;
      }
      StartTranscription();
    }

    /** Logs the assistant turn, then synthesises `text` with the primary voice, retrying
        once with a fallback voice on a `ValueError`, and plays the audio. */
    method GenerateAudio(text: string, svc: Services) returns (status: Status)
      modifies this
      ensures Machine.Step(Snapshot(), status) == Machine.Speak(old(Snapshot()), text, svc)
    {
      log := log + [Turn(Assistant, text)];
      trace := trace + [Synthesize(text, PrimaryVoice)];
      var audioStream := svc.synthesize(text, PrimaryVoice);
      if audioStream == Raise(ValueError) {
        trace := trace + [ListVoices];
        var availableVoices := svc.voices;
        if availableVoices.Raise? {
          return Raised(availableVoices.exc);
        }
        var fallbackVoice := FallbackVoice(availableVoices.value);
        trace := trace + [Synthesize(text, fallbackVoice)];
        audioStream := svc.synthesize(text, fallbackVoice);
      }
      if audioStream.Raise? {
        return Raised(audioStream.exc);
      }
      trace := trace + [Play(audioStream.value)];
      status := Returned;
    }
  }

  /** The program's start-up: a new assistant speaks the greeting and then starts
      listening; an exception from speaking the greeting ends start-up before listening. */
  method StartUp(svc: Services) returns (assistant: AIAssistant, status: Status)
    ensures fresh(assistant)
    ensures Machine.Step(assistant.Snapshot(), status) == Machine.Boot(svc)
    ensures assistant.log == [Turn(System, Persona), Turn(Assistant, Greeting)]
  {
    assistant := new AIAssistant();
    status := assistant.GenerateAudio(Greeting, svc);
    if status.Raised? {
      return;
    }
    assistant.StartTranscription();
  }
}
