/** The assistant's collaborators, seen through what they deliver and what they are asked:
    transcript events from the real-time transcriber, answers (or exceptions) from the
    response generator and the speech synthesiser, and the record of calls made to them. */
module Collaborators {
  import opened Conversation

  /** A transcript event, partial or final, as the real-time transcriber hands it over.
      A missing text is modelled as the empty string. */
  datatype Transcript = PartialTranscript(text: string) | FinalTranscript(text: string)

  /** The exception classes the assistant tells apart: only `ValueError` from the
      synthesiser is caught; anything else propagates as `OtherError`. */
  datatype Exc = ValueError | OtherError

  /** What a collaborator call gives back: a value, or an exception it raised. */
  datatype Answer<T> = Ok(value: T) | Raise(exc: Exc)

  /** How a method of the assistant ended: it returned normally or an exception escaped it. */
  datatype Status = Returned | Raised(exc: Exc)

  /** The audio stream the synthesiser produces, handed to the player as is. */
  type Audio = string

  /** The collaborators as oracles. `complete` answers a list of messages with the reply
      text; `synthesize` turns text and a voice id into audio; `voices` is what listing
      the available voices gives. */
  datatype Services = Services(
    complete: seq<Turn> -> Answer<string>,
    synthesize: (string, string) -> Answer<Audio>,
    voices: Answer<seq<string>>)

  /** Session parameters every transcriber is opened with. */
  const SampleRate: nat := 16000
  const SilenceThresholdMs: nat := 1000

  /** The chat model the generator is asked for. */
  const ChatModel: string := "gpt-3.5-turbo"

  /** The voice id every synthesis is first attempted with. */
  const PrimaryVoice: string := "Xb7hH8MSUJpSbSDYk0k2"

  /** The voice id used for the retry when no voice is listed. */
  const DefaultVoice: string := "DefaultVoice"

  /** The voice the single retry uses: the first listed voice, else the default id. */
  function FallbackVoice(voices: seq<string>): string {
    if |voices| > 0 then voices[0] else DefaultVoice
  }

  /** One call made to a collaborator, in the order made. */
  datatype Call =
    | OpenSession(sampleRate: nat, silenceThresholdMs: nat)
    | CloseSession
    | Complete(model: string, messages: seq<Turn>)
    | Synthesize(text: string, voice: string)
    | ListVoices
    | Play(audio: Audio)
  {
    /** The calls that belong to thinking or speaking rather than to listening. */
    predicate Busy() {
      Complete? || Synthesize? || ListVoices? || Play?
    }
  }

  /** Whether a transcription session is open after the calls `tr`: the latest session
      call, if any, opened one. */
  function Listening(tr: seq<Call>): bool {
    if tr == [] then false
    else
      match tr[|tr| - 1]
      case OpenSession(_, _) => true
      case CloseSession => false
      case _ => Listening(tr[..|tr| - 1])
  }

  /** While a session is open, the only call allowed is the one that closes it: no
      generation, synthesis or playback, and no second session. */
  predicate Permitted(c: Call, listening: bool) {
    listening ==> c.CloseSession?
  }

  /** Half-duplex operation: every call in `tr` is permitted in the session state
      the calls before it left. */
  predicate HalfDuplex(tr: seq<Call>) {
    forall i :: 0 <= i < |tr| ==> Permitted(tr[i], Listening(tr[..i]))
  }

  /** The number of times the generator was called in `tr`. */
  function Completions(tr: seq<Call>): nat {
    if tr == [] then 0
    else Completions(tr[..|tr| - 1]) + (if tr[|tr| - 1].Complete? then 1 else 0)
  }

  /** The number of synthesis attempts in `tr`. */
  function Attempts(tr: seq<Call>): nat {
    if tr == [] then 0
    else Attempts(tr[..|tr| - 1]) + (if tr[|tr| - 1].Synthesize? then 1 else 0)
  }

  /** How one more call changes the session state, the half-duplex property and the counts. */
  lemma Extend(tr: seq<Call>, c: Call)
    ensures Listening(tr + [c]) == (if c.OpenSession? then true else if c.CloseSession? then false else Listening(tr))
    ensures HalfDuplex(tr + [c]) <==> HalfDuplex(tr) && Permitted(c, Listening(tr))
    ensures Completions(tr + [c]) == Completions(tr) + (if c.Complete? then 1 else 0)
    ensures Attempts(tr + [c]) == Attempts(tr) + (if c.Synthesize? then 1 else 0)
  {
    var tr' := tr + [c];
    assert tr'[..|tr|] == tr;
    forall i | 0 <= i < |tr|
      ensures tr'[i] == tr[i] && tr'[..i] == tr[..i]
    {
    }
    if HalfDuplex(tr') {
      forall i | 0 <= i < |tr|
        ensures Permitted(tr[i], Listening(tr[..i]))
      {
        assert Permitted(tr'[i], Listening(tr'[..i]));
      }
      assert Permitted(tr'[|tr|], Listening(tr'[..|tr|]));
    }
  }

  /** Calls that are all busy keep a closed session closed and keep it half-duplex,
      and their counts add up. */
  lemma {:induction false} ExtendBusy(tr: seq<Call>, d: seq<Call>)
    requires forall k :: 0 <= k < |d| ==> d[k].Busy()
    ensures Listening(tr + d) == Listening(tr)
    ensures HalfDuplex(tr) && !Listening(tr) ==> HalfDuplex(tr + d)
    ensures Completions(tr + d) == Completions(tr) + Completions(d)
    ensures Attempts(tr + d) == Attempts(tr) + Attempts(d)
    decreases |d|
  {
    if d == [] {
      assert tr + d == tr;
    } else {
      var init := d[..|d| - 1];
      var last := d[|d| - 1];
      assert d == init + [last];
      assert tr + d == (tr + init) + [last];
      ExtendBusy(tr, init);
      Extend(tr + init, last);
      Extend(init, last);
    }
  }
}
