# Voice receptionist: turn coordination

This project models the turn-coordination core of a voice assistant for a restaurant
(`AI_Assistant` in `app.py`). The assistant listens through a real-time transcriber. On a
final transcript it stops listening and appends the user's words to its conversation log.
It then asks a chat-completion generator for a reply, appends that reply as an assistant
turn, synthesises it (retrying once with a fallback voice if the first voice is rejected),
plays it, and only then listens again. At start-up it speaks a fixed greeting before it
listens for the first time.

The model has six modules:

- `Conversation` (`conversation.dfy`): log turns, the persona and greeting texts, the shape
  of a log between exchanges, and the user texts of a log.
- `Collaborators` (`collaborators.dfy`): the collaborators as oracles (`Services`).
  - transcript events, with partial and final kept apart;
  - answers or exceptions from the generator and the synthesiser;
  - the record of every call made (`Call`), whether a session is open after a trace
    (`Listening`), and the half-duplex property of a trace (`HalfDuplex`).
- `Machine` (`machine.dfy`): one function per method of the assistant. Each is a state
  transition on `State(log, open, trace)`. The lemmas there state the ordering, the
  fallback-voice policy and the invariant `Inv`: the session flag agrees with the trace,
  and the trace is half-duplex.
- `Runs` (`runs.dfy`): start-up followed by events delivered one at a time, and what the
  log and the trace look like after any number of events.
- `Assistant` (`assistant.dfy`): the class `AIAssistant`. It has the fields `log` and
  `transcriberOpen` and a ghost `trace`. Each method is proved to do to the object exactly
  what the matching `Machine` function does to a state. The module also holds the
  start-up sequence (`StartUp`).
- `Findings` (`findings.dfy`): the generator as the constructor actually wires it (see
  Findings).

The collaborators are parameters. `complete(messages)` returns the reply text or raises.
`synthesize(text, voice)` returns an audio stream or raises `ValueError` or another
exception. `voices` is the result of listing the voices. Opening and closing a
transcription session, and playing audio, appear only as calls in the trace.

The model follows the code in these cases:

- A failed generation is not recovered. The exception escapes the handler (`app.py:109`),
  the user turn stays logged and no transcriber is opened again (`Machine.Respond`,
  `Machine.RespondReopens`).
- A failed synthesis retry is not guarded (`app.py:141-146`). Its exception escapes and
  listening does not resume.
- There is no shutdown, stopped state or cancellation.

## Model

| member | source | states |
|---|---|---|
| `Assistant.AIAssistant.constructor` | app.py:42-56 | the log holds exactly one turn, the system persona, and no transcriber is held |
| `Assistant.AIAssistant.StartTranscription` | app.py:60-72 | a transcriber is held and one session is opened at 16000 Hz with a 1000 ms end-of-utterance silence threshold; the log is unchanged |
| `Assistant.AIAssistant.StopTranscription` | app.py:74-77 | afterwards no transcriber is held and the log is unchanged; with none held, nothing changes; otherwise exactly one close is made |
| `Assistant.AIAssistant.OnData` | app.py:83-90 | the object ends as `Machine.OnData` says of its old state |
| `Assistant.AIAssistant.GenerateAiResponse` | app.py:102-118 | the object ends as `Machine.Respond` says of its old state, with the same exception escaping |
| `Assistant.AIAssistant.GenerateAudio` | app.py:122-152 | the object ends as `Machine.Speak` says of its old state |
| `Assistant.StartUp` | app.py:155-158 | a fresh assistant whose log is persona then greeting, in the state `Machine.Boot` gives |
| `Machine.Speak` | app.py:122-152 | the assistant turn is appended whatever synthesis does, even when it raises; the session is untouched; it returns normally exactly when synthesis produced audio |
| `Machine.SynthesisPolicy` | app.py:127-146 | the first attempt uses the primary voice; only a `ValueError` leads to listing the voices; then there is exactly one retry, with the first listed voice or `"DefaultVoice"` when none is listed; any other exception is not retried; every call is a synthesis-side call |
| `Machine.SpeakCalls` | app.py:122-152 | speaking appends calls to the trace and never opens or closes a session; the first call is synthesis with the primary voice; on a normal return the last call plays the synthesised audio; half-duplex is kept from a closed session |
| `Machine.Respond` | app.py:102-117 | the user turn is appended; when the generator raises, the log ends with it and the same exception escapes; otherwise the log ends with the user turn then the reply as an assistant turn; a session is open afterwards exactly when it returned normally |
| `Machine.SpeakThenListen` | app.py:115-117 | the reply is logged as an assistant turn; listening resumes exactly when synthesis produced audio; after an exception the session state is unchanged |
| `Machine.RespondCallsGenerator` | app.py:102-111 | the transcriber is closed before the generator is asked; the generator's one request carries the log ending in the new user turn; no session is open at that point |
| `Machine.SpeakThenListenCalls` | app.py:115-117 | from a closed session the invariant is kept and the generator is not called; on a normal return the last call opens a session, right after playback; after an exception no session is open |
| `Machine.SpeakThenListenBusy` | app.py:115-117 | the trace is only extended; every new call is a synthesis-side call or playback, except the session opened last on a normal return, so no session is opened or closed before that |
| `Machine.RespondReopens` | app.py:104-117 | the invariant is kept; the generator is called once; on a normal return the last call opens a session and the one before it is playback; after an exception no session is open |
| `Machine.RespondBusy` | app.py:104-117 | a response first closes a held transcriber; every later call is the generator request, a synthesis-side call or playback, except the session opened last on a normal return, so no session is opened or closed in between |
| `Machine.OnData` | app.py:83-90 | an empty text or a partial transcript leaves the whole state unchanged and calls nothing; a final transcript with text that returns normally grows the log by exactly a user turn with that text then an assistant turn, earlier entries unchanged |
| `Machine.OnDataKeepsInv` | app.py:83-90 | the invariant is kept by every event; the generator is called once for a final transcript with text and never otherwise |
| `Machine.Boot` | app.py:155-158 | after start-up the log is the system persona then the assistant greeting; a session is open exactly when speaking the greeting returned normally |
| `Machine.BootKeepsInv` | app.py:155-158 | start-up establishes the invariant and makes no generator call |
| `Machine.StopIdempotent` | app.py:74-77 | stopping twice is stopping once; no transcriber is left; the log is untouched; with none held nothing changes; at most one call is added; the invariant is kept and no session is open afterwards |
| `Runs.OnDataStep` | app.py:83-124 | one event on an open session keeps the invariant and the log's shape; it leaves a session open exactly when it returns normally; the log grows by one exchange exactly when the event is a final transcript with text |
| `Runs.RunKeepsInv` | app.py:83-117 | any sequence of events delivered to an open session keeps the invariant; without an exception the session stays open and there is one generator call per final transcript with text; after an exception no session is open |
| `Runs.RunKeepsLog` | app.py:83-124 | without an exception, any sequence of events keeps the log's shape and adds one (user, assistant) pair per final transcript with text; the new user turns are those texts in order |
| `Runs.ConversationAfterTranscripts` | app.py:155-158 | after start-up and any events, every call made was half-duplex; without an exception, N final transcripts with text give a log of 2 + 2N turns with roles system, assistant, then (user, assistant) pairs, the user turns being those N texts, and N generator calls |
| `Findings.KeyAsClientEndsConversation` | app.py:45 | with the generator wired as written, the first final transcript with text raises; it leaves the log as persona, greeting and that user turn, no transcriber open, and no later event handled |

## Left out

- The AssemblyAI, OpenAI and ElevenLabs clients and their networking. They are the
  oracles in `Services`.
- Failure of `connect()` or of streaming when a transcriber is opened. A session is
  assumed to open.
- The microphone stream and the transcriber's callback thread. Events are delivered one
  at a time, in order, while a session is open (`Runs.Run`).
- Reading the API keys from the environment and the `.env` file.
- The `mpv` shell-out. Playback is a `Play` call that always returns, since its exit
  status is ignored. The code puts the stream object's text into the command line, and
  the model does not capture what that plays.
- Printed output, and the `on_open`, `on_error` and `on_close` handlers, which only print.
- A reply whose content is missing. Replies are modelled as strings.
- A transcript text of `None`. It is modelled as the empty string, which the handler
  treats the same way.
- Oracles whose answers change over time. Each oracle is a fixed function of its
  arguments, and the voice list is one fixed answer.
- Runs.RunKeepsLog: says nothing about the log once an exception has escaped. That case
  is stated per call by `Machine.Respond` and `Machine.Speak`.

## Findings

| source | as written | input that shows it | evidently intended | confidence | as-written member | corrected member |
|---|---|---|---|---|---|---|
| app.py:45 | the field later used as the chat client holds the API-key string, and a string has no chat-completions attribute, so the request at line 109 raises | after start-up, any final transcript with text, such as "I'd like a table for two" | a client built from the key (the `OpenAI` class is imported but never used) answering each request | not executed | `Findings.KeyAsClientEndsConversation` | `Runs.ConversationAfterTranscripts` |
