# Appointment chatbot: session store, reply parser and dialogue orchestrator

A model of the core of a Go chatbot that books medical appointments over a
websocket. Each user message is handled by `handleUserMessage`: the
connection's session is looked up (or created in state `start`), a prompt
naming the current state and the message is sent to a chat-completion
service, and the service's two-line reply `Next state: <name>` /
`Response: <text>` is decoded. The decoded state is stored in the session
and the decoded text is returned. One state is special: when the service
answers `fetch_doctor_department`, that state is stored first, the
department is cut out of the reply, its doctors are looked up in a stub
directory, and a second request whose system message lists those doctors
decides the final state.

The project has five modules, one per part of the program:

- `GoStrings` (`go_strings.dfy`): the parts of Go's `strings` package the
  program uses (`Split`, `Join`, `TrimPrefix`, `TrimSpace`, `ReplaceAll` of
  one character). Strings are sequences of code points. `unicode.IsSpace`
  is written out character by character.
- `Directory` (`directory.dfy`): the stubbed doctor, time-slot and client
  lookups.
- `Parser` (`parser.dfy`): `parseOpenAIResponse`, with its round trip and
  its edge cases.
- `Orchestrator` (`orchestrator.dfy`): the prompt texts, the system-message
  builder of `callOpenAI`, and `ProcessMessage`. `ProcessMessage` is a pure
  function giving the state a session ends in and the outcome of one
  message. The chat-completion service is a parameter `gateway`: a total
  function from (system message, user message) to `Ok(content)` or
  `Err(error)`.
- `Sessions` (`sessions.dfy`): the mutable part. The class `SessionStore`
  holds the process-wide map from connection identity to `Session` objects.
  `Session` is a class whose `state` field is overwritten in place.
  `HandleUserMessage` does the get-or-create and the state writes step by
  step, and it is proved to leave every session in the state
  `ProcessMessage` prescribes. Only the handled connection's state changes.

The parser rejects nothing. A reply without a line break makes the
indexing of `lines[1]` (main.go:163) panic, so the parser requires a line
break, and the orchestrator models the panic as the outcome `Panicked`,
with the session state as it was at that point
(`Orchestrator.FirstReplyWithoutLineBreakPanics`). Empty fields are
accepted, so a session can end in the empty state
(`Parser.ParseAcceptsEmptyFields`). Because the service's content is
trimmed before it is parsed (main.go:157), a reply whose response field
is empty reaches the parser without its trailing space: the second line is
then `Response:`, the label does not match, and `Response:` itself is the
decoded response.

`GoStrings.IsSpace` (Go's `unicode.IsSpace`), `LeadingSpaces`,
`TrailingSpaces` and `TrimRight` are helpers of `TrimSpace`, and
`Parser.FormatReply` is the wire form used to state the round trip; they
have no row of their own.

## Model

| member | source | states |
|---|---|---|
| GoStrings.IndexByte | main.go:161 | The first position of the separator, or -1 exactly when it does not occur; the text before it is free of the separator. |
| GoStrings.Split | main.go:161 | There is always at least one piece. There is exactly one piece iff the separator does not occur. No piece contains the separator. |
| GoStrings.JoinSplit | main.go:161 | Joining the pieces of any string with the separator gives the string back. |
| GoStrings.SplitJoin | main.go:161 | Splitting a join of separator-free pieces gives exactly those pieces back. |
| GoStrings.SplitCons | main.go:161 | Splitting at the first separator yields the text before it, then the pieces of the rest. |
| GoStrings.Join | main.go:113 | The join is empty iff every element is empty and no separator is placed. The first element is a prefix of the join. |
| GoStrings.TrimPrefix | main.go:108 | With the prefix present, prefix + result is the input. Without it, the input is returned unchanged. |
| GoStrings.TrimPrefixAfterPrefix | main.go:162-163 | Trimming a prefix that was prepended gives the original text. |
| GoStrings.TrimSpace | main.go:157 | The result has no leading or trailing white space. It is the slice of the input after its leading white space, and only white space follows it. |
| GoStrings.TrimSpaceUnique | main.go:164 | For any text without surrounding white space, padding it with white space on both sides and trimming gives the text back. |
| GoStrings.TrimSpaceFixed | main.go:164 | A text without surrounding white space is unchanged by trimming. |
| GoStrings.TrimSpaceIdempotent | main.go:157 | Trimming twice is trimming once. |
| GoStrings.RemoveAll | main.go:109 | The removed character does not occur in the result. Every other character occurs exactly as often as in the input, and the result is no longer. |
| GoStrings.RemoveAllAppend | main.go:109 | Removal distributes over concatenation. |
| GoStrings.RemoveAllAbsent | main.go:109 | Removing a character that does not occur changes nothing. |
| Directory.GetDoctorsByDepartment | main.go:173-178 | "Ortho" gives the three orthopaedists. Every other name gives Dr. Smith and Dr. Jones. The list is never empty, and no name in it is empty. |
| Directory.GetAvailableTimesForDoctor | main.go:181-183 | Exactly the four slots 09:00, 10:00, 11:00 and 12:00, in that order; each is five characters with `:` in the middle. |
| Directory.ClientExists | main.go:168-170 | True exactly for the one registered address, in both directions. |
| Parser.ParseOpenAIResponse | main.go:160-165 | For a reply with a line break, both decoded values have no surrounding white space and no line break. |
| Parser.Field | main.go:162-164 | A decoded value has no surrounding white space, is no longer than its line, and holds only characters of its line. |
| Parser.ParseTwoLines | main.go:160-165 | A two-line reply decodes to the trimmed, label-stripped first and second lines. |
| Parser.ParseIgnoresLaterLines | main.go:161-163 | Lines after the second do not change the decoded pair. |
| Parser.ParseRoundTrip | main.go:160-165 | `Next state: X` and `Response: Y` on two lines decode to exactly (X, Y) when X and Y have no line break and no surrounding white space. |
| Parser.FormattedReplyDecodes | main.go:157 | Such a reply with a non-empty response also survives the trimming of the service's content unchanged. |
| Parser.ParseAcceptsEmptyFields | main.go:162-164 | `"Next state: \nResponse: "` decodes to two empty values; nothing is rejected. |
| Orchestrator.Prompt | main.go:96 | The prompt is longer than the state and the message it carries. |
| Orchestrator.PromptNamesState | main.go:96 | The state is read back from the prompt's first line after `Current state: `. |
| Orchestrator.PromptInjective | main.go:96 | For states without a line break, equal prompts carry the same state and the same user message: both are recovered from the prompt. |
| Orchestrator.EnrichmentPrompt | main.go:111 | The synthesized question is longer than the department it names. |
| Orchestrator.EnrichmentPromptNamesDepartment | main.go:111 | The enrichment prompt reads back as state `fetch_doctor_department`, and different departments give different prompts. |
| Orchestrator.SystemMessage | main.go:131-139 | The instruction text is always a prefix. Without a backend text, or in any state other than the two special ones, the message is exactly the instruction text. |
| Orchestrator.AwaitingDoctorListsTimes | main.go:136-138 | In `awaiting_doctor` with a backend text, the message is the instruction text, the times header and `09:00, 10:00, 11:00, 12:00`. |
| Orchestrator.EnrichedRequestListsDoctors | main.go:113-115 | The doctor list of any department joins to a non-empty text, so the second request always carries the doctors after the doctors header. |
| Orchestrator.CallOpenAI | main.go:129-158 | It fails exactly when the service fails, with the service's error. On success it returns the service's content with surrounding white space trimmed. |
| Orchestrator.DepartmentKey | main.go:108-109 | The key contains no double quote and is no longer than the reply. |
| Orchestrator.DepartmentKeyRoundTrip | main.go:108-109 | For any quote-free name, the marker followed by the quoted name yields the name. |
| Orchestrator.DepartmentKeyOfCardio | main.go:108-109 | `return selected department "Cardio"` yields `Cardio`. |
| Orchestrator.ProcessMessage | main.go:96-126 | A replied turn stores and returns values without surrounding white space or line breaks. A failed or panicked turn leaves the state unchanged or at `fetch_doctor_department`. |
| Orchestrator.Enrich | main.go:104-121 | A failed or panicked second request leaves `fetch_doctor_department` stored. A replied turn stores and returns values without surrounding white space or line breaks. |
| Orchestrator.EnrichDecodesSecondReply | main.go:108-118 | For any first response, the second request carries the department's doctors; a failure or one-line answer leaves `fetch_doctor_department`, otherwise the parse of the second answer is stored and returned. |
| Orchestrator.FirstCallFailureKeepsState | main.go:98-101 | A failing first request keeps the state and returns the service's error. |
| Orchestrator.FirstReplyWithoutLineBreakPanics | main.go:103 | A one-line first answer panics with the state unchanged. |
| Orchestrator.DirectReplyIsCommitted | main.go:122-126 | Without enrichment, the stored state and the returned text are the parse of the first answer. |
| Orchestrator.EnrichmentCommitsSecondReply | main.go:104-121 | With enrichment, the second request carries the department's doctors. If it fails or panics, `fetch_doctor_department` stays stored. Otherwise the parse of the second answer is stored and returned. |
| Orchestrator.EnrichmentScenario | main.go:96-126 | A department choice of "Cardio" followed by a doctors answer ends in `awaiting_doctor` with that answer. |
| Orchestrator.GatewayFailureScenario | main.go:98-101 | With a service that always fails, a session in `start` stays there and the error is returned. |
| Sessions.Session.constructor | main.go:91 | A new session is in state `start`. |
| Sessions.SessionStore.constructor | main.go:29 | The table starts empty. |
| Sessions.SessionStore.GetOrCreate | main.go:88-94 | A known connection gets its own session back. An unknown one gets a fresh session in `start`, which is stored. No other entry changes, at most one is added, and no two connections share a session. |
| Sessions.SessionStore.SetState | main.go:122-124 | The session's state becomes the given value, and every other connection keeps its state. |
| Sessions.SessionStore.HandleUserMessage | main.go:87-127 | The outcome and the new state of the handled connection are those `ProcessMessage` gives for its previous state (`start` if it was new). Every other connection keeps its state and session. The session created for a new connection is fresh. |
| Sessions.SessionStore.Respond | main.go:96-126 | From a found session, the outcome and the stored state are those of `ProcessMessage`. |
| Sessions.SessionStore.EnrichSession | main.go:104-121 | `fetch_doctor_department` is stored before the second request is built. The outcome and the final stored state are those of `Enrich`. |

## Left out

- `main` and `handleConnections` (main.go:39-85): the websocket transport, the HTTP server, `.env` loading and logging are I/O. They are not modelled.
- The chat-completion request itself (main.go:140-157) is a call into a foreign library. It is the `gateway` parameter, and the trimming of its content is kept in `CallOpenAI`.
- `sync.Mutex` locking: each locked block is one step of a `SessionStore` method. The unlocked reads of the state at main.go:96 and main.go:133 race with other goroutines. Concurrency is not modelled.
- `getExample` (main.go:190-308) is a constant instruction text. It is the `examples` parameter, and it is used only as the start of the system message.
- `Session` fields other than `State` are never written, so `Session` has only `state`. `Session.Doctor` keeps Go's zero value, the empty string, where `callOpenAI` passes it on.
- `bookAppointment` (main.go:186-188) is never called, and the `fmt.Println` debug output is not modelled.
- The `awaiting_doctor` branch of the system-message builder cannot be reached from `handleUserMessage`, because a backend text is only passed in `fetch_doctor_department`. It is modelled as a pure function only (`Orchestrator.AwaitingDoctorListsTimes`).
- The Go panic on a one-line reply is the outcome `Panicked`. What the goroutine does after a panic is not modelled.
- Strings are sequences of code points, not UTF-8 bytes. Splitting on `'\n'` and trimming white space agree on valid UTF-8 text.
- Orchestrator.ProcessMessage: its own contract gives only the shape of a turn. The exact turn for each path is stated by the lemmas `FirstCallFailureKeepsState`, `FirstReplyWithoutLineBreakPanics`, `DirectReplyIsCommitted` and `EnrichmentCommitsSecondReply`.
- Orchestrator.Enrich: its own contract gives only the shape of a turn. The exact turn for each outcome of the second request is stated by `EnrichDecodesSecondReply`.
- The service response is assumed to hold at least one choice. With none, `resp.Choices[0]` (main.go:157) is out of range and panics; a service returning only success or an error cannot express that.
