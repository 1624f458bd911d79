/** What one user message does to a dialogue state: the request sent to the
    chat-completion service, the decoding of its reply, and the two-round-trip
    enrichment for `fetch_doctor_department`. The chat-completion client is an
    oracle, so the effect of a message is a function of the oracle, the
    instruction text, the current state and the message. */
module Orchestrator {
  import opened GoStrings
  import opened Parser
  import opened Directory

  const Start := "start"
  const FetchDoctorDepartment := "fetch_doctor_department"
  const AwaitingDoctor := "awaiting_doctor"

  /** The marker the chat-completion service puts before the chosen department. */
  const DepartmentMarker := "return selected department "
  const DoctorsHeader := "\n - use current department Available doctors : "
  const TimesHeader := "\nAvailable times: "

  datatype Result<T> = Ok(value: T) | Err(error: string)

  /** The chat-completion service: system message and user message in, the
      content of the first choice (or the client's error) out. */
  type Gateway = (string, string) -> Result<string>

  /** How handling a message ends: a reply for the user, an error returned to
      the caller, or a run-time panic (index out of range in the parser). */
  datatype Outcome = Replied(text: string) | Failed(error: string) | Panicked

  /** The state stored in the session once the message is handled, and the outcome. */
  datatype Turn = Turn(state: string, outcome: Outcome)

  /** The request's closing instruction to the service. */
  const Instruction := "\n\nDetermine the next state and response based on the current state and user message.\n\n"

  /** The user message of a request: the current state, the user's words and the instruction. */
  function Prompt(state: string, userMessage: string): (prompt: string)
    ensures |prompt| > |state| + |userMessage|
  {
    "Current state: " + state + "\nUser message: " + userMessage + Instruction
  }

  /** The synthesized user message of the enrichment round trip. */
  function EnrichmentPrompt(department: string): (prompt: string)
    ensures |prompt| > |department|
  {
    Prompt(FetchDoctorDepartment, "what is current  doctor available on department " + department)
  }

  /** The system message: the instruction text, extended with the doctor list
      while the session is in `fetch_doctor_department`, or with the time
      slots while it is in `awaiting_doctor`, provided a backend text is given. */
  function SystemMessage(examples: string, state: string, backend: string, doctor: string): (message: string)
    ensures examples <= message
    ensures backend == [] ==> message == examples
    ensures state != FetchDoctorDepartment && state != AwaitingDoctor ==> message == examples
  {
    if state == FetchDoctorDepartment && backend != [] then
      examples + DoctorsHeader + backend
    else if state == AwaitingDoctor && backend != [] then
      examples + TimesHeader + Join(GetAvailableTimesForDoctor(doctor), ", ")
    else
      examples
  }

  /** One request to the service; the content of a successful answer is trimmed.
      `state` is the session's state when the request is built. */
  function CallOpenAI(gateway: Gateway, examples: string, message: string, backend: string, state: string): (r: Result<string>)
    ensures r.Ok? ==> NoSurroundingSpace(r.value)
    ensures r.Err? <==> gateway(SystemMessage(examples, state, backend, []), message).Err?
    ensures r.Err? ==> r == gateway(SystemMessage(examples, state, backend, []), message)
    ensures r.Ok? ==> r.value == TrimSpace(gateway(SystemMessage(examples, state, backend, []), message).value)
  {
    // Session.Doctor is never assigned, so it keeps Go's zero value, the empty string.
    match gateway(SystemMessage(examples, state, backend, []), message)
    case Ok(content) => Ok(TrimSpace(content))
    case Err(e) => Err(e)
  }

  /** The department named in a reply: the marker dropped and every double quote removed. */
  function DepartmentKey(response: string): (department: string)
    ensures '"' !in department
    ensures |department| <= |response|
  {
    RemoveAll(TrimPrefix(response, DepartmentMarker), '"')
  }

  /** The effect of one user message on a session whose state is `state`. */
  function ProcessMessage(gateway: Gateway, examples: string, state: string, userMessage: string): (turn: Turn)
    ensures turn.outcome.Replied? ==> NoSurroundingSpace(turn.state) && NoSurroundingSpace(turn.outcome.text)
    ensures turn.outcome.Replied? ==> '\n' !in turn.state && '\n' !in turn.outcome.text
    ensures !turn.outcome.Replied? ==> turn.state == state || turn.state == FetchDoctorDepartment
  {
    var first := CallOpenAI(gateway, examples, Prompt(state, userMessage), [], state);
    if first.Err? then Turn(state, Failed(first.error))
    else if '\n' !in first.value then Turn(state, Panicked)
    else
      var reply := ParseOpenAIResponse(first.value);
      if reply.nextState == FetchDoctorDepartment then Enrich(gateway, examples, reply.response)
      else Turn(reply.nextState, Replied(reply.response))
  }

  /** The second round trip, once `fetch_doctor_department` is stored: the
      department's doctors go into the system message, and the answer to the
      synthesized question decides the state. */
  function Enrich(gateway: Gateway, examples: string, firstResponse: string): (turn: Turn)
    ensures !turn.outcome.Replied? ==> turn.state == FetchDoctorDepartment
    ensures turn.outcome.Replied? ==> NoSurroundingSpace(turn.state) && NoSurroundingSpace(turn.outcome.text)
    ensures turn.outcome.Replied? ==> '\n' !in turn.state && '\n' !in turn.outcome.text
  {
    var department := DepartmentKey(firstResponse);
    var doctors := Join(GetDoctorsByDepartment(department), ",");
    var second := CallOpenAI(gateway, examples, EnrichmentPrompt(department), doctors, FetchDoctorDepartment);
    if second.Err? then Turn(FetchDoctorDepartment, Failed(second.error))
    else if '\n' !in second.value then Turn(FetchDoctorDepartment, Panicked)
    else
      var reply := ParseOpenAIResponse(second.value);
      Turn(reply.nextState, Replied(reply.response))
  }

  // ---------------------------------------------------------------------
  // The request texts

  /** The state can be read back from the first line of a prompt. */
  lemma PromptNamesState(state: string, userMessage: string)
    requires '\n' !in state
    ensures TrimPrefix(Split(Prompt(state, userMessage), '\n')[0], "Current state: ") == state
  {
    var rest := "User message: " + userMessage + Instruction;
    assert Prompt(state, userMessage) == ("Current state: " + state) + ['\n'] + rest;
    SplitCons("Current state: " + state, '\n', rest);
    TrimPrefixAfterPrefix("Current state: ", state);
  }

  /** Distinct requests are distinct prompts: the state (without a line
      break) and the user message are both recovered from the prompt. */
  lemma PromptInjective(s1: string, m1: string, s2: string, m2: string)
    requires '\n' !in s1 && '\n' !in s2
    requires Prompt(s1, m1) == Prompt(s2, m2)
    ensures s1 == s2 && m1 == m2
  {
    PromptNamesState(s1, m1);
    PromptNamesState(s2, m2);
    var head := "Current state: " + s1 + "\nUser message: ";
    assert Prompt(s1, m1) == head + m1 + Instruction;
    assert Prompt(s2, m2) == head + m2 + Instruction;
    assert m1 == Prompt(s1, m1)[|head|..|head| + |m1|];
  }

  /** The enrichment prompt is a prompt in state `fetch_doctor_department`
      (read back from its first line), and it names one department only. */
  lemma EnrichmentPromptNamesDepartment(department: string, other: string)
    ensures TrimPrefix(Split(EnrichmentPrompt(department), '\n')[0], "Current state: ") == FetchDoctorDepartment
    ensures EnrichmentPrompt(department) == EnrichmentPrompt(other) ==> department == other
  {
    var question := "what is current  doctor available on department ";
    PromptNamesState(FetchDoctorDepartment, question + department);
    if EnrichmentPrompt(department) == EnrichmentPrompt(other) {
      PromptInjective(FetchDoctorDepartment, question + department, FetchDoctorDepartment, question + other);
      assert department == (question + department)[|question|..];
    }
  }

  /** The doctor list is never empty, so the second request always carries it. */
  lemma EnrichedRequestListsDoctors(examples: string, department: string)
    ensures var doctors := Join(GetDoctorsByDepartment(department), ",");
      doctors != [] &&
      SystemMessage(examples, FetchDoctorDepartment, doctors, []) == examples + DoctorsHeader + doctors
  {
    var list := GetDoctorsByDepartment(department);
    assert list[0] != [];
  }

  /** In `awaiting_doctor` with a backend text, the four time slots are appended. */
  lemma AwaitingDoctorListsTimes(examples: string, backend: string, doctor: string)
    requires backend != []
    ensures SystemMessage(examples, AwaitingDoctor, backend, doctor)
         == examples + TimesHeader + "09:00, 10:00, 11:00, 12:00"
  {
    var times := GetAvailableTimesForDoctor(doctor);
    JoinCons(times[0], times[1..], ", ");
    JoinCons(times[1], times[2..], ", ");
    JoinCons(times[2], times[3..], ", ");
    assert Join(times, ", ") == "09:00" + ", " + "10:00" + ", " + "11:00" + ", " + "12:00";
  }

  /** The department is recovered from a reply naming it in quotes after the marker. */
  lemma DepartmentKeyRoundTrip(name: string)
    requires '"' !in name
    ensures DepartmentKey(DepartmentMarker + "\"" + name + "\"") == name
  {
    var quoted := "\"" + name + "\"";
    assert DepartmentMarker + "\"" + name + "\"" == DepartmentMarker + quoted;
    TrimPrefixAfterPrefix(DepartmentMarker, quoted);
    RemoveAllAppend("\"" + name, "\"", '"');
    RemoveAllAppend("\"", name, '"');
    RemoveAllAbsent(name, '"');
  }

  lemma DepartmentKeyOfCardio()
    ensures DepartmentKey("return selected department \"Cardio\"") == "Cardio"
  {
    assert "return selected department \"Cardio\"" == DepartmentMarker + "\"" + "Cardio" + "\"";
    DepartmentKeyRoundTrip("Cardio");
  }

  // ---------------------------------------------------------------------
  // What one message does

  /** A failed first request leaves the state as it was and returns the error. */
  lemma FirstCallFailureKeepsState(gateway: Gateway, examples: string, state: string, userMessage: string)
    requires gateway(examples, Prompt(state, userMessage)).Err?
    ensures ProcessMessage(gateway, examples, state, userMessage)
         == Turn(state, Failed(gateway(examples, Prompt(state, userMessage)).error))
  {
  }

  /** A first answer without a line break panics before anything is stored. */
  lemma FirstReplyWithoutLineBreakPanics(gateway: Gateway, examples: string, state: string, userMessage: string)
    requires gateway(examples, Prompt(state, userMessage)).Ok?
    requires '\n' !in TrimSpace(gateway(examples, Prompt(state, userMessage)).value)
    ensures ProcessMessage(gateway, examples, state, userMessage) == Turn(state, Panicked)
  {
  }

  /** Without enrichment, the decoded first answer is stored and returned. */
  lemma DirectReplyIsCommitted(gateway: Gateway, examples: string, state: string, userMessage: string)
    requires gateway(examples, Prompt(state, userMessage)).Ok?
    requires var content := TrimSpace(gateway(examples, Prompt(state, userMessage)).value);
      '\n' in content && ParseOpenAIResponse(content).nextState != FetchDoctorDepartment
    ensures var reply := ParseOpenAIResponse(TrimSpace(gateway(examples, Prompt(state, userMessage)).value));
      ProcessMessage(gateway, examples, state, userMessage) == Turn(reply.nextState, Replied(reply.response))
  {
  }

  /** The second round trip for any first response: the request carries the
      department's doctors; a failed or one-line answer leaves
      `fetch_doctor_department`, otherwise the decoded answer is stored and returned. */
  lemma EnrichDecodesSecondReply(gateway: Gateway, examples: string, firstResponse: string)
    ensures
      var department := DepartmentKey(firstResponse);
      var second := gateway(examples + DoctorsHeader + Join(GetDoctorsByDepartment(department), ","), EnrichmentPrompt(department));
      var turn := Enrich(gateway, examples, firstResponse);
      && (second.Err? ==> turn == Turn(FetchDoctorDepartment, Failed(second.error)))
      && (second.Ok? && '\n' !in TrimSpace(second.value) ==> turn == Turn(FetchDoctorDepartment, Panicked))
      && (second.Ok? && '\n' in TrimSpace(second.value) ==>
            var reply := ParseOpenAIResponse(TrimSpace(second.value));
            turn == Turn(reply.nextState, Replied(reply.response)))
  {
    EnrichedRequestListsDoctors(examples, DepartmentKey(firstResponse));
  }

  /** With enrichment, `fetch_doctor_department` is stored first; the second
      request names the department and carries its doctors; if that request
      fails, the stored state stays `fetch_doctor_department`, otherwise the
      decoded second answer is stored and returned. */
  lemma EnrichmentCommitsSecondReply(gateway: Gateway, examples: string, state: string, userMessage: string)
    requires gateway(examples, Prompt(state, userMessage)).Ok?
    requires var content := TrimSpace(gateway(examples, Prompt(state, userMessage)).value);
      '\n' in content && ParseOpenAIResponse(content).nextState == FetchDoctorDepartment
    ensures
      var department := DepartmentKey(ParseOpenAIResponse(TrimSpace(gateway(examples, Prompt(state, userMessage)).value)).response);
      var second := gateway(examples + DoctorsHeader + Join(GetDoctorsByDepartment(department), ","), EnrichmentPrompt(department));
      var turn := ProcessMessage(gateway, examples, state, userMessage);
      && (second.Err? ==> turn == Turn(FetchDoctorDepartment, Failed(second.error)))
      && (second.Ok? && '\n' !in TrimSpace(second.value) ==> turn == Turn(FetchDoctorDepartment, Panicked))
      && (second.Ok? && '\n' in TrimSpace(second.value) ==>
            var reply := ParseOpenAIResponse(TrimSpace(second.value));
            turn == Turn(reply.nextState, Replied(reply.response)))
  {
    var content := TrimSpace(gateway(examples, Prompt(state, userMessage)).value);
    assert CallOpenAI(gateway, examples, Prompt(state, userMessage), [], state) == Ok(content);
    var firstResponse := ParseOpenAIResponse(content).response;
    assert ProcessMessage(gateway, examples, state, userMessage) == Enrich(gateway, examples, firstResponse);
    EnrichDecodesSecondReply(gateway, examples, firstResponse);
  }

  lemma CardioReplyDecodes()
    ensures var text := FormatReply(FetchDoctorDepartment, "return selected department \"Cardio\"");
      TrimSpace(text) == text && ParseOpenAIResponse(text) == Reply(FetchDoctorDepartment, "return selected department \"Cardio\"")
  {
    FormattedReplyDecodes(FetchDoctorDepartment, "return selected department \"Cardio\"");
  }

  lemma DoctorsReplyDecodes()
    ensures var text := FormatReply(AwaitingDoctor, "\"Available doctors: Dr. Jaggu MS\"");
      TrimSpace(text) == text && ParseOpenAIResponse(text) == Reply(AwaitingDoctor, "\"Available doctors: Dr. Jaggu MS\"")
  {
    FormattedReplyDecodes(AwaitingDoctor, "\"Available doctors: Dr. Jaggu MS\"");
  }

  /** A department choice is resolved through a second round trip whose answer decides the state. */
  lemma EnrichmentScenario()
    ensures
      var first := FormatReply(FetchDoctorDepartment, "return selected department \"Cardio\"");
      var second := FormatReply(AwaitingDoctor, "\"Available doctors: Dr. Jaggu MS\"");
      var gateway: Gateway := (system, user) =>
        if user == Prompt("awaiting_department", "A") then Ok(first) else Ok(second);
      ProcessMessage(gateway, "examples", "awaiting_department", "A")
        == Turn(AwaitingDoctor, Replied("\"Available doctors: Dr. Jaggu MS\""))
  {
    var firstResponse := "return selected department \"Cardio\"";
    var secondResponse := "\"Available doctors: Dr. Jaggu MS\"";
    var first := FormatReply(FetchDoctorDepartment, firstResponse);
    var second := FormatReply(AwaitingDoctor, secondResponse);
    var gateway: Gateway := (system, user) =>
      if user == Prompt("awaiting_department", "A") then Ok(first) else Ok(second);
    var firstPrompt := Prompt("awaiting_department", "A");
    var secondPrompt := EnrichmentPrompt("Cardio");
    CardioReplyDecodes();
    assert CallOpenAI(gateway, "examples", firstPrompt, [], "awaiting_department") == Ok(first);
    DepartmentKeyOfCardio();
    assert |secondPrompt| != |firstPrompt|;
    var doctors := Join(GetDoctorsByDepartment("Cardio"), ",");
    DoctorsReplyDecodes();
    assert CallOpenAI(gateway, "examples", secondPrompt, doctors, FetchDoctorDepartment) == Ok(second);
    assert Enrich(gateway, "examples", firstResponse) == Turn(AwaitingDoctor, Replied(secondResponse));
  }

  /** A failing service leaves a new session in `start` and surfaces the error. */
  lemma GatewayFailureScenario(examples: string, userMessage: string)
    ensures
      var gateway: Gateway := (system, user) => Err("service unavailable");
      ProcessMessage(gateway, examples, Start, userMessage) == Turn(Start, Failed("service unavailable"))
  {
  }
}
