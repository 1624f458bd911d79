/** The process-wide session table and the handling of one user message:
    the session of a connection is looked up or created, and its `state`
    field is overwritten in place as the chat-completion service answers. Each
    locked block of `handleUserMessage` is one step here. */
module Sessions {
  import opened GoStrings
  import opened Parser
  import opened Directory
  import opened Orchestrator

  /** The dialogue record of one connection. Only `state` is ever written. */
  class Session {
    var state: string

    constructor ()
      ensures state == Start
    {
      state := Start;
    }
  }

  /** The table from connection identity (the remote address) to session. */
  class SessionStore {
    var sessions: map<string, Session>

    /** No two connections share a session record. */
    ghost predicate Valid()
      reads this
    {
      forall a, b :: a in sessions && b in sessions && a != b ==> sessions[a] != sessions[b]
    }

    /** The state of every known connection. */
    ghost function States(): map<string, string>
      reads this, sessions.Values
    {
      map id | id in sessions :: sessions[id].state
    }

    /** The state a message from `id` starts from: that of its session, or
        `start` for a connection not seen before. */
    ghost function StateOf(id: string): string
      reads this, sessions.Values
    {
      if id in sessions then sessions[id].state else Start
    }

    constructor ()
      ensures Valid() && sessions == map[]
    {
      sessions := map[];
    }

    /** The session of `userID`, created in state `start` and stored when the
        connection has none; no other entry is touched. */
    method GetOrCreate(userID: string) returns (session: Session)
      requires Valid()
      modifies this
      ensures Valid()
      ensures sessions == old(sessions)[userID := session]
      ensures userID in old(sessions) ==> session == old(sessions[userID])
      ensures userID !in old(sessions) ==> fresh(session) && session.state == Start
      ensures session.state == old(StateOf(userID))
      ensures States() == old(States())[userID := session.state]
    {
      if userID in sessions {
        session := sessions[userID];
      } else {
        session := new Session();
        sessions := sessions[userID := session];
      }
    }

    /** Stores `state` in the session of `userID`; every other connection keeps its state. */
    method SetState(userID: string, session: Session, state: string)
      requires Valid() && userID in sessions && sessions[userID] == session
      modifies session
      ensures session.state == state
      ensures States() == old(States())[userID := state]
    {
      session.state := state;
      assert forall id :: id in sessions && id != userID ==> sessions[id] != session;
    }

    /** Handles one message of connection `userID`: looks up or creates its
        session, then asks the service for the next state. Only that
        connection's state changes, and it changes as `ProcessMessage`
        prescribes. */
    method HandleUserMessage(gateway: Gateway, examples: string, userID: string, userMessage: string)
      returns (outcome: Outcome)
      requires Valid()
      modifies this, sessions.Values
      ensures Valid()
      ensures userID in sessions && sessions == old(sessions)[userID := sessions[userID]]
      ensures userID in old(sessions) ==> sessions == old(sessions)
      ensures userID !in old(sessions) ==> fresh(sessions[userID])
      ensures outcome == ProcessMessage(gateway, examples, old(StateOf(userID)), userMessage).outcome
      ensures States() == old(States())[userID := ProcessMessage(gateway, examples, old(StateOf(userID)), userMessage).state]
    {
      ghost var from, base := StateOf(userID), States();
      var session := GetOrCreate(userID);
      outcome := Respond(gateway, examples, userID, session, userMessage, from, base);
    }

    /** Everything `HandleUserMessage` does once the session is found: the
        first request, and either the enrichment block or the commit of the
        decoded answer. Errors and panics return before anything is stored.
        `base` is the table of states with the entry of `userID` about to be
        replaced, and `from` is the session's state. */
    method Respond(gateway: Gateway, examples: string, userID: string, session: Session, userMessage: string,
                   ghost from: string, ghost base: map<string, string>)
      returns (outcome: Outcome)
      requires Valid() && userID in sessions && sessions[userID] == session && session.state == from
      requires States() == base[userID := from]
      modifies session
      ensures outcome == ProcessMessage(gateway, examples, from, userMessage).outcome
      ensures States() == base[userID := ProcessMessage(gateway, examples, from, userMessage).state]
    {
      var response := CallOpenAI(gateway, examples, Prompt(session.state, userMessage), [], session.state);
      if response.Err? {
        return Failed(response.error);
      }
      if '\n' !in response.value {
        // Go indexes lines[1] of a one-line reply: index out of range.
        return Panicked;
      }
      var reply := ParseOpenAIResponse(response.value);
      var nextState, nextResponse := reply.nextState, reply.response;
      if nextState == FetchDoctorDepartment {
        OverwriteTwice(base, userID, from, Enrich(gateway, examples, nextResponse).state);
        outcome := EnrichSession(gateway, examples, userID, session, nextResponse);
        return;
      }
      SetState(userID, session, nextState);
      OverwriteTwice(base, userID, from, nextState);
      return Replied(nextResponse);
    }

    /** The enrichment block of `HandleUserMessage`: stores
        `fetch_doctor_department`, asks again with the department's doctors in
        the system message, and stores the decoded second answer. */
    method EnrichSession(gateway: Gateway, examples: string, userID: string, session: Session, firstResponse: string)
      returns (outcome: Outcome)
      requires Valid() && userID in sessions && sessions[userID] == session
      modifies session
      ensures outcome == Enrich(gateway, examples, firstResponse).outcome
      ensures States() == old(States())[userID := Enrich(gateway, examples, firstResponse).state]
    {
      ghost var base := old(States());
      SetState(userID, session, FetchDoctorDepartment);
      OverwriteTwice(base, userID, FetchDoctorDepartment, FetchDoctorDepartment);
      var department := DepartmentKey(firstResponse);
      var doctors := GetDoctorsByDepartment(department);
      var prompt := EnrichmentPrompt(department);
      var d := Join(doctors, ",");
      var response := CallOpenAI(gateway, examples, prompt, d, session.state);
      if response.Err? {
        return Failed(response.error);
      }
      if '\n' !in response.value {
        // Go indexes lines[1] of a one-line reply: index out of range.
        return Panicked;
      }
      var reply := ParseOpenAIResponse(response.value);
      OverwriteTwice(base, userID, FetchDoctorDepartment, reply.nextState);
      SetState(userID, session, reply.nextState);
      return Replied(reply.response);
    }
  }

  lemma OverwriteTwice<K, V>(m: map<K, V>, k: K, a: V, b: V)
    ensures m[k := a][k := b] == m[k := b]
  {
  }
}
