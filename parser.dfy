/** Decoding of the chat-completion service's two-line reply
    `Next state: <name>` / `Response: <text>`. */
module Parser {
  import opened GoStrings

  const NextStateLabel := "Next state: "
  const ResponseLabel := "Response: "

  /** The pair a reply decodes to. */
  datatype Reply = Reply(nextState: string, response: string)

  /** Splits the reply into lines, drops the labels from the first two lines
      (when they are there) and trims both values. Nothing is rejected: an
      empty value is returned as it is. The reply must hold a line break,
      because the second line is indexed unconditionally. */
  function ParseOpenAIResponse(text: string): (reply: Reply)
    requires '\n' in text
    ensures NoSurroundingSpace(reply.nextState) && NoSurroundingSpace(reply.response)
    ensures '\n' !in reply.nextState && '\n' !in reply.response
  {
    var lines := Split(text, '\n');
    Reply(Field(lines[0], NextStateLabel), Field(lines[1], ResponseLabel))
  }

  /** The value of a line: the line without its label, trimmed (at most as long as the line). */
  function Field(line: string, prefix: string): (value: string)
    ensures NoSurroundingSpace(value)
    ensures |value| <= |line|
    ensures forall c :: c in value ==> c in line
  {
    TrimSpace(TrimPrefix(line, prefix))
  }

  /** A reply of exactly two lines decodes to the values of those two lines. */
  lemma ParseTwoLines(first: string, second: string)
    requires '\n' !in first && '\n' !in second
    ensures ParseOpenAIResponse(first + "\n" + second)
         == Reply(Field(first, NextStateLabel), Field(second, ResponseLabel))
  {
    SplitJoin([first, second], '\n');
    assert Join([first, second], "\n") == first + "\n" + second;
  }

  /** Whatever follows the second line break is ignored. */
  lemma ParseIgnoresLaterLines(first: string, second: string, rest: string)
    requires '\n' !in first && '\n' !in second
    ensures ParseOpenAIResponse(first + "\n" + second + "\n" + rest)
         == ParseOpenAIResponse(first + "\n" + second)
  {
    var tail := second + ['\n'] + rest;
    assert first + "\n" + second + "\n" + rest == first + ['\n'] + tail;
    SplitCons(first, '\n', tail);
    SplitCons(second, '\n', rest);
    var lines := Split(first + "\n" + second + "\n" + rest, '\n');
    assert lines[0] == first && lines[1] == second;
    ParseTwoLines(first, second);
  }

  /** The wire form of a reply: the two labelled values on two lines. */
  function FormatReply(state: string, response: string): (text: string)
    ensures '\n' in text
    ensures response != [] && NoSurroundingSpace(response) ==> NoSurroundingSpace(text)
  {
    var text := NextStateLabel + state + "\n" + ResponseLabel + response;
    assert text[|NextStateLabel + state|] == '\n';
    assert response != [] ==> text[|text| - 1] == response[|response| - 1];
    text
  }

  /** A well-formed reply round-trips: labelled, separated values without
      surrounding white space are decoded to exactly those values. */
  lemma ParseRoundTrip(state: string, response: string)
    requires '\n' !in state && '\n' !in response
    requires NoSurroundingSpace(state) && NoSurroundingSpace(response)
    ensures ParseOpenAIResponse(FormatReply(state, response)) == Reply(state, response)
  {
    var first, second := NextStateLabel + state, ResponseLabel + response;
    assert first + "\n" + second == NextStateLabel + state + "\n" + ResponseLabel + response;
    ParseTwoLines(first, second);
    TrimPrefixAfterPrefix(NextStateLabel, state);
    TrimPrefixAfterPrefix(ResponseLabel, response);
    TrimSpaceFixed(state);
    TrimSpaceFixed(response);
  }

  /** A formatted reply with a non-empty response survives the trimming of
      the service's answer and decodes to its two values. */
  lemma FormattedReplyDecodes(state: string, response: string)
    requires '\n' !in state && '\n' !in response && response != []
    requires NoSurroundingSpace(state) && NoSurroundingSpace(response)
    ensures TrimSpace(FormatReply(state, response)) == FormatReply(state, response)
    ensures ParseOpenAIResponse(FormatReply(state, response)) == Reply(state, response)
  {
    TrimSpaceFixed(FormatReply(state, response));
    ParseRoundTrip(state, response);
  }

  /** Empty values are accepted, not rejected. */
  lemma ParseAcceptsEmptyFields()
    ensures ParseOpenAIResponse("Next state: \nResponse: ") == Reply("", "")
  {
    assert "Next state: \nResponse: " == FormatReply("", "");
    ParseRoundTrip("", "");
  }
}
