/** The keys and fixed strings of the wire shapes. */
module Names {
  import opened Texts

  const MESSAGES: Text := Lit("messages")
  const INPUT: Text := Lit("input")
  const ROLE: Text := Lit("role")
  const CONTENT: Text := Lit("content")
  const TYPE: Text := Lit("type")
  const TEXT: Text := Lit("text")
  const NAME: Text := Lit("name")
  const PARTS: Text := Lit("parts")
  const ARGS: Text := Lit("args")
  const ARGUMENTS: Text := Lit("arguments")
  const OUTPUT: Text := Lit("output")
  const RESPONSE: Text := Lit("response")
  const THINKING: Text := Lit("thinking")
  const FUNCTION: Text := Lit("function")
  const TOOL_CALLS: Text := Lit("tool_calls")
  const REASONING_CONTENT: Text := Lit("reasoning_content")
  const FUNCTION_CALL_KEY: Text := Lit("functionCall")
  const FUNCTION_RESPONSE_KEY: Text := Lit("functionResponse")

  const USER: Text := Lit("user")
  const ASSISTANT: Text := Lit("assistant")
  const TOOL: Text := Lit("tool")
  const SYSTEM: Text := Lit("system")
  const DEVELOPER: Text := Lit("developer")
  const MODEL: Text := Lit("model")
  const MESSAGE: Text := Lit("message")
  const INPUT_TEXT: Text := Lit("input_text")
  const OUTPUT_TEXT: Text := Lit("output_text")
  const REDACTED_THINKING: Text := Lit("redacted_thinking")
  const TOOL_USE: Text := Lit("tool_use")
  const TOOL_RESULT: Text := Lit("tool_result")
  const FUNCTION_CALL: Text := Lit("function_call")
  const FUNCTION_CALL_OUTPUT: Text := Lit("function_call_output")
  const LOCAL_SHELL_CALL_OUTPUT: Text := Lit("local_shell_call_output")
  const COMPACTION_TRIGGER: Text := Lit("compaction_trigger")

  // ---- how they are spelled on the wire ----

  predicate MessageKeys() {
    && MESSAGES == Lit("messages") && INPUT == Lit("input") && ROLE == Lit("role")
    && CONTENT == Lit("content") && TYPE == Lit("type") && TEXT == Lit("text")
  }

  predicate PartKeys() {
    && NAME == Lit("name") && PARTS == Lit("parts") && ARGS == Lit("args")
    && ARGUMENTS == Lit("arguments") && OUTPUT == Lit("output") && RESPONSE == Lit("response")
  }

  predicate CallKeys() {
    && THINKING == Lit("thinking") && FUNCTION == Lit("function") && TOOL_CALLS == Lit("tool_calls")
    && REASONING_CONTENT == Lit("reasoning_content") && FUNCTION_CALL_KEY == Lit("functionCall")
    && FUNCTION_RESPONSE_KEY == Lit("functionResponse")
  }

  predicate Roles() {
    && USER == Lit("user") && ASSISTANT == Lit("assistant") && TOOL == Lit("tool")
    && SYSTEM == Lit("system") && DEVELOPER == Lit("developer") && MODEL == Lit("model")
  }

  predicate TextKinds() {
    && MESSAGE == Lit("message") && INPUT_TEXT == Lit("input_text") && OUTPUT_TEXT == Lit("output_text")
    && REDACTED_THINKING == Lit("redacted_thinking") && COMPACTION_TRIGGER == Lit("compaction_trigger")
  }

  predicate CallKinds() {
    && TOOL_USE == Lit("tool_use") && TOOL_RESULT == Lit("tool_result") && FUNCTION_CALL == Lit("function_call")
    && FUNCTION_CALL_OUTPUT == Lit("function_call_output") && LOCAL_SHELL_CALL_OUTPUT == Lit("local_shell_call_output")
  }

  /** Every name is spelled as on the wire. */
  lemma Spelling()
    ensures MessageKeys() && PartKeys() && CallKeys()
    ensures Roles() && TextKinds() && CallKinds()
  {
  }
}
