/**
 * What a hook reads and prints: its standard input, and the reply a PreToolUse hook prints,
 * `{hookSpecificOutput: {hookEventName: 'PreToolUse', permissionDecision, permissionDecisionReason}}`.
 */
module HookOutput {
  import opened Common
  import opened Strings
  import opened JsonValues

  /**
   * A hook's standard input: the text, and the value `JSON.parse` gives for it (`None` when
   * it throws). Parsing itself is not modelled.
   */
  datatype HookInput = HookInput(text: string, parsed: Option<Json>)

  /** `!input.trim()`: the hooks stop at once on blank input. */
  predicate Blank(input: HookInput)
  {
    Trim(input.text) == ""
  }

  function PreToolUseReply(decision: string, reason: string): Json
  {
    JObj([Member("hookSpecificOutput", JObj([
      Member("hookEventName", JStr("PreToolUse")),
      Member("permissionDecision", JStr(decision)),
      Member("permissionDecisionReason", JStr(reason))]))])
  }

  /** The `permissionDecision` a reply carries. */
  function DecisionOf(reply: Json): Option<Json>
  {
    match Get(reply, "hookSpecificOutput")
    case Some(inner) => Get(inner, "permissionDecision")
    case None => None
  }

  /** The `permissionDecisionReason` a reply carries. */
  function ReasonOf(reply: Json): Option<Json>
  {
    match Get(reply, "hookSpecificOutput")
    case Some(inner) => Get(inner, "permissionDecisionReason")
    case None => None
  }

  /** A reply is read back as the decision and reason it was built from. */
  lemma ReadReply(decision: string, reason: string)
    ensures DecisionOf(PreToolUseReply(decision, reason)) == Some(JStr(decision))
    ensures ReasonOf(PreToolUseReply(decision, reason)) == Some(JStr(reason))
  {
    var outer := [Member("hookSpecificOutput", JObj([
      Member("hookEventName", JStr("PreToolUse")),
      Member("permissionDecision", JStr(decision)),
      Member("permissionDecisionReason", JStr(reason))]))];
    LookupAt(outer, 0, "hookSpecificOutput");
    var inner := outer[0].value.members;
    assert "hookEventName"[1] != "permissionDecision"[1];
    LookupAt(inner, 1, "permissionDecision");
    assert "permissionDecision"[10] != "permissionDecisionReason"[10] || |"permissionDecision"| != |"permissionDecisionReason"|;
    LookupAt(inner, 2, "permissionDecisionReason");
  }
}
