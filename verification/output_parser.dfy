/**
  The agent's action parser (`CustomJSONOutputParser.parse`). The LLM text is first decoded by the
  agent framework's `parse_json_markdown`, which is outside this model: its outcome is the input
  `decoded` (`None` when it raises).
*/
module OutputParser {
  import opened Wrappers
  import opened Json

  /** The name of the terminal tool (`RespondTool().name`). */
  const RespondToolName: string := "respond_tool"

  /**
    What the parser hands back to the agent loop. `Finish` stands for `AgentFinish({"output": output}, log)`,
    `Action` for `AgentAction(tool, tool_input, log)`; `tool` is the decoded value of the `"tool"` key.
  */
  datatype AgentStep =
    | Finish(output: Json, log: string)
    | Action(tool: Json, toolInput: Json, log: string)
  {
    function Log(): string
    {
      match this
      case Finish(_, log) => log
      case Action(_, _, log) => log
    }
  }

  /** The message of the single parser exception. */
  function ParseErrorMessage(text: string): string
  {
    "Could not parse LLM output: " + text
  }

  /**
    `parse(text)`: a list is cut to its first element; an object whose `tool` is the respond tool
    finishes the turn with its `tool_input`; any other object is an action whose input defaults to
    `{}`; every failure raises one exception whose message ends with the raw text.
  */
  function Parse(text: string, decoded: Option<Json>): (r: Result<AgentStep>)
    ensures r.Ok? ==> r.value.Log() == text
    ensures r.Err? ==> r.error == ParseErrorMessage(text)
    ensures decoded.None? ==> r.Err?
    ensures decoded == Some(JArr([])) ==> r.Err?
  {
    var response: Option<Json> :=
      match decoded
      case None => None
      case Some(JArr(items)) => if |items| == 0 then None else Some(items[0])
      case Some(v) => Some(v);
    match response
    case Some(JObj(f)) =>
      if "tool" !in f then Err(ParseErrorMessage(text))
      else if f["tool"] == JStr(RespondToolName) then
        if "tool_input" in f then Ok(Finish(f["tool_input"], text)) else Err(ParseErrorMessage(text))
      else Ok(Action(f["tool"], if "tool_input" in f then f["tool_input"] else EmptyObject, text))
    case _ => Err(ParseErrorMessage(text))
  }

  /** A list is reduced to its first element; the remaining elements have no influence. */
  lemma ParseListUsesFirst(text: string, x: Json, rest: seq<Json>)
    requires !x.JArr?
    ensures Parse(text, Some(JArr([x] + rest))) == Parse(text, Some(x))
  {
  }

  /** Only one level of list is unwrapped: a list whose first element is not an object fails. */
  lemma ParseListOfNonObjectFails(text: string, x: Json, rest: seq<Json>)
    requires !x.JObj?
    ensures Parse(text, Some(JArr([x] + rest))) == Err(ParseErrorMessage(text))
  {
  }

  /** A decoded object finishes the turn exactly when its `tool` is the respond tool and it has a `tool_input`, which becomes the output. */
  lemma ParseFinishIff(text: string, f: map<string, Json>)
    ensures Parse(text, Some(JObj(f))).Ok? && Parse(text, Some(JObj(f))).value.Finish?
        <==> "tool" in f && f["tool"] == JStr(RespondToolName) && "tool_input" in f
    ensures Parse(text, Some(JObj(f))).Ok? && Parse(text, Some(JObj(f))).value.Finish? ==>
        Parse(text, Some(JObj(f))) == Ok(Finish(f["tool_input"], text))
  {
  }

  /** Any other `tool` value gives an action with that tool and its input, `{}` when the input is absent. */
  lemma ParseActionIff(text: string, f: map<string, Json>)
    ensures Parse(text, Some(JObj(f))).Ok? && Parse(text, Some(JObj(f))).value.Action?
        <==> "tool" in f && f["tool"] != JStr(RespondToolName)
    ensures "tool" in f && f["tool"] != JStr(RespondToolName) ==>
        Parse(text, Some(JObj(f))) ==
          Ok(Action(f["tool"], if "tool_input" in f then f["tool_input"] else EmptyObject, text))
  {
  }

  /**
    The exact failure cases: undecodable text, an empty list, a value (after unwrapping) that is not
    an object, a missing `tool`, or the respond tool without `tool_input`.
  */
  lemma ParseFailsIff(text: string, decoded: Option<Json>)
    ensures Parse(text, decoded).Err? <==>
      || decoded.None?
      || decoded == Some(JArr([]))
      || (decoded.Some? && decoded.value.JArr? && |decoded.value.items| > 0
          && ParseObjectFails(decoded.value.items[0]))
      || (decoded.Some? && !decoded.value.JArr? && ParseObjectFails(decoded.value))
  {
  }

  /** The failure condition for the value that is looked at after list unwrapping. */
  predicate ParseObjectFails(v: Json)
  {
    || !v.JObj?
    || "tool" !in v.fields
    || (v.fields["tool"] == JStr(RespondToolName) && "tool_input" !in v.fields)
  }

  /** The exception message carries the raw text unchanged, at its end. */
  lemma ParseErrorCarriesText(text: string, decoded: Option<Json>)
    requires Parse(text, decoded).Err?
    ensures var m := Parse(text, decoded).error;
      |m| >= |text| && m[|m| - |text|..] == text
  {
  }
}
