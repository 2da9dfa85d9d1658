/**
  What `init_agent_executor` puts into the agent's prompt: the list of tools with their
  descriptions, the list of tool names, today's date, the chat input and history. The language
  model is bound with a single stop sequence, and each tool's observation is shown to the model
  through a fixed response template.
*/
module Executor {
  import opened Wrappers
  import opened Text
  import opened Dates
  import opened Tools

  /** Who wrote a chat message. */
  datatype Role = User | Assistant

  /** One entry of the chat history: role, text, and the debug log lines kept with it. */
  datatype ChatMessage = ChatMessage(role: Role, content: string, log: seq<string>)

  /** The text that stops the model's generation. */
  const StopSequences: seq<string> := ["\nObservation"]

  /** The prompt line of one tool: `f"{tool.name}: {tool.description}"`. */
  function ToolLine(t: Tool): string
  {
    Name(t.kind) + ": " + Description(t.kind)
  }

  /** One line per tool, in registry order. */
  function ToolLines(tools: seq<Tool>): (r: seq<string>)
    ensures |r| == |tools|
    ensures forall i :: 0 <= i < |r| ==> r[i] == ToolLine(tools[i])
  {
    if |tools| == 0 then [] else [ToolLine(tools[0])] + ToolLines(tools[1..])
  }

  /** The tool names, in registry order. */
  function NameList(tools: seq<Tool>): (r: seq<string>)
    ensures |r| == |tools|
    ensures forall i :: 0 <= i < |r| ==> r[i] == Name(tools[i].kind)
  {
    if |tools| == 0 then [] else [Name(tools[0].kind)] + NameList(tools[1..])
  }

  /** `tool_strings`: the tool lines joined by newlines; empty for no tools. */
  function ToolStrings(tools: seq<Tool>): (r: string)
    ensures tools == [] ==> r == ""
    ensures |tools| == 1 ==> r == ToolLine(tools[0])
  {
    Join("\n", ToolLines(tools))
  }

  /** `tool_names`: the names joined by `", "`; empty for no tools. */
  function ToolNames(tools: seq<Tool>): (r: string)
    ensures tools == [] ==> r == ""
    ensures |tools| == 1 ==> r == Name(tools[0].kind)
  {
    Join(", ", NameList(tools))
  }

  /** A tool added at the end of the registry adds its line at the end of `tool_strings`. */
  lemma ToolStringsAppend(tools: seq<Tool>, t: Tool)
    requires |tools| >= 1
    ensures ToolStrings(tools + [t]) == ToolStrings(tools) + "\n" + ToolLine(t)
  {
    var lines := ToolLines(tools + [t]);
    JoinLast("\n", lines);
    assert lines[..|lines| - 1] == ToolLines(tools);
  }

  /** A tool added at the end of the registry adds its name at the end of `tool_names`. */
  lemma ToolNamesAppend(tools: seq<Tool>, t: Tool)
    requires |tools| >= 1
    ensures ToolNames(tools + [t]) == ToolNames(tools) + ", " + Name(t.kind)
  {
    var names := NameList(tools + [t]);
    JoinLast(", ", names);
    assert names[..|names| - 1] == NameList(tools);
  }

  /** `datetime.now().isoformat()[:10]`: the `YYYY-MM-DD` date of the current moment. */
  function PromptDate(now: DateTime): (r: string)
    requires ValidDateTime(now)
    ensures r == FormatDate(now.date)
  {
    IsoFormatDatePrefix(now);
    IsoFormat(now)[..10]
  }

  /** The variables the prompt template is filled with. */
  datatype PromptVariables = PromptVariables(
    date: string,
    toolNames: string,
    toolStrings: string,
    input: string,
    chatHistory: seq<ChatMessage>)

  /** The prompt variables of one invocation: the user's input and history go through untouched. */
  function PromptFor(now: DateTime, tools: seq<Tool>, input: string, history: seq<ChatMessage>): (p: PromptVariables)
    requires ValidDateTime(now)
    ensures p.date == FormatDate(now.date) && |p.date| == 10
    ensures p.input == input && p.chatHistory == history
    ensures p.toolNames == ToolNames(tools) && p.toolStrings == ToolStrings(tools)
  {
    PromptVariables(PromptDate(now), ToolNames(tools), ToolStrings(tools), input, history)
  }

  // TEMPLATE_TOOL_RESPONSE

  /** The template text before its one replacement field. */
  const ResponsePrefix: string := "TOOL RESPONSE:\n---------------------\n"

  /** The template text after its one replacement field. */
  const ResponseSuffix: string :=
    "\n\nUSER'S INPUT\n--------------------\n\nOkay, so what is the response to my last comment? "
    + "If using information obtained from the tools you must mention it explicitly without mentioning "
    + "the tool names - I have forgotten all TOOL RESPONSES! Remember to respond with a markdown code "
    + "snippet of a json blob with a single action, and NOTHING else - even if you just want to respond "
    + "to the user. Do NOT respond with anything except a JSON snippet no matter what!"

  const ObservationField: string := "{observation}"

  /** `TEMPLATE_TOOL_RESPONSE`. */
  const ToolResponseTemplate: string := ResponsePrefix + ObservationField + ResponseSuffix

  /** The replacement field sits right after the prefix, and the prefix has no brace of its own. */
  lemma SingleField()
    ensures forall i :: 0 <= i < |ResponsePrefix| ==> ResponsePrefix[i] != '{' && ResponsePrefix[i] != '}'
    ensures ToolResponseTemplate[|ResponsePrefix|..|ResponsePrefix| + |ObservationField|] == ObservationField
    ensures ToolResponseTemplate[|ResponsePrefix| + |ObservationField|..] == ResponseSuffix
  {
    var p, f, x := ResponsePrefix, ObservationField, ResponseSuffix;
    forall i | 0 <= i < |p|
      ensures p[i] != '{' && p[i] != '}'
    {
    }
    assert (p + f + x)[|p|..|p| + |f|] == f;
    assert (p + f + x)[|p| + |f|..] == x;
  }

  /** The template filled with an observation. */
  function ToolResponse(observation: string): string
  {
    ResponsePrefix + observation + ResponseSuffix
  }

  /** The observation between the template's fixed parts, if the text has them. */
  function ObservationIn(text: string): (r: Option<string>)
    ensures r.Some? <==>
      |text| >= |ResponsePrefix| + |ResponseSuffix|
      && text[..|ResponsePrefix|] == ResponsePrefix && text[|text| - |ResponseSuffix|..] == ResponseSuffix
  {
    if |text| >= |ResponsePrefix| + |ResponseSuffix|
       && text[..|ResponsePrefix|] == ResponsePrefix && text[|text| - |ResponseSuffix|..] == ResponseSuffix
    then Some(text[|ResponsePrefix|..|text| - |ResponseSuffix|])
    else None
  }

  /** The observation can be read back from the response it was shown in, whatever it contains. */
  lemma ToolResponseRoundTrip(observation: string)
    ensures ObservationIn(ToolResponse(observation)) == Some(observation)
  {
    var r := ToolResponse(observation);
    assert r == ResponsePrefix + observation + ResponseSuffix;
    assert r[|ResponsePrefix|..|r| - |ResponseSuffix|] == observation;
  }
}
