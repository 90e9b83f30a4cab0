/** The query router tool: the list of tool descriptions it shows the chat model, the
    search for the tool the model names, and the answer it gives. The model and the
    parser of its JSON reply are functions passed in. */
module QueryRouter {
  import opened Wrappers
  import opened Text
  import opened Llm
  import opened PromptTemplate

  /** A tool as the router sees it. */
  datatype Tool = Tool(name: string, description: string)

  /** The router's own `name`, which it leaves out of the descriptions. */
  const RouterName := "query_router"

  /** The line describing one tool. */
  function DescriptionLine(tool: Tool): string {
    "- " + tool.name + ": " + tool.description
  }

  /** The description lines of the tools other than the router, in list order. */
  function DescriptionLines(tools: seq<Tool>): (lines: seq<string>)
    ensures |lines| <= |tools|
    ensures forall k :: 0 <= k < |tools| && tools[k].name != RouterName ==>
      DescriptionLine(tools[k]) in lines
    ensures forall line :: line in lines ==>
      exists k :: 0 <= k < |tools| && tools[k].name != RouterName && line == DescriptionLine(tools[k])
  {
    if tools == [] then []
    else
      var init := DescriptionLines(tools[..|tools| - 1]);
      var last := tools[|tools| - 1];
      assert forall k :: 0 <= k < |tools| - 1 ==> tools[..|tools| - 1][k] == tools[k];
      if last.name != RouterName then init + [DescriptionLine(last)] else init
  }

  /** `_get_tool_descriptions`: one line per tool that is not the router, joined by `\n`. */
  method GetToolDescriptions(tools: seq<Tool>) returns (text: string)
    ensures text == Join("\n", DescriptionLines(tools))
  {
    var descriptions: seq<string> := [];
    for i := 0 to |tools|
      invariant descriptions == DescriptionLines(tools[..i])
    {
      assert tools[..i + 1][..i] == tools[..i];
      if tools[i].name != RouterName {
        descriptions := descriptions + [DescriptionLine(tools[i])];
      }
    }
    assert tools[..|tools|] == tools;
    text := Join("\n", descriptions);
  }

  /** Lines only for tools that are not the router: a list holding nothing but routers
      yields no lines, and a router entry adds nothing. */
  lemma {:induction false} RouterNeverDescribed(tools: seq<Tool>, router: Tool)
    requires router.name == RouterName
    ensures DescriptionLines(tools + [router]) == DescriptionLines(tools)
    ensures DescriptionLines([router] + tools) == DescriptionLines(tools)
    decreases |tools|
  {
    assert (tools + [router])[..|tools|] == tools;
    if tools == [] {
      assert [router] + tools == [router];
      assert [router][..0] == [];
    } else {
      var init := tools[..|tools| - 1];
      RouterNeverDescribed(init, router);
      assert ([router] + tools)[..|tools|] == [router] + init;
    }
  }

  /** One tool gives its own line, unless it is the router. */
  lemma DescriptionLinesSingle(tool: Tool)
    ensures DescriptionLines([tool]) == if tool.name != RouterName then [DescriptionLine(tool)] else []
  {
    assert [tool][..0] == [];
  }

  /** The lines are made tool by tool, so they keep the list order: the lines of a
      concatenation are the lines of its parts, one after the other. */
  lemma {:induction false} DescriptionLinesAppend(a: seq<Tool>, b: seq<Tool>)
    ensures DescriptionLines(a + b) == DescriptionLines(a) + DescriptionLines(b)
    decreases |b|
  {
    if b == [] {
      assert a + b == a;
    } else {
      var init, last := b[..|b| - 1], b[|b| - 1];
      assert (a + b)[..|a + b| - 1] == a + init;
      assert (a + b)[|a + b| - 1] == last;
      DescriptionLinesAppend(a, init);
      LinesAssoc(DescriptionLines(a), DescriptionLines(init),
                 if last.name != RouterName then [DescriptionLine(last)] else []);
    }
  }

  /** Concatenation of line lists regroups freely. */
  lemma LinesAssoc(a: seq<string>, b: seq<string>, c: seq<string>)
    ensures a + (b + c) == (a + b) + c
  {
  }

  /** The first tool's line, if it has one, comes before all the others. */
  lemma DescriptionLinesCons(tool: Tool, tools: seq<Tool>)
    ensures DescriptionLines([tool] + tools) ==
      (if tool.name != RouterName then [DescriptionLine(tool)] else []) + DescriptionLines(tools)
  {
    DescriptionLinesAppend([tool], tools);
    DescriptionLinesSingle(tool);
  }

  /** A router entry anywhere in the list adds no line and moves no other line. */
  lemma RouterNeverDescribedAnywhere(before: seq<Tool>, router: Tool, after: seq<Tool>)
    requires router.name == RouterName
    ensures DescriptionLines(before + [router] + after) == DescriptionLines(before + after)
  {
    DescriptionLinesAppend(before + [router], after);
    DescriptionLinesAppend(before, [router]);
    DescriptionLinesSingle(router);
    assert DescriptionLines(before + [router]) == DescriptionLines(before);
    DescriptionLinesAppend(before, after);
  }

  /** The first tool whose name is `name`. */
  function FirstNamed(tools: seq<Tool>, name: string): (r: Option<Tool>)
    ensures r.None? <==> forall k :: 0 <= k < |tools| ==> tools[k].name != name
    ensures r.Some? ==>
      exists k :: (0 <= k < |tools| && tools[k] == r.value && r.value.name == name &&
                   forall j :: 0 <= j < k ==> tools[j].name != name)
  {
    if tools == [] then None
    else if tools[0].name == name then Some(tools[0])
    else
      var r := FirstNamed(tools[1..], name);
      assert forall k :: 1 <= k < |tools| ==> tools[1..][k - 1] == tools[k];
      if r.Some? then
        var k :| 0 <= k < |tools[1..]| && tools[1..][k] == r.value && r.value.name == name &&
          forall j :: 0 <= j < k ==> tools[1..][j].name != name;
        assert tools[k + 1] == r.value;
        assert forall j :: 0 <= j < k + 1 ==> tools[j].name != name by {
          forall j | 0 <= j < k + 1 ensures tools[j].name != name {
            if j > 0 { assert tools[j] == tools[1..][j - 1]; }
          }
        }
        r
      else r
  }

  /** The scan of `_run`: the first tool with the selected name, stopping there. */
  method FindTool(tools: seq<Tool>, name: string) returns (selected: Option<Tool>)
    ensures selected == FirstNamed(tools, name)
  {
    selected := None;
    var i := 0;
    while i < |tools|
      invariant 0 <= i <= |tools|
      invariant FirstNamed(tools[i..], name) == FirstNamed(tools, name)
    {
      if tools[i].name == name {
        selected := Some(tools[i]);
        assert tools[i..][0] == tools[i];
        return;
      }
      assert tools[i..][1..] == tools[i + 1..];
      i := i + 1;
    }
  }

  /** The router is hidden from the model but not from the search: asked for by name, it
      is found like any other tool. */
  lemma RouterStillSelectable(tools: seq<Tool>, k: nat)
    requires k < |tools| && tools[k].name == RouterName
    requires forall j :: 0 <= j < k ==> tools[j].name != RouterName
    ensures FirstNamed(tools, RouterName) == Some(tools[k])
  {
  }

  /** What the output parser makes of the model's reply. */
  datatype Selection = Selection(toolName: string, confidence: real, reasoning: string)

  /** The lines of the routing prompt's system message, each a constant of its own. */
  const AnalyzerLine := "You are a query analyzer that determines" + " which tool is most appropriate for "
    + "handling a user's query."
  const ToolsLine := "Available tools:"
  const AnalyzeLine := "Analyze the user's query and recommend " + "the most appropriate tool."
  const ConsiderLine := "Consider the purpose and capabilities " + "of each tool when making your decision."
  const RespondLine := "Respond with JSON in the following " + "format:"

  /** The system message of the routing prompt before the tool descriptions. */
  const RoutingHead := Nl16 + AnalyzerLine + Nl16 + Nl16 + ToolsLine + Nl16

  /** The system message between the descriptions and the parser's format instructions. */
  const RoutingMiddle :=
    Nl16 + Nl16 + AnalyzeLine + Nl16 + ConsiderLine + Nl16 + Nl16 + RespondLine + Nl16

  /** The human message of the routing prompt before the query. */
  const QueryHead := "User query: "

  /** The routing prompt of `_run`, before LangChain reads its texts as templates. */
  function RoutingPrompt(query: string, descriptions: string, formatInstructions: string): (p: Prompt)
    ensures p.human == QueryHead + query
    ensures Contains(p.system, descriptions)
    ensures EndsWith(p.system, formatInstructions + Nl16)
  {
    FiveParts(RoutingHead, descriptions, RoutingMiddle, formatInstructions, Nl16);
    Prompt(RoutingHead + descriptions + RoutingMiddle + formatInstructions + Nl16, QueryHead + query)
  }

  /** A text made of five parts holds the second and ends with the last two. */
  lemma FiveParts(a: string, b: string, c: string, d: string, e: string)
    ensures Contains(a + b + c + d + e, b)
    ensures EndsWith(a + b + c + d + e, d + e)
  {
    ContainsMiddle(a, b, c + d + e);
    assert a + b + (c + d + e) == a + b + c + d + e;
    ConcatEnds(a + b + c, d + e, []);
    assert a + b + c + (d + e) + [] == a + b + c + d + e;
  }

  /** The fixed parts of the routing prompt hold no brace. */
  lemma RoutingTextsPlain()
    ensures NoBraces(RoutingHead) && NoBraces(RoutingMiddle) && NoBraces(QueryHead) && NoBraces(Nl16)
  {
    LinesPlain();
    var h := Nl16;
    NoBracesAppend(h, AnalyzerLine); h := h + AnalyzerLine;
    NoBracesAppend(h, Nl16); h := h + Nl16;
    NoBracesAppend(h, Nl16); h := h + Nl16;
    NoBracesAppend(h, ToolsLine); h := h + ToolsLine;
    NoBracesAppend(h, Nl16);
    var m := Nl16;
    NoBracesAppend(m, Nl16); m := m + Nl16;
    NoBracesAppend(m, AnalyzeLine); m := m + AnalyzeLine;
    NoBracesAppend(m, Nl16); m := m + Nl16;
    NoBracesAppend(m, ConsiderLine); m := m + ConsiderLine;
    NoBracesAppend(m, Nl16); m := m + Nl16;
    NoBracesAppend(m, Nl16); m := m + Nl16;
    NoBracesAppend(m, RespondLine); m := m + RespondLine;
    NoBracesAppend(m, Nl16);
  }

  lemma LinesPlain()
    ensures NoBraces(AnalyzerLine) && NoBraces(ToolsLine) && NoBraces(AnalyzeLine)
    ensures NoBraces(ConsiderLine) && NoBraces(RespondLine)
  {
    AnalyzerLinePlain();
    AnalyzeLinePlain();
    ConsiderLinePlain();
    NoBracesAppend("Respond with JSON in the following ", "format:");
  }

  lemma AnalyzeLinePlain()
    ensures NoBraces(AnalyzeLine)
  {
    NoBracesAppend("Analyze the user's query and recommend ", "the most appropriate tool.");
  }

  lemma ConsiderLinePlain()
    ensures NoBraces(ConsiderLine)
  {
    NoBracesAppend("Consider the purpose and capabilities ", "of each tool when making your decision.");
  }

  lemma AnalyzerLinePlain()
    ensures NoBraces(AnalyzerLine)
  {
    NoBracesAppend("You are a query analyzer that determines", " which tool is most appropriate for ");
    NoBracesAppend("You are a query analyzer that determines" + " which tool is most appropriate for ",
                   "handling a user's query.");
  }

  /** The message for a name that no tool has. */
  function NotFound(name: string): string {
    "Tool '" + name + "' not found. Please use one of the available tools."
  }

  /** The recommendation for a tool that was found; `fixed2` renders `:.2f`. */
  function Recommendation(selection: Selection, tool: Tool, fixed2: real -> string): string {
    RecommendedLabel + selection.toolName + ConfidenceLabel + fixed2(selection.confidence)
    + ReasoningLabel + selection.reasoning + DescriptionLabel + tool.description + Nl16
  }

  const RecommendedLabel := Nl16 + "Based on the query analysis:" + Nl16 + Nl16 + "Recommended tool: "
  const ConfidenceLabel := Nl16 + "Confidence: "
  const ReasoningLabel := Nl16 + "Reasoning: "
  const DescriptionLabel := Nl16 + Nl16 + "Tool description: "

  /** The answer for a parsed reply. */
  function Answer(tools: seq<Tool>, parsed: Outcome<Selection>, fixed2: real -> string): (r: string)
    ensures parsed.Raised? ==> r == "Error parsing tool selection: " + parsed.error
    ensures parsed.Returned? && (forall k :: 0 <= k < |tools| ==> tools[k].name != parsed.value.toolName) ==>
      r == NotFound(parsed.value.toolName)
  {
    match parsed
    case Raised(e) => "Error parsing tool selection: " + e
    case Returned(selection) =>
      match FirstNamed(tools, selection.toolName)
      case None => NotFound(selection.toolName)
      case Some(tool) => Recommendation(selection, tool, fixed2)
  }

  /** What `_run` answers for the outcome of the model call: the text of any exception
      raised up to the reply, or the answer for the parsed reply. */
  function Routed(reply: Outcome<string>, tools: seq<Tool>, parse: string -> Outcome<Selection>,
                  fixed2: real -> string): string {
    match reply
    case Raised(e) => "Error routing query: " + e
    case Returned(content) => Answer(tools, parse(content), fixed2)
  }

  /** The answer `_run` gives as written: the prompt goes through the template pass. */
  function RouteAsWritten(query: string, tools: seq<Tool>, llm: Prompt -> Outcome<string>,
                      parse: string -> Outcome<Selection>, formatInstructions: string,
                      fixed2: real -> string): string {
    Routed(Invoke(llm, RoutingPrompt(query, Join("\n", DescriptionLines(tools)), formatInstructions)),
           tools, parse, fixed2)
  }

  /** `_run`: `llm` is the chat model, `parse` the output parser, `formatInstructions` what
      the parser asks the model to produce. The prompt texts go through the template pass
      before the model sees them. */
  method Run(query: string, tools: seq<Tool>, llm: Prompt -> Outcome<string>,
             parse: string -> Outcome<Selection>, formatInstructions: string, fixed2: real -> string)
    returns (response: string)
    ensures response == RouteAsWritten(query, tools, llm, parse, formatInstructions, fixed2)
  {
    var descriptions := GetToolDescriptions(tools);
    var prompt := RoutingPrompt(query, descriptions, formatInstructions);
    match Invoke(llm, prompt)
    case Raised(e) =>
      response := "Error routing query: " + e;
    case Returned(content) =>
      response := AnswerParsed(tools, parse(content), fixed2);
  }

  /** Format instructions that are not a valid template (and do not start with a brace)
      make every call raise before the model is asked, whatever the query, the tools and
      the model are. */
  lemma RouterAlwaysFails(query: string, tools: seq<Tool>, llm: Prompt -> Outcome<string>,
                          parse: string -> Outcome<Selection>, formatInstructions: string,
                          fixed2: real -> string)
    requires Render(formatInstructions).Raised?
    requires formatInstructions != [] && !IsBrace(formatInstructions[0])
    ensures Invoke(llm, RoutingPrompt(query, Join("\n", DescriptionLines(tools)), formatInstructions))
      == Raised(TemplateError)
    ensures RouteAsWritten(query, tools, llm, parse, formatInstructions, fixed2)
      == "Error routing query: " + TemplateError
  {
    var before := RoutingHead + Join("\n", DescriptionLines(tools)) + RoutingMiddle;
    RaisesAfterAnything(before, formatInstructions);
    RaisesBeforePlain(before + formatInstructions, Nl16);
  }

  /** How the JSON format instructions of a Pydantic output parser open, up to the JSON
      example of a schema that follows. */
  const FormatLead :=
    "The output should be formatted as a JSON " + "instance that conforms to the JSON schema"
    + " below.\n\nAs an example, for the schema"

  /** Instructions with a JSON object after a space, as in the parser's example schema
      `{"properties": ...}`, are not a valid template. */
  lemma {:induction false} SchemaExampleRaises(lead: string, rest: string)
    requires lead != [] && !IsBrace(lead[0])
    ensures Render(lead + " {\"" + rest).Raised?
    ensures !IsBrace((lead + " {\"" + rest)[0])
  {
    var b := " {\"" + rest;
    assert b[0] == ' ' && b[1] == '{' && b[2] == '"';
    assert Render(b[1..]) == Raised(TemplateError);
    assert Render(b) == Prepend(' ', Render(b[1..]));
    RaisesAfterAnything(lead, b);
    assert lead + " {\"" + rest == lead + b;
  }

  /** So the router, as written, answers every query with the template error; `schema`
      stands for the rest of the parser's instructions. */
  lemma PydanticRouterAlwaysFails(query: string, tools: seq<Tool>, llm: Prompt -> Outcome<string>,
                                  parse: string -> Outcome<Selection>, schema: string, fixed2: real -> string)
    ensures RouteAsWritten(query, tools, llm, parse, FormatLead + " {\"" + schema, fixed2)
      == "Error routing query: " + TemplateError
  {
    assert FormatLead[0] == 'T';
    SchemaExampleRaises(FormatLead, schema);
    RouterAlwaysFails(query, tools, llm, parse, FormatLead + " {\"" + schema, fixed2);
  }

  /** The routing prompt as evidently intended: the format instructions given to the
      template as a partial variable, so that they reach the model as they are, while the
      rest of the system text and the human text are still read as templates. */
  function IntendedRoutingPrompt(query: string, descriptions: string, formatInstructions: string)
    : Outcome<Prompt>
  {
    match RenderPrompt(Prompt(RoutingHead + descriptions + RoutingMiddle, QueryHead + query))
    case Raised(e) => Raised(e)
    case Returned(p) => Returned(Prompt(p.system + formatInstructions + Nl16, p.human))
  }

  /** `_run` with the intended prompt. */
  function RouteIntended(query: string, tools: seq<Tool>, llm: Prompt -> Outcome<string>,
                         parse: string -> Outcome<Selection>, formatInstructions: string,
                         fixed2: real -> string): string {
    match IntendedRoutingPrompt(query, Join("\n", DescriptionLines(tools)), formatInstructions)
    case Raised(e) => "Error routing query: " + e
    case Returned(p) => Routed(llm(p), tools, parse, fixed2)
  }

  /** With the intended prompt the format instructions, braces and all, cannot make the
      call fail, and they reach the model verbatim at the end of the system message. */
  lemma IntendedRouterKeepsInstructions(query: string, descriptions: string, formatInstructions: string)
    ensures IntendedRoutingPrompt(query, descriptions, formatInstructions).Returned?
      == IntendedRoutingPrompt(query, descriptions, "").Returned?
    ensures IntendedRoutingPrompt(query, descriptions, formatInstructions).Returned? ==>
      var system := IntendedRoutingPrompt(query, descriptions, formatInstructions).value.system;
      |system| >= |formatInstructions + Nl16| &&
      system[|system| - |formatInstructions + Nl16|..] == formatInstructions + Nl16
  {
  }

  /** When the query and the tool descriptions hold no brace, the intended router shows
      the model exactly the prompt the source writes out, and answers from the reply. */
  lemma IntendedRouterReachesModel(query: string, tools: seq<Tool>, llm: Prompt -> Outcome<string>,
                                   parse: string -> Outcome<Selection>, formatInstructions: string,
                                   fixed2: real -> string)
    requires NoBraces(query) && NoBraces(Join("\n", DescriptionLines(tools)))
    ensures IntendedRoutingPrompt(query, Join("\n", DescriptionLines(tools)), formatInstructions)
      == Returned(RoutingPrompt(query, Join("\n", DescriptionLines(tools)), formatInstructions))
    ensures RouteIntended(query, tools, llm, parse, formatInstructions, fixed2)
      == Routed(llm(RoutingPrompt(query, Join("\n", DescriptionLines(tools)), formatInstructions)),
                tools, parse, fixed2)
  {
    var d := Join("\n", DescriptionLines(tools));
    RoutingTextsPlain();
    NoBracesAppend(RoutingHead, d);
    NoBracesAppend(RoutingHead + d, RoutingMiddle);
    NoBracesAppend(QueryHead, query);
    RenderPlain(RoutingHead + d + RoutingMiddle);
    RenderPlain(QueryHead + query);
  }

  /** The part of `_run` after the model's reply is parsed. */
  method AnswerParsed(tools: seq<Tool>, parsed: Outcome<Selection>, fixed2: real -> string)
    returns (response: string)
    ensures response == Answer(tools, parsed, fixed2)
  {
    if parsed.Raised? {
      return "Error parsing tool selection: " + parsed.error;
    }
    var selection := parsed.value;
    var selected := FindTool(tools, selection.toolName);
    if selected.None? {
      return NotFound(selection.toolName);
    }
    response := Recommendation(selection, selected.value, fixed2);
  }

  /** A name some tool has gets the recommendation, which describes the first tool listed
      with that name. */
  lemma AnswerNamesListedTool(tools: seq<Tool>, selection: Selection, fixed2: real -> string)
    requires exists k :: 0 <= k < |tools| && tools[k].name == selection.toolName
    ensures exists k :: (0 <= k < |tools| && tools[k].name == selection.toolName &&
                         (forall j :: 0 <= j < k ==> tools[j].name != selection.toolName) &&
                         Answer(tools, Returned(selection), fixed2) == Recommendation(selection, tools[k], fixed2))
  {
    var found := FirstNamed(tools, selection.toolName);
    assert found.Some?;
    var k :| 0 <= k < |tools| && tools[k] == found.value && found.value.name == selection.toolName &&
      forall j :: 0 <= j < k ==> tools[j].name != selection.toolName;
    assert Answer(tools, Returned(selection), fixed2) == Recommendation(selection, tools[k], fixed2);
  }
}
