/** The enhanced search tool: the conversation context taken from the chat memory, the
    query rewritten by the chat model, the mock search, and what `_run` returns. */
module EnhancedSearch {
  import opened Wrappers
  import opened Text
  import opened Llm
  import opened PromptTemplate

  /** A chat message: its `type` (`human`, `ai`, ...) and its content. */
  datatype Message = Message(kind: string, content: string)

  /** The search tool chosen by the engine name. */
  function SearchToolName(searchEngine: string): (r: string)
    ensures r == "google_search" <==> Lower(searchEngine) == "google"
    ensures r == "google_search" || r == "mock_search"
  {
    if Lower(searchEngine) == "google" then "google_search" else "mock_search"
  }

  const MockPlaceholder :=
    "This is a placeholder for actual search results. "
    + "In a production environment, this would connect to a real search API."

  /** `_mock_search`. */
  function MockSearch(query: string): (r: string)
    ensures StartsWith(r, "Mock search results for: " + query + "\n\n")
    ensures EndsWith(r, MockPlaceholder)
  {
    ConcatEnds("Mock search results for: " + query + "\n\n", [], MockPlaceholder);
    assert "Mock search results for: " + query + "\n\n" + [] == "Mock search results for: " + query + "\n\n";
    "Mock search results for: " + query + "\n\n" + MockPlaceholder
  }

  /** How many of the latest messages make up the context. */
  const ContextWindow := 6

  /** `messages[-6:]`. */
  function LastMessages(messages: seq<Message>): (r: seq<Message>)
    ensures |r| == if |messages| < ContextWindow then |messages| else ContextWindow
    ensures r == messages[|messages| - |r|..]
  {
    if |messages| <= ContextWindow then messages else messages[|messages| - ContextWindow..]
  }

  /** The line of one message. */
  function MessageLine(m: Message): string {
    m.kind + ": " + m.content
  }

  /** The lines of the messages, in order. */
  function MessageLines(messages: seq<Message>): (lines: seq<string>)
    ensures |lines| == |messages|
    ensures forall k :: 0 <= k < |messages| ==> lines[k] == MessageLine(messages[k])
  {
    if messages == [] then [] else [MessageLine(messages[0])] + MessageLines(messages[1..])
  }

  /** The key of the history in the memory's variables. */
  const ChatHistory := "chat_history"

  /** `_extract_conversation_context`: `memory` is `None` without a memory, and otherwise
      the outcome of `load_memory_variables`. */
  function ConversationContext(memory: Option<Outcome<map<string, seq<Message>>>>): (r: Option<string>)
    ensures r.Some? ==> memory.Some? && memory.value.Returned? && ChatHistory in memory.value.value
    ensures r.Some? ==>
      r.value == Join("\n", MessageLines(LastMessages(memory.value.value[ChatHistory])))
  {
    match memory
    case None => None
    case Some(Raised(_)) => None
    case Some(Returned(history)) =>
      if history == map[] || ChatHistory !in history then None
      else Some(Join("\n", MessageLines(LastMessages(history[ChatHistory]))))
  }

  /** The context exists exactly when the memory loaded and holds a history, and then it
      has one line per message of the last six, in order. */
  lemma ContextWindowed(memory: Option<Outcome<map<string, seq<Message>>>>)
    ensures ConversationContext(memory).Some? <==>
      memory.Some? && memory.value.Returned? && ChatHistory in memory.value.value
    ensures ConversationContext(memory).Some? ==>
      var messages := memory.value.value[ChatHistory];
      var window := LastMessages(messages);
      |window| <= ContextWindow &&
      (|messages| >= ContextWindow ==> window == messages[|messages| - ContextWindow..]) &&
      (|messages| < ContextWindow ==> window == messages)
  {
  }

  /** An empty history is a context too, but an empty one. */
  lemma EmptyHistoryEmptyContext()
    ensures ConversationContext(Some(Returned(map[ChatHistory := []]))) == Some("")
  {
    var history: map<string, seq<Message>> := map[ChatHistory := []];
    assert ChatHistory in history && history != map[];
    assert LastMessages(history[ChatHistory]) == [];
    assert MessageLines([]) == [];
  }

  /** The system message of `_optimize_query` before the context. */
  const OptimizerHead :=
    Nl16 + "You are a search query optimizer. Your task is to transform user questions into "
    + Nl16 + "effective search queries that will yield the most relevant results."
    + Nl16 + Nl16 + "Guidelines for optimization:"
    + Nl16 + "1. Remove unnecessary words like \"please\", \"I want to know\", etc."
    + Nl16 + "2. Include specific keywords relevant to the topic"
    + Nl16 + "3. Use precise terminology where possible"
    + Nl16 + "4. Add disambiguating terms if the query could be interpreted multiple ways"
    + Nl16 + "5. Focus on the core information need"

  const ContextLabel := "\nRelevant conversation context: "

  /** The context line, added only for a non-empty context. */
  function ContextSuffix(context: Option<string>): string {
    if context.Some? && context.value != "" then ContextLabel + context.value else ""
  }

  const QueryLabel := "Original query: "

  /** The prompt of `_optimize_query`. */
  function OptimizerPrompt(query: string, context: Option<string>): Prompt {
    Prompt(OptimizerHead + ContextSuffix(context) + Nl16, QueryLabel + query)
  }

  /** `_optimize_query`: the model's reply stripped, or the query itself when formatting the
      prompt or the call raises. */
  function OptimizeQuery(query: string, context: Option<string>, llm: Prompt -> Outcome<string>): (r: string)
    ensures Invoke(llm, OptimizerPrompt(query, context)).Raised? ==> r == query
    ensures Invoke(llm, OptimizerPrompt(query, context)).Returned? ==>
      r == Strip(Invoke(llm, OptimizerPrompt(query, context)).value)
  {
    match Invoke(llm, OptimizerPrompt(query, context))
    case Raised(_) => query
    case Returned(reply) => Strip(reply)
  }

  /** The labels of the optimiser prompt hold no brace. */
  lemma LabelsPlain()
    ensures NoBraces(ContextLabel) && NoBraces(QueryLabel)
  {
  }

  /** A query that is not a valid template never reaches the model: the query is searched
      as it is. */
  lemma BracedQueryFallsBack(query: string, context: Option<string>, llm: Prompt -> Outcome<string>)
    requires Render(query).Raised?
    ensures OptimizeQuery(query, context, llm) == query
  {
    LabelsPlain();
    HumanPartRaises(llm, OptimizerPrompt(query, context), QueryLabel, query);
  }

  /** Nor does a conversation context that is not a valid template (a brace in an earlier
      message is enough). */
  lemma BracedContextFallsBack(query: string, context: string, llm: Prompt -> Outcome<string>)
    requires Render(context).Raised?
    ensures OptimizeQuery(query, Some(context), llm) == query
  {
    ContextLineRaises(OptimizerHead, context);
  }

  /** The system text raises, whatever precedes the context line. */
  lemma ContextLineRaises(head: string, context: string)
    requires Render(context).Raised?
    ensures Render(head + ContextSuffix(Some(context)) + Nl16).Raised?
  {
    LabelsPlain();
    RenderPlain(ContextLabel);
    RenderAppend(ContextLabel, context);
    RaisesAfterAnything(head, ContextLabel + context);
    RaisesBeforePlain(head + (ContextLabel + context), Nl16);
    assert context != "";
    assert head + ContextSuffix(Some(context)) + Nl16 == head + (ContextLabel + context) + Nl16;
  }

  /** A missing and an empty context give the same prompt: neither adds the context line. */
  lemma EmptyContextIgnored(query: string)
    ensures OptimizerPrompt(query, Some("")) == OptimizerPrompt(query, None)
    ensures OptimizerPrompt(query, None).system == OptimizerHead + Nl16
  {
  }

  /** The error `_run` reaches: `response` is not assigned in its body (the lines that built
      it are commented out), so Python looks it up as a global and fails. */
  const SearchErrorPrefix := "Error performing search: "
  const UnboundName := "name 'response' is not defined"
  const UnboundResponse := SearchErrorPrefix + UnboundName

  /** `_run` as written: the context is read and the query optimised, then the lookup of
      `response` raises and the handler answers. */
  function RunAsWritten(query: string, memory: Option<Outcome<map<string, seq<Message>>>>,
                        llm: Prompt -> Outcome<string>): (r: string)
    ensures r == UnboundResponse
  {
    var context := ConversationContext(memory);
    var optimized := OptimizeQuery(query, context, llm);
    UnboundResponse
  }

  /** Whatever the query, the memory and the model, the answer is the same error. */
  lemma RunAlwaysFails(query: string, memory: Option<Outcome<map<string, seq<Message>>>>,
                       llm: Prompt -> Outcome<string>, other: string)
    ensures RunAsWritten(query, memory, llm) == RunAsWritten(other, None, llm)
    ensures StartsWith(RunAsWritten(query, memory, llm), SearchErrorPrefix)
  {
    ConcatEnds(SearchErrorPrefix, UnboundName, []);
    assert SearchErrorPrefix + UnboundName + [] == UnboundResponse;
  }

  const ResultsNote :=
    "\n\nNote: These search results are based on publicly available information and may not be completely up to date."

  /** `_run` with its commented-out lines restored: the search (`search`) runs on the
      optimised query and the answer names that query. */
  function RunIntended(query: string, memory: Option<Outcome<map<string, seq<Message>>>>,
                       llm: Prompt -> Outcome<string>, search: string -> Outcome<string>): (r: string)
    ensures var optimized := OptimizeQuery(query, ConversationContext(memory), llm);
      search(optimized).Raised? ==> r == SearchErrorPrefix + search(optimized).error
  {
    var optimized := OptimizeQuery(query, ConversationContext(memory), llm);
    match search(optimized)
    case Raised(e) => SearchErrorPrefix + e
    case Returned(results) =>
      "Search results for optimized query: \"" + optimized + "\"\n\n" + results + ResultsNote
  }

  /** The restored `_run` reports the results of searching for the optimised query, and the
      query itself when the model fails. */
  lemma IntendedRunReportsResults(query: string, memory: Option<Outcome<map<string, seq<Message>>>>,
                                  llm: Prompt -> Outcome<string>, search: string -> Outcome<string>)
    ensures var optimized := OptimizeQuery(query, ConversationContext(memory), llm);
      search(optimized).Returned? ==>
        StartsWith(RunIntended(query, memory, llm, search), "Search results for optimized query: \"" + optimized) &&
        Contains(RunIntended(query, memory, llm, search), search(optimized).value) &&
        EndsWith(RunIntended(query, memory, llm, search), ResultsNote)
    ensures Invoke(llm, OptimizerPrompt(query, ConversationContext(memory))).Raised? && search(query).Returned? ==>
      StartsWith(RunIntended(query, memory, llm, search), "Search results for optimized query: \"" + query)
  {
    var optimized := OptimizeQuery(query, ConversationContext(memory), llm);
    if search(optimized).Returned? {
      var head := "Search results for optimized query: \"" + optimized;
      ConcatEnds(head, "\"\n\n" + search(optimized).value, ResultsNote);
      ContainsMiddle(head + "\"\n\n", search(optimized).value, ResultsNote);
    }
  }
}
