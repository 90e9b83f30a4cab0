/** The chatbot application: the tools it hands to the agent, its two commands (`exit` and
    `load documents:`), and the conversation loop. The RAG manager, the query enhancer and
    the agent are functions passed in. */
module AgenticChatbot {
  import opened Wrappers
  import opened Text
  import opened Llm

  // ---------------------------------------------------------------------------------
  // The tools

  /** The tools the agent can call. */
  datatype AgentTool =
    | QueryRouter(routes: seq<AgentTool>)
    | StockInfo
    | AccountApi
    | EnhancedSearch
    | DocumentProcessor
    | ResponseRefiner
    | LlmMath

  /** The specialised tools, in the order they are created. */
  const Specialised: seq<AgentTool> := [StockInfo, AccountApi, EnhancedSearch, DocumentProcessor, ResponseRefiner]

  /** `_initialize_tools`: the router over the specialised tools, then the specialised
      tools, then what `load_tools(["llm-math"])` gives. */
  method InitializeTools() returns (tools: seq<AgentTool>)
    ensures |tools| == 7
    ensures tools[0] == QueryRouter(Specialised)
    ensures tools[1..6] == Specialised
    ensures tools[6] == LlmMath
  {
    var routerTool := QueryRouter(Specialised);
    tools := [routerTool] + Specialised;
    var standardTools := [LlmMath];
    tools := tools + standardTools;
  }

  /** The router routes to every specialised tool, and to neither itself nor the
      calculator; every tool the router knows is also given to the agent directly. */
  lemma RouterCoversSpecialised(tools: seq<AgentTool>)
    requires |tools| == 7 && tools[0] == QueryRouter(Specialised) && tools[1..6] == Specialised && tools[6] == LlmMath
    ensures forall k :: 1 <= k < 6 ==> tools[k] in tools[0].routes
    ensures LlmMath !in tools[0].routes
    ensures forall t :: t in tools[0].routes ==> !t.QueryRouter? && t in tools[1..]
    ensures forall t :: t in tools ==> t == tools[0] || t in tools[0].routes || t == LlmMath
  {
    assert forall k :: 1 <= k < 6 ==> tools[k] == Specialised[k - 1];
    forall t | t in tools ensures t == tools[0] || t in tools[0].routes || t == LlmMath {
      var k :| 0 <= k < |tools| && tools[k] == t;
      if 1 <= k < 6 { assert t == Specialised[k - 1]; }
    }
  }

  // ---------------------------------------------------------------------------------
  // The commands

  const ExitWord := "exit"
  const LoadPrefix := "load documents:"

  /** `user_input.lower() == 'exit'`. */
  predicate IsExit(userInput: string) {
    Lower(userInput) == ExitWord
  }

  /** The word `exit` in any case ends the conversation. */
  lemma ExitAnyCase()
    ensures IsExit("exit") && IsExit("EXIT") && IsExit("Exit")
  {
    var upper := "EXIT";
    assert Lower(upper) == [LowerChar('E'), LowerChar('X'), LowerChar('I'), LowerChar('T')];
    var title := "Exit";
    assert Lower(title) == [LowerChar('E'), 'x', 'i', 't'];
    var word := "exit";
    assert Lower(word) == word;
  }

  /** Only the whole word: blanks around it or another word do not stop. */
  lemma ExitWholeWord()
    ensures !IsExit(" exit") && !IsExit("exit ") && !IsExit("quit")
  {
    assert |Lower(" exit")| == 5 && |Lower("exit ")| == 5;
    assert Lower("quit")[0] == 'q';
  }

  /** `user_input.lower().startswith("load documents:")`. */
  predicate IsLoadCommand(userInput: string) {
    StartsWith(Lower(userInput), LoadPrefix)
  }

  /** No input is both commands: the exit word is shorter than the load prefix. */
  lemma CommandsDisjoint(userInput: string)
    ensures !(IsExit(userInput) && IsLoadCommand(userInput))
  {
  }

  /** `user_input[len("load documents:"):]`, which is empty for a shorter input. */
  function AfterPrefix(userInput: string): (r: string)
    ensures |userInput| >= |LoadPrefix| ==> userInput == userInput[..|LoadPrefix|] + r
    ensures |userInput| < |LoadPrefix| ==> r == []
  {
    if |userInput| <= |LoadPrefix| then [] else userInput[|LoadPrefix|..]
  }

  /** Each piece stripped, in order. */
  function StripEach(pieces: seq<string>): (r: seq<string>)
    ensures |r| == |pieces|
    ensures forall k :: 0 <= k < |pieces| ==> r[k] == Strip(pieces[k])
  {
    if pieces == [] then [] else [Strip(pieces[0])] + StripEach(pieces[1..])
  }

  /** The file paths of a load command: the rest of the line stripped, split at commas,
      and each entry stripped; empty entries are kept, so there is one path more than there
      are commas. */
  function ParsePaths(userInput: string): (r: seq<string>)
    ensures |r| == multiset(Strip(AfterPrefix(userInput)))[','] + 1
  {
    SplitCount(Strip(AfterPrefix(userInput)), ',');
    StripEach(Split(Strip(AfterPrefix(userInput)), ','))
  }

  /** Every path is a comma-free piece with no whitespace at either end. */
  lemma PathsAreClean(userInput: string)
    ensures forall k :: 0 <= k < |ParsePaths(userInput)| ==> ',' !in ParsePaths(userInput)[k]
    ensures forall k :: 0 <= k < |ParsePaths(userInput)| && ParsePaths(userInput)[k] != [] ==>
      !IsSpace(ParsePaths(userInput)[k][0]) &&
      !IsSpace(ParsePaths(userInput)[k][|ParsePaths(userInput)[k]| - 1])
  {
    StripEachClean(Split(Strip(AfterPrefix(userInput)), ','));
  }

  /** Stripping comma-free pieces leaves them comma-free, with no space at either end. */
  lemma StripEachClean(pieces: seq<string>)
    requires forall k :: 0 <= k < |pieces| ==> ',' !in pieces[k]
    ensures forall k :: 0 <= k < |StripEach(pieces)| ==> ',' !in StripEach(pieces)[k]
    ensures forall k :: 0 <= k < |StripEach(pieces)| && StripEach(pieces)[k] != [] ==>
      !IsSpace(StripEach(pieces)[k][0]) && !IsSpace(StripEach(pieces)[k][|StripEach(pieces)[k]| - 1])
  {
    var paths := StripEach(pieces);
    forall k | 0 <= k < |paths|
      ensures ',' !in paths[k]
      ensures paths[k] != [] ==> !IsSpace(paths[k][0]) && !IsSpace(paths[k][|paths[k]| - 1])
    {
      StripKeepsOut(pieces[k], ',');
      StripEnds(pieces[k]);
    }
  }

  /** A bare prefix loads one document, whose path is empty. */
  lemma BarePrefixOneEmptyPath()
    ensures ParsePaths("load documents:") == [""]
    ensures ParsePaths("Load Documents:   ") == [""]
  {
    assert AfterPrefix("load documents:") == [];
    assert Split([], ',') == [[]];
    var rest := AfterPrefix("Load Documents:   ");
    assert rest == "   ";
    assert Strip(rest) == [];
  }

  /** Blanks around a path go. */
  lemma PathsTrimmed()
    ensures ParsePaths("load documents: a.pdf ,b") == ["a.pdf", "b"]
  {
    TrimmedLine();
    TrimmedSplit();
    TrimmedPieces();
  }

  lemma TrimmedLine()
    ensures Strip(AfterPrefix("load documents: a.pdf ,b")) == "a.pdf ,b"
  {
    var rest := AfterPrefix("load documents: a.pdf ,b");
    assert rest == " a.pdf ,b";
    var line := "a.pdf ,b";
    assert rest[1..] == line;
    StripNoSpace(line);
  }

  lemma TrimmedSplit()
    ensures Split("a.pdf ,b", ',') == ["a.pdf ", "b"]
  {
    assert "a.pdf ,b" == "a.pdf " + [','] + "b";
    SplitTwo("a.pdf ", "b", ',');
  }

  lemma TrimmedPieces()
    ensures StripEach(["a.pdf ", "b"]) == ["a.pdf", "b"]
  {
    var first := "a.pdf ";
    assert first[..|first| - 1] == "a.pdf";
    StripNoSpace("a.pdf");
    StripNoSpace("b");
  }

  /** An empty entry is kept. */
  lemma EmptyEntryKept()
    ensures ParsePaths("load documents:a,,b") == ["a", "", "b"]
  {
    var rest := AfterPrefix("load documents:a,,b");
    assert rest == "a,,b";
    StripNoSpace(rest);
    assert rest == "a" + [','] + "" + [','] + "b";
    SplitThree("a", "", "b", ',');
    StripNoSpace("a");
    StripNoSpace("b");
    assert StripEach(["a", "", "b"]) == [Strip("a"), Strip(""), Strip("b")];
  }

  // ---------------------------------------------------------------------------------
  // Loading documents and answering queries

  const LoadedHead := "Successfully loaded "
  const LoadedTail := " documents into the knowledge base."

  /** `load_documents`: `load` is the RAG manager's `load_documents`, whose result is not
      looked at. */
  function LoadDocuments(filePaths: seq<string>, load: seq<string> -> Outcome<string>): (r: string)
    ensures load(filePaths).Raised? ==> r == "Error loading documents: " + load(filePaths).error
    ensures load(filePaths).Returned? ==> StartsWith(r, LoadedHead) && EndsWith(r, LoadedTail)
  {
    ConcatEnds(LoadedHead, NatToString(|filePaths|), LoadedTail);
    match load(filePaths)
    case Raised(e) => "Error loading documents: " + e
    case Returned(_) => LoadedHead + NatToString(|filePaths|) + LoadedTail
  }

  /** A successful load reports how many paths it was given, whatever the manager returned;
      a failed one reports the manager's error. */
  lemma LoadReportsCount(filePaths: seq<string>, load: seq<string> -> Outcome<string>)
    ensures load(filePaths).Returned? ==>
      var message := LoadDocuments(filePaths, load);
      StartsWith(message, LoadedHead) && EndsWith(message, LoadedTail) &&
      |LoadedHead| + |LoadedTail| <= |message| &&
      var count := message[|LoadedHead|..|message| - |LoadedTail|];
      (forall k :: 0 <= k < |count| ==> IsDigit(count[k])) && DigitsValue(count) == |filePaths|
    ensures load(filePaths).Raised? ==>
      LoadDocuments(filePaths, load) == "Error loading documents: " + load(filePaths).error
  {
    if load(filePaths).Returned? {
      var n := NatToString(|filePaths|);
      ConcatEnds(LoadedHead, n, LoadedTail);
      var message := LoadedHead + n + LoadedTail;
      assert message[|LoadedHead|..|message| - |LoadedTail|] == n;
      NatToStringValue(|filePaths|);
    }
  }

  /** Two successful loads of the same paths give the same message. */
  lemma LoadIgnoresResult(filePaths: seq<string>, load: seq<string> -> Outcome<string>,
                          other: seq<string> -> Outcome<string>)
    requires load(filePaths).Returned? && other(filePaths).Returned?
    ensures LoadDocuments(filePaths, load) == LoadDocuments(filePaths, other)
  {
  }

  /** The back ends of the chatbot. Each is given the inputs read before the current one,
      which stand for the memory and the knowledge base they have built up. */
  datatype Backends = Backends(
    enhance: (seq<string>, string) -> Outcome<string>,
    agent: (seq<string>, string) -> Outcome<string>,
    load: seq<string> -> Outcome<string>)

  const QueryErrorHead := "I encountered an error while processing your request: "

  /** `process_query`: the query enhanced by the RAG manager, then run by the agent; an
      exception of either becomes the apology. */
  function ProcessQuery(history: seq<string>, query: string, backends: Backends): (r: string)
    ensures backends.enhance(history, query).Raised? ==>
      r == QueryErrorHead + backends.enhance(history, query).error
    ensures backends.enhance(history, query).Returned? ==>
      var enhanced := backends.enhance(history, query).value;
      r == match backends.agent(history, enhanced)
           case Raised(e) => QueryErrorHead + e
           case Returned(response) => response
  {
    match backends.enhance(history, query)
    case Raised(e) => QueryErrorHead + e
    case Returned(enhanced) =>
      match backends.agent(history, enhanced)
      case Raised(e) => QueryErrorHead + e
      case Returned(response) => response
  }

  // ---------------------------------------------------------------------------------
  // The conversation

  const ReplyHead := "\nChatbot: "

  /** What the chatbot prints for a line that is not `exit`, given the lines read before it. */
  function Reply(history: seq<string>, userInput: string, backends: Backends): string {
    if IsLoadCommand(userInput) then ReplyHead + LoadDocuments(ParsePaths(userInput), backends.load)
    else ReplyHead + ProcessQuery(history, userInput, backends)
  }

  /** `Reply` as a function value, for the loop below. */
  function Replier(backends: Backends): (seq<string>, string) -> string {
    (history, userInput) => Reply(history, userInput, backends)
  }

  /** The replies to the lines from `i` on, and whether a stop line ended the loop
      (otherwise the lines ran out, and in the chatbot `input()` raises `EOFError`). */
  datatype Transcript = Transcript(replies: seq<string>, exited: bool)

  /** A read-answer loop over `inputs` from line `i`: a line `stop` accepts ends it, any
      other line gets `answer` of the lines before it and the line itself. */
  function Talk(inputs: seq<string>, i: nat, stop: string -> bool, answer: (seq<string>, string) -> string): Transcript
    requires i <= |inputs|
    decreases |inputs| - i
  {
    if i == |inputs| then Transcript([], false)
    else if stop(inputs[i]) then Transcript([], true)
    else
      var rest := Talk(inputs, i + 1, stop, answer);
      Transcript([answer(inputs[..i], inputs[i])] + rest.replies, rest.exited)
  }

  /** The chatbot's conversation over a sequence of input lines. */
  function TranscriptOf(inputs: seq<string>, backends: Backends): Transcript {
    Talk(inputs, 0, IsExit, Replier(backends))
  }

  /** The body of `main`'s loop for a line that is not `exit`: a load command or a query. */
  method AnswerLine(history: seq<string>, userInput: string, backends: Backends) returns (reply: string)
    ensures reply == Reply(history, userInput, backends)
  {
    if IsLoadCommand(userInput) {
      var filePaths := ParsePaths(userInput);
      var result := LoadDocuments(filePaths, backends.load);
      reply := ReplyHead + result;
    } else {
      var response := ProcessQuery(history, userInput, backends);
      reply := ReplyHead + response;
    }
  }

  /** `main`: read an input, stop at `exit`, answer a load command or a query, repeat. */
  method Converse(inputs: seq<string>, backends: Backends) returns (replies: seq<string>, exited: bool)
    ensures Transcript(replies, exited) == TranscriptOf(inputs, backends)
  {
    ghost var answer := Replier(backends);
    replies := [];
    var i := 0;
    while i < |inputs|
      invariant 0 <= i <= |inputs|
      invariant TranscriptOf(inputs, backends) ==
        Transcript(replies + Talk(inputs, i, IsExit, answer).replies, Talk(inputs, i, IsExit, answer).exited)
    {
      var userInput := inputs[i];
      if IsExit(userInput) {
        assert Talk(inputs, i, IsExit, answer) == Transcript([], true);
        assert replies + [] == replies;
        return replies, true;
      }
      var reply := AnswerLine(inputs[..i], userInput, backends);
      assert reply == answer(inputs[..i], inputs[i]);
      var rest := Talk(inputs, i + 1, IsExit, answer);
      assert Talk(inputs, i, IsExit, answer) == Transcript([reply] + rest.replies, rest.exited);
      assert replies + [reply] + rest.replies == replies + ([reply] + rest.replies);
      replies := replies + [reply];
      i := i + 1;
    }
    assert Talk(inputs, i, IsExit, answer) == Transcript([], false);
    assert replies + [] == replies;
    exited := false;
  }

  /** The loop ends at a stop line exactly when some line from `i` on is one. */
  lemma {:induction false} TalkExitedIffStop(inputs: seq<string>, i: nat, stop: string -> bool,
                                             answer: (seq<string>, string) -> string)
    requires i <= |inputs|
    ensures Talk(inputs, i, stop, answer).exited <==> exists k :: i <= k < |inputs| && stop(inputs[k])
    decreases |inputs| - i
  {
    if i < |inputs| && !stop(inputs[i]) {
      TalkExitedIffStop(inputs, i + 1, stop, answer);
      if exists k :: i <= k < |inputs| && stop(inputs[k]) {
        var k :| i <= k < |inputs| && stop(inputs[k]);
        assert k != i;
      }
    }
  }

  /** Reply `k` answers line `i + k`, which is not a stop line. */
  predicate AnswersLine(inputs: seq<string>, i: nat, replies: seq<string>, k: nat, stop: string -> bool,
                        answer: (seq<string>, string) -> string) {
    k < |replies| && i + k < |inputs| &&
    !stop(inputs[i + k]) && replies[k] == answer(inputs[..i + k], inputs[i + k])
  }

  /** The lines from `i` up to the first stop line get one answer each, in order. */
  lemma {:induction false} TalkAnswersInOrder(inputs: seq<string>, i: nat, stop: string -> bool,
                                              answer: (seq<string>, string) -> string)
    requires i <= |inputs|
    ensures forall k: nat :: k < |Talk(inputs, i, stop, answer).replies| ==>
      AnswersLine(inputs, i, Talk(inputs, i, stop, answer).replies, k, stop, answer)
    decreases |inputs| - i
  {
    var t := Talk(inputs, i, stop, answer);
    if i < |inputs| && !stop(inputs[i]) {
      TalkAnswersInOrder(inputs, i + 1, stop, answer);
      var rest := Talk(inputs, i + 1, stop, answer);
      assert t.replies == [answer(inputs[..i], inputs[i])] + rest.replies;
      forall k: nat | k < |t.replies|
        ensures AnswersLine(inputs, i, t.replies, k, stop, answer)
      {
        if k > 0 {
          var j: nat := k - 1;
          assert AnswersLine(inputs, i + 1, rest.replies, j, stop, answer);
          assert t.replies[k] == rest.replies[j];
          assert i + 1 + j == i + k;
        }
      }
    }
  }

  /** The answers stop at the first stop line; without one every line is answered. */
  lemma {:induction false} TalkStops(inputs: seq<string>, i: nat, stop: string -> bool,
                                     answer: (seq<string>, string) -> string)
    requires i <= |inputs|
    ensures var t := Talk(inputs, i, stop, answer);
      i + |t.replies| <= |inputs| &&
      (t.exited ==> i + |t.replies| < |inputs| && stop(inputs[i + |t.replies|])) &&
      (!t.exited ==> i + |t.replies| == |inputs|)
    decreases |inputs| - i
  {
    if i < |inputs| && !stop(inputs[i]) {
      TalkStops(inputs, i + 1, stop, answer);
    }
  }

  /** The conversation ends by `exit` exactly when some line is `exit`, in any case. */
  lemma ExitedIffExitLine(inputs: seq<string>, backends: Backends)
    ensures TranscriptOf(inputs, backends).exited <==> exists k :: 0 <= k < |inputs| && IsExit(inputs[k])
  {
    TalkExitedIffStop(inputs, 0, IsExit, Replier(backends));
  }

  /** Every line before the first `exit` gets its reply, in order, computed from the lines
      before it. */
  lemma RepliesInOrder(inputs: seq<string>, backends: Backends)
    ensures |TranscriptOf(inputs, backends).replies| <= |inputs|
    ensures forall k :: 0 <= k < |TranscriptOf(inputs, backends).replies| ==>
      !IsExit(inputs[k]) && TranscriptOf(inputs, backends).replies[k] == Reply(inputs[..k], inputs[k], backends)
  {
    var replies := Talk(inputs, 0, IsExit, Replier(backends)).replies;
    TalkStops(inputs, 0, IsExit, Replier(backends));
    TalkAnswersInOrder(inputs, 0, IsExit, Replier(backends));
    forall k | 0 <= k < |replies|
      ensures !IsExit(inputs[k]) && replies[k] == Reply(inputs[..k], inputs[k], backends)
    {
      assert AnswersLine(inputs, 0, replies, k, IsExit, Replier(backends));
      assert 0 + k == k;
    }
  }

  /** The first `exit` is where the replies stop, and nothing after it is read; without
      an `exit` every line gets a reply. */
  lemma RepliesStopAtExit(inputs: seq<string>, backends: Backends)
    ensures var t := TranscriptOf(inputs, backends);
      |t.replies| <= |inputs| &&
      (t.exited ==> |t.replies| < |inputs| && IsExit(inputs[|t.replies|])) &&
      (!t.exited ==> |t.replies| == |inputs|)
  {
    TalkStops(inputs, 0, IsExit, Replier(backends));
  }

  /** A load command never reaches the enhancer or the agent: its reply is the loader's
      message, whatever they would have answered. */
  lemma LoadCommandBypassesAgent(history: seq<string>, userInput: string, backends: Backends, other: Backends)
    requires IsLoadCommand(userInput)
    requires other.load == backends.load
    ensures Reply(history, userInput, backends) == ReplyHead + LoadDocuments(ParsePaths(userInput), backends.load)
    ensures Reply(history, userInput, other) == Reply(history, userInput, backends)
  {
  }
}
