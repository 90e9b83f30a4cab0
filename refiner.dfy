/** The response refiner tool: the guideline tables the prompts are built from, the
    prompts themselves, and the rule that a failed language-model call gives back the
    content unchanged. The language model is a function from a prompt to the outcome
    of the call. */
module ResponseRefiner {
  import opened Wrappers
  import opened Text
  import opened Llm
  import opened PromptTemplate

  // ---------------------------------------------------------------------------------
  // Guideline tables
  // ---------------------------------------------------------------------------------

  /** One entry of a guideline dictionary. */
  datatype Guideline<T> = Guideline(key: string, value: T)

  /** `table.get(key)`: the text of the entry with that key. */
  function Lookup<T>(table: seq<Guideline<T>>, key: string): (r: Option<T>)
    ensures r.None? <==> forall k :: 0 <= k < |table| ==> table[k].key != key
    ensures r.Some? ==> exists k :: 0 <= k < |table| && table[k].key == key && r.value == table[k].value
  {
    if table == [] then None
    else if table[0].key == key then Some(table[0].value)
    else
      var r := Lookup(table[1..], key);
      assert forall k :: 1 <= k < |table| ==> table[1..][k - 1] == table[k];
      r
  }

  /** The keys of a table, in order. */
  function Keys<T>(table: seq<Guideline<T>>): (ks: seq<string>)
    ensures |ks| == |table| && forall k :: 0 <= k < |table| ==> ks[k] == table[k].key
  {
    if table == [] then [] else [table[0].key] + Keys(table[1..])
  }

  /** No two entries share a key, as in a dictionary. */
  predicate UniqueKeys<T>(table: seq<Guideline<T>>) {
    forall j, k :: 0 <= j < k < |table| ==> table[j].key != table[k].key
  }

  /** In a table with unique keys, every entry is found by its own key. */
  lemma {:induction false} LookupFindsEntry<T>(table: seq<Guideline<T>>, k: nat)
    requires UniqueKeys(table) && k < |table|
    ensures Lookup(table, table[k].key) == Some(table[k].value)
  {
    if k > 0 {
      assert table[0].key != table[k].key;
      assert table[1..][k - 1] == table[k];
      LookupFindsEntry(table[1..], k - 1);
    }
  }

  /** A Python triple-quoted text of bullet lines, indented by twelve spaces. */
  function Bulleted(lines: seq<string>): string {
    "\n" + Items(lines) + Indent12
  }

  /** The bullet lines, each `- ` and the line, on a line of its own. */
  function Items(lines: seq<string>): string {
    if lines == [] then [] else Indent12 + "- " + lines[0] + "\n" + Items(lines[1..])
  }

  const Indent12 := "            "

  /** The tones `tone_guidelines` knows. */
  datatype Tone = Professional | Casual | Technical | Simple | Educational | Empathetic

  /** The bullet lines of a tone's guideline. */
  function ToneLines(t: Tone): seq<string> {
    match t
    case Professional => [
      "Use formal language and avoid contractions",
      "Maintain a respectful and objective tone",
      "Use industry-appropriate terminology",
      "Be concise and clear",
      "Avoid casual expressions and slang",
      "Structure information logically with clear transitions"
      ]
    case Casual => [
      "Use conversational language with contractions",
      "Include some personality and warmth",
      "Use accessible vocabulary and examples",
      "Feel free to use casual expressions (but avoid excessive slang)",
      "Be friendly and relatable"
      ]
    case Technical => [
      "Use precise technical terminology",
      "Be detailed and specific",
      "Structure information in a logical sequence",
      "Include relevant technical details",
      "Maintain accuracy and precision",
      "Use industry-standard formatting where appropriate"
      ]
    case Simple => [
      "Use plain language and short sentences",
      "Avoid jargon and complex terms",
      "Explain concepts in straightforward ways",
      "Use concrete examples",
      "Break down complex ideas into simpler parts",
      "Prioritize clarity over comprehensiveness"
      ]
    case Educational => [
      "Explain concepts clearly with definitions",
      "Use examples and analogies",
      "Build from basic to more complex ideas",
      "Include some repetition of key points",
      "Use a supportive and encouraging tone",
      "Ask rhetorical questions to prompt thinking"
      ]
    case Empathetic => [
      "Show understanding of concerns and feelings",
      "Use warm and compassionate language",
      "Acknowledge difficulties or challenges",
      "Offer supportive and reassuring statements",
      "Use inclusive language",
      "Balance emotional support with practical help"
      ]
  }

  /** `tone_guidelines`, keyed by lower-case tone; each entry names its guideline. */
  const ToneGuidelines: seq<Guideline<Tone>> := [
    Guideline("professional", Professional),
    Guideline("casual", Casual),
    Guideline("technical", Technical),
    Guideline("simple", Simple),
    Guideline("educational", Educational),
    Guideline("empathetic", Empathetic)
  ]

  const DefaultToneGuideline := "- Use clear and concise language\n- Be helpful and informative"

  /** `_get_tone_guidelines`: looked up by the lower-cased tone. */
  function ToneGuideline(tone: string): (r: string)
    ensures Lower(tone) !in Keys(ToneGuidelines) ==> r == DefaultToneGuideline
    ensures Lower(tone) in Keys(ToneGuidelines) ==> exists k :: (0 <= k < |ToneGuidelines| &&
      ToneGuidelines[k].key == Lower(tone) && r == Bulleted(ToneLines(ToneGuidelines[k].value)))
  {
    match Lookup(ToneGuidelines, Lower(tone))
    case Some(t) => Bulleted(ToneLines(t))
    case None => DefaultToneGuideline
  }

  /** The formats `format_guidelines` knows. */
  datatype Format = BulletPoints | NumberedList | QA | Table | StepByStep

  /** The bullet lines of a format's guideline. */
  function FormatLines(t: Format): seq<string> {
    match t
    case BulletPoints => [
      "Convert the content into a series of concise bullet points",
      "Start each point with a dash or bullet symbol",
      "Group related points under clear headings if appropriate",
      "Keep each point focused on a single idea",
      "Use parallel structure for all points"
      ]
    case NumberedList => [
      "Convert the content into a numbered sequence of points",
      "Use a logical ordering (chronological, priority, etc.)",
      "Start each point with a number",
      "Keep each point focused and concise",
      "Use parallel structure for all points"
      ]
    case QA => [
      "Reformat the content as a series of questions and answers",
      "Create clear, direct questions that address key points",
      "Provide comprehensive answers to each question",
      "Ensure questions flow logically from one to the next",
      "Cover all important information from the original content"
      ]
    case Table => [
      "Identify information that can be organized into rows and columns",
      "Create a clear table structure with headers",
      "Organize information logically within the table",
      "Use concise language for table entries",
      "Include a brief introduction before the table if needed"
      ]
    case StepByStep => [
      "Break the content into sequential steps",
      "Number each step clearly",
      "Begin with an introduction explaining the goal",
      "Keep each step focused on a specific action",
      "Add brief explanations where needed",
      "End with a conclusion or expected outcome"
      ]
  }

  /** `format_guidelines`, keyed by lower-case format name; each entry names its guideline. */
  const FormatGuidelines: seq<Guideline<Format>> := [
    Guideline("bullet points", BulletPoints),
    Guideline("numbered list", NumberedList),
    Guideline("q&a", QA),
    Guideline("table", Table),
    Guideline("step-by-step", StepByStep)
  ]

  const DefaultFormatGuideline := "- Organize information clearly and logically\n- Use appropriate formatting elements"

  /** `_get_format_guidelines`: looked up by the lower-cased format name. */
  function FormatGuideline(formatType: string): (r: string)
    ensures Lower(formatType) !in Keys(FormatGuidelines) ==> r == DefaultFormatGuideline
    ensures Lower(formatType) in Keys(FormatGuidelines) ==> exists k :: (0 <= k < |FormatGuidelines| &&
      FormatGuidelines[k].key == Lower(formatType) && r == Bulleted(FormatLines(FormatGuidelines[k].value)))
  {
    match Lookup(FormatGuidelines, Lower(formatType))
    case Some(f) => Bulleted(FormatLines(f))
    case None => DefaultFormatGuideline
  }

  const BriefLength :=
    "2-3 sentences, capturing only the most essential points"
  const MediumLength :=
    "a paragraph or two, including key details and main points"
  const DetailedLength :=
    "a comprehensive summary that preserves most details while condensing redundant content"

  /** `length_guidelines` of `_summarize_content`. */
  const LengthGuidelines: seq<Guideline<string>> := [
    Guideline("brief", BriefLength),
    Guideline("medium", MediumLength),
    Guideline("detailed", DetailedLength)
  ]

  /** The length guideline, looked up by the length exactly as given, `medium`'s otherwise. */
  function LengthGuideline(length: string): (r: string)
    ensures length !in Keys(LengthGuidelines) ==> r == MediumLength
    ensures length in Keys(LengthGuidelines) ==> exists k :: (0 <= k < |LengthGuidelines| &&
      LengthGuidelines[k].key == length && r == LengthGuidelines[k].value)
  {
    Lookup(LengthGuidelines, length).GetOr(MediumLength)
  }

  /** The tone lookup ignores case: a tone and its lower-case form get the same guideline. */
  lemma ToneIgnoresCase(tone: string)
    ensures ToneGuideline(tone) == ToneGuideline(Lower(tone))
  {
    LowerIdempotent(tone);
  }

  /** The six tones, in dictionary order and without repeats. */
  lemma ToneKeys()
    ensures Keys(ToneGuidelines) == ["professional", "casual", "technical", "simple", "educational", "empathetic"]
  {
  }

  /** No two tones share a name. */
  lemma ToneKeysUnique()
    ensures UniqueKeys(ToneGuidelines)
  {
  }

  /** Each tone is reachable by its own name in any case; every other tone gets the
      default. */
  lemma ToneTable(tone: string)
    ensures forall k :: 0 <= k < |ToneGuidelines| && Lower(tone) == ToneGuidelines[k].key ==>
      ToneGuideline(tone) == Bulleted(ToneLines(ToneGuidelines[k].value))
    ensures Lower(tone) !in Keys(ToneGuidelines) ==> ToneGuideline(tone) == DefaultToneGuideline
  {
    forall k | 0 <= k < |ToneGuidelines| && Lower(tone) == ToneGuidelines[k].key
      ensures ToneGuideline(tone) == Bulleted(ToneLines(ToneGuidelines[k].value))
    {
      ToneKeysUnique();
      LookupFindsEntry(ToneGuidelines, k);
    }
  }

  /** The five formats, in dictionary order and without repeats. */
  lemma FormatKeys()
    ensures Keys(FormatGuidelines) == ["bullet points", "numbered list", "q&a", "table", "step-by-step"]
  {
  }

  /** No two formats share a name. */
  lemma FormatKeysUnique()
    ensures UniqueKeys(FormatGuidelines)
  {
  }

  /** Each format is reachable by its own name in any case; every other name gets the
      default. */
  lemma FormatTable(formatType: string)
    ensures forall k :: 0 <= k < |FormatGuidelines| && Lower(formatType) == FormatGuidelines[k].key ==>
      FormatGuideline(formatType) == Bulleted(FormatLines(FormatGuidelines[k].value))
    ensures Lower(formatType) !in Keys(FormatGuidelines) ==> FormatGuideline(formatType) == DefaultFormatGuideline
  {
    forall k | 0 <= k < |FormatGuidelines| && Lower(formatType) == FormatGuidelines[k].key
      ensures FormatGuideline(formatType) == Bulleted(FormatLines(FormatGuidelines[k].value))
    {
      FormatKeysUnique();
      LookupFindsEntry(FormatGuidelines, k);
    }
  }

  /** An unknown length gets `medium`'s guideline; since the length is not lower-cased, so
      does `Brief`. */
  lemma LengthTable(length: string)
    ensures Keys(LengthGuidelines) == ["brief", "medium", "detailed"]
    ensures length !in Keys(LengthGuidelines) ==> LengthGuideline(length) == MediumLength
    ensures forall k :: 0 <= k < |LengthGuidelines| && length == LengthGuidelines[k].key ==>
      LengthGuideline(length) == LengthGuidelines[k].value
    ensures LengthGuideline("Brief") == MediumLength
  {
    forall k | 0 <= k < |LengthGuidelines| && length == LengthGuidelines[k].key
      ensures LengthGuideline(length) == LengthGuidelines[k].value
    {
      LookupFindsEntry(LengthGuidelines, k);
    }
  }

  // ---------------------------------------------------------------------------------
  // Prompts and the language-model call
  // ---------------------------------------------------------------------------------

  /** The system message of `_adjust_tone` before its guideline. */
  function ToneHead(tone: string): string {
    ToneIntro + tone + ToneGuidelinesFor + tone + " tone:" + Nl16
  }

  const ToneIntro := Nl16 + "You are a communication specialist who adjusts the tone and style of text."
    + Nl16 + "Your task is to rewrite the given content to match a "
  const ToneGuidelinesFor := " tone." + Nl16 + Nl16 + "Guidelines for "

  /** The system message of `_adjust_tone` after its guideline. */
  const ToneTail := Nl16 + Nl16 + "Keep the same information and meaning, but adjust the style and language."
    + Nl16 + "Do not add new information or remove important details." + Nl16

  /** The prompt of `_adjust_tone`. */
  function TonePrompt(content: string, tone: string): Prompt {
    Prompt(ToneHead(tone) + ToneGuideline(tone) + ToneTail, ToneHuman + content)
  }

  /** The system message of `_summarize_content` before its guideline. */
  function SummaryHead(length: string): string {
    SummaryIntro + length + SummaryForA + length + " summary, aim for "
  }

  const SummaryIntro := Nl16 + "You are a skilled content summarizer. Your task is to create a "
  const SummaryForA := " summary of the given content." + Nl16 + Nl16 + "For a "

  /** The system message of `_summarize_content` after its guideline. */
  const SummaryTail := "." + Nl16 + Nl16 + "Retain the most important information, key points, and essential context."
    + Nl16 + "Use clear and concise language." + Nl16 + "Preserve the original meaning and intent." + Nl16

  /** The prompt of `_summarize_content`. */
  function SummaryPrompt(content: string, length: string): Prompt {
    Prompt(SummaryHead(length) + LengthGuideline(length) + SummaryTail, SummaryHuman + content)
  }

  /** The system message of `_format_content` before its guideline. */
  function FormatHead(formatType: string): string {
    FormatIntro + formatType + FormatGuidelinesFor
  }

  const FormatIntro := Nl16 + "You are a content formatting specialist. Your task is to reformat the given content "
    + Nl16 + "into a "
  const FormatGuidelinesFor := " format while preserving all important information." + Nl16 + Nl16
    + "Guidelines for formatting:" + Nl16

  /** The system message of `_format_content` after its guideline. */
  const FormatTail := Nl16 + Nl16 + "Keep all important information intact while reformatting." + Nl16

  /** The prompt of `_format_content`. */
  function FormatPrompt(content: string, formatType: string): Prompt {
    Prompt(FormatHead(formatType) + FormatGuideline(formatType) + FormatTail, FormatHuman + content)
  }

  /** The tone prompt carries the tone's guideline and ends with the content. */
  lemma TonePromptCarriesGuideline(content: string, tone: string)
    ensures Contains(TonePrompt(content, tone).system, ToneGuideline(tone))
    ensures EndsWith(TonePrompt(content, tone).human, content)
  {
    ContainsMiddle(ToneHead(tone), ToneGuideline(tone), ToneTail);
  }

  /** The summary prompt carries the length's guideline and ends with the content. */
  lemma SummaryPromptCarriesGuideline(content: string, length: string)
    ensures Contains(SummaryPrompt(content, length).system, LengthGuideline(length))
    ensures EndsWith(SummaryPrompt(content, length).human, content)
  {
    ContainsMiddle(SummaryHead(length), LengthGuideline(length), SummaryTail);
  }

  /** The format prompt carries the format's guideline and ends with the content. */
  lemma FormatPromptCarriesGuideline(content: string, formatType: string)
    ensures Contains(FormatPrompt(content, formatType).system, FormatGuideline(formatType))
    ensures EndsWith(FormatPrompt(content, formatType).human, content)
  {
    ContainsMiddle(FormatHead(formatType), FormatGuideline(formatType), FormatTail);
  }

  /** One call of the language model through the prompt template: its reply stripped, or
      the content when formatting the prompt or the call raises. */
  function Refine(llm: Prompt -> Outcome<string>, prompt: Prompt, content: string): (r: string)
    ensures Invoke(llm, prompt).Raised? ==> r == content
    ensures Invoke(llm, prompt).Returned? ==> r == Strip(Invoke(llm, prompt).value)
    ensures Invoke(llm, prompt).Returned? && r != [] ==> !IsSpace(r[0]) && !IsSpace(r[|r| - 1])
  {
    match Invoke(llm, prompt)
    case Raised(_) => content
    case Returned(reply) => StripEnds(reply); Strip(reply)
  }

  const ToneHuman := "Content to adjust:\n\n"
  const SummaryHuman := "Content to summarize:\n\n"
  const FormatHuman := "Content to format:\n\n"

  /** `_adjust_tone`. */
  function AdjustTone(content: string, tone: string, llm: Prompt -> Outcome<string>): (r: string)
    ensures Invoke(llm, TonePrompt(content, tone)).Raised? ==> r == content
    ensures Invoke(llm, TonePrompt(content, tone)).Returned? ==>
      r == Strip(Invoke(llm, TonePrompt(content, tone)).value)
  {
    Refine(llm, TonePrompt(content, tone), content)
  }

  /** `_summarize_content`. */
  function SummarizeContent(content: string, length: string, llm: Prompt -> Outcome<string>): (r: string)
    ensures Invoke(llm, SummaryPrompt(content, length)).Raised? ==> r == content
    ensures Invoke(llm, SummaryPrompt(content, length)).Returned? ==>
      r == Strip(Invoke(llm, SummaryPrompt(content, length)).value)
  {
    Refine(llm, SummaryPrompt(content, length), content)
  }

  /** `_format_content`. */
  function FormatContent(content: string, formatType: string, llm: Prompt -> Outcome<string>): (r: string)
    ensures Invoke(llm, FormatPrompt(content, formatType)).Raised? ==> r == content
    ensures Invoke(llm, FormatPrompt(content, formatType)).Returned? ==>
      r == Strip(Invoke(llm, FormatPrompt(content, formatType)).value)
  {
    Refine(llm, FormatPrompt(content, formatType), content)
  }

  /** A model that raises on the rendered tone prompt leaves the content as it is. */
  lemma AdjustToneFallsBack(content: string, tone: string, llm: Prompt -> Outcome<string>)
    requires RenderPrompt(TonePrompt(content, tone)).Returned?
    requires llm(RenderPrompt(TonePrompt(content, tone)).value).Raised?
    ensures AdjustTone(content, tone, llm) == content
  {
  }

  /** A model that raises on the rendered summary prompt leaves the content as it is. */
  lemma SummarizeFallsBack(content: string, length: string, llm: Prompt -> Outcome<string>)
    requires RenderPrompt(SummaryPrompt(content, length)).Returned?
    requires llm(RenderPrompt(SummaryPrompt(content, length)).value).Raised?
    ensures SummarizeContent(content, length, llm) == content
  {
  }

  /** A model that raises on the rendered format prompt leaves the content as it is. */
  lemma FormatFallsBack(content: string, formatType: string, llm: Prompt -> Outcome<string>)
    requires RenderPrompt(FormatPrompt(content, formatType)).Returned?
    requires llm(RenderPrompt(FormatPrompt(content, formatType)).value).Raised?
    ensures FormatContent(content, formatType, llm) == content
  {
  }

  /** The fixed heads of the human messages hold no brace. */
  lemma HumanHeadsPlain()
    ensures NoBraces(ToneHuman) && NoBraces(SummaryHuman) && NoBraces(FormatHuman)
  {
  }

  /** Content that is not a valid template (a brace that is not doubled, as in JSON or
      code) never reaches the model: each operation gives it back unchanged, whatever the
      model would have said. */
  lemma BracedToneFallsBack(content: string, tone: string, llm: Prompt -> Outcome<string>)
    requires Render(content).Raised?
    ensures Invoke(llm, TonePrompt(content, tone)).Raised? && AdjustTone(content, tone, llm) == content
  {
    HumanHeadsPlain();
    HumanPartRaises(llm, TonePrompt(content, tone), ToneHuman, content);
  }

  lemma BracedSummaryFallsBack(content: string, length: string, llm: Prompt -> Outcome<string>)
    requires Render(content).Raised?
    ensures Invoke(llm, SummaryPrompt(content, length)).Raised? && SummarizeContent(content, length, llm) == content
  {
    HumanHeadsPlain();
    HumanPartRaises(llm, SummaryPrompt(content, length), SummaryHuman, content);
  }

  lemma BracedFormatFallsBack(content: string, formatType: string, llm: Prompt -> Outcome<string>)
    requires Render(content).Raised?
    ensures Invoke(llm, FormatPrompt(content, formatType)).Raised? && FormatContent(content, formatType, llm) == content
  {
    HumanHeadsPlain();
    HumanPartRaises(llm, FormatPrompt(content, formatType), FormatHuman, content);
  }
}
