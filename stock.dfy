/** The stock information tool: ticker extraction from a query, the historical-data and
    period decisions, and the assembly of the answer from per-ticker reports. The market
    data itself comes from functions passed in. */
module StockInfo {
  import opened Text

  // ---------------------------------------------------------------------------------
  // Ticker symbols: `re.findall(r'\b[A-Z]{1,5}\b', text)` without the common words
  // ---------------------------------------------------------------------------------

  /** A candidate ticker: one to five letters `A`-`Z`. */
  predicate IsTickerWord(t: string) {
    1 <= |t| <= 5 && forall k :: 0 <= k < |t| ==> IsUpper(t[k])
  }

  /** Length of the run of letters `A`-`Z` starting at `i`. */
  function UpperRun(s: string, i: nat): (n: nat)
    requires i <= |s|
    ensures i + n <= |s|
    ensures forall k :: i <= k < i + n ==> IsUpper(s[k])
    ensures i + n < |s| ==> !IsUpper(s[i + n])
    decreases |s| - i
  {
    if i == |s| || !IsUpper(s[i]) then 0 else 1 + UpperRun(s, i + 1)
  }

  /** `\b` before position `i`, when `s[i]` is a word character. */
  predicate BoundaryBefore(s: string, i: nat)
    requires i <= |s|
  {
    i == 0 || !IsWordChar(s[i - 1])
  }

  /** `\b` at position `j`, when `s[j - 1]` is a word character. */
  predicate BoundaryAfter(s: string, j: nat)
    requires j <= |s|
  {
    j == |s| || !IsWordChar(s[j])
  }

  /** The pattern matches `s[i..i + n]`: a whole word of one to five capitals. */
  predicate TickerAt(s: string, i: nat, n: nat) {
    1 <= n <= 5 && i + n <= |s| &&
    (forall k :: i <= k < i + n ==> IsUpper(s[k])) &&
    BoundaryBefore(s, i) && BoundaryAfter(s, i + n)
  }

  /** A match has exactly one length: the capitals run out where the match ends. */
  lemma TickerLengthUnique(s: string, i: nat, n: nat)
    requires TickerAt(s, i, n)
    ensures n == UpperRun(s, i)
  {
  }

  /** The regular-expression scan as `findall` performs it: try the pattern at `i`;
      after a match resume at its end, otherwise at the next position. A greedy
      `[A-Z]{1,5}` can only end in a boundary where the run of capitals ends, so the
      attempt at `i` succeeds exactly when that run has one to five letters. */
  function FindAll(s: string, i: nat): (r: seq<string>)
    requires i <= |s|
    ensures forall k :: 0 <= k < |r| ==> IsTickerWord(r[k])
    decreases |s| - i
  {
    if i == |s| then []
    else
      var n := UpperRun(s, i);
      if TickerAt(s, i, n) then
        assert IsTickerWord(s[i..i + n]);
        [s[i..i + n]] + FindAll(s, i + n)
      else FindAll(s, i + 1)
  }

  /** Reference list: the word at every position `p >= i` where the pattern matches,
      in text order. */
  function OccurrencesFrom(s: string, i: nat): seq<string>
    requires i <= |s|
    decreases |s| - i
  {
    if i == |s| then []
    else
      var n := UpperRun(s, i);
      (if TickerAt(s, i, n) then [s[i..i + n]] else []) + OccurrencesFrom(s, i + 1)
  }

  /** Positions in `[a, b)` where the pattern does not match add nothing. */
  lemma {:induction false} NoOccurrence(s: string, a: nat, b: nat)
    requires a <= b <= |s|
    requires forall p :: a <= p < b ==> !TickerAt(s, p, UpperRun(s, p))
    ensures OccurrencesFrom(s, a) == OccurrencesFrom(s, b)
    decreases b - a
  {
    if a < b {
      NoOccurrence(s, a + 1, b);
    }
  }

  /** No match starts inside another: each position after a match's first letter follows
      a word character. */
  lemma NoMatchInsideMatch(s: string, i: nat, n: nat)
    requires TickerAt(s, i, n)
    ensures forall p :: i + 1 <= p < i + n ==> !TickerAt(s, p, UpperRun(s, p))
  {
    forall p | i + 1 <= p < i + n ensures !TickerAt(s, p, UpperRun(s, p)) {
      assert IsWordChar(s[p - 1]);
    }
  }

  /** Resuming after a match skips no occurrence: `findall` lists the word at every
      position where the pattern matches, in order, duplicates included. */
  lemma {:induction false} FindAllListsEveryOccurrence(s: string, i: nat)
    requires i <= |s|
    ensures FindAll(s, i) == OccurrencesFrom(s, i)
    decreases |s| - i
  {
    if i < |s| {
      var n := UpperRun(s, i);
      if TickerAt(s, i, n) {
        NoMatchInsideMatch(s, i, n);
        NoOccurrence(s, i + 1, i + n);
        FindAllListsEveryOccurrence(s, i + n);
        assert FindAll(s, i) == [s[i..i + n]] + FindAll(s, i + n);
        assert OccurrencesFrom(s, i) == [s[i..i + n]] + OccurrencesFrom(s, i + 1);
      } else {
        FindAllListsEveryOccurrence(s, i + 1);
        assert FindAll(s, i) == FindAll(s, i + 1);
        assert OccurrencesFrom(s, i) == [] + OccurrencesFrom(s, i + 1);
      }
    }
  }

  /** Every listed word sits at a position where the pattern matches. */
  lemma {:induction false} OccurrenceSound(s: string, i: nat, k: nat) returns (p: nat)
    requires i <= |s| && k < |OccurrencesFrom(s, i)|
    ensures i <= p && TickerAt(s, p, |OccurrencesFrom(s, i)[k]|)
    ensures OccurrencesFrom(s, i)[k] == s[p..p + |OccurrencesFrom(s, i)[k]|]
    decreases |s| - i
  {
    var n := UpperRun(s, i);
    var head := if TickerAt(s, i, n) then [s[i..i + n]] else [];
    assert OccurrencesFrom(s, i) == head + OccurrencesFrom(s, i + 1);
    if k < |head| {
      p := i;
    } else {
      p := OccurrenceSound(s, i + 1, k - |head|);
    }
  }

  /** Every position where the pattern matches contributes its word. */
  lemma {:induction false} OccurrenceComplete(s: string, i: nat, p: nat, n: nat)
    requires i <= p && TickerAt(s, p, n)
    ensures s[p..p + n] in OccurrencesFrom(s, i)
    decreases p - i
  {
    var m := UpperRun(s, i);
    var head := if TickerAt(s, i, m) then [s[i..i + m]] else [];
    assert OccurrencesFrom(s, i) == head + OccurrencesFrom(s, i + 1);
    if i < p {
      OccurrenceComplete(s, i + 1, p, n);
      InTail(s[p..p + n], head, OccurrencesFrom(s, i + 1));
    } else {
      TickerLengthUnique(s, p, n);
      assert head == [s[p..p + n]];
    }
  }

  /** An element of a list's tail is an element of the list. */
  lemma InTail<T>(x: T, head: seq<T>, tail: seq<T>)
    requires x in tail
    ensures x in head + tail
  {
  }

  /** The words the tool discards (April29th/stock_info_tool.py:43). */
  const CommonWords: set<string> := {"I", "A", "THE", "FOR", "TO", "IN", "AND", "OR", "OF", "AT", "BY"}

  /** The list comprehension dropping the common words: the same list, in the same order,
      without them. */
  function DropCommon(ts: seq<string>): (r: seq<string>)
    ensures |r| <= |ts|
    ensures forall k :: 0 <= k < |r| ==> r[k] !in CommonWords && r[k] in ts
    ensures forall w :: w !in CommonWords ==> multiset(r)[w] == multiset(ts)[w]
  {
    if ts == [] then []
    else
      var rest := DropCommon(ts[1..]);
      assert ts == [ts[0]] + ts[1..];
      if ts[0] in CommonWords then rest else [ts[0]] + rest
  }

  /** One word is kept exactly when it is not a common word. */
  lemma DropCommonSingle(w: string)
    ensures DropCommon([w]) == if w in CommonWords then [] else [w]
  {
    assert [w][1..] == [];
  }

  /** The filter looks at the first word on its own. */
  lemma DropCommonCons(w: string, ts: seq<string>)
    ensures DropCommon([w] + ts) == (if w in CommonWords then [] else [w]) + DropCommon(ts)
  {
    assert ([w] + ts)[0] == w && ([w] + ts)[1..] == ts;
  }

  /** The filter works word by word, so it keeps the order: filtering a concatenation
      concatenates the filtered parts. */
  lemma {:induction false} DropCommonAppend(a: seq<string>, b: seq<string>)
    ensures DropCommon(a + b) == DropCommon(a) + DropCommon(b)
    decreases |a|
  {
    if a == [] {
      assert a + b == b;
    } else {
      var w, rest := a[0], a[1..];
      assert a == [w] + rest;
      assert a + b == [w] + (rest + b);
      DropCommonAppend(rest, b);
      DropCommonCons(w, rest);
      DropCommonCons(w, rest + b);
      AppendAssoc(if w in CommonWords then [] else [w], DropCommon(rest), DropCommon(b));
    }
  }

  /** Concatenation of word lists regroups freely. */
  lemma AppendAssoc(a: seq<string>, b: seq<string>, c: seq<string>)
    ensures a + (b + c) == (a + b) + c
  {
  }

  /** `_extract_ticker_symbols`. */
  function ExtractTickers(query: string): (r: seq<string>)
    ensures forall k :: 0 <= k < |r| ==> IsTickerWord(r[k]) && r[k] !in CommonWords
  {
    DropCommon(FindAll(query, 0))
  }

  /** Each extracted ticker is a whole word of one to five capitals of the query (in its
      original case) and not a common word. */
  lemma ExtractedTickerIsWord(query: string, k: nat) returns (p: nat)
    requires k < |ExtractTickers(query)|
    ensures var t := ExtractTickers(query)[k];
      t !in CommonWords && IsTickerWord(t) && TickerAt(query, p, |t|) && t == query[p..p + |t|]
  {
    var all := FindAll(query, 0);
    var t := DropCommon(all)[k];
    assert t in all && t !in CommonWords;
    var j :| 0 <= j < |all| && all[j] == t;
    p := FoundWordSound(query, j);
  }

  /** The `j`-th word the scan finds is a whole word of the text at some position. */
  lemma FoundWordSound(s: string, j: nat) returns (p: nat)
    requires j < |FindAll(s, 0)|
    ensures IsTickerWord(FindAll(s, 0)[j])
    ensures TickerAt(s, p, |FindAll(s, 0)[j]|) && FindAll(s, 0)[j] == s[p..p + |FindAll(s, 0)[j]|]
  {
    FindAllListsEveryOccurrence(s, 0);
    p := OccurrenceSound(s, 0, j);
  }

  /** Conversely a whole word of one to five capitals that is not a common word is
      extracted, as often as it occurs. */
  lemma ExtractedTickersComplete(query: string, p: nat, n: nat)
    requires TickerAt(query, p, n) && query[p..p + n] !in CommonWords
    ensures query[p..p + n] in ExtractTickers(query)
  {
    FindAllListsEveryOccurrence(query, 0);
    OccurrenceComplete(query, 0, p, n);
    var w := query[p..p + n];
    assert multiset(FindAll(query, 0))[w] > 0;
    assert multiset(ExtractTickers(query))[w] > 0;
  }

  const ExampleQuery := "I own AAPL"

  lemma ExampleScanLast()
    ensures FindAll(ExampleQuery, 6) == ["AAPL"]
  {
    var s := ExampleQuery;
    assert |s| == 10 && s[6] == 'A' && s[7] == 'A' && s[8] == 'P' && s[9] == 'L';
    assert UpperRun(s, 10) == 0;
    assert UpperRun(s, 9) == 1;
    assert UpperRun(s, 8) == 2;
    assert UpperRun(s, 7) == 3;
    assert UpperRun(s, 6) == 4;
    assert TickerAt(s, 6, 4) && s[6..10] == "AAPL";
    assert FindAll(s, 10) == [];
  }

  lemma ExampleScanMiddle()
    ensures FindAll(ExampleQuery, 1) == FindAll(ExampleQuery, 6)
  {
    var s := ExampleQuery;
    assert |s| == 10 && s[1] == ' ' && s[2] == 'o' && s[3] == 'w' && s[4] == 'n' && s[5] == ' ';
    assert FindAll(s, 5) == FindAll(s, 6);
    assert FindAll(s, 4) == FindAll(s, 5);
    assert FindAll(s, 3) == FindAll(s, 4);
    assert FindAll(s, 2) == FindAll(s, 3);
    assert FindAll(s, 1) == FindAll(s, 2);
  }

  lemma ExampleScan()
    ensures FindAll(ExampleQuery, 0) == ["I", "AAPL"]
  {
    var s := ExampleQuery;
    ExampleScanLast();
    ExampleScanMiddle();
    assert |s| == 10 && s[0] == 'I' && s[1] == ' ';
    assert UpperRun(s, 1) == 0;
    assert UpperRun(s, 0) == 1;
    assert TickerAt(s, 0, 1);
    assert FindAll(s, 0) == [s[0..1]] + FindAll(s, 1);
    assert s[0..1] == "I";
  }

  lemma ExampleFilter()
    ensures DropCommon(["I", "AAPL"]) == ["AAPL"]
  {
    assert ["I", "AAPL"][1..] == ["AAPL"];
    assert ["AAPL"][1..] == [];
    assert "AAPL" !in CommonWords;
  }

  /** In "I own AAPL" the single letter `I` is a common word, `own` is lower case, and
      `AAPL` is the one ticker. */
  lemma ExampleTickers()
    ensures ExtractTickers(ExampleQuery) == ["AAPL"]
  {
    ExampleScan();
    ExampleFilter();
  }

  // ---------------------------------------------------------------------------------
  // Historical data and period
  // ---------------------------------------------------------------------------------

  const HistoricalKeywords: seq<string> :=
    ["historical", "history", "trend", "performance", "past", "previous", "changed"]

  /** `need_historical`: some keyword is a substring of the lower-cased query. */
  predicate NeedHistorical(query: string)
    ensures NeedHistorical(query) <==>
      exists k :: 0 <= k < |HistoricalKeywords| && Contains(Lower(query), HistoricalKeywords[k])
  {
    ContainsAnySpec(Lower(query), HistoricalKeywords);
    ContainsAny(Lower(query), HistoricalKeywords)
  }

  /** One rule of the period choice: any of `keys` selects `period`. */
  datatype PeriodRule = PeriodRule(keys: seq<string>, period: string)

  /** The if/elif chain of `_run` as a table, tried from the top. */
  const PeriodRules: seq<PeriodRule> := [
    PeriodRule(["year", "12 month"], "1y"),
    PeriodRule(["6 month"], "6mo"),
    PeriodRule(["3 month", "quarter"], "3mo"),
    PeriodRule(["week"], "5d"),
    PeriodRule(["day"], "1d")
  ]

  const DefaultPeriod := "1mo"

  /** Some key of `rule` occurs in `q`. */
  predicate Matches(rule: PeriodRule, q: string) {
    ContainsAny(q, rule.keys)
  }

  /** The period of the first rule with a key in `q`, or `default` when none has. */
  function FirstRule(rules: seq<PeriodRule>, q: string, default: string): (r: string)
    ensures (forall k :: 0 <= k < |rules| ==> !Matches(rules[k], q)) ==> r == default
    ensures forall k :: (0 <= k < |rules| && Matches(rules[k], q) &&
                         (forall j :: 0 <= j < k ==> !Matches(rules[j], q))) ==> r == rules[k].period
  {
    if rules == [] then default
    else if Matches(rules[0], q) then rules[0].period
    else
      var rest := FirstRule(rules[1..], q, default);
      assert forall k :: 1 <= k < |rules| ==> rules[k] == rules[1..][k - 1];
      rest
  }

  /** The periods `yfinance` accepts that the tool can ask for. */
  predicate KnownPeriod(p: string) {
    p in {"1d", "5d", "1mo", "3mo", "6mo", "1y"}
  }

  /** The table read as an if/elif chain. */
  lemma PeriodRulesChain(q: string)
    ensures FirstRule(PeriodRules, q, DefaultPeriod) ==
      if Contains(q, "year") || Contains(q, "12 month") then "1y"
      else if Contains(q, "6 month") then "6mo"
      else if Contains(q, "3 month") || Contains(q, "quarter") then "3mo"
      else if Contains(q, "week") then "5d"
      else if Contains(q, "day") then "1d"
      else DefaultPeriod
  {
    var r0, r1, r2, r3, r4 := PeriodRules[0], PeriodRules[1], PeriodRules[2], PeriodRules[3], PeriodRules[4];
    assert PeriodRules[1..] == [r1, r2, r3, r4];
    assert [r1, r2, r3, r4][1..] == [r2, r3, r4];
    assert [r2, r3, r4][1..] == [r3, r4];
    assert [r3, r4][1..] == [r4];
    assert [r4][1..] == [];
    ContainsAnyTwo(q, "year", "12 month");
    ContainsAnyOne(q, "6 month");
    ContainsAnyTwo(q, "3 month", "quarter");
    ContainsAnyOne(q, "week");
    ContainsAnyOne(q, "day");
  }

  /** The if/elif chain that sets `period` (April29th/stock_info_tool.py:161-171). */
  method SelectPeriod(query: string) returns (period: string)
    ensures period == FirstRule(PeriodRules, Lower(query), DefaultPeriod)
    ensures KnownPeriod(period)
  {
    var q := Lower(query);
    PeriodRulesChain(q);
    period := DefaultPeriod;
    if Contains(q, "year") || Contains(q, "12 month") {
      period := "1y";
    } else if Contains(q, "6 month") {
      period := "6mo";
    } else if Contains(q, "3 month") || Contains(q, "quarter") {
      period := "3mo";
    } else if Contains(q, "week") {
      period := "5d";
    } else if Contains(q, "day") {
      period := "1d";
    }
  }

  /** A query that mentions a year asks for one year whatever else it says; one that
      mentions a week but no year, month or quarter gets five days even if it says "day". */
  lemma PeriodPriority(query: string)
    ensures Contains(Lower(query), "year") ==> FirstRule(PeriodRules, Lower(query), DefaultPeriod) == "1y"
    ensures Contains(Lower(query), "week") && Contains(Lower(query), "day") &&
            (forall k :: 0 <= k < 3 ==> !Matches(PeriodRules[k], Lower(query))) ==>
      FirstRule(PeriodRules, Lower(query), DefaultPeriod) == "5d"
  {
    var q := Lower(query);
    assert PeriodRules[0].keys[0] == "year";
    assert PeriodRules[3].keys[0] == "week";
  }

  // ---------------------------------------------------------------------------------
  // The answer
  // ---------------------------------------------------------------------------------

  /** What a data lookup gave `_run`: its `error` entry, or the block `_run` renders from
      the looked-up dictionary, already rendered (the info card or the history block). */
  datatype Fetched = Failed(error: string) | Found(block: string)

  const NoTickerMessage :=
    "No stock ticker symbols identified in your query. Please specify a valid stock symbol (e.g., AAPL for Apple)."

  const Separator := "\n\n---\n\n"

  /** The disclaimer, with the mis-decoded warning sign the source file carries. */
  const Disclaimer :=
    "\n\n\U{201A}\U{F6}\U{2020}\U{D4}\U{220F}\U{E8} Disclaimer: Stock information is for informational purposes only and may be delayed. Do not make investment decisions based solely on this data."

  /** The result for one ticker: the failure line, or the information block followed by
      the historical block (or its error line) when asked for, stripped. */
  function TickerReport(ticker: string, info: Fetched, history: Fetched, needHistorical: bool): (r: string)
    ensures info.Failed? ==> r == "Could not retrieve information for " + ticker + ": " + info.error
    ensures info.Found? && r != [] ==> !IsSpace(r[0]) && !IsSpace(r[|r| - 1])
    ensures info.Found? && !needHistorical ==> r == Strip(info.block)
  {
    match info
    case Failed(e) => "Could not retrieve information for " + ticker + ": " + e
    case Found(card) =>
      var extra :=
        if !needHistorical then ""
        else match history
          case Failed(e) => "\nHistorical Data: " + e
          case Found(h) => h;
      StripEnds(card + extra);
      assert !needHistorical ==> card + extra == card;
      Strip(card + extra)
  }

  /** The historical lookup matters only when it was asked for, and only for a ticker
      whose information was found; with it, the report carries the historical block or
      its error line after the information block. */
  lemma ReportUsesHistoryOnlyWhenAsked(ticker: string, info: Fetched, history: Fetched, other: Fetched,
                                       needHistorical: bool)
    ensures !needHistorical || info.Failed? ==>
      TickerReport(ticker, info, history, needHistorical) == TickerReport(ticker, info, other, needHistorical)
    ensures info.Found? && needHistorical && history.Found? ==>
      TickerReport(ticker, info, history, true) == Strip(info.block + history.block)
    ensures info.Found? && needHistorical && history.Failed? ==>
      TickerReport(ticker, info, history, true) == Strip(info.block + "\nHistorical Data: " + history.error)
  {
    if info.Found? && history.Failed? {
      assert info.block + ("\nHistorical Data: " + history.error) == info.block + "\nHistorical Data: " + history.error;
    }
  }

  /** The reports for `tickers`, in order. */
  function Reports(tickers: seq<string>, info: string -> Fetched, history: (string, string) -> Fetched,
                   needHistorical: bool, period: string): (r: seq<string>)
    ensures |r| == |tickers|
    ensures forall k :: 0 <= k < |r| ==>
      r[k] == TickerReport(tickers[k], info(tickers[k]), history(tickers[k], period), needHistorical)
  {
    if tickers == [] then []
    else
      var init := tickers[..|tickers| - 1];
      var last := tickers[|tickers| - 1];
      assert forall k :: 0 <= k < |init| ==> init[k] == tickers[k];
      Reports(init, info, history, needHistorical, period) +
      [TickerReport(last, info(last), history(last, period), needHistorical)]
  }

  function Min(a: int, b: int): int { if a <= b then a else b }

  /** The loop over the leading tickers that appends one report each. */
  method CollectReports(tickers: seq<string>, info: string -> Fetched, history: (string, string) -> Fetched,
                        needHistorical: bool, period: string) returns (results: seq<string>)
    ensures results == Reports(tickers, info, history, needHistorical, period)
  {
    results := [];
    for i := 0 to |tickers|
      invariant results == Reports(tickers[..i], info, history, needHistorical, period)
    {
      var ticker := tickers[i];
      var report := TickerReport(ticker, info(ticker), history(ticker, period), needHistorical);
      results := results + [report];
      assert tickers[..i + 1][..i] == tickers[..i];
    }
    assert tickers[..|tickers|] == tickers;
  }

  /** `_run`: `info` stands for `_get_stock_info` followed by the info-card f-string, and
      `history` for `_get_historical_data` followed by the history f-string. */
  method Run(query: string, info: string -> Fetched, history: (string, string) -> Fetched)
    returns (response: string)
    ensures ExtractTickers(query) == [] ==> response == NoTickerMessage
    ensures ExtractTickers(query) != [] ==>
      var tickers := ExtractTickers(query);
      response == "\n\n" + Join(Separator, Reports(tickers[..Min(3, |tickers|)], info, history,
                                                   NeedHistorical(query),
                                                   FirstRule(PeriodRules, Lower(query), DefaultPeriod)))
                  + Disclaimer
  {
    var tickers := ExtractTickers(query);
    if tickers == [] {
      return NoTickerMessage;
    }
    var needHistorical := NeedHistorical(query);
    var period := SelectPeriod(query);
    var results := CollectReports(tickers[..Min(3, |tickers|)], info, history, needHistorical, period);
    response := "\n\n" + Join(Separator, results) + Disclaimer;
  }

  /** With tickers the answer starts with a blank line and ends with the disclaimer, and
      it is made of at most three reports, one per leading ticker. */
  lemma AnswerShape(query: string, info: string -> Fetched, history: (string, string) -> Fetched)
    requires ExtractTickers(query) != []
    ensures var tickers := ExtractTickers(query);
      var period := FirstRule(PeriodRules, Lower(query), DefaultPeriod);
      var rs := Reports(tickers[..Min(3, |tickers|)], info, history, NeedHistorical(query), period);
      1 <= |rs| <= 3 &&
      (forall k :: 0 <= k < |rs| ==>
        rs[k] == TickerReport(tickers[k], info(tickers[k]), history(tickers[k], period), NeedHistorical(query))) &&
      StartsWith("\n\n" + Join(Separator, rs) + Disclaimer, "\n\n") &&
      EndsWith("\n\n" + Join(Separator, rs) + Disclaimer, Disclaimer)
  {
    var tickers := ExtractTickers(query);
    var period := FirstRule(PeriodRules, Lower(query), DefaultPeriod);
    var rs := Reports(tickers[..Min(3, |tickers|)], info, history, NeedHistorical(query), period);
    ConcatEnds("\n\n", Join(Separator, rs), Disclaimer);
  }
}
