/** The account API tool: request headers, endpoints and query parameters, the account
    id found in a query, the choice of request, and the texts built from the replies.
    The HTTP exchange is a function from request to reply passed in. */
module AccountApi {
  import opened Wrappers
  import opened Text

  /** Python truthiness of an optional string: present and non-empty. */
  predicate Truthy(o: Option<string>) {
    o.Some? && o.value != ""
  }

  // ---------------------------------------------------------------------------------
  // Headers
  // ---------------------------------------------------------------------------------

  const Json := "application/json"
  const BearerPrefix := "Bearer "

  /** What `_get_headers` promises: JSON content type and accept headers always, and a
      bearer authorization exactly when there is an API key. */
  predicate IsRequestHeaders(h: map<string, string>, apiKey: Option<string>) {
    h.Keys == {"Content-Type", "Accept"} + (if Truthy(apiKey) then {"Authorization"} else {}) &&
    h["Content-Type"] == Json && h["Accept"] == Json &&
    (Truthy(apiKey) ==> h["Authorization"] == BearerPrefix + apiKey.value)
  }

  /** `_get_headers`: the JSON headers, then the authorization header if a key is set. */
  method GetHeaders(apiKey: Option<string>) returns (headers: map<string, string>)
    ensures IsRequestHeaders(headers, apiKey)
  {
    headers := map["Content-Type" := Json, "Accept" := Json];
    if Truthy(apiKey) {
      headers := headers["Authorization" := BearerPrefix + apiKey.value];
    }
  }

  /** The token a server reads from the authorization header, if any. */
  function BearerToken(h: map<string, string>): Option<string> {
    if "Authorization" in h && StartsWith(h["Authorization"], BearerPrefix)
    then Some(h["Authorization"][|BearerPrefix|..])
    else None
  }

  /** The server gets back exactly the key the tool was given, and nothing without one. */
  lemma BearerTokenRoundTrip(h: map<string, string>, apiKey: Option<string>)
    requires IsRequestHeaders(h, apiKey)
    ensures BearerToken(h) == if Truthy(apiKey) then Some(apiKey.value) else None
  {
    if Truthy(apiKey) {
      assert h["Authorization"][..|BearerPrefix|] == BearerPrefix;
      assert h["Authorization"][|BearerPrefix|..] == apiKey.value;
    } else {
      assert "Authorization" !in h;
    }
  }

  // ---------------------------------------------------------------------------------
  // Endpoints and URLs
  // ---------------------------------------------------------------------------------

  const BaseUrl := "http://localhost:8080/api/account/v1"

  const Accounts := "accounts"

  /** `get_account_info`'s endpoint, `accounts/<id>` or `accounts`. */
  function AccountEndpoint(accountId: Option<string>): string {
    if Truthy(accountId) then Accounts + ['/'] + accountId.value else Accounts
  }

  /** `get_transactions`'s endpoint, `accounts/<id>/transactions`. */
  function TransactionsEndpoint(accountId: string): string {
    Accounts + ['/'] + accountId + ['/'] + "transactions"
  }

  /** `get_balance`'s endpoint, `accounts/<id>/balance`. */
  function BalanceEndpoint(accountId: string): string {
    Accounts + ['/'] + accountId + ['/'] + "balance"
  }

  /** Read back as path segments, each endpoint names the collection, then the account
      (for an id without `/`), then the sub-resource. */
  lemma EndpointSegments(accountId: string)
    requires '/' !in accountId
    ensures accountId != "" ==> Split(AccountEndpoint(Some(accountId)), '/') == [Accounts, accountId]
    ensures Split(AccountEndpoint(None), '/') == [Accounts]
    ensures Split(TransactionsEndpoint(accountId), '/') == [Accounts, accountId, "transactions"]
    ensures Split(BalanceEndpoint(accountId), '/') == [Accounts, accountId, "balance"]
  {
    assert '/' !in Accounts && '/' !in "transactions" && '/' !in "balance";
    SplitNoSep(Accounts, '/');
    SplitTwo(Accounts, accountId, '/');
    SplitThree(Accounts, accountId, "transactions", '/');
    SplitThree(Accounts, accountId, "balance", '/');
  }

  /** `urljoin(base, ref)` for a reference that is a relative path without dot segments,
      query or fragment, and a base with an authority and a path: the merge of
      section 5.2.3 of RFC 3986 keeps the base up to its last `/` and appends the
      reference, so the base's last segment is replaced. (A base with an authority but an
      empty path, `http://host`, would get a `/` inserted by the merge; the one base the
      client uses has a path, so that case is not modelled.) */
  function UrlJoin(base: string, ref: string): (r: string)
    ensures r == base[..AfterLast(base, '/')] + ref
    ensures EndsWith(r, ref)
  {
    var r := base[..AfterLast(base, '/')] + ref;
    assert r[|r| - |ref|..] == ref;
    r
  }

  /** As written, `urljoin(base_url, endpoint)` drops the `v1` version segment: the
      request for `accounts` goes to `/api/account/accounts`, not `/api/account/v1/accounts`. */
  lemma UrlJoinDropsVersion(endpoint: string)
    ensures UrlJoin(BaseUrl, endpoint) == "http://localhost:8080/api/account/" + endpoint
    ensures StartsWith(endpoint, "accounts") ==> !StartsWith(UrlJoin(BaseUrl, endpoint), BaseUrl + "/")
  {
    assert BaseUrl[|BaseUrl| - 1] != '/' && BaseUrl[|BaseUrl| - 2] != '/' && BaseUrl[|BaseUrl| - 3] == '/';
    assert BaseUrl[..|BaseUrl| - 1][..|BaseUrl| - 2] == BaseUrl[..|BaseUrl| - 2];
    assert AfterLast(BaseUrl, '/') == |BaseUrl| - 2;
    assert BaseUrl[..|BaseUrl| - 2] == "http://localhost:8080/api/account/";
    var r := UrlJoin(BaseUrl, endpoint);
    if StartsWith(endpoint, "accounts") {
      assert endpoint[0] == 'a';
      assert r[|BaseUrl| - 2] == 'a';
      assert (BaseUrl + "/")[|BaseUrl| - 2] == 'v';
    }
  }

  /** The intended URL: the endpoint under the versioned base, as `urljoin` gives it
      when the base ends in `/`. */
  function RequestUrl(endpoint: string): (url: string)
    ensures url == UrlJoin(BaseUrl + "/", endpoint)
    ensures url == BaseUrl + "/" + endpoint
    ensures StartsWith(url, BaseUrl + "/") && EndsWith(url, endpoint)
  {
    var base := BaseUrl + "/";
    assert AfterLast(base, '/') == |base|;
    assert base[..|base|] == base;
    ConcatEnds(BaseUrl + "/", endpoint, "");
    assert BaseUrl + "/" + endpoint + "" == BaseUrl + "/" + endpoint;
    base + endpoint
  }

  // ---------------------------------------------------------------------------------
  // Query parameters
  // ---------------------------------------------------------------------------------

  datatype Param = IntParam(n: int) | StrParam(s: string)

  const DefaultLimit := 50

  /** What `get_transactions` promises of its parameters: the limit always, each date
      only when given. */
  predicate IsTransactionParams(p: map<string, Param>, limit: int, startDate: Option<string>, endDate: Option<string>) {
    p.Keys == {"limit"} + (if Truthy(startDate) then {"start_date"} else {}) +
              (if Truthy(endDate) then {"end_date"} else {}) &&
    p["limit"] == IntParam(limit) &&
    (Truthy(startDate) ==> p["start_date"] == StrParam(startDate.value)) &&
    (Truthy(endDate) ==> p["end_date"] == StrParam(endDate.value))
  }

  /** The parameter dictionary of `get_transactions`, filled in key by key. */
  method TransactionParams(limit: int, startDate: Option<string>, endDate: Option<string>)
    returns (params: map<string, Param>)
    ensures IsTransactionParams(params, limit, startDate, endDate)
  {
    params := map["limit" := IntParam(limit)];
    if Truthy(startDate) {
      params := params["start_date" := StrParam(startDate.value)];
    }
    if Truthy(endDate) {
      params := params["end_date" := StrParam(endDate.value)];
    }
  }

  /** The parameters pin the request down: two dictionaries meeting the promise for the
      same arguments are the same. */
  lemma TransactionParamsUnique(p: map<string, Param>, q: map<string, Param>,
                                limit: int, startDate: Option<string>, endDate: Option<string>)
    requires IsTransactionParams(p, limit, startDate, endDate)
    requires IsTransactionParams(q, limit, startDate, endDate)
    ensures p == q
  {
    assert forall k | k in p.Keys :: p[k] == q[k];
  }

  // ---------------------------------------------------------------------------------
  // The account id in a query
  // ---------------------------------------------------------------------------------

  /** One of the patterns `w1\s+w2\s+…\s+#?(\d+)`, given by its words. */
  datatype IdPattern = IdPattern(words: seq<string>)

  /** The patterns of `_extract_account_id`, in the order they are tried. */
  const IdPatterns: seq<IdPattern> := [
    IdPattern(["account"]),
    IdPattern(["account", "id"]),
    IdPattern(["acc"]),
    IdPattern(["acct"]),
    IdPattern(["account", "number"])
  ]

  /** Length of the run of digits at `i`. */
  function DigitRun(s: string, i: nat): (n: nat)
    requires i <= |s|
    ensures i + n <= |s|
    ensures forall k :: i <= k < i + n ==> IsDigit(s[k])
    ensures i + n < |s| ==> !IsDigit(s[i + n])
    decreases |s| - i
  {
    if i == |s| || !IsDigit(s[i]) then 0 else 1 + DigitRun(s, i + 1)
  }

  /** Where `w1\s+…wk\s+` ends when it matches at `i`. Greedy `\s+` is exact here: what
      follows it is a letter, `#` or a digit, never whitespace. */
  function WordsAt(s: string, i: nat, words: seq<string>): (r: Option<nat>)
    requires i <= |s|
    ensures r.Some? ==> i <= r.value <= |s|
    decreases words
  {
    if words == [] then Some(i)
    else if OccursAt(s, words[0], i) && SpaceRun(s, i + |words[0]|) >= 1 then
      WordsAt(s, i + |words[0]| + SpaceRun(s, i + |words[0]|), words[1..])
    else None
  }

  /** The group `(\d+)` when the whole pattern matches at `i`: after the words, an
      optional `#`, then the longest run of digits, which must not be empty. */
  function MatchAt(s: string, i: nat, p: IdPattern): (r: Option<string>)
    requires i <= |s|
    ensures r.Some? ==> r.value != [] && forall k :: 0 <= k < |r.value| ==> IsDigit(r.value[k])
  {
    match WordsAt(s, i, p.words)
    case None => None
    case Some(j) =>
      var d := if j < |s| && s[j] == '#' then j + 1 else j;
      var n := DigitRun(s, d);
      if n >= 1 then Some(s[d..d + n]) else None
  }

  /** `re.search`: the leftmost position from `i` on where the pattern matches. */
  function Search(s: string, p: IdPattern, i: nat): (r: Option<nat>)
    requires i <= |s|
    ensures r.Some? ==> i <= r.value <= |s| && MatchAt(s, r.value, p).Some? &&
                        forall q :: i <= q < r.value ==> MatchAt(s, q, p).None?
    ensures r.None? ==> forall q :: i <= q <= |s| ==> MatchAt(s, q, p).None?
    decreases |s| - i
  {
    if MatchAt(s, i, p).Some? then Some(i)
    else if i == |s| then None
    else Search(s, p, i + 1)
  }

  /** The group of the first pattern, in list order, that matches somewhere. */
  function FirstId(patterns: seq<IdPattern>, q: string): Option<string> {
    if patterns == [] then None
    else match Search(q, patterns[0], 0)
      case Some(pos) => MatchAt(q, pos, patterns[0])
      case None => FirstId(patterns[1..], q)
  }

  /** `_extract_account_id`: the patterns in order on the lower-cased query, returning
      from the loop at the first that matches. */
  method ExtractAccountId(query: string) returns (accountId: Option<string>)
    ensures accountId == FirstId(IdPatterns, Lower(query))
  {
    var q := Lower(query);
    for i := 0 to |IdPatterns|
      invariant FirstId(IdPatterns[i..], q) == FirstId(IdPatterns, q)
    {
      assert IdPatterns[i..][1..] == IdPatterns[i + 1..];
      var found := Search(q, IdPatterns[i], 0);
      if found.Some? {
        return MatchAt(q, found.value, IdPatterns[i]);
      }
    }
    return None;
  }

  /** An id found is a non-empty digit string taken from the leftmost match of the first
      pattern that matches anywhere; all earlier patterns match nowhere. */
  lemma {:induction false} FirstIdSound(patterns: seq<IdPattern>, q: string) returns (k: nat, pos: nat)
    requires FirstId(patterns, q).Some?
    ensures k < |patterns| && pos <= |q|
    ensures FirstId(patterns, q) == MatchAt(q, pos, patterns[k])
    ensures forall before :: 0 <= before < pos ==> MatchAt(q, before, patterns[k]).None?
    ensures forall j, p :: 0 <= j < k && 0 <= p <= |q| ==> MatchAt(q, p, patterns[j]).None?
    ensures var id := FirstId(patterns, q).value;
      id != [] && forall c :: 0 <= c < |id| ==> IsDigit(id[c])
  {
    match Search(q, patterns[0], 0)
    case Some(p0) =>
      k, pos := 0, p0;
    case None =>
      var k', pos' := FirstIdSound(patterns[1..], q);
      k, pos := k' + 1, pos';
      assert forall j :: 1 <= j < k ==> patterns[j] == patterns[1..][j - 1];
  }

  /** No id is found exactly when no pattern matches anywhere. */
  lemma {:induction false} FirstIdNone(patterns: seq<IdPattern>, q: string)
    ensures FirstId(patterns, q).None? <==>
      forall j, p :: 0 <= j < |patterns| && 0 <= p <= |q| ==> MatchAt(q, p, patterns[j]).None?
  {
    if patterns != [] {
      FirstIdNone(patterns[1..], q);
      assert forall j :: 1 <= j < |patterns| ==> patterns[j] == patterns[1..][j - 1];
    }
  }

  // ---------------------------------------------------------------------------------
  // Which request `_run` makes
  // ---------------------------------------------------------------------------------

  /** The date ranges that `datetime.now()` yields for "last month" and "last week". */
  datatype Clock = Clock(lastMonth: (string, string), lastWeek: (string, string))

  /** The branch `_run` takes and what it asks the API for. */
  datatype Action =
    | AskForAccountId
    | FetchTransactions(accountId: string, startDate: Option<string>, endDate: Option<string>)
    | ListBalances
    | FetchBalance(accountId: string)
    | ListAccounts
    | FetchAccount(accountId: string)

  /** The dates of a transactions query: last month first, then last week, else none. */
  function DateRange(q: string, clock: Clock): (Option<string>, Option<string>) {
    if Contains(q, "last month") then (Some(clock.lastMonth.0), Some(clock.lastMonth.1))
    else if Contains(q, "last week") then (Some(clock.lastWeek.0), Some(clock.lastWeek.1))
    else (None, None)
  }

  /** The if/elif dispatch of `_run` on the lower-cased query. */
  function Route(query: string, clock: Clock): Action {
    var q := Lower(query);
    var accountId := FirstId(IdPatterns, q);
    if Contains(q, "transactions") || Contains(q, "activity") then
      if !Truthy(accountId) then AskForAccountId
      else
        var (startDate, endDate) := DateRange(q, clock);
        FetchTransactions(accountId.value, startDate, endDate)
    else if Contains(q, "balance") then
      if !Truthy(accountId) then ListBalances else FetchBalance(accountId.value)
    else if !Truthy(accountId) then ListAccounts else FetchAccount(accountId.value)
  }

  /** Transactions and activity win over balance, which wins over account information; a
      transactions query without an id asks for one; every account-specific request uses
      the id the patterns found, and each one-account branch has an id. */
  lemma RouteOrder(query: string, clock: Clock)
    ensures var q := Lower(query); var a := Route(query, clock);
      ((Contains(q, "transactions") || Contains(q, "activity")) <==> (a.AskForAccountId? || a.FetchTransactions?)) &&
      (a.AskForAccountId? <==> (Contains(q, "transactions") || Contains(q, "activity")) &&
                               FirstId(IdPatterns, q).None?) &&
      ((a.ListBalances? || a.FetchBalance?) ==> Contains(q, "balance")) &&
      ((a.FetchTransactions? || a.FetchBalance? || a.FetchAccount?) ==>
        FirstId(IdPatterns, q) == Some(a.accountId)) &&
      ((a.ListBalances? || a.ListAccounts?) <==>
        FirstId(IdPatterns, q).None? && !Contains(q, "transactions") && !Contains(q, "activity"))
  {
    var q := Lower(query);
    var accountId := FirstId(IdPatterns, q);
    if accountId.Some? {
      var _, _ := FirstIdSound(IdPatterns, q);
    }
  }

  /** The request an action makes: its endpoint, and its parameters. */
  datatype Request = Request(endpoint: string, params: map<string, Param>) {
    /** The URL the request goes to, with the join corrected (`UrlJoinDropsVersion`
        shows the code as written). */
    function Url(): string {
      RequestUrl(endpoint)
    }
  }

  /** `get_transactions` with the default limit. */
  method TransactionsRequest(accountId: string, startDate: Option<string>, endDate: Option<string>)
    returns (r: Request)
    ensures r.endpoint == TransactionsEndpoint(accountId)
    ensures IsTransactionParams(r.params, DefaultLimit, startDate, endDate)
  {
    var params := TransactionParams(DefaultLimit, startDate, endDate);
    r := Request(TransactionsEndpoint(accountId), params);
  }

  // ---------------------------------------------------------------------------------
  // Replies and the texts built from them
  // ---------------------------------------------------------------------------------

  /** One transaction record; a missing field is `None`. */
  datatype Transaction = Transaction(date: Option<string>, description: Option<string>, amount: Option<real>)

  /** One account record; a missing field is `None`. */
  datatype AccountRecord = AccountRecord(
    id: Option<string>, name: Option<string>, kind: Option<string>, status: Option<string>,
    balance: Option<real>, currency: Option<string>, openDate: Option<string>)

  /** The fields of a successful reply that the tool reads (`.get` with a default). An
      `account` of `None` is an absent or empty dictionary. */
  datatype Payload = Payload(
    transactions: seq<Transaction>, accounts: seq<AccountRecord>, account: Option<AccountRecord>,
    balance: Option<real>, available: Option<real>, currency: Option<string>)

  /** A reply carrying an `error` key, or one without. */
  datatype Reply = Failure(error: string) | Success(payload: Payload)

  const NoIdMessage := "Please specify an account ID to retrieve transactions."
  const MaxListed := 10

  /** `amount_str`: a minus sign before the dollar for a negative amount. `money` is the
      `:.2f` formatting. */
  function AmountText(amount: real, money: real -> string): (r: string)
    ensures StartsWith(r, "-$") <==> amount < 0.0
    ensures amount < 0.0 ==> r == "-$" + money(-amount)
    ensures amount >= 0.0 ==> r == "$" + money(amount)
  {
    if amount < 0.0 then
      assert ("-$" + money(-amount))[..2] == "-$";
      "-$" + money(-amount)
    else
      assert ("$" + money(amount))[0] == '$';
      "$" + money(amount)
  }

  /** The line for the `i`-th listed transaction. */
  function TransactionLine(i: nat, tx: Transaction, money: real -> string): string {
    NatToString(i) + ". " + tx.date.GetOr("Unknown date") + " | " +
    tx.description.GetOr("Unknown transaction") + " | " + AmountText(tx.amount.GetOr(0.0), money) + "\n"
  }

  /** `TransactionLine` for a given formatting of amounts. */
  function LineOf(money: real -> string): (nat, Transaction) -> string {
    (i: nat, tx: Transaction) => TransactionLine(i, tx, money)
  }

  /** The lines `line(first, items[0])`, `line(first + 1, items[1])`, …, concatenated. */
  function Numbered<T>(items: seq<T>, first: nat, line: (nat, T) -> string): string {
    if items == [] then ""
    else Numbered(items[..|items| - 1], first, line) + line(first + |items| - 1, items[|items| - 1])
  }

  lemma NumberedSnoc<T>(items: seq<T>, item: T, first: nat, line: (nat, T) -> string)
    ensures Numbered(items + [item], first, line) == Numbered(items, first, line) + line(first + |items|, item)
  {
    assert (items + [item])[..|items|] == items;
  }

  function Min(a: int, b: int): int { if a <= b then a else b }

  /** The heading of the listing, with the period when both dates are set. */
  function TransactionsHeading(accountId: string, startDate: Option<string>, endDate: Option<string>): string {
    "Transactions for Account #" + accountId + ":\n\n" +
    (if Truthy(startDate) && Truthy(endDate) then "Period: " + startDate.value + " to " + endDate.value + "\n\n" else "")
  }

  /** The closing remark for `total` transactions. */
  function MoreRemark(total: nat): string {
    if total > MaxListed then "\n... and " + NatToString(total - MaxListed) + " more transactions." else ""
  }

  /** The transaction listing: heading, optional period, at most ten numbered lines, and a
      count of the ones left out. */
  function TransactionsText(accountId: string, startDate: Option<string>, endDate: Option<string>,
                            txs: seq<Transaction>, money: real -> string): string {
    TransactionsHeading(accountId, startDate, endDate) +
    Numbered(txs[..Min(MaxListed, |txs|)], 1, LineOf(money)) +
    MoreRemark(|txs|)
  }

  /** The loop over `enumerate(items, 1)` appending one numbered line each. */
  method AppendNumbered<T>(heading: string, items: seq<T>, line: (nat, T) -> string) returns (response: string)
    ensures response == heading + Numbered(items, 1, line)
  {
    response := heading;
    for i := 0 to |items|
      invariant response == heading + Numbered(items[..i], 1, line)
    {
      assert items[..i + 1] == items[..i] + [items[i]];
      NumberedSnoc(items[..i], items[i], 1, line);
      response := response + line(i + 1, items[i]);
    }
    assert items[..|items|] == items;
  }

  /** The transactions text of `_run`: heading, period, the first ten lines, remark. */
  method FormatTransactions(accountId: string, startDate: Option<string>, endDate: Option<string>,
                            txs: seq<Transaction>, money: real -> string) returns (response: string)
    ensures response == TransactionsText(accountId, startDate, endDate, txs, money)
  {
    response := "Transactions for Account #" + accountId + ":\n\n";
    if Truthy(startDate) && Truthy(endDate) {
      response := response + "Period: " + startDate.value + " to " + endDate.value + "\n\n";
    }
    assert response == TransactionsHeading(accountId, startDate, endDate);
    response := AppendNumbered(response, txs[..Min(MaxListed, |txs|)], LineOf(money));
    if |txs| > MaxListed {
      var remark := "\n... and " + NatToString(|txs| - MaxListed) + " more transactions.";
      response := response + remark;
    }
  }

  /** Up to ten transactions are all listed, with no remark; beyond that the first ten are. */
  lemma TransactionsShown(accountId: string, startDate: Option<string>, endDate: Option<string>,
                          txs: seq<Transaction>, money: real -> string)
    ensures |txs| <= MaxListed ==>
      TransactionsText(accountId, startDate, endDate, txs, money) ==
      TransactionsHeading(accountId, startDate, endDate) + Numbered(txs, 1, LineOf(money))
    ensures |txs| > MaxListed ==>
      StartsWith(TransactionsText(accountId, startDate, endDate, txs, money),
                 TransactionsHeading(accountId, startDate, endDate) + Numbered(txs[..MaxListed], 1, LineOf(money)))
  {
    var heading := TransactionsHeading(accountId, startDate, endDate);
    var listed := txs[..Min(MaxListed, |txs|)];
    var lines := Numbered(listed, 1, LineOf(money));
    var remark := MoreRemark(|txs|);
    assert TransactionsText(accountId, startDate, endDate, txs, money) == heading + lines + remark;
    if |txs| <= MaxListed {
      assert listed == txs;
      assert remark == "";
      assert heading + lines + "" == heading + lines;
    } else {
      assert listed == txs[..MaxListed];
      ConcatEnds(heading + lines, remark, []);
      assert heading + lines + remark + [] == heading + lines + remark;
    }
  }

  /** The listing accounts for every transaction: beyond ten, the number in the closing
      remark makes up the rest (and `TransactionsShown` says which are listed). */
  lemma TransactionsCounted(accountId: string, startDate: Option<string>, endDate: Option<string>,
                            txs: seq<Transaction>, money: real -> string) returns (numeral: string)
    ensures |txs| > MaxListed ==>
      EndsWith(TransactionsText(accountId, startDate, endDate, txs, money),
               "\n... and " + numeral + " more transactions.") &&
      (forall k :: 0 <= k < |numeral| ==> IsDigit(numeral[k])) &&
      DigitsValue(numeral) + MaxListed == |txs|
  {
    numeral := "";
    if |txs| > MaxListed {
      numeral := NatToString(|txs| - MaxListed);
      NatToStringValue(|txs| - MaxListed);
      var tail := "\n... and " + numeral + " more transactions.";
      assert MoreRemark(|txs|) == tail;
      ConcatEnds(TransactionsHeading(accountId, startDate, endDate),
                 Numbered(txs[..Min(MaxListed, |txs|)], 1, LineOf(money)), tail);
    }
  }

  /** The last of the numbered lines is the line for the last transaction, numbered
      `first + |txs| - 1`, and there is a line for each transaction. */
  lemma {:induction false} TransactionLinesNumbered(txs: seq<Transaction>, first: nat, money: real -> string)
    ensures txs != [] ==>
      EndsWith(Numbered(txs, first, LineOf(money)), TransactionLine(first + |txs| - 1, txs[|txs| - 1], money))
    ensures txs == [] <==> Numbered(txs, first, LineOf(money)) == ""
  {
    if txs != [] {
      var last := TransactionLine(first + |txs| - 1, txs[|txs| - 1], money);
      var all := Numbered(txs, first, LineOf(money));
      assert all == Numbered(txs[..|txs| - 1], first, LineOf(money)) + last;
      assert all[|all| - |last|..] == last;
      assert last[|last| - 1] == '\n';
    }
  }

  /** The one-account balance text; `available` defaults to the balance, which defaults
      to zero. */
  function BalanceText(accountId: string, p: Payload, money: real -> string): string {
    var balance := p.balance.GetOr(0.0);
    var available := p.available.GetOr(balance);
    var currency := p.currency.GetOr("USD");
    "Balance for Account #" + accountId + ":\n\n" +
    "Current Balance: $" + money(balance) + " " + currency + "\n" +
    "Available Balance: $" + money(available) + " " + currency + "\n"
  }

  /** The one-account details text. */
  function DetailsText(accountId: string, a: AccountRecord, money: real -> string): string {
    "Account #" + accountId + " Details:\n\n" +
    "Name: " + a.name.GetOr("Unknown") + "\n" +
    "Type: " + a.kind.GetOr("Unknown") + "\n" +
    "Status: " + a.status.GetOr("Unknown") + "\n" +
    "Balance: $" + money(a.balance.GetOr(0.0)) + " " + a.currency.GetOr("USD") + "\n" +
    "Open Date: " + a.openDate.GetOr("Unknown") + "\n"
  }

  /** One entry of the all-balances list. */
  function BalanceEntry(a: AccountRecord, money: real -> string): string {
    "Account #" + a.id.GetOr("Unknown") + " (" + a.kind.GetOr("Unknown") + "): " + a.name.GetOr("Unknown") + "\n" +
    "Balance: $" + money(a.balance.GetOr(0.0)) + " " + a.currency.GetOr("USD") + "\n\n"
  }

  /** One entry of the all-accounts list. */
  function AccountEntry(a: AccountRecord): string {
    "Account #" + a.id.GetOr("Unknown") + "\n" +
    "Name: " + a.name.GetOr("Unknown") + "\n" +
    "Type: " + a.kind.GetOr("Unknown") + "\n" +
    "Status: " + a.status.GetOr("Unknown") + "\n\n"
  }

  /** The entries for `accounts`, in order. */
  function Entries(accounts: seq<AccountRecord>, entry: AccountRecord -> string): string {
    if accounts == [] then ""
    else Entries(accounts[..|accounts| - 1], entry) + entry(accounts[|accounts| - 1])
  }

  lemma EntriesSnoc(accounts: seq<AccountRecord>, a: AccountRecord, entry: AccountRecord -> string)
    ensures Entries(accounts + [a], entry) == Entries(accounts, entry) + entry(a)
  {
    assert (accounts + [a])[..|accounts|] == accounts;
  }

  /** `BalanceEntry` for a given formatting of amounts. */
  function BalanceEntryOf(money: real -> string): AccountRecord -> string {
    a => BalanceEntry(a, money)
  }

  /** A `for account in accounts: response += …` loop. */
  method AppendEntries(heading: string, accounts: seq<AccountRecord>, entry: AccountRecord -> string)
    returns (response: string)
    ensures response == heading + Entries(accounts, entry)
  {
    response := heading;
    for i := 0 to |accounts|
      invariant response == heading + Entries(accounts[..i], entry)
    {
      assert accounts[..i + 1] == accounts[..i] + [accounts[i]];
      EntriesSnoc(accounts[..i], accounts[i], entry);
      response := response + entry(accounts[i]);
    }
    assert accounts[..|accounts|] == accounts;
  }

  /** The answer `_run` gives for an action, given the API's reply to its request. */
  function Answer(action: Action, transactionsReply: Reply, reply: Reply, money: real -> string): string {
    match action
    case AskForAccountId => NoIdMessage
    case FetchTransactions(accountId, startDate, endDate) =>
      (match transactionsReply
       case Failure(e) => "Error retrieving transactions: " + e
       case Success(p) =>
         if p.transactions == [] then "No transactions found for account " + accountId + " in the specified period."
         else TransactionsText(accountId, startDate, endDate, p.transactions, money))
    case ListBalances =>
      (match reply
       case Failure(e) => "Error retrieving accounts: " + e
       case Success(p) =>
         if p.accounts == [] then "No accounts found."
         else "Account Balances:\n\n" + Entries(p.accounts, BalanceEntryOf(money)))
    case FetchBalance(accountId) =>
      (match reply
       case Failure(e) => "Error retrieving balance: " + e
       case Success(p) => BalanceText(accountId, p, money))
    case ListAccounts =>
      (match reply
       case Failure(e) => "Error retrieving accounts: " + e
       case Success(p) =>
         if p.accounts == [] then "No accounts found."
         else "Your Accounts:\n\n" + Entries(p.accounts, AccountEntry))
    case FetchAccount(accountId) =>
      (match reply
       case Failure(e) => "Error retrieving account information: " + e
       case Success(p) =>
         if p.account.None? then "No information found for account " + accountId + "."
         else DetailsText(accountId, p.account.value, money))
  }

  /** The request an action other than a transactions query makes, if any. */
  function PlainRequest(action: Action): Option<Request> {
    match action
    case ListBalances => Some(Request(AccountEndpoint(None), map[]))
    case ListAccounts => Some(Request(AccountEndpoint(None), map[]))
    case FetchBalance(accountId) => Some(Request(BalanceEndpoint(accountId), map[]))
    case FetchAccount(accountId) => Some(Request(AccountEndpoint(Some(accountId)), map[]))
    case _ => None
  }

  /** With the join corrected, every request `_run` makes goes to `accounts` or below it,
      under the versioned base. */
  lemma RequestsUnderVersionedBase(r: Request, action: Action, accountId: string)
    requires (PlainRequest(action).Some? && r == PlainRequest(action).value) ||
             r.endpoint == TransactionsEndpoint(accountId)
    ensures StartsWith(r.Url(), BaseUrl + "/" + Accounts)
  {
    var e := r.endpoint;
    assert StartsWith(e, Accounts);
    var rest := e[|Accounts|..];
    assert e == Accounts + rest;
    assert r.Url() == BaseUrl + "/" + e;
    assert r.Url() == (BaseUrl + "/" + Accounts) + rest;
  }

  /** `_run`: `api` answers each request, `clock` gives the date ranges, and `money` is
      the `:.2f` formatting. `transactionsReply` is the reply the transactions request
      got, when one was made. */
  method Run(query: string, clock: Clock, api: Request -> Reply, money: real -> string)
    returns (response: string, ghost transactionsRequest: Option<Request>)
    ensures var action := Route(query, clock);
      (action.FetchTransactions? <==> transactionsRequest.Some?) &&
      (action.FetchTransactions? ==>
        transactionsRequest.value.endpoint == TransactionsEndpoint(action.accountId) &&
        IsTransactionParams(transactionsRequest.value.params, DefaultLimit, action.startDate, action.endDate)) &&
      response == Answer(action,
                         if transactionsRequest.Some? then api(transactionsRequest.value) else Failure(""),
                         if PlainRequest(action).Some? then api(PlainRequest(action).value) else Failure(""),
                         money)
  {
    var action := Route(query, clock);
    transactionsRequest := None;
    match action {
      case AskForAccountId =>
        response := NoIdMessage;
      case FetchTransactions(accountId, startDate, endDate) =>
        var request := TransactionsRequest(accountId, startDate, endDate);
        transactionsRequest := Some(request);
        var reply := api(request);
        if reply.Failure? {
          response := "Error retrieving transactions: " + reply.error;
        } else if reply.payload.transactions == [] {
          response := "No transactions found for account " + accountId + " in the specified period.";
        } else {
          response := FormatTransactions(accountId, startDate, endDate, reply.payload.transactions, money);
        }
      case ListBalances =>
        var reply := api(PlainRequest(action).value);
        if reply.Failure? {
          response := "Error retrieving accounts: " + reply.error;
        } else if reply.payload.accounts == [] {
          response := "No accounts found.";
        } else {
          response := AppendEntries("Account Balances:\n\n", reply.payload.accounts, BalanceEntryOf(money));
        }
      case FetchBalance(accountId) =>
        var reply := api(PlainRequest(action).value);
        if reply.Failure? {
          response := "Error retrieving balance: " + reply.error;
        } else {
          response := BalanceText(accountId, reply.payload, money);
        }
      case ListAccounts =>
        var reply := api(PlainRequest(action).value);
        if reply.Failure? {
          response := "Error retrieving accounts: " + reply.error;
        } else if reply.payload.accounts == [] {
          response := "No accounts found.";
        } else {
          response := AppendEntries("Your Accounts:\n\n", reply.payload.accounts, AccountEntry);
        }
      case FetchAccount(accountId) =>
        var reply := api(PlainRequest(action).value);
        if reply.Failure? {
          response := "Error retrieving account information: " + reply.error;
        } else if reply.payload.account.None? {
          response := "No information found for account " + accountId + ".";
        } else {
          response := DetailsText(accountId, reply.payload.account.value, money);
        }
    }
  }
}
