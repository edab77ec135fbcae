/** `InventoryAPI.get`: the SteamID precheck, the request options of each
    page, and the sequential pagination / retry / error classification loop.
    The HTTP transport is replaced by a sequence of outcomes, one per request,
    consumed in order. */
module InventoryFetch {
  import opened InventoryTypes
  import opened DescriptionLookup
  import opened PageProcessing

  // ---------------------------------------------------------------------------
  // Request options.

  /** A caller-supplied builder `(steamid64, appid, contextid) => address`. */
  type AddressBuilder = (string, string, string) -> string

  /** The part of `requestOptions` the core inspects. */
  datatype RequestOptions = RequestOptions(
    uri: Option<AddressBuilder>,
    url: Option<AddressBuilder>,
    qs: Option<map<string, string>>)

  datatype QueryValue = Text(text: string) | Number(number: int) | Undefined

  /** The address fields of one request. */
  datatype Endpoint = Endpoint(uri: Option<string>, url: Option<string>)

  datatype Request = Request(endpoint: Endpoint, qs: map<string, QueryValue>)

  /** Items asked for per page. */
  const PageSize := 5000

  const DefaultRetries := 1
  const DefaultLanguage := "english"

  function DefaultUri(steamId64: string, appid: string, contextid: string): string {
    "https://steamcommunity.com/inventory/" + steamId64 + "/" + appid + "/" + contextid
  }

  /** A `uri` builder wins over a `url` builder; with only a `url` builder the
      request carries that address as `url` and a null `uri`; with neither the
      default inventory address is used. */
  function SelectEndpoint(options: RequestOptions, steamId64: string, appid: string, contextid: string): (e: Endpoint)
    ensures options.uri.Some? ==> e.uri == Some(options.uri.value(steamId64, appid, contextid))
    ensures options.uri.None? && options.url.Some? ==>
      e.uri.None? && e.url == Some(options.url.value(steamId64, appid, contextid))
    ensures options.uri.None? && options.url.None? ==> e == Endpoint(Some(DefaultUri(steamId64, appid, contextid)), None)
  {
    if options.uri.Some? then Endpoint(Some(options.uri.value(steamId64, appid, contextid)), None)
    else if options.url.Some? then Endpoint(None, Some(options.url.value(steamId64, appid, contextid)))
    else Endpoint(Some(DefaultUri(steamId64, appid, contextid)), None)
  }

  /** `start_assetid` is undefined on the first page. */
  function CursorValue(cursor: Option<string>): QueryValue {
    if cursor.Some? then Text(cursor.value) else Undefined
  }

  function DefaultQuery(language: string, cursor: Option<string>): map<string, QueryValue> {
    map["l" := Text(language), "count" := Number(PageSize), "start_assetid" := CursorValue(cursor)]
  }

  /** The query of one request: the caller's `qs` entries, then the defaults
      put back over them. */
  function BuildQuery(callerQs: Option<map<string, string>>, language: string, cursor: Option<string>): (q: map<string, QueryValue>)
    ensures "l" in q && q["l"] == Text(language)
    ensures "count" in q && q["count"] == Number(5000)
    ensures "start_assetid" in q && q["start_assetid"] == CursorValue(cursor)
    ensures callerQs.None? ==> q.Keys == {"l", "count", "start_assetid"}
    ensures callerQs.Some? ==> q.Keys == callerQs.value.Keys + {"l", "count", "start_assetid"}
    ensures callerQs.Some? ==> forall k :: k in callerQs.value && k !in {"l", "count", "start_assetid"} ==> q[k] == Text(callerQs.value[k])
  {
    var caller := if callerQs.Some? then map k | k in callerQs.value :: Text(callerQs.value[k]) else map[];
    caller + DefaultQuery(language, cursor)
  }

  /** Everything one `get` call fixes for all of its requests. */
  datatype FetchConfig = FetchConfig(
    steamId64: string,
    appid: string,
    contextid: string,
    tradableOnly: bool,
    language: string,
    options: RequestOptions)

  function BuildRequest(cfg: FetchConfig, cursor: Option<string>): Request {
    Request(SelectEndpoint(cfg.options, cfg.steamId64, cfg.appid, cfg.contextid),
            BuildQuery(cfg.options.qs, cfg.language, cursor))
  }

  function Requests(cfg: FetchConfig, cursors: seq<Option<string>>): (rs: seq<Request>)
    ensures |rs| == |cursors|
  {
    seq(|cursors|, k requires 0 <= k < |cursors| => BuildRequest(cfg, cursors[k]))
  }

  // ---------------------------------------------------------------------------
  // Responses, errors and settlements.

  /** The parsed JSON body of a successful HTTP response. */
  datatype Body = Body(
    success: bool,
    totalInventoryCount: Option<int>,
    assets: Option<seq<Asset>>,
    descriptions: Option<seq<Description>>,
    moreItems: bool,
    lastAssetId: Option<string>,
    error: Option<string>,
    Error: Option<string>)

  /** What the transport gives back for one request: a body (absent when the
      body is null), or an error with an optional HTTP status code. */
  datatype Outcome = Response(body: Option<Body>) | TransportError(statusCode: Option<int>, message: string)

  datatype FetchError =
    | InvalidSteamId(reason: string)
    | PrivateInventory
    | ProfileNotFound
    | MalformedResponse(reason: string)
    | RequestFailed(status: Option<int>, reason: string)
  {
    function Message(): string {
      match this
      case InvalidSteamId(m) => m
      case PrivateInventory => "Profile or inventory is private."
      case ProfileNotFound => "Profile could not be found."
      case MalformedResponse(m) => m
      case RequestFailed(_, m) => m
    }

    function Code(): Option<int> {
      match this
      case PrivateInventory => Some(403)
      case ProfileNotFound => Some(404)
      case RequestFailed(c, _) => c
      case _ => None
    }
  }

  /** How the promise returned by `get` settles. */
  datatype Settlement =
    | ResolvedEmptyArray  // `resolve([], [], 0)`: a Promise keeps only the bare array
    | Resolved(inventory: seq<Item>, currency: seq<Item>, totalInventoryCount: Option<int>)
    | Rejected(failure: FetchError)
    | Pending             // the outcomes supplied ran out before the promise settled

  /** The 403 / 404 reclassification of a transport error, made before any
      retry is considered. */
  function Classify(statusCode: Option<int>, message: string): (f: Option<FetchError>)
    ensures f == Some(PrivateInventory) <==> message == "HTTP error 403" || statusCode == Some(403)
    ensures f == Some(ProfileNotFound) <==> message != "HTTP error 403" && statusCode == Some(404)
    ensures f.None? <==> message != "HTTP error 403" && statusCode != Some(403) && statusCode != Some(404)
    ensures f.Some? ==> f.value.Code() == statusCode || message == "HTTP error 403"
  {
    if message == "HTTP error 403" || statusCode == Some(403) then Some(PrivateInventory)
    else if statusCode == Some(404) then Some(ProfileNotFound)
    else None
  }

  predicate IsEmptyInventory(body: Option<Body>) {
    body.Some? && body.value.success && body.value.totalInventoryCount == Some(0)
  }

  predicate IsWellFormed(body: Option<Body>) {
    body.Some? && body.value.success && body.value.assets.Some? && body.value.descriptions.Some?
  }

  /** `res.error || res.Error || "Malformed response"`. */
  function MalformedMessage(body: Option<Body>): (m: string)
    ensures body.Some? && Truthy(body.value.error) ==> m == body.value.error.value
    ensures body.Some? && !Truthy(body.value.error) && Truthy(body.value.Error) ==> m == body.value.Error.value
    ensures (body.None? || (!Truthy(body.value.error) && !Truthy(body.value.Error))) ==> m == "Malformed response"
    ensures m != ""
  {
    if body.Some? && Truthy(body.value.error) then body.value.error.value
    else if body.Some? && Truthy(body.value.Error) then body.value.Error.value
    else "Malformed response"
  }

  // ---------------------------------------------------------------------------
  // The fetch as a state machine.

  /** The state `_get` carries from one request to the next: the description
      index, the accumulators, the cursor and the shared retry budget. */
  datatype FetchState = FetchState(table: Table, acc: Accumulator, cursor: Option<string>, retries: int)

  datatype StepResult = Continue(next: FetchState) | Settle(settlement: Settlement)

  function InitialState(retries: int): FetchState {
    FetchState(map[], Accumulator([], [], 1), None, retries)
  }

  /** What one outcome does to the fetch. */
  function Step(cfg: FetchConfig, st: FetchState, outcome: Outcome): StepResult {
    match outcome
    case TransportError(code, message) =>
      var reclassified := Classify(code, message);
      if reclassified.Some? then Settle(Rejected(reclassified.value))
      else if st.retries > 1 then Continue(st.(retries := st.retries - 1))
      else Settle(Rejected(RequestFailed(code, message)))
    case Response(body) =>
      if IsEmptyInventory(body) then Settle(ResolvedEmptyArray)
      else if !IsWellFormed(body) then Settle(Rejected(MalformedResponse(MalformedMessage(body))))
      else
        var page := ProcessAssets(cfg.tradableOnly, cfg.contextid, body.value.descriptions.value,
                                  PageState(st.table, st.acc), body.value.assets.value);
        if body.value.moreItems then Continue(FetchState(page.table, page.acc, body.value.lastAssetId, st.retries))
        else Settle(Resolved(page.acc.inventory, page.acc.currency, body.value.totalInventoryCount))
  }

  /** A fetch run: how it settled and the cursor of every request it made. */
  datatype Run = Run(settlement: Settlement, cursors: seq<Option<string>>)

  /** The fetch from state `st`, answering its requests with `outcomes` in order. */
  function Fetch(cfg: FetchConfig, st: FetchState, outcomes: seq<Outcome>): Run
    decreases |outcomes|
  {
    if outcomes == [] then Run(Pending, [])
    else
      match Step(cfg, st, outcomes[0])
      case Settle(s) => Run(s, [st.cursor])
      case Continue(next) =>
        var rest := Fetch(cfg, next, outcomes[1..]);
        Run(rest.settlement, [st.cursor] + rest.cursors)
  }

  lemma FetchSettles(cfg: FetchConfig, st: FetchState, outcomes: seq<Outcome>)
    requires outcomes != [] && Step(cfg, st, outcomes[0]).Settle?
    ensures Fetch(cfg, st, outcomes) == Run(Step(cfg, st, outcomes[0]).settlement, [st.cursor])
  {
  }

  lemma FetchContinues(cfg: FetchConfig, st: FetchState, outcomes: seq<Outcome>)
    requires outcomes != [] && Step(cfg, st, outcomes[0]).Continue?
    ensures var rest := Fetch(cfg, Step(cfg, st, outcomes[0]).next, outcomes[1..]);
      Fetch(cfg, st, outcomes) == Run(rest.settlement, [st.cursor] + rest.cursors)
  {
  }

  lemma RequestsSnoc(cfg: FetchConfig, cursors: seq<Option<string>>, c: Option<string>)
    ensures Requests(cfg, cursors + [c]) == Requests(cfg, cursors) + [BuildRequest(cfg, c)]
  {
  }

  /** The caller's SteamID argument, as far as the core can tell: missing
      (falsy), a string the SteamID parser throws on, or a parsed SteamID
      with the parser's validity verdict. */
  datatype SteamIdInput = NoSteamId | Unparsable(parseError: string) | Parsed(steamId64: string, valid: bool)

  function CheckSteamId(steamid: SteamIdInput): (r: Result<string, FetchError>)
    ensures r.Ok? <==> steamid.Parsed? && steamid.valid
    ensures r.Ok? ==> r.value == steamid.steamId64
    ensures r.Err? ==> r.error.InvalidSteamId?
  {
    match steamid
    case NoSteamId => Err(InvalidSteamId("The user's SteamID is invalid or missing."))
    case Unparsable(m) => Err(InvalidSteamId(m))
    case Parsed(id, valid) => if valid then Ok(id) else Err(InvalidSteamId("The user's SteamID is invalid."))
  }

  function ConfigFor(options: RequestOptions, steamId64: string, appid: string, contextid: string,
                     tradableOnly: bool, language: Option<string>): FetchConfig {
    FetchConfig(steamId64, appid, contextid, tradableOnly, language.GetOr(DefaultLanguage), options)
  }

  /** The loop invariant of Get: what is left of the fetch from state `st`
      completes the run `target` after the requests already `sent`. */
  ghost predicate Remaining(cfg: FetchConfig, target: Run, sent: seq<Option<string>>, st: FetchState, outcomes: seq<Outcome>) {
    var run := Fetch(cfg, st, outcomes);
    target == Run(run.settlement, sent + run.cursors)
  }

  /** A settling step ends the run the loop is following. */
  lemma RemainingSettles(cfg: FetchConfig, target: Run, sent: seq<Option<string>>, st: FetchState, outcomes: seq<Outcome>)
    requires Remaining(cfg, target, sent, st, outcomes)
    requires outcomes != [] && Step(cfg, st, outcomes[0]).Settle?
    ensures target == Run(Step(cfg, st, outcomes[0]).settlement, sent + [st.cursor])
  {
    FetchSettles(cfg, st, outcomes);
  }

  /** A continuing step leaves the rest of the run to the next state. */
  lemma RemainingContinues(cfg: FetchConfig, target: Run, sent: seq<Option<string>>, st: FetchState, outcomes: seq<Outcome>)
    requires Remaining(cfg, target, sent, st, outcomes)
    requires outcomes != [] && Step(cfg, st, outcomes[0]).Continue?
    ensures Remaining(cfg, target, sent + [st.cursor], Step(cfg, st, outcomes[0]).next, outcomes[1..])
  {
    FetchContinues(cfg, st, outcomes);
    var rest := Fetch(cfg, Step(cfg, st, outcomes[0]).next, outcomes[1..]);
    assert sent + [st.cursor] + rest.cursors == sent + ([st.cursor] + rest.cursors);
  }

  /** `get(steamid, appid, contextid, tradableOnly, retries = 1, language = 'english')`. */
  method Get(options: RequestOptions, steamid: SteamIdInput, appid: string, contextid: string,
             tradableOnly: bool, retries: Option<int>, language: Option<string>, outcomes: seq<Outcome>)
    returns (result: Settlement, requests: seq<Request>)
    ensures CheckSteamId(steamid).Err? ==> result == Rejected(CheckSteamId(steamid).error) && requests == []
    ensures CheckSteamId(steamid).Ok? ==>
      var cfg := ConfigFor(options, CheckSteamId(steamid).value, appid, contextid, tradableOnly, language);
      var run := Fetch(cfg, InitialState(retries.GetOr(DefaultRetries)), outcomes);
      result == run.settlement && requests == Requests(cfg, run.cursors)
  {
    var check := CheckSteamId(steamid);
    if check.Err? {
      return Rejected(check.error), [];
    }
    var cfg := ConfigFor(options, check.value, appid, contextid, tradableOnly, language);
    var budget := if retries.Some? then retries.value else DefaultRetries;
    ghost var target := Fetch(cfg, InitialState(budget), outcomes);
    var cache := new DescriptionCache();
    var acc := Accumulator([], [], 1);
    var cursor: Option<string> := None;
    ghost var sent: seq<Option<string>> := [];
    requests := [];
    var i := 0;
    while i < |outcomes|
      invariant 0 <= i <= |outcomes|
      invariant requests == Requests(cfg, sent)
      invariant Remaining(cfg, target, sent, FetchState(cache.table, acc, cursor, budget), outcomes[i..])
      decreases |outcomes| - i
    {
      ghost var st := FetchState(cache.table, acc, cursor, budget);
      ghost var rest := outcomes[i..];
      assert rest[0] == outcomes[i] && rest[1..] == outcomes[i + 1..];
      ghost var step := Step(cfg, st, outcomes[i]);
      RequestsSnoc(cfg, sent, cursor);
      requests := requests + [BuildRequest(cfg, cursor)];
      ghost var before := sent;
      sent := sent + [cursor];
      var outcome := outcomes[i];
      i := i + 1;
      match outcome
      case TransportError(code, message) =>
        var reclassified := Classify(code, message);
        if reclassified.Some? {
          RemainingSettles(cfg, target, before, st, rest);
          return Rejected(reclassified.value), requests;
        }
        if budget > 1 {
          budget := budget - 1;
          assert step == Continue(FetchState(cache.table, acc, cursor, budget));
          RemainingContinues(cfg, target, before, st, rest);
        } else {
          RemainingSettles(cfg, target, before, st, rest);
          return Rejected(RequestFailed(code, message)), requests;
        }
      case Response(body) =>
        if IsEmptyInventory(body) {
          RemainingSettles(cfg, target, before, st, rest);
          return ResolvedEmptyArray, requests;
        }
        if !IsWellFormed(body) {
          RemainingSettles(cfg, target, before, st, rest);
          return Rejected(MalformedResponse(MalformedMessage(body))), requests;
        }
        var page := body.value;
        acc := ProcessPage(cache, page.descriptions.value, page.assets.value, tradableOnly, contextid, acc);
        if page.moreItems {
          cursor := page.lastAssetId;
          assert step == Continue(FetchState(cache.table, acc, cursor, budget));
          RemainingContinues(cfg, target, before, st, rest);
        } else {
          assert step == Settle(Resolved(acc.inventory, acc.currency, page.totalInventoryCount));
          RemainingSettles(cfg, target, before, st, rest);
          return Resolved(acc.inventory, acc.currency, page.totalInventoryCount), requests;
        }
    }
    result := Pending;
    assert outcomes[i..] == [];
  }

  // ---------------------------------------------------------------------------
  // Properties of the fetch.

  /** The cursor of the request after an attempt that did not settle: the
      page's `last_assetid` after a page, the same cursor after a failure. */
  function NextCursor(outcome: Outcome, cursor: Option<string>): Option<string> {
    match outcome
    case Response(body) => if body.Some? then body.value.lastAssetId else cursor
    case TransportError(_, _) => cursor
  }

  /** Outcomes after which the fetch can go on: a failure that is not
      reclassified, or a well-formed page that announces more items. */
  predicate MayContinue(outcome: Outcome) {
    match outcome
    case TransportError(code, message) => Classify(code, message).None?
    case Response(body) => !IsEmptyInventory(body) && IsWellFormed(body) && body.value.moreItems
  }

  /** The requests of a run: the first uses the starting cursor, each later
      one the cursor that the previous outcome leads to (pagination moves to
      `last_assetid`, a retry reissues the same cursor), and the run only went
      past outcomes that let it continue. */
  lemma {:induction false} FetchCursors(cfg: FetchConfig, st: FetchState, outcomes: seq<Outcome>)
    ensures var run := Fetch(cfg, st, outcomes);
      && |run.cursors| <= |outcomes|
      && (run.settlement.Pending? ==> |run.cursors| == |outcomes|)
      && (outcomes != [] ==> |run.cursors| > 0 && run.cursors[0] == st.cursor)
      && (forall k :: 0 <= k < |run.cursors| - 1 ==>
            MayContinue(outcomes[k]) && run.cursors[k + 1] == NextCursor(outcomes[k], run.cursors[k]))
    decreases |outcomes|
  {
    if outcomes != [] {
      var step := Step(cfg, st, outcomes[0]);
      if step.Continue? {
        var rest := Fetch(cfg, step.next, outcomes[1..]);
        FetchCursors(cfg, step.next, outcomes[1..]);
        var run := Fetch(cfg, st, outcomes);
        assert run.cursors == [st.cursor] + rest.cursors;
        forall k | 0 <= k < |run.cursors| - 1
          ensures MayContinue(outcomes[k]) && run.cursors[k + 1] == NextCursor(outcomes[k], run.cursors[k])
        {
          if k > 0 {
            assert outcomes[1..][k - 1] == outcomes[k];
          }
        }
      }
    }
  }

  /** The settlement an outcome forces whatever the state: a 403 or 404, an
      empty inventory, a malformed body. */
  function Terminal(outcome: Outcome): Option<Settlement> {
    match outcome
    case TransportError(code, message) =>
      var reclassified := Classify(code, message);
      if reclassified.Some? then Some(Rejected(reclassified.value)) else None
    case Response(body) =>
      if IsEmptyInventory(body) then Some(ResolvedEmptyArray)
      else if !IsWellFormed(body) then Some(Rejected(MalformedResponse(MalformedMessage(body))))
      else None
  }

  /** A 403, a 404, an empty inventory or a malformed body ends the fetch at
      the request it answers, whatever retries remain and whatever was
      accumulated: no further request is made. */
  lemma {:induction false} FetchStopsAtTerminal(cfg: FetchConfig, st: FetchState, outcomes: seq<Outcome>, k: int)
    requires 0 <= k < |outcomes| && Terminal(outcomes[k]).Some?
    requires forall j :: 0 <= j < k ==> Terminal(outcomes[j]).None?
    ensures var run := Fetch(cfg, st, outcomes);
      && |run.cursors| <= k + 1
      && (|run.cursors| == k + 1 ==> run.settlement == Terminal(outcomes[k]).value)
    decreases k
  {
    var step := Step(cfg, st, outcomes[0]);
    if k > 0 && step.Continue? {
      forall j | 0 <= j < k - 1 ensures Terminal(outcomes[1..][j]).None? {
        assert outcomes[1..][j] == outcomes[j + 1];
      }
      FetchStopsAtTerminal(cfg, step.next, outcomes[1..], k - 1);
    }
  }

  /** A resolved result comes from the last request made, which got a
      well-formed page without `more_items`; its count is the server's. */
  lemma {:induction false} FetchResolvedByLastPage(cfg: FetchConfig, st: FetchState, outcomes: seq<Outcome>)
    ensures var run := Fetch(cfg, st, outcomes);
      var n := |run.cursors|;
      run.settlement.Resolved? ==>
        && 0 < n <= |outcomes|
        && outcomes[n - 1].Response? && IsWellFormed(outcomes[n - 1].body)
        && !IsEmptyInventory(outcomes[n - 1].body) && !outcomes[n - 1].body.value.moreItems
        && run.settlement.totalInventoryCount == outcomes[n - 1].body.value.totalInventoryCount
    decreases |outcomes|
  {
    if outcomes != [] {
      var step := Step(cfg, st, outcomes[0]);
      if step.Continue? {
        FetchResolvedByLastPage(cfg, step.next, outcomes[1..]);
        FetchCursors(cfg, step.next, outcomes[1..]);
        var n := |Fetch(cfg, st, outcomes).cursors|;
        if n > 1 {
          assert outcomes[1..][n - 2] == outcomes[n - 1];
        }
      }
    }
  }

  function CountFailures(outcomes: seq<Outcome>): nat
    decreases |outcomes|
  {
    if outcomes == [] then 0
    else (if outcomes[0].TransportError? then 1 else 0) + CountFailures(outcomes[1..])
  }

  /** The number of calls a `retries` budget allows: at least one. */
  function Attempts(retries: int): int {
    if retries > 1 then retries else 1
  }

  /** The retry budget is shared by all pages: a run meets at most
      Attempts(retries) failed requests in total, and one rejected with the
      transport's own error met exactly that many. */
  lemma {:induction false} FetchRetryBudget(cfg: FetchConfig, st: FetchState, outcomes: seq<Outcome>)
    ensures var run := Fetch(cfg, st, outcomes);
      var n := |run.cursors|;
      && n <= |outcomes|
      && CountFailures(outcomes[..n]) <= Attempts(st.retries)
      && (run.settlement.Rejected? && run.settlement.failure.RequestFailed? ==>
            CountFailures(outcomes[..n]) == Attempts(st.retries))
    decreases |outcomes|
  {
    FetchCursors(cfg, st, outcomes);
    if outcomes != [] {
      var n := |Fetch(cfg, st, outcomes).cursors|;
      var step := Step(cfg, st, outcomes[0]);
      if step.Continue? {
        FetchRetryBudget(cfg, step.next, outcomes[1..]);
        assert outcomes[..n][1..] == outcomes[1..][..n - 1];
      } else {
        assert outcomes[..n] == [outcomes[0]];
      }
    }
  }

  /** What a resolved settlement promises about its two lists. */
  ghost predicate ResolvedWellFormed(tradableOnly: bool, contextid: string, s: Settlement) {
    s.Resolved? ==> ListsWellFormed(tradableOnly, contextid, s.inventory, s.currency)
  }

  /** The accumulator invariant of two finished lists, counter one past their total length. */
  ghost predicate ListsWellFormed(tradableOnly: bool, contextid: string, inventory: seq<Item>, currency: seq<Item>) {
    WellFormed(tradableOnly, contextid, Accumulator(inventory, currency, 1 + |inventory| + |currency|))
  }

  /** Neither does a settlement drop what was accumulated before it. */
  predicate Extends(acc: Accumulator, s: Settlement) {
    s.Resolved? ==> acc.inventory <= s.inventory && acc.currency <= s.currency
  }

  /** Processing one well-formed page keeps the accumulator invariant and only appends. */
  lemma PageKeepsWellFormed(cfg: FetchConfig, st: FetchState, body: Body)
    requires WellFormed(cfg.tradableOnly, cfg.contextid, st.acc)
    requires body.assets.Some? && body.descriptions.Some?
    ensures var page := ProcessAssets(cfg.tradableOnly, cfg.contextid, body.descriptions.value,
                                      PageState(st.table, st.acc), body.assets.value);
      && WellFormed(cfg.tradableOnly, cfg.contextid, page.acc)
      && ListsWellFormed(cfg.tradableOnly, cfg.contextid, page.acc.inventory, page.acc.currency)
      && st.acc.inventory <= page.acc.inventory && st.acc.currency <= page.acc.currency
  {
    var ps := PageState(st.table, st.acc);
    var page := ProcessAssets(cfg.tradableOnly, cfg.contextid, body.descriptions.value, ps, body.assets.value);
    ProcessKeepsWellFormed(cfg.tradableOnly, cfg.contextid, body.descriptions.value, ps, body.assets.value);
    ProcessMatchesReference(cfg.tradableOnly, cfg.contextid, body.descriptions.value, ps, body.assets.value);
    assert page.acc == Accumulator(page.acc.inventory, page.acc.currency, 1 + |page.acc.inventory| + |page.acc.currency|);
  }

  /** One step keeps the accumulator invariant and only appends. */
  lemma StepKeepsWellFormed(cfg: FetchConfig, st: FetchState, outcome: Outcome)
    requires WellFormed(cfg.tradableOnly, cfg.contextid, st.acc)
    ensures var step := Step(cfg, st, outcome);
      && (step.Continue? ==>
            && WellFormed(cfg.tradableOnly, cfg.contextid, step.next.acc)
            && st.acc.inventory <= step.next.acc.inventory
            && st.acc.currency <= step.next.acc.currency)
      && (step.Settle? ==>
            ResolvedWellFormed(cfg.tradableOnly, cfg.contextid, step.settlement) && Extends(st.acc, step.settlement))
  {
    var step := Step(cfg, st, outcome);
    if outcome.Response? && !IsEmptyInventory(outcome.body) && IsWellFormed(outcome.body) {
      var body := outcome.body.value;
      var page := ProcessAssets(cfg.tradableOnly, cfg.contextid, body.descriptions.value,
                                PageState(st.table, st.acc), body.assets.value);
      PageKeepsWellFormed(cfg, st, body);
      if body.moreItems {
        assert step == Continue(FetchState(page.table, page.acc, body.lastAssetId, st.retries));
      } else {
        assert step == Settle(Resolved(page.acc.inventory, page.acc.currency, body.totalInventoryCount));
      }
    } else if step.Continue? {
      assert step.next.acc == st.acc;
    } else {
      assert !step.settlement.Resolved?;
    }
  }

  /** Whatever a resolved fetch returns keeps the accumulator invariant (every
      item passed the filter and is in the list of its kind, and the
      positions are 1, 2, ..., n across both lists, increasing in each), and
      extends what had been accumulated before. */
  lemma {:induction false} FetchResolvedWellFormed(cfg: FetchConfig, st: FetchState, outcomes: seq<Outcome>)
    requires WellFormed(cfg.tradableOnly, cfg.contextid, st.acc)
    ensures var s := Fetch(cfg, st, outcomes).settlement;
      ResolvedWellFormed(cfg.tradableOnly, cfg.contextid, s) && Extends(st.acc, s)
    decreases |outcomes|
  {
    if outcomes != [] {
      var step := Step(cfg, st, outcomes[0]);
      StepKeepsWellFormed(cfg, st, outcomes[0]);
      if step.Continue? {
        var rest := Fetch(cfg, step.next, outcomes[1..]).settlement;
        FetchResolvedWellFormed(cfg, step.next, outcomes[1..]);
        FetchContinues(cfg, st, outcomes);
        assert Fetch(cfg, st, outcomes).settlement == rest;
      } else {
        FetchSettles(cfg, st, outcomes);
        assert Fetch(cfg, st, outcomes).settlement == step.settlement;
      }
    }
  }

  /** The same for a whole `get`, which starts from empty lists and position 1. */
  lemma GetResolvedWellFormed(cfg: FetchConfig, retries: int, outcomes: seq<Outcome>)
    ensures ResolvedWellFormed(cfg.tradableOnly, cfg.contextid, Fetch(cfg, InitialState(retries), outcomes).settlement)
  {
    InitialWellFormed(cfg.tradableOnly, cfg.contextid);
    FetchResolvedWellFormed(cfg, InitialState(retries), outcomes);
  }

  /** With `retries = 3` and `tradableOnly`, a timeout followed by one page of
      two assets (one tradable, one not) resolves with exactly the tradable
      one at position 1 and the server's count, after two requests for the
      same first page. */
  lemma RetryThenSinglePage(cfg: FetchConfig, tradable: Description, plain: Description, a1: Asset, a2: Asset)
    requires cfg.tradableOnly
    requires tradable.tradable && !plain.tradable
    requires AssetKey(a1) == DescKey(tradable) && AssetKey(a2) == DescKey(plain) && DescKey(tradable) != DescKey(plain)
    requires !IsCurrency(a1)
    ensures var page := Body(true, Some(2), Some([a1, a2]), Some([tradable, plain]), false, None, None, None);
      Fetch(cfg, InitialState(3), [TransportError(None, "ETIMEDOUT"), Response(Some(page))])
        == Run(Resolved([Item(a1, Some(tradable), cfg.contextid, 1)], [], Some(2)), [None, None])
  {
    var descriptions := [tradable, plain];
    var merged := Merge(map[], descriptions);
    assert descriptions[..1] == [tradable] && [tradable][..0] == [];
    assert Merge(map[], [tradable]) == map[DescKey(tradable) := tradable];
    assert merged == map[DescKey(tradable) := tradable, DescKey(plain) := plain];
    var s0 := PageState(map[], Accumulator([], [], 1));
    var s1 := PageState(merged, Accumulator([Item(a1, Some(tradable), cfg.contextid, 1)], [], 2));
    assert Lookup(map[], descriptions, AssetKey(a1)) == LookupResult(merged, Some(tradable));
    assert Lookup(merged, descriptions, AssetKey(a2)) == LookupResult(merged, Some(plain));
    assert [a1, a2][0] == a1 && [a1, a2][1..] == [a2] && [a2][1..] == [] && [a2][0] == a2;
    assert Keep(true, Some(tradable)) && !Keep(true, Some(plain));
    assert Append(s0.acc, Item(a1, Some(tradable), cfg.contextid, 1)) == s1.acc;
    assert ProcessAssets(true, cfg.contextid, descriptions, s0, [a1, a2])
        == ProcessAssets(true, cfg.contextid, descriptions, s1, [a2]);
    assert ProcessAssets(true, cfg.contextid, descriptions, s1, [a2]) == s1;
  }
}
