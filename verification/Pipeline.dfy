/** One model call through the mesh, from its gates to its settlement, with the books it
    keeps: ledger, holds, spans, trace totals, response cache
    (pipeline.py, ledger.py, cache.py). */
module Pipeline {
  import opened Wrappers
  import opened Cost
  import opened CacheKey
  import Quotas

  datatype Purpose = General | Guardrail | Eval

  /** `owner` is the owning project of a project-scoped connection. */
  datatype Connection = Connection(id: Option<nat>, owner: Option<nat>, provider: string, ttl: int, policy: nat)

  datatype Context = Context(projectId: Option<nat>, userId: Option<nat>, purpose: Purpose, trace: Option<nat>)

  datatype Request = Request(model: string, messages: seq<Message>, maxTokens: nat, temperature: real)

  datatype Completion = Completion(content: string, tokensIn: nat, tokensOut: nat)

  /** The stages whose insides are elsewhere: the residency gate, the guardrails before and
      after, provider construction, token estimates, prices, and the text of an id. */
  datatype Env = Env(
    residencyOk: (Connection, Context) -> bool,
    pre: (nat, seq<Message>) -> Option<seq<Message>>,
    post: (nat, string) -> bool,
    builds: Connection -> bool,
    estimate: string -> nat,
    price: (string, string) -> Option<Price>,
    idText: nat -> string)

  datatype Status = Ok | Blocked | Error

  /** A ledger row. `key` and `answer` say what the call was about. */
  datatype CallRow = CallRow(call: nat, status: Status, cost: nat, hit: bool, trace: nat, key: RequestKey,
      temperature: real, answer: string)

  datatype Span = Span(trace: nat, cost: nat, ok: bool)

  datatype Totals = Totals(count: nat, cost: nat)

  datatype Entry = Entry(content: string, tokensIn: nat, tokensOut: nat, expires: int)

  /** How a call ends for its caller. */
  datatype Exit =
    | Forbidden
    | ResidencyBlocked
    | InputRejected
    | ProviderUnavailable
    | QuotaExceeded(status: Quotas.Status)
    | ProviderFailed
    | OutputRejected
    | Answered(content: string, cost: nat, hit: bool)

  /** A call past its reservation: what it will settle. */
  datatype Token = Token(call: nat, conn: Connection, context: Context, request: Request, cached: Option<Entry>)

  datatype Started = Refused(exit: Exit) | InFlight(token: Token)

  // ---- Pure parts ----

  /** _enforce_connection_scope. */
  predicate MayUse(conn: Connection, context: Context) {
    conn.owner.Some? ==> context.projectId == conn.owner
  }

  function Scopes(conn: Connection, context: Context): (r: seq<Quotas.Scope>)
    ensures Quotas.Distinct(r)
  {
    (if context.projectId.Some? then [Quotas.Scope(0, context.projectId.value)] else [])
      + (if context.userId.Some? then [Quotas.Scope(1, context.userId.value)] else [])
      + (if conn.id.Some? then [Quotas.Scope(2, conn.id.value)] else [])
  }

  function ScopeSet(conn: Connection, context: Context): set<Quotas.Scope> {
    set s | s in Scopes(conn, context)
  }

  function PromptEstimate(env: Env, messages: seq<Message>): nat {
    if messages == [] then 0
    else PromptEstimate(env, messages[..|messages| - 1]) + env.estimate(messages[|messages| - 1].content)
  }

  /** What the call could cost if the model used every token it may. */
  function WorstCase(env: Env, conn: Connection, request: Request): nat {
    ComputeCost(env.price(conn.provider, request.model), PromptEstimate(env, request.messages), request.maxTokens)
  }

  function Key(env: Env, conn: Connection, context: Context, request: Request): RequestKey {
    RequestKey(
      if conn.id.Some? then Some(env.idText(conn.id.value)) else None,
      if context.projectId.Some? then Some(env.idText(context.projectId.value)) else None,
      request.model, request.maxTokens, FourDecimals(request.temperature), request.messages)
  }

  predicate IsCacheable(ttl: int, purpose: Purpose, temperature: real) {
    ttl > 0 && purpose == General && temperature == 0.0
  }

  /** The cost a call settles to: nothing for a hit. */
  function SettledCost(env: Env, t: Token, result: Completion): nat {
    if t.cached.Some? then 0
    else ComputeCost(env.price(t.conn.provider, t.request.model), result.tokensIn, result.tokensOut)
  }

  /** A call whose reported tokens stay within the estimate and max_tokens settles within its
      hold, hit or not. */
  lemma SettlesWithinHold(env: Env, t: Token, result: Completion)
    requires result.tokensIn <= PromptEstimate(env, t.request.messages) && result.tokensOut <= t.request.maxTokens
    ensures SettledCost(env, t, result) <= WorstCase(env, t.conn, t.request)
  {
    ActualWithinHold(env.price(t.conn.provider, t.request.model), result.tokensIn, result.tokensOut,
      PromptEstimate(env, t.request.messages), t.request.maxTokens);
  }

  // ---- Trace totals ----

  function SpanCount(spans: seq<Span>, trace: nat): nat {
    if spans == [] then 0
    else SpanCount(spans[..|spans| - 1], trace) + if spans[|spans| - 1].trace == trace then 1 else 0
  }

  function SpanCost(spans: seq<Span>, trace: nat): nat {
    if spans == [] then 0
    else
      var last := spans[|spans| - 1];
      SpanCost(spans[..|spans| - 1], trace) + if last.trace == trace then last.cost else 0
  }

  /** Every trace's totals are the count and cost of its spans, and every span has a trace. */
  ghost predicate TotalsAgree(spans: seq<Span>, traces: map<nat, Totals>) {
    && (forall t :: t in traces ==> traces[t] == Totals(SpanCount(spans, t), SpanCost(spans, t)))
    && (forall i :: 0 <= i < |spans| ==> spans[i].trace in traces)
  }

  function EnsureTrace(traces: map<nat, Totals>, t: nat): map<nat, Totals> {
    if t in traces then traces else traces[t := Totals(0, 0)]
  }

  lemma {:induction false} NoSpansYet(spans: seq<Span>, t: nat)
    requires forall i :: 0 <= i < |spans| ==> spans[i].trace != t
    ensures SpanCount(spans, t) == 0 && SpanCost(spans, t) == 0
  {
    if spans != [] {
      NoSpansYet(spans[..|spans| - 1], t);
    }
  }

  function AddSpan(traces: map<nat, Totals>, span: Span): map<nat, Totals>
    requires span.trace in traces
  {
    traces[span.trace := Totals(traces[span.trace].count + 1, traces[span.trace].cost + span.cost)]
  }

  /** Recording a span under a trace - new or shared - keeps every trace's totals right. */
  lemma SpanKeepsTotals(spans: seq<Span>, traces: map<nat, Totals>, span: Span)
    requires TotalsAgree(spans, traces)
    ensures TotalsAgree(spans + [span], AddSpan(EnsureTrace(traces, span.trace), span))
  {
    if span.trace !in traces {
      NoSpansYet(spans, span.trace);
    }
    assert (spans + [span])[..|spans|] == spans;
  }

  // ---- The cache ----

  /** Every entry was stored by an accepted, unhit call at temperature zero for that very key
      - so of the same project and connection. */
  ghost predicate CacheOk(calls: seq<CallRow>, cache: map<RequestKey, Entry>) {
    forall k :: k in cache ==> exists i :: 0 <= i < |calls| && Stores(calls[i], k, cache[k].content)
  }

  // A call that may have stored this answer under this key.
  predicate Stores(row: CallRow, k: RequestKey, content: string) {
    row.key == k && row.status == Status.Ok && !row.hit && row.temperature == 0.0 && row.answer == content
  }

  /** What a lookup may return: an unexpired entry. */
  function Lookup(cache: map<RequestKey, Entry>, k: RequestKey, now: int): Option<Entry> {
    if k in cache && cache[k].expires > now then Some(cache[k]) else None
  }

  /** What a deterministic provider says: a function of connection, model, redacted messages,
      max_tokens and temperature. */
  type Provider = (Option<nat>, Request) -> string

  /** Every entry is what the provider says to every cold request of its key. */
  ghost predicate CacheTrue(env: Env, cache: map<RequestKey, Entry>, provider: Provider) {
    forall conn, context, request ::
      Key(env, conn, context, request) in cache && request.temperature == 0.0 ==>
        cache[Key(env, conn, context, request)].content == provider(conn.id, request)
  }

  ghost predicate TokenTrue(t: Token, provider: Provider) {
    t.cached.Some? ==> t.cached.value.content == provider(t.conn.id, t.request)
  }

  /** The cache and whatever open calls have taken from it. */
  ghost predicate Truthful(env: Env, cache: map<RequestKey, Entry>, open: map<nat, Token>, provider: Provider) {
    CacheTrue(env, cache, provider) && forall c :: c in open ==> TokenTrue(open[c], provider)
  }

  ghost predicate IdsDistinct(env: Env) {
    forall a, b :: env.idText(a) == env.idText(b) ==> a == b
  }

  predicate Cacheable(t: Token) {
    IsCacheable(t.conn.ttl, t.context.purpose, t.request.temperature)
  }

  /** All that is asked of the provider: on a cacheable call its answer is the deterministic
      one. Warm, guardrail and eval calls may answer anything. */
  ghost predicate Deterministic(conn: Connection, context: Context, request: Request, attempt: Option<Completion>,
      provider: Provider) {
    IsCacheable(conn.ttl, context.purpose, request.temperature) && attempt.Some? ==>
      attempt.value.content == provider(conn.id, request)
  }

  // What a cold request's key leaves open is nothing the provider looks at.
  lemma SameKeySameAnswer(env: Env, conn: Connection, context: Context, request: Request, conn': Connection,
      context': Context, request': Request, provider: Provider)
    requires IdsDistinct(env) && Key(env, conn, context, request) == Key(env, conn', context', request')
    requires request.temperature == 0.0 && request'.temperature == 0.0
    ensures provider(conn.id, request) == provider(conn'.id, request')
  {
    assert Key(env, conn, context, request).connectionId == Key(env, conn', context', request').connectionId;
    assert request == request';
  }

  lemma StoringKeepsTrue(env: Env, cache: map<RequestKey, Entry>, t: Token, e: Entry, provider: Provider)
    requires IdsDistinct(env) && CacheTrue(env, cache, provider) && t.request.temperature == 0.0
      && e.content == provider(t.conn.id, t.request)
    ensures CacheTrue(env, cache[Key(env, t.conn, t.context, t.request) := e], provider)
  {
    var k := Key(env, t.conn, t.context, t.request);
    forall conn, context, request | Key(env, conn, context, request) in cache[k := e] && request.temperature == 0.0
      ensures cache[k := e][Key(env, conn, context, request)].content == provider(conn.id, request)
    {
      if Key(env, conn, context, request) == k {
        SameKeySameAnswer(env, conn, context, request, t.conn, t.context, t.request, provider);
      }
    }
  }

  /** What a caller is shown of an answer: it, or that it was rejected. */
  function Shown(env: Env, conn: Connection, content: string): Option<string> {
    if env.post(conn.policy, content) then Some(content) else None
  }

  function ShownBy(e: Exit): Option<string> {
    if e.Answered? then Some(e.content) else None
  }

  /** Only calls of this project and connection, with these messages, have this key. */
  ghost predicate SameSource(env: Env, k: RequestKey, conn: Connection, context: Context, request: Request) {
    forall conn', context', request' :: k == Key(env, conn', context', request') ==>
      conn'.id == conn.id && context'.projectId == context.projectId && request'.messages == request.messages
  }

  /** A hit was stored by an accepted call of the same key at temperature zero, is unexpired,
      and - ids having distinct texts - was for the same project and connection. */
  lemma HitProvenance(env: Env, calls: seq<CallRow>, cache: map<RequestKey, Entry>, conn: Connection, context: Context,
      request: Request, now: int)
    requires CacheOk(calls, cache) && Lookup(cache, Key(env, conn, context, request), now).Some?
    requires IdsDistinct(env)
    ensures Lookup(cache, Key(env, conn, context, request), now).value.expires > now
    ensures exists i :: (0 <= i < |calls|
      && Stores(calls[i], calls[i].key, Lookup(cache, Key(env, conn, context, request), now).value.content)
      && SameSource(env, calls[i].key, conn, context, request))
  {
    var k := Key(env, conn, context, request);
    var i :| 0 <= i < |calls| && Stores(calls[i], k, cache[k].content);
    forall conn', context', request' | k == Key(env, conn', context', request')
      ensures conn'.id == conn.id && context'.projectId == context.projectId && request'.messages == request.messages
    {
      assert k.connectionId == Key(env, conn', context', request').connectionId
        && k.projectId == Key(env, conn', context', request').projectId;
    }
  }

  lemma StoreKeepsCache(calls: seq<CallRow>, cache: map<RequestKey, Entry>, row: CallRow, stored: Option<Entry>)
    requires CacheOk(calls, cache)
    requires stored.Some? ==>
      row.status == Status.Ok && !row.hit && row.temperature == 0.0 && row.answer == stored.value.content
    ensures CacheOk(calls + [row], if stored.Some? then cache[row.key := stored.value] else cache)
  {
    var cache' := if stored.Some? then cache[row.key := stored.value] else cache;
    var calls' := calls + [row];
    forall k | k in cache'
      ensures exists i :: 0 <= i < |calls'| && Stores(calls'[i], k, cache'[k].content)
    {
      if stored.Some? && k == row.key {
        assert calls'[|calls|] == row;
      } else {
        var i :| 0 <= i < |calls| && Stores(calls[i], k, cache[k].content);
        assert calls'[i] == calls[i];
      }
    }
  }

  // ---- The books ----

  ghost predicate HoldsMatch(holds: seq<Quotas.Hold>, open: set<nat>, granted: nat) {
    forall i :: 0 <= i < |holds| ==> holds[i].call < granted && (holds[i].settled == None <==> holds[i].call in open)
  }

  ghost predicate LedgersMatch(calls: seq<CallRow>, ledger: seq<Quotas.Row>) {
    |calls| == |ledger| && forall i :: 0 <= i < |calls| ==> calls[i].cost == ledger[i].cost
  }

  /** Ledger rows and open reservations account for every reservation granted; a hold row is
      open exactly while its reservation is; the two ledgers agree. */
  ghost predicate Accounted(calls: seq<CallRow>, granted: nat, open: map<nat, Token>, holds: seq<Quotas.Hold>,
      ledger: seq<Quotas.Row>) {
    && |calls| + |open| == granted && (forall c :: c in open ==> c < granted && open[c].call == c)
    && (forall c :: c in open && open[c].cached.Some? ==> Cacheable(open[c]))
    && HoldsMatch(holds, open.Keys, granted) && LedgersMatch(calls, ledger)
  }

  lemma GrantingAccounts(calls: seq<CallRow>, granted: nat, open: map<nat, Token>, holds: seq<Quotas.Hold>,
      ledger: seq<Quotas.Row>,
      t: Token, scopes: seq<Quotas.Scope>, now: int, estimate: nat)
    requires Accounted(calls, granted, open, holds, ledger) && t.call == granted && (t.cached.Some? ==> Cacheable(t))
    ensures Accounted(calls, granted + 1, open[granted := t], holds + Quotas.NewHolds(granted, scopes, now, estimate),
      ledger)
  {
    assert open[granted := t].Keys == open.Keys + {granted};
    assert |open[granted := t].Keys| == |open.Keys| + 1;
  }

  lemma SettlingAccounts(calls: seq<CallRow>, granted: nat, open: map<nat, Token>, holds: seq<Quotas.Hold>,
      ledger: seq<Quotas.Row>,
      call: nat, row: CallRow, ledgerRow: Quotas.Row)
    requires Accounted(calls, granted, open, holds, ledger) && call in open && row.cost == ledgerRow.cost
    ensures Accounted(calls + [row], granted, open - {call}, Quotas.MarkSettled(holds, call, row.cost),
      ledger + [ledgerRow])
  {
    assert open.Keys == (open - {call}).Keys + {call};
    assert |open.Keys| == |(open - {call}).Keys| + 1;
  }

  lemma StaysTrue(env: Env, cache: map<RequestKey, Entry>, open: map<nat, Token>, t: Token, stored: Option<Entry>,
      provider: Provider)
    requires IdsDistinct(env) && Truthful(env, cache, open, provider)
    requires stored.Some? ==> t.request.temperature == 0.0 && stored.value.content == provider(t.conn.id, t.request)
    ensures var key := Key(env, t.conn, t.context, t.request);
            var cache' := if stored.Some? then cache[key := stored.value] else cache;
            Truthful(env, cache', open - {t.call}, provider)
  {
    if stored.Some? {
      StoringKeepsTrue(env, cache, t, stored.value, provider);
    }
  }

  /** The request as the provider and the cache key see it. */
  function Redacted(env: Env, conn: Connection, request: Request): Request {
    var redacted := env.pre(conn.policy, request.messages);
    if redacted.Some? then request.(messages := redacted.value) else request
  }

  /** Which gate stops a call, in the order they stand: connection scope, residency,
      guardrails, provider construction. */
  function GateExit(env: Env, conn: Connection, request: Request, context: Context): Option<Exit> {
    if !MayUse(conn, context) then Some(Forbidden)
    else if !env.residencyOk(conn, context) then Some(ResidencyBlocked)
    else if env.pre(conn.policy, request.messages) == None then Some(InputRejected)
    else if !env.builds(conn) then Some(ProviderUnavailable)
    else None
  }

  /** One call as a caller makes it: `attempt` is what the provider would answer now. */
  datatype Input = Input(conn: Connection, request: Request, context: Context, attempt: Option<Completion>,
      freshTrace: nat, now: int, later: int)

  /** What the pipeline without a cache shows of it. */
  function Uncached(env: Env, input: Input): Option<string>
    requires input.attempt.Some?
  {
    Shown(env, input.conn, input.attempt.value.content)
  }

  ghost predicate Predictable(env: Env, input: Input, provider: Provider) {
    Deterministic(input.conn, input.context, Redacted(env, input.conn, input.request), input.attempt, provider)
  }

  class Mesh {
    const env: Env
    const quota: Quotas.QuotaStore
    var calls: seq<CallRow>
    var spans: seq<Span>
    var traces: map<nat, Totals>
    var cache: map<RequestKey, Entry>
    // Reservations granted so far, and those not yet settled.
    var granted: nat
    var open: map<nat, Token>

    constructor (env0: Env, cfg: Quotas.Config)
      ensures Valid() && fresh(quota) && calls == [] && open == map[] && cache == map[]
    {
      env := env0;
      quota := new Quotas.QuotaStore(cfg);
      calls, spans, traces, cache, granted, open := [], [], map[], map[], 0, map[];
    }

    ghost predicate Valid()
      reads this, quota
    {
      && TotalsAgree(spans, traces) && CacheOk(calls, cache) && |spans| == |calls|
      && Accounted(calls, granted, open, quota.holds, quota.ledger)
    }

    ghost predicate True(provider: Provider)
      reads this
    {
      IdsDistinct(env) && Truthful(env, cache, open, provider)
    }

    /** The gates in order, the redaction, the reservation and the cache lookup. An exit here
        leaves every book as it was; a call let through holds its worst case on each budgeted
        scope and has looked the cache up for its own redacted request. */
    method Begin(conn: Connection, request: Request, context: Context, now: int, ghost provider: Provider)
      returns (r: Started)
      requires Valid()
      modifies this`granted, this`open, quota
      ensures Valid()
      ensures old(True(provider)) ==> True(provider)
      ensures match GateExit(env, conn, request, context)
        case Some(e) => r == Refused(e)
        case None =>
          (r.InFlight? <==>
            forall s :: s in Scopes(conn, context) ==>
              old(quota.Fits(s, WorstCase(env, conn, Redacted(env, conn, request)), now)))
          && (r.Refused? ==> r.exit.QuotaExceeded?)
      ensures r.Refused? ==>
        granted == old(granted) && open == old(open) && quota.holds == old(quota.holds)
          && quota.ledger == old(quota.ledger)
      ensures r.InFlight? ==>
        var t := r.token;
        && t.request == Redacted(env, conn, request) && t.conn == conn && t.context == context
        && t.call == old(granted) && granted == old(granted) + 1 && open == old(open)[t.call := t]
        && t.call !in old(open)
        && quota.ledger == old(quota.ledger)
        && quota.holds == old(quota.holds) + NewHoldsOf(t.call, conn, context, t.request, now)
        && t.cached == if Cacheable(t) then Lookup(cache, Key(env, conn, context, t.request), now) else None
    {
      var stopped := GateExit(env, conn, request, context);
      if stopped.Some? {
        return Refused(stopped.value);
      }
      var asked := Redacted(env, conn, request);
      var reserved := quota.Reserve(granted, Scopes(conn, context), WorstCase(env, conn, asked), now);
      if reserved.Refused? {
        return Refused(QuotaExceeded(reserved.status));
      }
      var t := Grant(conn, context, asked, now, old(quota.holds));
      return InFlight(t);
    }

    // The reservation has been made: the call is in flight, with what the cache has for it.
    method Grant(conn: Connection, context: Context, asked: Request, now: int, ghost holds: seq<Quotas.Hold>)
      returns (t: Token)
      requires TotalsAgree(spans, traces) && CacheOk(calls, cache) && |spans| == |calls|
      requires Accounted(calls, granted, open, holds, quota.ledger)
      requires quota.holds == holds + NewHoldsOf(granted, conn, context, asked, now)
      modifies this`granted, this`open
      ensures Valid()
      ensures t.call == old(granted) && t.conn == conn && t.context == context && t.request == asked
      ensures granted == old(granted) + 1 && open == old(open)[t.call := t] && t.call !in old(open)
      ensures t.cached == if Cacheable(t) then Lookup(cache, Key(env, conn, context, asked), now) else None
    {
      var cached := if IsCacheable(conn.ttl, context.purpose, asked.temperature)
        then Lookup(cache, Key(env, conn, context, asked), now) else None;
      t := Token(granted, conn, context, asked, cached);
      GrantingAccounts(calls, granted, open, holds, quota.ledger, t,
        Quotas.Budgeted(quota.cfg, Quotas.InOrder(Scopes(conn, context))), now, WorstCase(env, conn, asked));
      open, granted := open[granted := t], granted + 1;
    }

    // The worst case of a call, once on each of its budgeted scopes.
    function NewHoldsOf(call: nat, conn: Connection, context: Context, asked: Request, now: int): seq<Quotas.Hold>
    {
      Quotas.NewHolds(call, Quotas.Budgeted(quota.cfg, Quotas.InOrder(Scopes(conn, context))), now,
        WorstCase(env, conn, asked))
    }

    /** ensure_trace and record_span: the trace's totals move with its spans. */
    method RecordSpan(span: Span)
      requires TotalsAgree(spans, traces)
      modifies this`spans, this`traces
      ensures TotalsAgree(spans, traces) && spans == old(spans) + [span]
    {
      SpanKeepsTotals(spans, traces, span);
      traces := EnsureTrace(traces, span.trace);
      spans, traces := spans + [span], AddSpan(traces, span);
    }

    /** Settling: one ledger row, one span, every hold of the call closed at the row's cost,
        and nothing else in the books but the cache entry of an accepted fresh answer. */
    method Settle(t: Token, status: Status, result: Completion, cost: nat, freshTrace: nat, now: int)
      requires Valid() && t.call in open
      modifies this`calls, this`spans, this`traces, this`cache, this`open, quota
      ensures Valid() && open == old(open) - {t.call}
      ensures calls == old(calls) + [RowOf(t, status, result, cost, freshTrace)]
      ensures spans == old(spans) + [Span(TraceOf(t, freshTrace), cost, status == Status.Ok)]
      ensures quota.ledger == old(quota.ledger) + [Quotas.Row(ScopeSet(t.conn, t.context), now, cost)]
      ensures quota.holds == Quotas.MarkSettled(old(quota.holds), t.call, cost)
      ensures cache == match Storable(t, status, result, now)
        case None => old(cache)
        case Some(e) => old(cache)[Key(env, t.conn, t.context, t.request) := e]
    {
      var row := RowOf(t, status, result, cost, freshTrace);
      RecordSpan(Span(TraceOf(t, freshTrace), cost, status == Status.Ok));
      var stored := Storable(t, status, result, now);
      StoreKeepsCache(calls, cache, row, stored);
      if stored.Some? {
        cache := cache[row.key := stored.value];
      }
      SettlingAccounts(calls, granted, open, quota.holds, quota.ledger, t.call, row,
        Quotas.Row(ScopeSet(t.conn, t.context), now, cost));
      calls, open := calls + [row], open - {t.call};
      quota.Settle(t.call, ScopeSet(t.conn, t.context), cost, now);
    }

    function TraceOf(t: Token, freshTrace: nat): nat {
      if t.context.trace.Some? then t.context.trace.value else freshTrace
    }

    function RowOf(t: Token, status: Status, result: Completion, cost: nat, freshTrace: nat): CallRow {
      CallRow(t.call, status, cost, t.cached.Some?, TraceOf(t, freshTrace), Key(env, t.conn, t.context, t.request),
        t.request.temperature, result.content)
    }

    // Only an accepted answer that did not come from the cache, to a cacheable request.
    function Storable(t: Token, status: Status, result: Completion, now: int): Option<Entry> {
      if status == Status.Ok && t.cached == None && Cacheable(t)
      then Some(Entry(result.content, result.tokensIn, result.tokensOut, now + t.conn.ttl)) else None
    }

    // The answer, from the cache or the provider, and what the check of it says.
    method Judge(t: Token, attempt: Option<Completion>)
      returns (status: Status, result: Completion, cost: nat, r: Exit)
      ensures t.cached.Some? ==> cost == 0 && result.content == t.cached.value.content
      ensures t.cached == None && attempt.Some? ==> result == attempt.value && cost == SettledCost(env, t, result)
      ensures t.cached == None && attempt == None ==> r == ProviderFailed && status == Error && cost == 0
      ensures t.cached.Some? || attempt.Some? ==>
        if env.post(t.conn.policy, result.content)
        then r == Answered(result.content, cost, t.cached.Some?) && status == Status.Ok
        else r == OutputRejected && status == Blocked
    {
      if t.cached == None && attempt == None {
        return Error, Completion("", 0, 0), 0, ProviderFailed;
      }
      result := if t.cached.Some?
        then Completion(t.cached.value.content, t.cached.value.tokensIn, t.cached.value.tokensOut) else attempt.value;
      cost := SettledCost(env, t, result);
      if env.post(t.conn.policy, result.content) {
        status, r := Status.Ok, Answered(result.content, cost, t.cached.Some?);
      } else {
        status, r := Blocked, OutputRejected;
      }
    }

    /** The provider's turn, unless the cache had the answer; then the check of the answer,
        and one settlement whichever way it goes. While the provider is deterministic on
        cacheable calls the books stay true, and the caller is shown what it would be shown
        of the provider's own answer. */
    method Complete(t: Token, attempt: Option<Completion>, freshTrace: nat, now: int, ghost provider: Provider)
      returns (r: Exit)
      requires Valid() && t.call in open && open[t.call] == t
      modifies this`calls, this`spans, this`traces, this`cache, this`open, quota
      ensures Valid() && open == old(open) - {t.call}
      ensures |calls| == |old(calls)| + 1 && calls[..|old(calls)|] == old(calls)
      ensures var row := calls[|old(calls)|];
        && row.call == t.call && row.hit == t.cached.Some? && row.key == Key(env, t.conn, t.context, t.request)
        && spans == old(spans) + [Span(row.trace, row.cost, row.status == Status.Ok)]
        && quota.ledger == old(quota.ledger) + [Quotas.Row(ScopeSet(t.conn, t.context), now, row.cost)]
        && quota.holds == Quotas.MarkSettled(old(quota.holds), t.call, row.cost)
        && (row.hit ==> row.cost == 0) && (r.ProviderFailed? ==> row.cost == 0 && row.status == Error)
        && (r.OutputRejected? ==> row.status == Blocked)
        && (r.Answered? ==> row.status == Status.Ok && row.cost == r.cost)
        && (t.cached == None && attempt.Some? ==> row.cost == SettledCost(env, t, attempt.value))
      ensures r.ProviderFailed? <==> t.cached == None && attempt == None
      ensures r.ProviderFailed? || r.OutputRejected? || r.Answered?
      ensures t.cached.Some? ==> ShownBy(r) == Shown(env, t.conn, t.cached.value.content)
      ensures t.cached == None && attempt.Some? ==> ShownBy(r) == Shown(env, t.conn, attempt.value.content)
      ensures cache == if r.Answered? && t.cached == None && Cacheable(t)
        then old(cache)[Key(env, t.conn, t.context, t.request) :=
               Entry(attempt.value.content, attempt.value.tokensIn, attempt.value.tokensOut, now + t.conn.ttl)]
        else old(cache)
      ensures old(True(provider)) && Deterministic(t.conn, t.context, t.request, attempt, provider) ==>
        True(provider) && (attempt.Some? ==> ShownBy(r) == Shown(env, t.conn, attempt.value.content))
    {
      var status, result, cost;
      status, result, cost, r := Judge(t, attempt);
      Settle(t, status, result, cost, freshTrace, now);
      if old(True(provider)) && Deterministic(t.conn, t.context, t.request, attempt, provider) {
        assert old(open)[t.call] == t;
        StaysTrue(env, old(cache), old(open), t, Storable(t, status, result, now), provider);
      }
    }

    /** The whole call. An exit before the reservation changes no book; one after it leaves
        exactly one ledger row and one span and no new open reservation. While the provider
        is deterministic on cacheable calls, the caller is shown what the pipeline without a
        cache shows, hit or not, and the books stay true. */
    method Run(input: Input, ghost provider: Provider) returns (r: Exit, reserved: bool)
      requires Valid()
      modifies this, quota
      ensures Valid() && open == old(open)
      ensures !reserved ==>
        calls == old(calls) && spans == old(spans) && traces == old(traces) && cache == old(cache)
        && granted == old(granted)
        && quota.holds == old(quota.holds) && quota.ledger == old(quota.ledger)
      ensures reserved ==>
        granted == old(granted) + 1 && |calls| == |old(calls)| + 1 && |spans| == |old(spans)| + 1
          && |quota.ledger| == |old(quota.ledger)| + 1
      ensures reserved <==> r.ProviderFailed? || r.OutputRejected? || r.Answered?
      ensures old(True(provider)) && Predictable(env, input, provider) ==>
        True(provider) && (reserved && input.attempt.Some? ==> ShownBy(r) == Uncached(env, input))
    {
      var started := Begin(input.conn, input.request, input.context, input.now, provider);
      if started.Refused? {
        return started.exit, false;
      }
      r := Complete(started.token, input.attempt, input.freshTrace, input.later, provider);
      reserved := true;
      assert old(open)[started.token.call := started.token] - {started.token.call} == old(open);
    }

    /** Any history of calls, warm and cold, of every purpose: each caller is shown what the
        pipeline without a cache shows. */
    method RunAll(inputs: seq<Input>, ghost provider: Provider) returns (exits: seq<(Exit, bool)>)
      requires Valid() && True(provider) && forall i :: 0 <= i < |inputs| ==> Predictable(env, inputs[i], provider)
      modifies this, quota
      ensures Valid() && True(provider) && open == old(open) && |exits| == |inputs|
      ensures forall i :: 0 <= i < |inputs| && exits[i].1 && inputs[i].attempt.Some? ==>
        ShownBy(exits[i].0) == Uncached(env, inputs[i])
    {
      exits := [];
      var k := 0;
      while k < |inputs|
        invariant 0 <= k <= |inputs| && |exits| == k && Valid() && True(provider) && open == old(open)
        invariant forall i :: 0 <= i < k && exits[i].1 && inputs[i].attempt.Some? ==>
          ShownBy(exits[i].0) == Uncached(env, inputs[i])
      {
        var r, reserved := Run(inputs[k], provider);
        exits, k := exits + [(r, reserved)], k + 1;
      }
    }
  }
}
