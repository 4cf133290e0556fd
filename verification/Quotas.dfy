/** Budgets by reserve and settle: the rows, the window sums, and one call's reserve
    (apps/mesh quotas.py). */
module Quotas {
  import opened Wrappers

  // RESERVATION_TTL, in seconds.
  const TTL: nat := 900

  const DAY: nat := 86400

  /** `kind` is the scope type's rank in the lock order: project, user, connection, agent. */
  datatype Scope = Scope(kind: nat, id: nat)

  datatype Period = Day | Month

  datatype Quota = Quota(period: Period, blocking: bool, limitCost: Option<nat>, limitCalls: Option<nat>)

  /** A reservation row; `settled` is None while the hold is open. */
  datatype Hold = Hold(call: nat, scope: Scope, ts: int, estimate: nat, settled: Option<nat>)

  /** A ledger row, with the scopes its id columns match. */
  datatype Row = Row(scopes: set<Scope>, ts: int, cost: nat)

  /** What a quota limits. A call weighs its micros in one dimension and 1 in the other. */
  datatype Dimension = Micros | Calls

  /** The quotas of each scope, and the calendar's first instant of a month. */
  datatype Config = Config(quotas: map<Scope, seq<Quota>>, monthStart: int -> int)

  function Weight(dim: Dimension, micros: nat): nat {
    if dim == Micros then micros else 1
  }

  function WindowStart(cfg: Config, period: Period, now: int): int {
    if period == Day then now - now % DAY else cfg.monthStart(now)
  }

  /** Two instants share a day window exactly when they fall on the same day. */
  lemma DayWindows(cfg: Config, now: int, other: int)
    ensures var w := WindowStart(cfg, Day, now);
            w <= now < w + DAY && (WindowStart(cfg, Day, other) == w <==> w <= other < w + DAY)
  {
    assert now == now / DAY * DAY + now % DAY;
    assert other == other / DAY * DAY + other % DAY;
  }

  // ---- The window sums ----

  predicate Live(h: Hold, scope: Scope, since: int, now: int) {
    h.scope == scope && h.ts >= since && h.ts > now - TTL && h.settled.None?
  }

  function HeldSum(holds: seq<Hold>, dim: Dimension, scope: Scope, since: int, now: int): nat {
    if holds == [] then 0
    else
      var h := holds[|holds| - 1];
      HeldSum(holds[..|holds| - 1], dim, scope, since, now) + if Live(h, scope, since, now) then Weight(dim, h.estimate)
        else 0
  }

  function LedgerSum(ledger: seq<Row>, dim: Dimension, scope: Scope, since: int): nat {
    if ledger == [] then 0
    else
      var row := ledger[|ledger| - 1];
      LedgerSum(ledger[..|ledger| - 1], dim, scope, since) + if scope in row.scopes
        && row.ts >= since then Weight(dim, row.cost) else 0
  }

  /** Time only lets holds lapse. */
  lemma {:induction false} HeldSumLapses(holds: seq<Hold>, dim: Dimension, scope: Scope, since: int, now: int,
      later: int)
    requires now <= later
    ensures HeldSum(holds, dim, scope, since, later) <= HeldSum(holds, dim, scope, since, now)
  {
    if holds != [] {
      HeldSumLapses(holds[..|holds| - 1], dim, scope, since, now, later);
    }
  }

  lemma {:induction false} HeldSumOfBoth(a: seq<Hold>, b: seq<Hold>, dim: Dimension, scope: Scope, since: int, now: int)
    ensures HeldSum(a + b, dim, scope, since, now)
      == HeldSum(a, dim, scope, since, now) + HeldSum(b, dim, scope, since, now)
  {
    if b == [] {
      assert a + b == a;
    } else {
      assert (a + b)[..|a + b| - 1] == a + b[..|b| - 1];
      HeldSumOfBoth(a, b[..|b| - 1], dim, scope, since, now);
    }
  }

  // ---- One quota's verdict ----

  datatype Status = Status(scope: Scope, quota: Quota, spent: nat, calls: nat, reserved: nat)

  predicate Over(limit: Option<nat>, used: nat) {
    limit.Some? && used > limit.value
  }

  function ExceededDimension(s: Status): Option<Dimension> {
    if Over(s.quota.limitCost, s.spent) then Some(Micros)
    else if Over(s.quota.limitCalls, s.calls) then Some(Calls)
    else None
  }

  /** Whether this call is the one that took the window over. */
  predicate JustCrossed(s: Status) {
    match ExceededDimension(s)
    case Some(Micros) => s.spent - s.reserved <= s.quota.limitCost.value
    case Some(Calls) => s.calls - 1 <= s.quota.limitCalls.value
    case None => false
  }

  /** The same quota before this call was counted. */
  function Before(s: Status): Status
    requires s.reserved <= s.spent && 1 <= s.calls
  {
    s.(spent := s.spent - s.reserved, calls := s.calls - 1)
  }

  /** A crossing is reported by a call exactly when it takes its reported dimension over:
      cost is looked at first, so crossing the call limit under a cost budget that is already
      over is never reported. */
  lemma CrossingExactly(s: Status)
    requires s.reserved <= s.spent && 1 <= s.calls
    ensures JustCrossed(s) <==>
      (Over(s.quota.limitCost, s.spent) && !Over(s.quota.limitCost, s.spent - s.reserved))
      || (!Over(s.quota.limitCost, s.spent) && Over(s.quota.limitCalls, s.calls)
        && !Over(s.quota.limitCalls, s.calls - 1))
    ensures ExceededDimension(Before(s)).None? && ExceededDimension(s).Some? ==> JustCrossed(s)
  {
  }

  predicate ReportsOn(s: Status, dim: Dimension) {
    JustCrossed(s) && ExceededDimension(s) == Some(dim)
  }

  function LimitOf(q: Quota, dim: Dimension): Option<nat> {
    if dim == Micros then q.limitCost else q.limitCalls
  }

  // What the status counts, the call itself included, and what it found before it.
  function Counted(s: Status, dim: Dimension): nat {
    if dim == Micros then s.spent else s.calls
  }

  function Found(s: Status, dim: Dimension): nat
    requires s.reserved <= s.spent && 1 <= s.calls
  {
    Counted(Before(s), dim)
  }

  /** The checks of one quota, in the order they were made. Between two of them usage may have
      moved in any way: other calls, settles, lapsed holds. */
  ghost predicate Checks(history: seq<Status>) {
    && (forall i :: 0 <= i < |history| ==> history[i].reserved <= history[i].spent && 1 <= history[i].calls)
    && (forall i :: 0 <= i < |history| ==> history[i].quota == history[0].quota)
  }

  /** Some check finds the usage back within the limit where the one before it left it over. */
  ghost predicate FallsBack(history: seq<Status>, dim: Dimension, i: nat, j: nat)
    requires Checks(history) && i <= j < |history|
  {
    exists k :: i < k <= j && Over(LimitOf(history[0].quota, dim), Counted(history[k - 1], dim))
      && !Over(LimitOf(history[0].quota, dim), Found(history[k], dim))
  }

  /** Between two reports of one limit the usage has fallen back within it; so while it does
      not, the operator hears about it once. */
  lemma ReportsAreApart(history: seq<Status>, dim: Dimension, i: nat, j: nat)
    requires Checks(history) && i < j < |history|
    requires ReportsOn(history[i], dim) && ReportsOn(history[j], dim)
    ensures FallsBack(history, dim, i, j)
  {
    var k := i + 1;
    while Over(LimitOf(history[0].quota, dim), Found(history[k], dim))
      invariant i < k <= j && Over(LimitOf(history[0].quota, dim), Counted(history[k - 1], dim))
      decreases j - k
    {
      k := k + 1;
    }
  }

  /** Whether some call of the history reports that it crossed this dimension's limit. */
  ghost predicate Reported(history: seq<Status>, dim: Dimension) {
    exists i :: 0 <= i < |history| && ReportsOn(history[i], dim)
  }

  // Settles and lapses lower what the last check counted; nothing else moves it.
  ghost predicate Ebbs(history: seq<Status>)
    requires Checks(history)
  {
    forall i :: 0 < i < |history| ==> Found(history[i], Micros) <= Counted(history[i - 1], Micros)
  }

  /** A cost budget that was not over before the history is reported if and only if some check
      of it finds it over. */
  lemma {:induction false} CostCrossingIsReported(history: seq<Status>)
    requires Checks(history) && Ebbs(history) && history != []
    requires !Over(history[0].quota.limitCost, Found(history[0], Micros))
    ensures Reported(history, Micros) <==>
      exists k :: 0 <= k < |history| && ExceededDimension(history[k]) == Some(Micros)
  {
    if k :| 0 <= k < |history| && ExceededDimension(history[k]) == Some(Micros) {
      var i := k;
      while Over(history[0].quota.limitCost, Found(history[i], Micros))
        invariant 0 <= i <= k && ExceededDimension(history[i]) == Some(Micros)
        decreases i
      {
        i := i - 1;
      }
      assert ReportsOn(history[i], Micros);
    }
  }

  // Every call is counted, and stays counted: a settle turns its hold into a ledger row.
  ghost predicate CallsAddUp(history: seq<Status>)
    requires Checks(history)
  {
    forall i :: 0 < i < |history| ==> Found(history[i], Calls) == Counted(history[i - 1], Calls)
  }

  lemma {:induction false} CallsAt(history: seq<Status>, i: nat)
    requires Checks(history) && CallsAddUp(history) && i < |history|
    ensures history[i].calls == history[0].calls + i
  {
    if i > 0 {
      CallsAt(history, i - 1);
    }
  }

  /** However its calls settle, the one check that can report a call limit is the one that
      crosses it, and it does if and only if it finds the cost budget within its limit. */
  lemma CallsCrossingIsReported(history: seq<Status>)
    requires Checks(history) && CallsAddUp(history) && history != [] && history[0].quota.limitCalls.Some?
    requires !Over(history[0].quota.limitCalls, Found(history[0], Calls))
    ensures var crossing := history[0].quota.limitCalls.value - Found(history[0], Calls);
            && (crossing < |history| <==> Over(history[0].quota.limitCalls, history[|history| - 1].calls))
            && forall i :: 0 <= i < |history| ==>
                 (ReportsOn(history[i], Calls) <==>
                   i == crossing && !Over(history[0].quota.limitCost, history[crossing].spent))
  {
    CallsAt(history, |history| - 1);
    forall i | 0 <= i < |history|
      ensures history[i].calls == history[0].calls + i
    {
      CallsAt(history, i);
    }
  }

  // ---- The lock order ----

  predicate Precedes(a: Scope, b: Scope) {
    a.kind < b.kind || (a.kind == b.kind && a.id < b.id)
  }

  ghost predicate Ascending(scopes: seq<Scope>) {
    forall i, j :: 0 <= i < j < |scopes| ==> Precedes(scopes[i], scopes[j])
  }

  ghost predicate Distinct(scopes: seq<Scope>) {
    forall i, j :: 0 <= i < j < |scopes| ==> scopes[i] != scopes[j]
  }

  function Insert(sorted: seq<Scope>, x: Scope): seq<Scope> {
    if sorted == [] || Precedes(x, sorted[0]) then [x] + sorted else [sorted[0]] + Insert(sorted[1..], x)
  }

  function InOrder(scopes: seq<Scope>): seq<Scope> {
    if scopes == [] then [] else Insert(InOrder(scopes[..|scopes| - 1]), scopes[|scopes| - 1])
  }

  lemma {:induction false} InsertKeepsOrder(sorted: seq<Scope>, x: Scope)
    requires Ascending(sorted) && x !in sorted
    ensures Ascending(Insert(sorted, x)) && forall y :: y in Insert(sorted, x) <==> y == x || y in sorted
  {
    if sorted != [] && !Precedes(x, sorted[0]) {
      InsertKeepsOrder(sorted[1..], x);
      assert sorted == [sorted[0]] + sorted[1..];
      assert forall y :: y in sorted[1..] ==> Precedes(sorted[0], y);
    }
  }

  /** Any two calls that share scopes take their locks in the same order. */
  lemma {:induction false} InOrderSorts(scopes: seq<Scope>)
    requires Distinct(scopes)
    ensures Ascending(InOrder(scopes)) && forall y :: y in InOrder(scopes) <==> y in scopes
  {
    if scopes != [] {
      var rest := scopes[..|scopes| - 1];
      InOrderSorts(rest);
      assert scopes == rest + [scopes[|scopes| - 1]];
      InsertKeepsOrder(InOrder(rest), scopes[|scopes| - 1]);
    }
  }

  function Budgeted(cfg: Config, scopes: seq<Scope>): (r: seq<Scope>)
    ensures forall s :: s in r <==> s in scopes && s in cfg.quotas && cfg.quotas[s] != []
  {
    if scopes == [] then []
    else
      var s := scopes[|scopes| - 1];
      Budgeted(cfg, scopes[..|scopes| - 1]) + if s in cfg.quotas && cfg.quotas[s] != [] then [s] else []
  }

  lemma {:induction false} BudgetedAscends(cfg: Config, scopes: seq<Scope>)
    requires Ascending(scopes)
    ensures Ascending(Budgeted(cfg, scopes))
  {
    if scopes != [] {
      var rest := scopes[..|scopes| - 1];
      BudgetedAscends(cfg, rest);
      assert forall x :: x in rest ==> Precedes(x, scopes[|scopes| - 1]);
      var kept := Budgeted(cfg, rest);
      assert forall i :: 0 <= i < |kept| ==> kept[i] in rest;
    }
  }

  /** The rows a granted reserve inserts: one open hold per budgeted scope. */
  function NewHolds(call: nat, scopes: seq<Scope>, now: int, estimate: nat): (r: seq<Hold>)
    ensures |r| == |scopes| && forall i :: 0 <= i < |r| ==> r[i] == Hold(call, scopes[i], now, estimate, None)
  {
    seq(|scopes|, i requires 0 <= i < |scopes| => Hold(call, scopes[i], now, estimate, None))
  }

  /** Settling closes every hold of the call, whatever the scope. */
  function MarkSettled(holds: seq<Hold>, call: nat, actual: nat): (r: seq<Hold>)
    ensures |r| == |holds|
    ensures forall i :: 0 <= i < |r| ==>
      r[i] == (if holds[i].call == call then holds[i].(settled := Some(actual)) else holds[i])
  {
    seq(|holds|, i requires 0 <= i < |holds| => if holds[i].call == call then holds[i].(settled := Some(actual))
      else holds[i])
  }

  // ---- Reserve and settle, one call at a time ----

  datatype Outcome = Reserved(warnings: seq<Status>) | Refused(status: Status)

  class QuotaStore {
    const cfg: Config
    var holds: seq<Hold>
    var ledger: seq<Row>

    constructor (cfg0: Config)
      ensures cfg == cfg0 && holds == [] && ledger == []
    {
      cfg, holds, ledger := cfg0, [], [];
    }

    /** Where quota q of a scope would stand with this call counted. */
    function StatusFor(scope: Scope, q: Quota, estimate: nat, now: int): Status
      reads this
    {
      var since := WindowStart(cfg, q.period, now);
      Status(scope, q,
        LedgerSum(ledger, Micros, scope, since) + HeldSum(holds, Micros, scope, since, now) + estimate,
        LedgerSum(ledger, Calls, scope, since) + HeldSum(holds, Calls, scope, since, now) + 1,
        estimate)
    }

    predicate Blocks(scope: Scope, q: Quota, estimate: nat, now: int)
      reads this
    {
      q.blocking && ExceededDimension(StatusFor(scope, q, estimate, now)).Some?
    }

    // No blocking quota of the scope is exceeded.
    ghost predicate Fits(scope: Scope, estimate: nat, now: int)
      reads this
    {
      scope in cfg.quotas ==>
        forall k :: 0 <= k < |cfg.quotas[scope]| ==> !Blocks(scope, cfg.quotas[scope][k], estimate, now)
    }

    // The warning-only quotas among these that are exceeded, in order.
    function WarnedBy(scope: Scope, quotas: seq<Quota>, estimate: nat, now: int): seq<Status>
      reads this
    {
      if quotas == [] then []
      else
        var s := StatusFor(scope, quotas[|quotas| - 1], estimate, now);
        WarnedBy(scope, quotas[..|quotas| - 1], estimate, now) + if ExceededDimension(s).Some? then [s] else []
    }

    function Warned(scopes: seq<Scope>, estimate: nat, now: int): seq<Status>
      reads this
    {
      if scopes == [] then []
      else
        var scope := scopes[|scopes| - 1];
        Warned(scopes[..|scopes| - 1], estimate, now)
          + if scope in cfg.quotas then WarnedBy(scope, cfg.quotas[scope], estimate, now) else []
    }

    /** The quotas of one scope, under its lock. */
    method CheckScope(scope: Scope, estimate: nat, now: int) returns (r: Outcome)
      requires scope in cfg.quotas
      ensures r.Reserved? <==> Fits(scope, estimate, now)
      ensures r.Reserved? ==> r.warnings == WarnedBy(scope, cfg.quotas[scope], estimate, now)
      ensures r.Refused? ==>
        exists k :: 0 <= k < |cfg.quotas[scope]| && Blocks(scope, cfg.quotas[scope][k], estimate, now)
          && r.status == StatusFor(scope, cfg.quotas[scope][k], estimate, now)
    {
      var quotas, warnings, k := cfg.quotas[scope], [], 0;
      while k < |quotas|
        invariant 0 <= k <= |quotas|
        invariant forall i :: 0 <= i < k ==> !Blocks(scope, quotas[i], estimate, now)
        invariant warnings == WarnedBy(scope, quotas[..k], estimate, now)
      {
        assert quotas[..k + 1][..k] == quotas[..k];
        var status := StatusFor(scope, quotas[k], estimate, now);
        if ExceededDimension(status).Some? {
          if quotas[k].blocking {
            assert Blocks(scope, quotas[k], estimate, now);
            return Refused(status);
          }
          warnings := warnings + [status];
        }
        k := k + 1;
      }
      assert quotas[..k] == quotas;
      return Reserved(warnings);
    }

    /** A call is granted exactly when every blocking quota of every scope has room for it,
        and then holds its estimate once on each budgeted scope; a refusal changes nothing. */
    method Reserve(call: nat, scopes: seq<Scope>, estimate: nat, now: int) returns (r: Outcome)
      requires Distinct(scopes)
      modifies this`holds
      ensures r.Reserved? <==> forall s :: s in scopes ==> old(Fits(s, estimate, now))
      ensures r.Refused? ==>
        holds == old(holds) && r.status.scope in scopes && r.status.quota.blocking && ExceededDimension(r.status).Some?
      ensures r.Reserved? ==> holds == old(holds) + NewHolds(call, Budgeted(cfg, InOrder(scopes)), now, estimate)
      ensures r.Reserved? ==> r.warnings == old(Warned(InOrder(scopes), estimate, now))
    {
      InOrderSorts(scopes);
      var ordered, warnings, pending, k := InOrder(scopes), [], [], 0;
      while k < |ordered|
        invariant 0 <= k <= |ordered| && holds == old(holds)
        invariant forall i :: 0 <= i < k ==> Fits(ordered[i], estimate, now)
        invariant warnings == Warned(ordered[..k], estimate, now)
        invariant pending == Budgeted(cfg, ordered[..k])
      {
        assert ordered[..k + 1][..k] == ordered[..k];
        assert ordered[k] in scopes;
        if ordered[k] in cfg.quotas && cfg.quotas[ordered[k]] != [] {
          var checked := CheckScope(ordered[k], estimate, now);
          if checked.Refused? {
            return checked;
          }
          warnings := warnings + checked.warnings;
          pending := pending + [ordered[k]];
        }
        k := k + 1;
      }
      assert ordered[..k] == ordered;
      assert forall s :: s in scopes ==> s in ordered;
      holds := holds + NewHolds(call, pending, now, estimate);
      return Reserved(warnings);
    }

    /** Settle: the ledger row and the closed holds are written together. */
    method Settle(call: nat, scopes: set<Scope>, actual: nat, ts: int)
      modifies this`holds, this`ledger
      ensures holds == MarkSettled(old(holds), call, actual)
      ensures ledger == old(ledger) + [Row(scopes, ts, actual)]
    {
      var k, marked := 0, [];
      while k < |holds|
        invariant 0 <= k <= |holds| && |marked| == k && holds == old(holds)
        invariant forall i :: 0 <= i < k ==>
          marked[i] == (if holds[i].call == call then holds[i].(settled := Some(actual)) else holds[i])
      {
        marked := marked + [if holds[k].call == call then holds[k].(settled := Some(actual)) else holds[k]];
        k := k + 1;
      }
      holds := marked;
      ledger := ledger + [Row(scopes, ts, actual)];
    }
  }
}
