/** When the operator hears about a budget: over any interleaving of reserves and settles, what
    has to happen between two reports of one limit (quotas.py). */
module QuotaReports {
  import opened Wrappers
  import opened Quotas
  import opened QuotaRuns
  import opened QuotaSafety

  /** Call c, between the two reads of its check of the watched quota, is about to find that it
      has just crossed the watched limit. */
  ghost predicate Reports(cfg: Config, s: State, c: nat, w: Watch) {
    && c < |s.calls| && s.calls[c].pc.HalfRead? && PcFits(cfg, s.calls[c])
    && MidRead(s.calls[c], w) && ReportsOn(StatusAt(cfg, s, s.calls[c]), w.dim)
  }

  predicate Granted(call: Call) {
    call.pc == Held || call.pc == Closed
  }

  predicate Ended(call: Call) {
    call.pc == Gone || call.pc.Refusal?
  }

  ghost predicate TimelyRun(cfg: Config, s: State, run: seq<Action>, w: Watch)
    requires Limits(cfg, w) && Legal(cfg, s, run)
    decreases |run|
  {
    run == [] || (Timely(cfg, s, run[0], w) && TimelyRun(cfg, Apply(cfg, s, run[0]), run[1..], w))
  }

  // ---- What every step keeps ----

  ghost predicate OneEach(holds: seq<Hold>) {
    forall i, j :: 0 <= i < j < |holds| ==> holds[i].call != holds[j].call || holds[i].scope != holds[j].scope
  }

  // No call has seen more of the ledger than there is.
  ghost predicate SeenBehind(s: State, w: Watch) {
    forall c :: 0 <= c < |s.calls| && MidRead(s.calls[c], w) ==> Seen(s.calls[c], w) <= Spent(s, w)
  }

  ghost predicate Kept(cfg: Config, s: State, w: Watch)
    requires Limits(cfg, w)
  {
    Wf(cfg, s) && AllInWindow(cfg, s, w) && OneEach(s.holds) && SeenBehind(s, w)
  }

  lemma NewHoldsOneEach(holds: seq<Hold>, c: nat, order: seq<Scope>, now: int, estimate: nat)
    requires OneEach(holds) && Ascending(order) && forall i :: 0 <= i < |holds| ==> holds[i].call != c
    ensures OneEach(holds + NewHolds(c, order, now, estimate))
  {
    var all := holds + NewHolds(c, order, now, estimate);
    forall i, j | 0 <= i < j < |all|
      ensures all[i].call != all[j].call || all[i].scope != all[j].scope
    {
      if |holds| <= i {
        assert Precedes(order[i - |holds|], order[j - |holds|]);
      }
    }
  }

  lemma StepKeepsOneEach(cfg: Config, s: State, a: Action)
    requires Wf(cfg, s) && OneEach(s.holds) && Enabled(cfg, s, a)
    ensures OneEach(Apply(cfg, s, a).holds)
  {
    if a.Commit? {
      var call := s.calls[a.c];
      assert CallOk(cfg, call);
      forall i | 0 <= i < |s.holds|
        ensures s.holds[i].call != a.c
      {
        assert HoldOk(s, s.holds[i]);
      }
      NewHoldsOneEach(s.holds, a.c, call.order, call.now, call.estimate);
    }
  }

  lemma LedgerGrows(cfg: Config, s: State, a: Action, w: Watch)
    requires Enabled(cfg, s, a)
    ensures Spent(Apply(cfg, s, a), w) >= Spent(s, w)
  {
    if a.Settle? {
      assert Apply(cfg, s, a).ledger[..|s.ledger|] == s.ledger;
    }
  }

  lemma StepKeepsSeen(cfg: Config, s: State, a: Action, w: Watch)
    requires Limits(cfg, w) && Kept(cfg, s, w) && Enabled(cfg, s, a)
    ensures SeenBehind(Apply(cfg, s, a), w)
  {
    LedgerGrows(cfg, s, a, w);
    var s' := Apply(cfg, s, a);
    forall c | 0 <= c < |s'.calls| && MidRead(s'.calls[c], w)
      ensures Seen(s'.calls[c], w) <= Spent(s', w)
    {
      if a.ReadLedger? && a.c == c {
        assert InWindow(cfg, w, s.calls[c].now);
      } else {
        assert s'.calls[c] == s.calls[c];
      }
    }
  }

  lemma StepKeeps(cfg: Config, s: State, a: Action, w: Watch)
    requires Limits(cfg, w) && Kept(cfg, s, w) && Enabled(cfg, s, a) && Timely(cfg, s, a, w)
    ensures Kept(cfg, Apply(cfg, s, a), w)
  {
    StepKeepsWf(cfg, s, a);
    WindowKept(cfg, s, a, w);
    StepKeepsOneEach(cfg, s, a);
    StepKeepsSeen(cfg, s, a, w);
  }

  lemma {:induction false} RunKeeps(cfg: Config, s: State, run: seq<Action>, w: Watch)
    requires Limits(cfg, w) && Kept(cfg, s, w) && Legal(cfg, s, run) && TimelyRun(cfg, s, run, w)
    ensures Kept(cfg, Final(cfg, s, run), w)
    decreases |run|
  {
    if run != [] {
      StepKeeps(cfg, s, run[0], w);
      RunKeeps(cfg, Apply(cfg, s, run[0]), run[1..], w);
    }
  }

  // ---- What a check that starts at t would find ----

  function Sight(s: State, w: Watch, t: int): nat {
    Spent(s, w) + HeldSum(s.holds, w.dim, w.scope, w.since, t)
  }

  // With the hold that pending call c is about to leave.
  function Owed(s: State, w: Watch, c: nat, t: int): nat {
    Sight(s, w, t)
    + if c < |s.calls| && Pending(s.calls[c].pc) && s.calls[c].now > t - TTL then Weight(w.dim, s.calls[c].estimate)
      else 0
  }

  /** A call on the scope settles for less than it held. */
  predicate SettlesBelow(s: State, a: Action, w: Watch) {
    a.Settle? && a.c < |s.calls| && w.scope in s.calls[a.c].scopes
    && Weight(w.dim, a.actual) < Weight(w.dim, s.calls[a.c].estimate)
  }

  lemma {:induction false} NewHoldIsSeen(c: nat, order: seq<Scope>, now: int, estimate: nat, w: Watch, t: int)
    requires w.scope in order && now >= w.since && now > t - TTL
    ensures HeldSum(NewHolds(c, order, now, estimate), w.dim, w.scope, w.since, t) >= Weight(w.dim, estimate)
  {
    var rest, rows := order[..|order| - 1], NewHolds(c, order, now, estimate);
    assert rows[..|rows| - 1] == NewHolds(c, rest, now, estimate);
    if order[|order| - 1] != w.scope {
      NewHoldIsSeen(c, rest, now, estimate, w, t);
    }
  }

  ghost predicate HasOwn(holds: seq<Hold>, c: nat, scope: Scope) {
    exists i :: 0 <= i < |holds| && holds[i].call == c && holds[i].scope == scope
  }

  // Settling takes at most the call's one hold on the scope out of the sum.
  lemma {:induction false} SettlingFreesOne(holds: seq<Hold>, c: nat, actual: nat, estimate: nat, w: Watch, t: int)
    requires OneEach(holds) && forall i :: 0 <= i < |holds| && holds[i].call == c ==> holds[i].estimate == estimate
    ensures HeldSum(holds, w.dim, w.scope, w.since, t)
      <= HeldSum(MarkSettled(holds, c, actual), w.dim, w.scope, w.since, t)
         + if HasOwn(holds, c, w.scope) then Weight(w.dim, estimate) else 0
  {
    if holds != [] {
      var n := |holds| - 1;
      var rest := holds[..n];
      SettlingFreesOne(rest, c, actual, estimate, w, t);
      assert MarkSettled(holds, c, actual)[..n] == MarkSettled(rest, c, actual);
      if HasOwn(rest, c, w.scope) {
        var i :| 0 <= i < n && rest[i].call == c && rest[i].scope == w.scope;
        assert holds[i] == rest[i];
      }
      if holds[n].call == c && holds[n].scope == w.scope {
        assert HasOwn(holds, c, w.scope);
      }
    }
  }

  lemma SettleMovesSight(cfg: Config, s: State, a: Action, w: Watch, t: int)
    requires Limits(cfg, w) && Kept(cfg, s, w) && Enabled(cfg, s, a) && a.Settle? && !SettlesBelow(s, a, w)
    ensures Sight(Apply(cfg, s, a), w, t) >= Sight(s, w, t)
  {
    var call := s.calls[a.c];
    assert CallOk(cfg, call) && InWindow(cfg, w, call.now);
    forall i | 0 <= i < |s.holds| && s.holds[i].call == a.c
      ensures s.holds[i].estimate == call.estimate && s.holds[i].scope in call.scopes
    {
      assert HoldOk(s, s.holds[i]);
    }
    SettlingFreesOne(s.holds, a.c, a.actual, call.estimate, w, t);
    assert Apply(cfg, s, a).ledger[..|s.ledger|] == s.ledger;
  }

  lemma CommitMovesSight(cfg: Config, s: State, a: Action, w: Watch, t: int)
    requires Limits(cfg, w) && Kept(cfg, s, w) && Enabled(cfg, s, a) && a.Commit?
    ensures var call := s.calls[a.c];
            Sight(Apply(cfg, s, a), w, t) >= Sight(s, w, t)
              + if w.scope in call.order && call.now > t - TTL then Weight(w.dim, call.estimate) else 0
  {
    var call := s.calls[a.c];
    assert InWindow(cfg, w, call.now);
    HeldSumOfBoth(s.holds, NewHolds(a.c, call.order, call.now, call.estimate), w.dim, w.scope, w.since, t);
    if w.scope in call.order && call.now > t - TTL {
      NewHoldIsSeen(a.c, call.order, call.now, call.estimate, w, t);
    }
  }

  // Any other step leaves the books alone, and the call where it may yet be granted.
  lemma OthersKeepOwed(cfg: Config, s: State, a: Action, w: Watch, c: nat, t: int)
    requires Enabled(cfg, s, a) && !a.Settle? && !a.Commit?
    requires c < |s.calls| && !Ended(Apply(cfg, s, a).calls[c])
    ensures Owed(Apply(cfg, s, a), w, c, t) == Owed(s, w, c, t)
  {
  }

  lemma OwedStays(cfg: Config, s: State, a: Action, w: Watch, c: nat, t: int)
    requires Limits(cfg, w) && Kept(cfg, s, w) && Enabled(cfg, s, a) && !SettlesBelow(s, a, w)
    requires c < |s.calls| && w.scope in s.calls[c].order && !Ended(Apply(cfg, s, a).calls[c])
    ensures Owed(Apply(cfg, s, a), w, c, t) >= Owed(s, w, c, t)
  {
    if a.Settle? {
      SettleMovesSight(cfg, s, a, w, t);
    } else if a.Commit? {
      CommitMovesSight(cfg, s, a, w, t);
    } else {
      OthersKeepOwed(cfg, s, a, w, c, t);
    }
  }

  // ---- Between two reports ----

  /** Some settle of the run, for less than its hold, takes what a check starting at t would
      find from over the limit to within it. */
  ghost predicate FallsBack(cfg: Config, s: State, run: seq<Action>, w: Watch, c: nat, t: int)
    requires Legal(cfg, s, run)
    decreases |run|
  {
    run != [] &&
    var s' := Apply(cfg, s, run[0]);
    (SettlesBelow(s, run[0], w) && Owed(s', w, c, t) <= w.limit < Owed(s, w, c, t))
    || FallsBack(cfg, s', run[1..], w, c, t)
  }

  lemma {:induction false} EndedStays(cfg: Config, s: State, run: seq<Action>, c: nat)
    requires Legal(cfg, s, run) && c < |s.calls|
    ensures c < |Final(cfg, s, run).calls| && Final(cfg, s, run).calls[c].order == s.calls[c].order
    ensures Ended(s.calls[c]) ==> Ended(Final(cfg, s, run).calls[c])
    decreases |run|
  {
    if run != [] {
      EndedStays(cfg, Apply(cfg, s, run[0]), run[1..], c);
    }
  }

  lemma {:induction false} SomeSettleFallsBack(cfg: Config, s: State, run: seq<Action>, w: Watch, c: nat, t: int)
    requires Limits(cfg, w) && Kept(cfg, s, w) && Legal(cfg, s, run) && TimelyRun(cfg, s, run, w)
    requires c < |s.calls| && w.scope in s.calls[c].order
    requires c < |Final(cfg, s, run).calls| && !Ended(Final(cfg, s, run).calls[c])
    requires Owed(Final(cfg, s, run), w, c, t) <= w.limit < Owed(s, w, c, t)
    ensures FallsBack(cfg, s, run, w, c, t)
    decreases |run|
  {
    var s' := Apply(cfg, s, run[0]);
    EndedStays(cfg, s', run[1..], c);
    if Owed(s', w, c, t) > w.limit {
      StepKeeps(cfg, s, run[0], w);
      SameOrder(cfg, s, run[0], c);
      SomeSettleFallsBack(cfg, s', run[1..], w, c, t);
    } else if !SettlesBelow(s, run[0], w) {
      OwedStays(cfg, s, run[0], w, c, t);
    }
  }

  lemma SameOrder(cfg: Config, s: State, a: Action, c: nat)
    requires Enabled(cfg, s, a) && c < |s.calls|
    ensures c < |Apply(cfg, s, a).calls| && Apply(cfg, s, a).calls[c].order == s.calls[c].order
  {
  }

  /** A hold that call c counted, or its own, has lapsed for a check that starts at t. */
  ghost predicate Lapsed(s: State, w: Watch, c: nat, t: int)
    requires c < |s.calls|
  {
    || s.calls[c].now <= t - TTL
    || exists i :: 0 <= i < |s.holds| && Live(s.holds[i], w.scope, w.since, s.calls[c].now) && s.holds[i].ts <= t - TTL
  }

  /** Call c has missed a settle: it has entered the ledger since its first read. */
  ghost predicate Missed(s: State, w: Watch, c: nat)
    requires c < |s.calls| && MidRead(s.calls[c], w)
  {
    Seen(s.calls[c], w) < Spent(s, w)
  }

  lemma {:induction false} NoneLapsed(holds: seq<Hold>, w: Watch, now: int, t: int)
    requires forall i :: 0 <= i < |holds| && Live(holds[i], w.scope, w.since, now) ==> holds[i].ts > t - TTL
    ensures HeldSum(holds, w.dim, w.scope, w.since, now) <= HeldSum(holds, w.dim, w.scope, w.since, t)
  {
    if holds != [] {
      NoneLapsed(holds[..|holds| - 1], w, now, t);
    }
  }

  lemma ReportSees(cfg: Config, s: State, w: Watch, c: nat)
    requires Limits(cfg, w) && Kept(cfg, s, w) && Reports(cfg, s, c, w)
    ensures var call := s.calls[c];
            var found := Seen(call, w) + HeldSum(s.holds, w.dim, w.scope, w.since, call.now);
            found <= w.limit < found + Weight(w.dim, call.estimate)
    ensures w.scope in s.calls[c].order
  {
    assert InWindow(cfg, w, s.calls[c].now);
  }

  // A reported call that is not refused leaves more than the limit to find.
  lemma ReportOwes(cfg: Config, s: State, w: Watch, c: nat, t: int)
    requires Limits(cfg, w) && Kept(cfg, s, w) && Reports(cfg, s, c, w) && !Lapsed(s, w, c, t)
    requires !Ended(Apply(cfg, s, ReadHolds(c)).calls[c])
    ensures Owed(Apply(cfg, s, ReadHolds(c)), w, c, t) > w.limit
  {
    ReportSees(cfg, s, w, c);
    NoneLapsed(s.holds, w, s.calls[c].now, t);
  }

  // A call that reports and has missed nothing finds the usage within the limit.
  lemma ReportFinds(cfg: Config, s: State, w: Watch, d: nat)
    requires Limits(cfg, w) && Kept(cfg, s, w) && Reports(cfg, s, d, w) && !Missed(s, w, d)
    ensures Sight(s, w, s.calls[d].now) <= w.limit
  {
    ReportSees(cfg, s, w, d);
  }

  /** Where call c, having reported the limit, is granted and the run has gone on to call d's
      check of it. */
  ghost predicate Between(cfg: Config, q: State, before: seq<Action>, c: nat, run: seq<Action>, d: nat, w: Watch)
    requires Limits(cfg, w)
  {
    && Quiet(q) && Legal(cfg, q, before) && TimelyRun(cfg, q, before, w) && Reports(cfg, Final(cfg, q, before), c, w)
    && var s := Apply(cfg, Final(cfg, q, before), ReadHolds(c));
       && Legal(cfg, s, run) && TimelyRun(cfg, s, run, w)
       && c < |Final(cfg, s, run).calls| && Granted(Final(cfg, s, run).calls[c])
       && d < |Final(cfg, s, run).calls| && MidRead(Final(cfg, s, run).calls[d], w)
  }

  lemma BetweenKeeps(cfg: Config, q: State, before: seq<Action>, c: nat, run: seq<Action>, d: nat, w: Watch)
    requires Limits(cfg, w) && Between(cfg, q, before, c, run, d, w)
    ensures var s0 := Final(cfg, q, before);
            var s := Apply(cfg, s0, ReadHolds(c));
            && Kept(cfg, s0, w) && Kept(cfg, s, w) && Kept(cfg, Final(cfg, s, run), w)
            && !Ended(s.calls[c]) && w.scope in s.calls[c].order
  {
    var s0 := Final(cfg, q, before);
    RunKeeps(cfg, q, before, w);
    StepKeeps(cfg, s0, ReadHolds(c), w);
    RunKeeps(cfg, Apply(cfg, s0, ReadHolds(c)), run, w);
    EndedStays(cfg, Apply(cfg, s0, ReadHolds(c)), run, c);
    ReportSees(cfg, s0, w, c);
  }

  /** Call c reports a limit, of a warning budget or not, and is granted; later call d reports
      the same limit. Then, whatever calls ran in between, a settle for less than its hold has
      brought the usage back within the limit, or a hold has lapsed, or call d has missed a
      settle between its two reads. */
  lemma ReportsTwice(cfg: Config, q: State, before: seq<Action>, c: nat, run: seq<Action>, d: nat, w: Watch)
    requires Limits(cfg, w) && Between(cfg, q, before, c, run, d, w)
    requires Reports(cfg, Final(cfg, Apply(cfg, Final(cfg, q, before), ReadHolds(c)), run), d, w)
    ensures var s := Apply(cfg, Final(cfg, q, before), ReadHolds(c));
            var s' := Final(cfg, s, run);
            var t := s'.calls[d].now;
            FallsBack(cfg, s, run, w, c, t) || Lapsed(Final(cfg, q, before), w, c, t) || Missed(s', w, d)
  {
    var s0 := Final(cfg, q, before);
    var s := Apply(cfg, s0, ReadHolds(c));
    var s' := Final(cfg, s, run);
    var t := s'.calls[d].now;
    BetweenKeeps(cfg, q, before, c, run, d, w);
    if !Lapsed(s0, w, c, t) && !Missed(s', w, d) {
      ReportOwes(cfg, s0, w, c, t);
      ReportFinds(cfg, s', w, d);
      SomeSettleFallsBack(cfg, s, run, w, c, t);
    }
  }

  ghost predicate NoneBelow(cfg: Config, s: State, run: seq<Action>, w: Watch)
    requires Legal(cfg, s, run)
    decreases |run|
  {
    run == [] || (!SettlesBelow(s, run[0], w) && NoneBelow(cfg, Apply(cfg, s, run[0]), run[1..], w))
  }

  lemma {:induction false} FallsBelow(cfg: Config, s: State, run: seq<Action>, w: Watch, c: nat, t: int)
    requires Legal(cfg, s, run) && FallsBack(cfg, s, run, w, c, t)
    ensures !NoneBelow(cfg, s, run, w)
    ensures w.dim == Micros
    decreases |run|
  {
    if !SettlesBelow(s, run[0], w) {
      FallsBelow(cfg, Apply(cfg, s, run[0]), run[1..], w, c, t);
    }
  }

  /** So a limit is reported once while calls cost what they hold, nothing lapses and no settle
      is missed; a call limit whatever calls cost. */
  lemma ReportedOnce(cfg: Config, q: State, before: seq<Action>, c: nat, run: seq<Action>, d: nat, w: Watch)
    requires Limits(cfg, w) && Between(cfg, q, before, c, run, d, w)
    requires var s := Apply(cfg, Final(cfg, q, before), ReadHolds(c));
             var s' := Final(cfg, s, run);
             && (w.dim == Calls || NoneBelow(cfg, s, run, w))
             && !Lapsed(Final(cfg, q, before), w, c, s'.calls[d].now) && !Missed(s', w, d)
    ensures !Reports(cfg, Final(cfg, Apply(cfg, Final(cfg, q, before), ReadHolds(c)), run), d, w)
  {
    var s := Apply(cfg, Final(cfg, q, before), ReadHolds(c));
    var s' := Final(cfg, s, run);
    if Reports(cfg, s', d, w) {
      ReportsTwice(cfg, q, before, c, run, d, w);
      FallsBelow(cfg, s, run, w, c, s'.calls[d].now);
    }
  }

  // ---- A budget that is reported again and again ----

  /** One project with one warning daily budget of `limit` micros. */
  function WarnAt(limit: nat): Config {
    Config(map[Scope(0, 7) := [Quota(Day, false, Some(limit), None)]], (t: int) => t)
  }

  function WarnWatch(limit: nat): Watch {
    Watch(Scope(0, 7), 0, Micros, 0, limit)
  }

  ghost function CountReports(cfg: Config, s: State, run: seq<Action>, w: Watch): nat
    requires Legal(cfg, s, run)
    decreases |run|
  {
    if run == [] then 0
    else
      (if run[0].ReadHolds? && Reports(cfg, s, run[0].c, w) then 1 else 0)
      + CountReports(cfg, Apply(cfg, s, run[0]), run[1..], w)
  }

  /** Some run within the window reports the budget n times, with every call granted and
      settled at its end. */
  ghost predicate CanReport(limit: nat, s: State, n: nat) {
    exists run :: ReportsIn(limit, s, run, n)
  }

  ghost predicate ReportsIn(limit: nat, s: State, run: seq<Action>, n: nat) {
    && Legal(WarnAt(limit), s, run) && TimelyRun(WarnAt(limit), s, run, WarnWatch(limit))
    && CountReports(WarnAt(limit), s, run, WarnWatch(limit)) == n && Idle(Final(WarnAt(limit), s, run))
  }

  // Everything so far has settled at nothing.
  ghost predicate Idle(s: State) {
    && s.clock == 0 && s.locks == map[] && (forall i :: 0 <= i < |s.calls| ==> s.calls[i].pc == Closed)
    && (forall i :: 0 <= i < |s.holds| ==> s.holds[i].settled.Some? && s.holds[i].call < |s.calls|)
    && (forall i :: 0 <= i < |s.ledger| ==> s.ledger[i].cost == 0)
  }

  lemma Prepend(limit: nat, s: State, a: Action, u: State, n: nat)
    requires CanReport(limit, u, n) && Enabled(WarnAt(limit), s, a) && Apply(WarnAt(limit), s, a) == u
    requires Timely(WarnAt(limit), s, a, WarnWatch(limit))
    ensures CanReport(limit, s, n + if a.ReadHolds? && Reports(WarnAt(limit), s, a.c, WarnWatch(limit)) then 1 else 0)
  {
    var run: seq<Action> :| ReportsIn(limit, u, run, n);
    assert ([a] + run)[0] == a && ([a] + run)[1..] == run;
    assert ReportsIn(limit, s, [a] + run,
      n + if a.ReadHolds? && Reports(WarnAt(limit), s, a.c, WarnWatch(limit)) then 1 else 0);
  }

  function OneCall(limit: nat, pc: Pc): Call {
    Call(0, limit + 1, {Scope(0, 7)}, [Scope(0, 7)], pc)
  }

  // The next call, idle but for it.
  function Next(limit: nat, s: State, pc: Pc, locked: bool): State {
    State(0, s.calls + [OneCall(limit, pc)], if locked then map[Scope(0, 7) := |s.calls|] else map[], s.holds, s.ledger)
  }

  lemma {:induction false} AllSettled(holds: seq<Hold>, dim: Dimension, scope: Scope, since: int, now: int)
    requires forall i :: 0 <= i < |holds| ==> holds[i].settled.Some?
    ensures HeldSum(holds, dim, scope, since, now) == 0
  {
    if holds != [] {
      AllSettled(holds[..|holds| - 1], dim, scope, since, now);
    }
  }

  lemma {:induction false} AllFree(ledger: seq<Row>, scope: Scope, since: int)
    requires forall i :: 0 <= i < |ledger| ==> ledger[i].cost == 0
    ensures LedgerSum(ledger, Micros, scope, since) == 0
  {
    if ledger != [] {
      AllFree(ledger[..|ledger| - 1], scope, since);
    }
  }

  lemma OneScopeCall(limit: nat, scopes: seq<Scope>)
    requires scopes == [Scope(0, 7)]
    ensures NewCall(WarnAt(limit), scopes, 0, limit + 1) == OneCall(limit, Waiting(0))
  {
    assert scopes[..0] == [];
    assert InOrder(scopes) == scopes;
    assert Budgeted(WarnAt(limit), scopes) == scopes;
    assert (set y | y in scopes) == {Scope(0, 7)};
  }

  function CallsSoFar(s: State): nat {
    LedgerSum(s.ledger, Calls, Scope(0, 7), 0)
  }

  // The check finds nothing used, and the call alone over the limit.
  lemma NextReports(limit: nat, s: State)
    requires Idle(s)
    ensures var t := Next(limit, s, HalfRead(0, 0, 0, CallsSoFar(s)), true);
            && Reports(WarnAt(limit), t, |s.calls|, WarnWatch(limit))
            && AfterCheck(WarnAt(limit), t, OneCall(limit, HalfRead(0, 0, 0, CallsSoFar(s)))) == Waiting(1)
  {
    AllSettled(s.holds, Micros, Scope(0, 7), 0, 0);
    AllSettled(s.holds, Calls, Scope(0, 7), 0, 0);
  }

  // The call granted and settled at nothing.
  function Round(limit: nat, s: State): State {
    State(0, s.calls + [OneCall(limit, Closed)], map[],
      s.holds + [Hold(|s.calls|, Scope(0, 7), 0, limit + 1, Some(0))], s.ledger + [Row({Scope(0, 7)}, 0, 0)])
  }

  function Holding(limit: nat, s: State): State {
    State(0, s.calls + [OneCall(limit, Held)], map[], s.holds + [Hold(|s.calls|, Scope(0, 7), 0, limit + 1, None)],
      s.ledger)
  }

  lemma Settles(limit: nat, s: State, n: nat)
    requires Idle(s) && CanReport(limit, Round(limit, s), n)
    ensures CanReport(limit, Next(limit, s, Waiting(1), true), n)
  {
    var c := |s.calls|;
    assert MarkSettled(Holding(limit, s).holds, c, 0) == Round(limit, s).holds;
    assert Holding(limit, s).calls[c := OneCall(limit, Closed)] == Round(limit, s).calls;
    Prepend(limit, Holding(limit, s), Settle(c, 0), Round(limit, s), n);
    assert Released(map[Scope(0, 7) := c], c) == map[];
    assert NewHolds(c, [Scope(0, 7)], 0, limit + 1) == [Hold(c, Scope(0, 7), 0, limit + 1, None)];
    assert Next(limit, s, Waiting(1), true).calls[c := OneCall(limit, Held)] == Holding(limit, s).calls;
    Prepend(limit, Next(limit, s, Waiting(1), true), Commit(c), Holding(limit, s), n);
  }

  // A step of the new call that changes only where it stands, and perhaps takes its lock.
  lemma Moves(limit: nat, s: State, a: Action, pc: Pc, locked: bool, pc': Pc, n: nat)
    requires a == Lock(|s.calls|) || a == ReadLedger(|s.calls|)
    requires Enabled(WarnAt(limit), Next(limit, s, pc, locked), a)
    requires Apply(WarnAt(limit), Next(limit, s, pc, locked), a)
      == SetPc(Next(limit, s, pc, locked), |s.calls|, pc').(locks := map[Scope(0, 7) := |s.calls|])
    requires CanReport(limit, Next(limit, s, pc', true), n)
    ensures CanReport(limit, Next(limit, s, pc, locked), n)
  {
    assert Next(limit, s, pc, locked).calls[|s.calls| := OneCall(limit, pc')] == Next(limit, s, pc', true).calls;
    Prepend(limit, Next(limit, s, pc, locked), a, Next(limit, s, pc', true), n);
  }

  lemma NextChecks(limit: nat, s: State, n: nat)
    requires Idle(s) && CanReport(limit, Next(limit, s, Waiting(1), true), n)
    ensures CanReport(limit, Next(limit, s, HalfRead(0, 0, 0, CallsSoFar(s)), true), n + 1)
  {
    var c, x := |s.calls|, HalfRead(0, 0, 0, CallsSoFar(s));
    NextReports(limit, s);
    assert Next(limit, s, x, true).calls[c := OneCall(limit, Waiting(1))] == Next(limit, s, Waiting(1), true).calls;
    Prepend(limit, Next(limit, s, x, true), ReadHolds(c), Next(limit, s, Waiting(1), true), n);
  }

  lemma NextReads(limit: nat, s: State, n: nat)
    requires Idle(s) && CanReport(limit, Next(limit, s, HalfRead(0, 0, 0, CallsSoFar(s)), true), n)
    ensures CanReport(limit, Next(limit, s, Waiting(0), false), n)
  {
    var c := |s.calls|;
    AllFree(s.ledger, Scope(0, 7), 0);
    Moves(limit, s, ReadLedger(c), Checking(0, 0), true, HalfRead(0, 0, 0, CallsSoFar(s)), n);
    Moves(limit, s, Lock(c), Waiting(0), false, Checking(0, 0), n);
  }

  lemma Begins(limit: nat, s: State, n: nat)
    requires Idle(s) && CanReport(limit, Next(limit, s, Waiting(0), false), n)
    ensures CanReport(limit, s, n)
  {
    var scopes := [Scope(0, 7)];
    OneScopeCall(limit, scopes);
    Prepend(limit, s, Begin(scopes, limit + 1), Next(limit, s, Waiting(0), false), n);
  }

  /** For every limit, any number of calls one after another can each report the same cost
      budget: each holds more than the limit and settles at nothing, as a cache hit or a failure
      does, so the next finds the window empty again. */
  lemma {:induction false} EveryCallReports(limit: nat, s: State, n: nat)
    requires Idle(s)
    ensures CanReport(limit, s, n)
    decreases n
  {
    if n == 0 {
      assert ReportsIn(limit, s, [], 0);
    } else {
      assert Idle(Round(limit, s));
      EveryCallReports(limit, Round(limit, s), n - 1);
      Settles(limit, s, n - 1);
      NextChecks(limit, s, n - 1);
      NextReads(limit, s, n);
      Begins(limit, s, n);
    }
  }
}
