/** What the reserve/settle protocol guarantees over whole runs: a bound on every blocking
    budget, and no deadlock (quotas.py). */
module QuotaSafety {
  import opened Wrappers
  import opened Quotas
  import opened QuotaRuns

  // ---- No overshoot ----

  /** One limit of one blocking quota (quota k of its scope), in the window from `since`. */
  datatype Watch = Watch(scope: Scope, k: nat, dim: Dimension, since: int, limit: nat)

  // The limit is one the configuration sets.
  ghost predicate Limits(cfg: Config, w: Watch) {
    && w.scope in cfg.quotas && w.k < |cfg.quotas[w.scope]|
    && LimitOf(cfg.quotas[w.scope][w.k], w.dim) == Some(w.limit)
  }

  ghost predicate Watches(cfg: Config, w: Watch) {
    Limits(cfg, w) && cfg.quotas[w.scope][w.k].blocking
  }

  ghost predicate InWindow(cfg: Config, w: Watch, now: int)
    requires Limits(cfg, w)
  {
    WindowStart(cfg, cfg.quotas[w.scope][w.k].period, now) == w.since <= now
  }

  // A pending call that has passed the watched quota's check.
  predicate Passed(call: Call, w: Watch) {
    match call.pc
    case Waiting(i) => w.scope in call.order[..Least(i, |call.order|)]
    case Checking(i, q) => w.scope in call.order[..Least(i, |call.order|)]
      || (i < |call.order| && call.order[i] == w.scope && w.k < q)
    case HalfRead(i, q, _, _) => w.scope in call.order[..Least(i, |call.order|)]
      || (i < |call.order| && call.order[i] == w.scope && w.k < q)
    case _ => false
  }

  // A call between the two reads of the watched quota's check.
  predicate MidRead(call: Call, w: Watch) {
    call.pc.HalfRead? && call.pc.i < |call.order| && call.order[call.pc.i] == w.scope && call.pc.q == w.k
  }

  predicate Holder(s: State, w: Watch, c: nat) {
    w.scope in s.locks && s.locks[w.scope] == c && c < |s.calls|
  }

  /** Settled spend plus live holds, as of the clock. */
  function Used(s: State, w: Watch): nat {
    LedgerSum(s.ledger, w.dim, w.scope, w.since) + HeldSum(s.holds, w.dim, w.scope, w.since, s.clock)
  }

  function Promised(s: State, w: Watch): nat {
    if w.scope in s.locks && s.locks[w.scope] < |s.calls| && Passed(s.calls[s.locks[w.scope]], w)
    then Weight(w.dim, s.calls[s.locks[w.scope]].estimate) else 0
  }

  /** What is held and not lapsed, and what a pending call has been promised. */
  function Committed(s: State, w: Watch): nat {
    HeldSum(s.holds, w.dim, w.scope, w.since, s.clock) + Promised(s, w)
  }

  // What a mid-read call has summed of the ledger.
  function Seen(call: Call, w: Watch): nat
    requires MidRead(call, w)
  {
    if w.dim == Micros then call.pc.spent else call.pc.calls
  }

  ghost predicate Reader(s: State, w: Watch, c: nat) {
    Holder(s, w, c) && MidRead(s.calls[c], w)
  }

  function Spent(s: State, w: Watch): nat {
    LedgerSum(s.ledger, w.dim, w.scope, w.since)
  }

  ghost predicate AllInWindow(cfg: Config, s: State, w: Watch)
    requires Limits(cfg, w)
  {
    forall c :: 0 <= c < |s.calls| ==> InWindow(cfg, w, s.calls[c].now)
  }

  /** Calls start in the window. */
  ghost predicate Timely(cfg: Config, s: State, a: Action, w: Watch)
    requires Limits(cfg, w)
  {
    a.Begin? ==> Distinct(a.scopes) && InWindow(cfg, w, s.clock)
  }

  /** Calls start in the window, cost at most their hold, and settle before it lapses. */
  ghost predicate Tame(cfg: Config, s: State, a: Action, w: Watch)
    requires Watches(cfg, w)
  {
    && Timely(cfg, s, a, w)
    && (a.Settle? && a.c < |s.calls| ==> a.actual <= s.calls[a.c].estimate && s.clock < s.calls[a.c].now + TTL)
  }

  /** What a settle on the scope puts into the ledger behind the back of a call that has
      already summed it but not yet summed the holds. */
  function Raced(s: State, a: Action, w: Watch): nat {
    if a.Settle? && a.c < |s.calls| && w.scope in s.calls[a.c].scopes
       && w.scope in s.locks && s.locks[w.scope] < |s.calls| && MidRead(s.calls[s.locks[w.scope]], w)
    then Weight(w.dim, a.actual) else 0
  }

  /** The call gets past the watched quota. */
  ghost predicate Passing(cfg: Config, s: State, a: Action, w: Watch)
    requires Enabled(cfg, s, a)
  {
    a.ReadHolds? && MidRead(s.calls[a.c], w) && !AfterCheck(cfg, s, s.calls[a.c]).Refusal?
  }

  // How one step moves the sums: only a passing check promises more, and then there was room.
  ghost predicate SumsMove(cfg: Config, s: State, a: Action, s': State, w: Watch)
    requires Enabled(cfg, s, a)
  {
    if Passing(cfg, s, a, w)
    then Promised(s, w) == 0 && Spent(s', w) == Spent(s, w) && Used(s', w) == Used(s, w)
      && Reader(s, w, a.c) && Seen(s.calls[a.c], w) + Committed(s', w) <= w.limit
    else Committed(s', w) <= Committed(s, w) && Spent(s', w) + Committed(s', w) <= Spent(s, w) + Committed(s, w)
  }

  // A reader has just summed the ledger, or has been reading all along.
  ghost predicate ReadersMove(s: State, a: Action, s': State, w: Watch) {
    forall c: nat :: Reader(s', w, c) ==>
      if a.ReadLedger? && a.c == c then Seen(s'.calls[c], w) == Spent(s', w)
      else Reader(s, w, c) && Seen(s'.calls[c], w) == Seen(s.calls[c], w)
           && Spent(s', w) <= Spent(s, w) + Raced(s, a, w)
  }

  lemma TickMoves(cfg: Config, s: State, a: Action, w: Watch)
    requires Watches(cfg, w) && Enabled(cfg, s, a) && a.Tick?
    ensures SumsMove(cfg, s, a, Apply(cfg, s, a), w) && ReadersMove(s, a, Apply(cfg, s, a), w)
  {
    HeldSumLapses(s.holds, w.dim, w.scope, w.since, s.clock, s.clock + a.dt);
  }

  lemma BeginMoves(cfg: Config, s: State, a: Action, w: Watch)
    requires Watches(cfg, w) && Wf(cfg, s) && Enabled(cfg, s, a) && a.Begin?
    ensures SumsMove(cfg, s, a, Apply(cfg, s, a), w) && ReadersMove(s, a, Apply(cfg, s, a), w)
  {
  }

  lemma LockMoves(cfg: Config, s: State, a: Action, w: Watch)
    requires Watches(cfg, w) && Wf(cfg, s) && Enabled(cfg, s, a) && a.Lock?
    ensures SumsMove(cfg, s, a, Apply(cfg, s, a), w) && ReadersMove(s, a, Apply(cfg, s, a), w)
  {
    var call := s.calls[a.c];
    assert CallOk(cfg, call);
    assert w.scope == call.order[call.pc.i] ==> w.scope !in call.order[..call.pc.i];
  }

  lemma ReadLedgerMoves(cfg: Config, s: State, a: Action, w: Watch)
    requires Watches(cfg, w) && Wf(cfg, s) && AllInWindow(cfg, s, w) && Enabled(cfg, s, a) && a.ReadLedger?
    ensures SumsMove(cfg, s, a, Apply(cfg, s, a), w) && ReadersMove(s, a, Apply(cfg, s, a), w)
  {
    assert InWindow(cfg, w, s.calls[a.c].now);
  }

  lemma PassedAfterCheck(cfg: Config, s: State, call: Call, w: Watch)
    requires Watches(cfg, w) && CallOk(cfg, call) && call.pc.HalfRead?
    ensures var next := AfterCheck(cfg, s, call);
            Passed(call.(pc := next), w) <==> !next.Refusal? && (Passed(call, w) || MidRead(call, w))
    ensures MidRead(call, w) ==> !Passed(call, w)
  {
    var i := call.pc.i;
    assert call.order[..i + 1] == call.order[..i] + [call.order[i]];
  }

  // A call that gets past the watched quota left room for its estimate.
  lemma PassingLeavesRoom(cfg: Config, s: State, a: Action, w: Watch)
    requires Watches(cfg, w) && Wf(cfg, s) && AllInWindow(cfg, s, w) && Enabled(cfg, s, a) && Passing(cfg, s, a, w)
    ensures Reader(s, w, a.c)
    ensures Seen(s.calls[a.c], w) + HeldSum(s.holds, w.dim, w.scope, w.since, s.clock)
      + Weight(w.dim, s.calls[a.c].estimate) <= w.limit
  {
    var call := s.calls[a.c];
    assert CallOk(cfg, call) && InWindow(cfg, w, call.now);
    assert Locks(call, w.scope) by {
      assert call.order[..call.pc.i + 1][call.pc.i] == w.scope;
    }
    HeldSumLapses(s.holds, w.dim, w.scope, w.since, call.now, s.clock);
  }

  // The second read of a check takes no lock, and leaves a mid-read call only by ending it.
  lemma ReadHoldsKeepsHolders(cfg: Config, s: State, a: Action, w: Watch)
    requires Watches(cfg, w) && Wf(cfg, s) && Enabled(cfg, s, a) && a.ReadHolds?
    ensures forall c: nat :: Holder(Apply(cfg, s, a), w, c) ==> Holder(s, w, c)
    ensures ReadersMove(s, a, Apply(cfg, s, a), w)
  {
    assert CallOk(cfg, s.calls[a.c]);
    PassedAfterCheck(cfg, s, s.calls[a.c], w);
  }

  lemma ReadHoldsMoves(cfg: Config, s: State, a: Action, w: Watch)
    requires Watches(cfg, w) && Wf(cfg, s) && AllInWindow(cfg, s, w) && Enabled(cfg, s, a) && a.ReadHolds?
    ensures SumsMove(cfg, s, a, Apply(cfg, s, a), w) && ReadersMove(s, a, Apply(cfg, s, a), w)
  {
    assert CallOk(cfg, s.calls[a.c]);
    PassedAfterCheck(cfg, s, s.calls[a.c], w);
    ReadHoldsKeepsHolders(cfg, s, a, w);
    if Passing(cfg, s, a, w) {
      PassingLeavesRoom(cfg, s, a, w);
    }
  }

  lemma {:induction false} NewHoldsSum(call: nat, scopes: seq<Scope>, now: int, estimate: nat, w: Watch, clock: int)
    requires Ascending(scopes)
    ensures HeldSum(NewHolds(call, scopes, now, estimate), w.dim, w.scope, w.since, clock)
      <= if w.scope in scopes then Weight(w.dim, estimate) else 0
  {
    if scopes != [] {
      var rest, last := scopes[..|scopes| - 1], scopes[|scopes| - 1];
      var rows := NewHolds(call, scopes, now, estimate);
      assert rows[..|rows| - 1] == NewHolds(call, rest, now, estimate);
      NewHoldsSum(call, rest, now, estimate, w, clock);
      assert last !in rest;
      assert scopes == rest + [last];
    }
  }

  lemma CommitMoves(cfg: Config, s: State, a: Action, w: Watch)
    requires Watches(cfg, w) && Wf(cfg, s) && Enabled(cfg, s, a) && a.Commit?
    ensures SumsMove(cfg, s, a, Apply(cfg, s, a), w) && ReadersMove(s, a, Apply(cfg, s, a), w)
  {
    var s', call := Apply(cfg, s, a), s.calls[a.c];
    assert CallOk(cfg, call) && call.order[..|call.order|] == call.order;
    HeldSumOfBoth(s.holds, NewHolds(a.c, call.order, call.now, call.estimate), w.dim, w.scope, w.since, s.clock);
    NewHoldsSum(a.c, call.order, call.now, call.estimate, w, s.clock);
    assert forall c: nat :: Holder(s', w, c) ==> Holder(s, w, c) && c != a.c;
    if w.scope in call.order {
      assert Locks(call, w.scope);
      assert Holder(s, w, a.c) && Passed(call, w);
    }
  }

  lemma CrashMoves(cfg: Config, s: State, a: Action, w: Watch)
    requires Watches(cfg, w) && Wf(cfg, s) && Enabled(cfg, s, a) && a.Crash?
    ensures SumsMove(cfg, s, a, Apply(cfg, s, a), w) && ReadersMove(s, a, Apply(cfg, s, a), w)
  {
    var s' := Apply(cfg, s, a);
    assert forall c: nat :: Holder(s', w, c) ==> Holder(s, w, c) && c != a.c;
  }

  // Settling takes the call's live holds out of the sum.
  lemma {:induction false} SettlingFrees(holds: seq<Hold>, c: nat, actual: nat, estimate: nat, w: Watch, clock: int)
    requires forall i :: 0 <= i < |holds| && holds[i].call == c ==> holds[i].estimate == estimate
    ensures var after := HeldSum(MarkSettled(holds, c, actual), w.dim, w.scope, w.since, clock);
            && after <= HeldSum(holds, w.dim, w.scope, w.since, clock)
            && forall i :: 0 <= i < |holds| && holds[i].call == c && Live(holds[i], w.scope, w.since, clock) ==>
                 after + Weight(w.dim, estimate) <= HeldSum(holds, w.dim, w.scope, w.since, clock)
  {
    if holds != [] {
      var rest := holds[..|holds| - 1];
      SettlingFrees(rest, c, actual, estimate, w, clock);
      assert MarkSettled(holds, c, actual)[..|holds| - 1] == MarkSettled(rest, c, actual);
      forall i | 0 <= i < |holds| && holds[i].call == c && Live(holds[i], w.scope, w.since, clock)
        ensures HeldSum(MarkSettled(holds, c, actual), w.dim, w.scope, w.since, clock) + Weight(w.dim, estimate)
          <= HeldSum(holds, w.dim, w.scope, w.since, clock)
      {
        if i < |rest| {
          assert rest[i] == holds[i];
        }
      }
    }
  }

  lemma SettleKeepsReaders(cfg: Config, s: State, a: Action, w: Watch)
    requires Wf(cfg, s) && Enabled(cfg, s, a) && a.Settle?
    ensures forall c: nat :: Holder(Apply(cfg, s, a), w, c) <==> Holder(s, w, c)
    ensures forall c: nat :: Holder(s, w, c) ==> Apply(cfg, s, a).calls[c] == s.calls[c]
    ensures Promised(Apply(cfg, s, a), w) == Promised(s, w)
  {
    forall c: nat | Holder(s, w, c)
      ensures c != a.c
    {
      assert Locks(s.calls[c], w.scope);
    }
  }

  // A settled call's hold on the scope was live.
  lemma HoldWasLive(cfg: Config, s: State, a: Action, w: Watch)
    requires Watches(cfg, w) && Wf(cfg, s) && AllInWindow(cfg, s, w) && Enabled(cfg, s, a) && Tame(cfg, s, a, w)
      && a.Settle?
    requires w.scope in s.calls[a.c].scopes
    ensures exists i :: 0 <= i < |s.holds| && s.holds[i].call == a.c && Live(s.holds[i], w.scope, w.since, s.clock)
  {
    assert CallOk(cfg, s.calls[a.c]) && InWindow(cfg, w, s.calls[a.c].now);
    assert HasHold(s.holds, a.c, w.scope);
    var i :| 0 <= i < |s.holds| && s.holds[i].call == a.c && s.holds[i].scope == w.scope;
    assert HoldOk(s, s.holds[i]);
  }

  // The estimate covers what is spent.
  lemma SettleShrinks(cfg: Config, s: State, a: Action, w: Watch)
    requires Watches(cfg, w) && Wf(cfg, s) && AllInWindow(cfg, s, w) && Enabled(cfg, s, a) && Tame(cfg, s, a, w)
      && a.Settle?
    ensures var s' := Apply(cfg, s, a);
      && HeldSum(s'.holds, w.dim, w.scope, w.since, s'.clock) <= HeldSum(s.holds, w.dim, w.scope, w.since, s.clock)
      && Used(s', w) <= Used(s, w)
      && Spent(s', w) <= Spent(s, w) + if w.scope in s.calls[a.c].scopes then Weight(w.dim, a.actual) else 0
  {
    var call := s.calls[a.c];
    assert Apply(cfg, s, a).ledger[..|s.ledger|] == s.ledger;
    forall i | 0 <= i < |s.holds| && s.holds[i].call == a.c
      ensures s.holds[i].estimate == call.estimate
    {
      assert HoldOk(s, s.holds[i]);
    }
    SettlingFrees(s.holds, a.c, a.actual, call.estimate, w, s.clock);
    if w.scope in call.scopes {
      HoldWasLive(cfg, s, a, w);
    }
  }

  lemma SettleMoves(cfg: Config, s: State, a: Action, w: Watch)
    requires Watches(cfg, w) && Wf(cfg, s) && AllInWindow(cfg, s, w) && Enabled(cfg, s, a) && Tame(cfg, s, a, w)
      && a.Settle?
    ensures SumsMove(cfg, s, a, Apply(cfg, s, a), w) && ReadersMove(s, a, Apply(cfg, s, a), w)
  {
    SettleShrinks(cfg, s, a, w);
    SettleKeepsReaders(cfg, s, a, w);
    SettleMovesReaders(s, a, Apply(cfg, s, a), w);
  }

  // A reader has missed what was settled since its first read.
  lemma SettleMovesReaders(s: State, a: Action, s': State, w: Watch)
    requires a.Settle? && a.c < |s.calls| == |s'.calls|
    requires forall c: nat :: Holder(s', w, c) <==> Holder(s, w, c)
    requires forall c: nat :: Holder(s, w, c) ==> s'.calls[c] == s.calls[c]
    requires Spent(s', w) <= Spent(s, w) + if w.scope in s.calls[a.c].scopes then Weight(w.dim, a.actual) else 0
    ensures ReadersMove(s, a, s', w)
  {
  }

  lemma StepMoves(cfg: Config, s: State, a: Action, w: Watch)
    requires Watches(cfg, w) && Wf(cfg, s) && AllInWindow(cfg, s, w) && Enabled(cfg, s, a) && Tame(cfg, s, a, w)
    ensures SumsMove(cfg, s, a, Apply(cfg, s, a), w) && ReadersMove(s, a, Apply(cfg, s, a), w)
  {
    match a {
      case Tick(_) => TickMoves(cfg, s, a, w);
      case Begin(_, _) => BeginMoves(cfg, s, a, w);
      case Lock(_) => LockMoves(cfg, s, a, w);
      case ReadLedger(_) => ReadLedgerMoves(cfg, s, a, w);
      case ReadHolds(_) => ReadHoldsMoves(cfg, s, a, w);
      case Commit(_) => CommitMoves(cfg, s, a, w);
      case Crash(_) => CrashMoves(cfg, s, a, w);
      case Settle(_, _) => SettleMoves(cfg, s, a, w);
    }
  }

  // ---- The two bounds ----

  /** However settles race, what is committed stays within the limit and what is used within
      twice the limit. */
  ghost predicate Doubled(s: State, w: Watch) {
    && Committed(s, w) <= w.limit && Spent(s, w) + Committed(s, w) <= 2 * w.limit
    && forall c: nat :: Reader(s, w, c) ==> Used(s, w) <= w.limit + Seen(s.calls[c], w)
  }

  // A call in the middle of the watched check has been promised nothing yet.
  lemma ReaderPromisedNothing(cfg: Config, s: State, w: Watch, c: nat)
    requires Wf(cfg, s) && Reader(s, w, c)
    ensures Promised(s, w) == 0
  {
    assert CallOk(cfg, s.calls[c]);
  }

  lemma StepKeepsDoubled(cfg: Config, s: State, a: Action, s': State, w: Watch)
    requires Wf(cfg, s) && Enabled(cfg, s, a) && SumsMove(cfg, s, a, s', w) && ReadersMove(s, a, s', w) && Doubled(s, w)
    ensures Doubled(s', w)
  {
    if Passing(cfg, s, a, w) {
      ReaderPromisedNothing(cfg, s, w, a.c);
    }
    forall c: nat | Reader(s', w, c)
      ensures Used(s', w) <= w.limit + Seen(s'.calls[c], w)
    {
      if !(a.ReadLedger? && a.c == c) {
        ReaderPromisedNothing(cfg, s, w, c);
      }
    }
  }

  /** `slack` bounds what was missed by the checks that passed, `current` what the check now
      under way has missed so far. */
  ghost predicate Budget(s: State, w: Watch, slack: nat, current: nat) {
    && Spent(s, w) + Committed(s, w) <= w.limit + slack
    && forall c: nat :: Reader(s, w, c) ==> Spent(s, w) <= Seen(s.calls[c], w) + current
  }

  function Most(a: nat, b: nat): nat {
    if a < b then b else a
  }

  ghost function NextSlack(cfg: Config, s: State, a: Action, w: Watch, slack: nat, current: nat): nat
    requires Enabled(cfg, s, a)
  {
    if Passing(cfg, s, a, w) then Most(slack, current) else slack
  }

  ghost function NextCurrent(cfg: Config, s: State, a: Action, w: Watch, current: nat): nat
    requires Enabled(cfg, s, a)
  {
    if a.ReadLedger? && Reader(Apply(cfg, s, a), w, a.c) then 0 else current + Raced(s, a, w)
  }

  lemma StepKeepsBudget(cfg: Config, s: State, a: Action, w: Watch, slack: nat, current: nat)
    requires Enabled(cfg, s, a) && SumsMove(cfg, s, a, Apply(cfg, s, a), w) && ReadersMove(s, a, Apply(cfg, s, a), w)
    requires Budget(s, w, slack, current)
    ensures Budget(Apply(cfg, s, a), w, NextSlack(cfg, s, a, w, slack, current), NextCurrent(cfg, s, a, w, current))
  {
  }

  ghost predicate TameRun(cfg: Config, s: State, run: seq<Action>, w: Watch)
    requires Watches(cfg, w) && Legal(cfg, s, run)
    decreases |run|
  {
    run == [] || (Tame(cfg, s, run[0], w) && TameRun(cfg, Apply(cfg, s, run[0]), run[1..], w))
  }

  /** The most that was settled on the scope, within a check that then passed, between its
      two reads. `current` is what the check under way has missed before the run. */
  ghost function LargestRace(cfg: Config, s: State, run: seq<Action>, w: Watch, current: nat): nat
    requires Legal(cfg, s, run)
    decreases |run|
  {
    if run == [] then 0
    else
      Most(if Passing(cfg, s, run[0], w) then current else 0,
        LargestRace(cfg, Apply(cfg, s, run[0]), run[1..], w, NextCurrent(cfg, s, run[0], w, current)))
  }

  lemma WindowKept(cfg: Config, s: State, a: Action, w: Watch)
    requires Limits(cfg, w) && AllInWindow(cfg, s, w) && Enabled(cfg, s, a) && Timely(cfg, s, a, w)
    ensures AllInWindow(cfg, Apply(cfg, s, a), w)
  {
    var s' := Apply(cfg, s, a);
    forall c | 0 <= c < |s'.calls|
      ensures InWindow(cfg, w, s'.calls[c].now)
    {
      if c < |s.calls| {
        assert InWindow(cfg, w, s.calls[c].now);
      }
    }
  }

  lemma {:induction false} BoundsHold(cfg: Config, s: State, run: seq<Action>, w: Watch, slack: nat, current: nat)
    requires Watches(cfg, w) && Wf(cfg, s) && AllInWindow(cfg, s, w) && Doubled(s, w) && Budget(s, w, slack, current)
    requires Legal(cfg, s, run) && TameRun(cfg, s, run, w)
    ensures Used(Final(cfg, s, run), w) <= 2 * w.limit
    ensures Used(Final(cfg, s, run), w) <= w.limit + Most(slack, LargestRace(cfg, s, run, w, current))
    decreases |run|
  {
    if run != [] {
      var a := run[0];
      var s' := Apply(cfg, s, a);
      StepMoves(cfg, s, a, w);
      StepKeepsDoubled(cfg, s, a, s', w);
      StepKeepsBudget(cfg, s, a, w, slack, current);
      StepKeepsWf(cfg, s, a);
      WindowKept(cfg, s, a, w);
      BoundsHold(cfg, s', run[1..], w, NextSlack(cfg, s, a, w, slack, current), NextCurrent(cfg, s, a, w, current));
    }
  }

  /** Nobody is calling and nothing is held. */
  ghost predicate Quiet(s: State) {
    s.calls == [] && s.locks == map[] && s.holds == []
  }

  lemma QuietIsSafe(cfg: Config, s: State, w: Watch)
    requires Watches(cfg, w) && Quiet(s) && Used(s, w) <= w.limit
    ensures Wf(cfg, s) && AllInWindow(cfg, s, w) && Doubled(s, w) && Budget(s, w, 0, 0)
  {
  }

  /** From a quiet state within the limit, any interleaving of any number of calls leaves the
      window within twice the limit, and over the limit by no more than one passed check
      missed between its two reads. */
  lemma NoOvershoot(cfg: Config, s: State, run: seq<Action>, w: Watch)
    requires Watches(cfg, w) && Quiet(s) && Used(s, w) <= w.limit
    requires Legal(cfg, s, run) && TameRun(cfg, s, run, w)
    ensures Used(Final(cfg, s, run), w) <= 2 * w.limit
    ensures Used(Final(cfg, s, run), w) <= w.limit + LargestRace(cfg, s, run, w, 0)
  {
    QuietIsSafe(cfg, s, w);
    BoundsHold(cfg, s, run, w, 0, 0);
  }

  // ---- If settle took the scope's lock ----

  /** A settle that waits while a call is between the two reads of a check of its scope, as it
      would if it took the scope's lock. */
  ghost predicate SettleWaits(s: State, a: Action, w: Watch) {
    a.Settle? && a.c < |s.calls| && w.scope in s.calls[a.c].scopes ==> forall c: nat :: !Reader(s, w, c)
  }

  ghost predicate SettlesWait(cfg: Config, s: State, run: seq<Action>, w: Watch)
    requires Legal(cfg, s, run)
    decreases |run|
  {
    run == [] || (SettleWaits(s, run[0], w) && SettlesWait(cfg, Apply(cfg, s, run[0]), run[1..], w))
  }

  lemma {:induction false} WaitingNeverRaces(cfg: Config, s: State, run: seq<Action>, w: Watch)
    requires Legal(cfg, s, run) && SettlesWait(cfg, s, run, w)
    ensures LargestRace(cfg, s, run, w, 0) == 0
    decreases |run|
  {
    if run != [] {
      assert Raced(s, run[0], w) > 0 ==> Reader(s, w, s.locks[w.scope]);
      WaitingNeverRaces(cfg, Apply(cfg, s, run[0]), run[1..], w);
    }
  }

  /** Then no run oversteps the limit. */
  lemma LockedSettleNeverOvershoots(cfg: Config, s: State, run: seq<Action>, w: Watch)
    requires Watches(cfg, w) && Quiet(s) && Used(s, w) <= w.limit
    requires Legal(cfg, s, run) && TameRun(cfg, s, run, w) && SettlesWait(cfg, s, run, w)
    ensures Used(Final(cfg, s, run), w) <= w.limit
  {
    NoOvershoot(cfg, s, run, w);
    WaitingNeverRaces(cfg, s, run, w);
  }

  // ---- Deadlock freedom ----

  ghost predicate CanStep(cfg: Config, s: State, c: nat) {
    Enabled(cfg, s, Lock(c)) || Enabled(cfg, s, ReadLedger(c)) || Enabled(cfg, s, ReadHolds(c))
      || Enabled(cfg, s, Commit(c))
  }

  function LockedAfter(s: State, x: Scope): set<Scope> {
    set y | y in s.locks && Precedes(x, y)
  }

  // Follow the chain of holders: each waits for a later scope than the one it blocks.
  lemma {:induction false} HolderChain(cfg: Config, s: State, c: nat)
    requires Wf(cfg, s) && c < |s.calls| && s.calls[c].pc.Waiting? && s.calls[c].pc.i < |s.calls[c].order|
    ensures exists d: nat :: CanStep(cfg, s, d)
    decreases |LockedAfter(s, s.calls[c].order[s.calls[c].pc.i])|
  {
    var x := s.calls[c].order[s.calls[c].pc.i];
    if x !in s.locks {
      assert CanStep(cfg, s, c);
    } else {
      var h := s.locks[x];
      var holder := s.calls[h];
      assert Locks(holder, x) && CallOk(cfg, holder);
      if holder.pc.Waiting? && holder.pc.i < |holder.order| && holder.order[holder.pc.i] in s.locks {
        var y := holder.order[holder.pc.i];
        assert Precedes(x, y);
        assert y in LockedAfter(s, x) && y !in LockedAfter(s, y);
        assert LockedAfter(s, y) < LockedAfter(s, x);
        SmallerSet(LockedAfter(s, y), LockedAfter(s, x));
        HolderChain(cfg, s, h);
      } else {
        assert CanStep(cfg, s, h);
      }
    }
  }

  lemma SmallerSet<T>(a: set<T>, b: set<T>)
    requires a < b
    ensures |a| < |b|
  {
    assert b == a + (b - a);
  }

  /** While any reserve is unfinished, some reserve has an enabled step. */
  lemma NoDeadlock(cfg: Config, s: State, run: seq<Action>, c: nat)
    requires Wf(cfg, s) && Legal(cfg, s, run) && SaneRun(run)
    requires c < |Final(cfg, s, run).calls| && Pending(Final(cfg, s, run).calls[c].pc)
    ensures exists d: nat :: CanStep(cfg, Final(cfg, s, run), d)
  {
    RunKeepsWf(cfg, s, run);
    var t := Final(cfg, s, run);
    assert CallOk(cfg, t.calls[c]);
    if t.calls[c].pc.Waiting? && t.calls[c].pc.i < |t.calls[c].order| {
      HolderChain(cfg, t, c);
    } else {
      assert CanStep(cfg, t, c);
    }
  }

  // ---- And no livelock: reserve steps run out ----

  function QuotaCount(cfg: Config, x: Scope): nat {
    if x in cfg.quotas then |cfg.quotas[x]| else 0
  }

  // A lock and two reads per quota for every scope still to come.
  function Rest(cfg: Config, scopes: seq<Scope>): nat {
    if scopes == [] then 0 else 1 + 2 * QuotaCount(cfg, scopes[0]) + Rest(cfg, scopes[1..])
  }

  function Work(cfg: Config, call: Call): nat
    requires PcFits(cfg, call)
  {
    match call.pc
    case Waiting(i) => 1 + Rest(cfg, call.order[i..])
    case Checking(i, q) => 1 + 2 * (QuotaCount(cfg, call.order[i]) - q) + Rest(cfg, call.order[i + 1..])
    case HalfRead(i, q, _, _) => 2 * (QuotaCount(cfg, call.order[i]) - q) + Rest(cfg, call.order[i + 1..])
    case _ => 0
  }

  ghost predicate AllFit(cfg: Config, calls: seq<Call>) {
    forall c :: 0 <= c < |calls| ==> PcFits(cfg, calls[c])
  }

  ghost function TotalWork(cfg: Config, calls: seq<Call>): nat
    requires AllFit(cfg, calls)
  {
    if calls == [] then 0 else TotalWork(cfg, calls[..|calls| - 1]) + Work(cfg, calls[|calls| - 1])
  }

  lemma {:induction false} WorkOfOne(cfg: Config, calls: seq<Call>, c: nat, call: Call)
    requires AllFit(cfg, calls) && c < |calls| && PcFits(cfg, call)
    ensures AllFit(cfg, calls[c := call])
      && TotalWork(cfg, calls[c := call]) == TotalWork(cfg, calls) - Work(cfg, calls[c]) + Work(cfg, call)
  {
    var rest := calls[..|calls| - 1];
    if c == |calls| - 1 {
      assert calls[c := call][..c] == rest;
    } else {
      WorkOfOne(cfg, rest, c, call);
      assert calls[c := call][..|calls| - 1] == rest[c := call];
    }
  }

  predicate IsReserveStep(a: Action) {
    a.Lock? || a.ReadLedger? || a.ReadHolds? || a.Commit?
  }

  lemma StepUsesWork(cfg: Config, s: State, a: Action)
    requires CallsOk(cfg, s) && Enabled(cfg, s, a) && IsReserveStep(a)
    ensures PcFits(cfg, s.calls[a.c]) && PcFits(cfg, Apply(cfg, s, a).calls[a.c])
    ensures Work(cfg, Apply(cfg, s, a).calls[a.c]) + 1 <= Work(cfg, s.calls[a.c])
  {
    var call := s.calls[a.c];
    assert CallOk(cfg, call);
    if a.Lock? {
      var i := call.pc.i;
      assert call.order[i] in call.order;
      assert call.order[i..][0] == call.order[i] && call.order[i..][1..] == call.order[i + 1..];
    } else if a.Commit? {
      assert call.order[|call.order|..] == [];
    }
  }

  function Begun(cfg: Config, a: Action): nat {
    if a.Begin? then Work(cfg, NewCall(cfg, a.scopes, 0, a.estimate)) else 0
  }

  function StepCount(a: Action): nat {
    if IsReserveStep(a) then 1 else 0
  }

  lemma StepBound(cfg: Config, s: State, a: Action)
    requires CallsOk(cfg, s) && Enabled(cfg, s, a) && Sane(a)
    ensures AllFit(cfg, s.calls) && AllFit(cfg, Apply(cfg, s, a).calls)
    ensures StepCount(a) + TotalWork(cfg, Apply(cfg, s, a).calls) <= TotalWork(cfg, s.calls) + Begun(cfg, a)
  {
    var s' := Apply(cfg, s, a);
    StepKeepsCalls(cfg, s, a);
    assert AllFit(cfg, s.calls) by {
      assert forall c :: 0 <= c < |s.calls| ==> CallOk(cfg, s.calls[c]);
    }
    assert AllFit(cfg, s'.calls) by {
      assert forall c :: 0 <= c < |s'.calls| ==> CallOk(cfg, s'.calls[c]);
    }
    if a.Begin? {
      assert s'.calls[..|s.calls|] == s.calls;
    } else if !a.Tick? {
      WorkOfOne(cfg, s.calls, a.c, s'.calls[a.c]);
      if IsReserveStep(a) {
        StepUsesWork(cfg, s, a);
      }
    }
  }

  function Steps(run: seq<Action>): nat {
    if run == [] then 0 else StepCount(run[0]) + Steps(run[1..])
  }

  function AllBegun(cfg: Config, run: seq<Action>): nat {
    if run == [] then 0 else Begun(cfg, run[0]) + AllBegun(cfg, run[1..])
  }

  /** The reserve steps of any run are bounded by the work its calls bring. */
  lemma {:induction false} StepsRunOut(cfg: Config, s: State, run: seq<Action>)
    requires CallsOk(cfg, s) && AllFit(cfg, s.calls) && Legal(cfg, s, run) && SaneRun(run)
    ensures Steps(run) <= TotalWork(cfg, s.calls) + AllBegun(cfg, run)
    decreases |run|
  {
    if run != [] {
      assert Sane(run[0]);
      StepBound(cfg, s, run[0]);
      StepKeepsCalls(cfg, s, run[0]);
      StepsRunOut(cfg, Apply(cfg, s, run[0]), run[1..]);
    }
  }
}
