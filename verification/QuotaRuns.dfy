/** Many calls reserving and settling at once: scope locks, two-statement window reads,
    commits and crashes in any interleaving (quotas.py). */
module QuotaRuns {
  import opened Quotas

  /** Where a call stands. `Waiting(i)` holds the locks of the first i scopes of its order,
      the two reading states hold one more. `HalfRead` has summed the ledger for quota q of
      scope i and not yet the open holds. */
  datatype Pc =
    | Waiting(i: nat)
    | Checking(i: nat, q: nat)
    | HalfRead(i: nat, q: nat, spent: nat, calls: nat)
    | Held
    | Refusal(status: Status)
    | Gone
    | Closed

  /** `now` is read once, when the call starts. `order` is its budgeted scopes, sorted. */
  datatype Call = Call(now: int, estimate: nat, scopes: set<Scope>, order: seq<Scope>, pc: Pc)

  datatype State = State(clock: int, calls: seq<Call>, locks: map<Scope, nat>, holds: seq<Hold>, ledger: seq<Row>)

  datatype Action =
    | Tick(dt: nat)
    | Begin(scopes: seq<Scope>, estimate: nat)
    | Lock(c: nat)
    | ReadLedger(c: nat)
    | ReadHolds(c: nat)
    | Commit(c: nat)
    | Crash(c: nat)
    | Settle(c: nat, actual: nat)

  predicate Pending(pc: Pc) {
    pc.Waiting? || pc.Checking? || pc.HalfRead?
  }

  function LockCount(pc: Pc): nat {
    match pc
    case Waiting(i) => i
    case Checking(i, _) => i + 1
    case HalfRead(i, _, _, _) => i + 1
    case _ => 0
  }

  predicate PcFits(cfg: Config, call: Call) {
    match call.pc
    case Waiting(i) => i <= |call.order|
    case Checking(i, q) => i < |call.order| && call.order[i] in cfg.quotas && q < |cfg.quotas[call.order[i]]|
    case HalfRead(i, q, _, _) => i < |call.order| && call.order[i] in cfg.quotas && q < |cfg.quotas[call.order[i]]|
    case _ => true
  }

  predicate Enabled(cfg: Config, s: State, a: Action) {
    match a
    case Tick(_) => true
    case Begin(scopes, _) => true
    case Lock(c) => c < |s.calls| && s.calls[c].pc.Waiting? && s.calls[c].pc.i < |s.calls[c].order|
      && s.calls[c].order[s.calls[c].pc.i] !in s.locks
    case ReadLedger(c) => c < |s.calls| && s.calls[c].pc.Checking? && PcFits(cfg, s.calls[c])
    case ReadHolds(c) => c < |s.calls| && s.calls[c].pc.HalfRead? && PcFits(cfg, s.calls[c])
    case Commit(c) => c < |s.calls| && s.calls[c].pc == Waiting(|s.calls[c].order|)
    case Crash(c) => c < |s.calls| && Pending(s.calls[c].pc)
    case Settle(c, _) => c < |s.calls| && s.calls[c].pc == Held
  }

  function NewCall(cfg: Config, scopes: seq<Scope>, now: int, estimate: nat): Call {
    Call(now, estimate, (set x | x in scopes), Budgeted(cfg, InOrder(scopes)), Waiting(0))
  }

  function SetPc(s: State, c: nat, pc: Pc): State
    requires c < |s.calls|
  {
    s.(calls := s.calls[c := s.calls[c].(pc := pc)])
  }

  function Released(locks: map<Scope, nat>, c: nat): map<Scope, nat> {
    map x | x in locks && locks[x] != c :: locks[x]
  }

  function StatusAt(cfg: Config, s: State, call: Call): Status
    requires call.pc.HalfRead? && PcFits(cfg, call)
  {
    var scope := call.order[call.pc.i];
    var q := cfg.quotas[scope][call.pc.q];
    var since := WindowStart(cfg, q.period, call.now);
    Status(scope, q,
      call.pc.spent + HeldSum(s.holds, Micros, scope, since, call.now) + call.estimate,
      call.pc.calls + HeldSum(s.holds, Calls, scope, since, call.now) + 1,
      call.estimate)
  }

  // The verdict on one quota: refuse, or on to the next quota or the next scope.
  function AfterCheck(cfg: Config, s: State, call: Call): Pc
    requires call.pc.HalfRead? && PcFits(cfg, call)
  {
    var status := StatusAt(cfg, s, call);
    if status.quota.blocking && ExceededDimension(status).Some? then Refusal(status)
    else if call.pc.q + 1 < |cfg.quotas[status.scope]| then Checking(call.pc.i, call.pc.q + 1)
    else Waiting(call.pc.i + 1)
  }

  function Apply(cfg: Config, s: State, a: Action): State
    requires Enabled(cfg, s, a)
  {
    match a
    case Tick(dt) => s.(clock := s.clock + dt)
    case Begin(scopes, estimate) => s.(calls := s.calls + [NewCall(cfg, scopes, s.clock, estimate)])
    case Lock(c) => SetPc(s, c, Checking(s.calls[c].pc.i, 0)).(locks := s.locks[s.calls[c].order[s.calls[c].pc.i] := c])
    case ReadLedger(c) =>
      var Checking(i, q) := s.calls[c].pc;
      var scope := s.calls[c].order[i];
      var since := WindowStart(cfg, cfg.quotas[scope][q].period, s.calls[c].now);
      SetPc(s, c, HalfRead(i, q, LedgerSum(s.ledger, Micros, scope, since), LedgerSum(s.ledger, Calls, scope, since)))
    case ReadHolds(c) =>
      var next := AfterCheck(cfg, s, s.calls[c]);
      SetPc(s, c, next).(locks := if next.Refusal? then Released(s.locks, c) else s.locks)
    case Commit(c) =>
      SetPc(s, c, Held).(locks := Released(s.locks, c),
        holds := s.holds + NewHolds(c, s.calls[c].order, s.calls[c].now, s.calls[c].estimate))
    case Crash(c) => SetPc(s, c, Gone).(locks := Released(s.locks, c))
    case Settle(c, actual) =>
      SetPc(s, c, Closed).(holds := MarkSettled(s.holds, c, actual),
        ledger := s.ledger + [Row(s.calls[c].scopes, s.clock, actual)])
  }

  ghost predicate Legal(cfg: Config, s: State, run: seq<Action>)
    decreases |run|
  {
    run == [] || (Enabled(cfg, s, run[0]) && Legal(cfg, Apply(cfg, s, run[0]), run[1..]))
  }

  ghost function Final(cfg: Config, s: State, run: seq<Action>): State
    requires Legal(cfg, s, run)
    decreases |run|
  {
    if run == [] then s else Final(cfg, Apply(cfg, s, run[0]), run[1..])
  }

  // ---- Shape: who holds which lock, and which call left which hold ----

  ghost predicate CallOk(cfg: Config, call: Call) {
    && Ascending(call.order) && PcFits(cfg, call)
    && forall x :: x in call.order <==> x in call.scopes && x in cfg.quotas && cfg.quotas[x] != []
  }

  // The scopes whose locks a call holds.
  predicate Locks(call: Call, x: Scope) {
    x in call.order[..Least(LockCount(call.pc), |call.order|)]
  }

  function Least(a: nat, b: nat): nat {
    if a < b then a else b
  }

  ghost predicate LocksOk(s: State) {
    && (forall x :: x in s.locks ==> s.locks[x] < |s.calls| && Locks(s.calls[s.locks[x]], x))
    && (forall c, x :: 0 <= c < |s.calls| && Locks(s.calls[c], x) ==> x in s.locks && s.locks[x] == c)
  }

  /** A hold row belongs to a granted call, carries its start time and estimate, and is open
      exactly until the call settles. */
  ghost predicate HoldOk(s: State, h: Hold) {
    && h.call < |s.calls| && h.ts == s.calls[h.call].now && h.estimate == s.calls[h.call].estimate
    && h.scope in s.calls[h.call].order
    && (if h.settled.None? then s.calls[h.call].pc == Held else s.calls[h.call].pc == Closed)
  }

  ghost predicate HasHold(holds: seq<Hold>, c: nat, x: Scope) {
    exists i :: 0 <= i < |holds| && holds[i].call == c && holds[i].scope == x
  }

  ghost predicate HoldsOk(s: State) {
    && (forall i :: 0 <= i < |s.holds| ==> HoldOk(s, s.holds[i]))
    && (forall c, x ::
          0 <= c < |s.calls| && (s.calls[c].pc == Held || s.calls[c].pc == Closed) && x in s.calls[c].order ==>
            HasHold(s.holds, c, x))
  }

  ghost predicate CallsOk(cfg: Config, s: State) {
    forall c :: 0 <= c < |s.calls| ==> CallOk(cfg, s.calls[c]) && s.calls[c].now <= s.clock
  }

  ghost predicate Wf(cfg: Config, s: State) {
    CallsOk(cfg, s) && LocksOk(s) && HoldsOk(s)
  }

  /** The source gives a call at most one scope of each kind. */
  ghost predicate Sane(a: Action) {
    a.Begin? ==> Distinct(a.scopes)
  }

  lemma NewCallOk(cfg: Config, scopes: seq<Scope>, now: int, estimate: nat)
    requires Distinct(scopes)
    ensures CallOk(cfg, NewCall(cfg, scopes, now, estimate))
  {
    InOrderSorts(scopes);
    BudgetedAscends(cfg, InOrder(scopes));
  }

  lemma StepKeepsCalls(cfg: Config, s: State, a: Action)
    requires CallsOk(cfg, s) && Enabled(cfg, s, a) && Sane(a)
    ensures CallsOk(cfg, Apply(cfg, s, a))
  {
    var s' := Apply(cfg, s, a);
    if a.Begin? {
      NewCallOk(cfg, a.scopes, s.clock, a.estimate);
    } else if a.Lock? {
      assert s.calls[a.c].order[s.calls[a.c].pc.i] in s.calls[a.c].order;
    }
    forall c | 0 <= c < |s'.calls|
      ensures CallOk(cfg, s'.calls[c]) && s'.calls[c].now <= s'.clock
    {
      if c < |s.calls| {
        assert CallOk(cfg, s.calls[c]);
      }
    }
  }

  // What an action does to one call's locks.
  lemma LocksOfOthers(cfg: Config, s: State, a: Action, c: nat)
    requires CallsOk(cfg, s) && Enabled(cfg, s, a) && c < |s.calls| && (a.Tick? || a.Begin? || a.c != c)
    ensures Apply(cfg, s, a).calls[c] == s.calls[c]
  {
  }

  lemma LocksOfActor(cfg: Config, s: State, a: Action, x: Scope)
    requires CallsOk(cfg, s) && Enabled(cfg, s, a) && !a.Tick? && !a.Begin?
    ensures var s' := Apply(cfg, s, a);
            Locks(s'.calls[a.c], x) <==>
              match a
              case Lock(c) => Locks(s.calls[c], x) || x == s.calls[c].order[s.calls[c].pc.i]
              case ReadLedger(c) => Locks(s.calls[c], x)
              case ReadHolds(c) => Locks(s.calls[c], x) && !s'.calls[c].pc.Refusal?
              case _ => false
  {
    var call, call' := s.calls[a.c], Apply(cfg, s, a).calls[a.c];
    assert CallOk(cfg, call);
    if a.Lock? {
      var i := call.pc.i;
      assert call.order[..i + 1] == call.order[..i] + [call.order[i]];
    }
  }

  lemma ActorsLocks(cfg: Config, s: State, a: Action, x: Scope)
    requires CallsOk(cfg, s) && LocksOk(s) && Enabled(cfg, s, a) && !a.Tick? && !a.Begin?
    ensures var s' := Apply(cfg, s, a);
            a.c < |s'.calls| && (Locks(s'.calls[a.c], x) <==> x in s'.locks && s'.locks[x] == a.c)
  {
    assert Locks(s.calls[a.c], x) <==> x in s.locks && s.locks[x] == a.c;
    LocksOfActor(cfg, s, a, x);
  }

  lemma OthersLocks(cfg: Config, s: State, a: Action, c: nat, x: Scope)
    requires CallsOk(cfg, s) && LocksOk(s) && Enabled(cfg, s, a) && !a.Tick? && !a.Begin?
    requires c < |s.calls| && a.c != c
    ensures var s' := Apply(cfg, s, a);
            c < |s'.calls| && (Locks(s'.calls[c], x) <==> x in s'.locks && s'.locks[x] == c)
  {
    assert Locks(s.calls[c], x) <==> x in s.locks && s.locks[x] == c;
    LocksOfOthers(cfg, s, a, c);
  }

  // Nobody takes or drops a lock.
  lemma LocksIdle(cfg: Config, s: State, a: Action, c: nat, x: Scope)
    requires CallsOk(cfg, s) && LocksOk(s) && Enabled(cfg, s, a) && (a.Tick? || a.Begin?)
    requires c < |Apply(cfg, s, a).calls|
    ensures var s' := Apply(cfg, s, a); Locks(s'.calls[c], x) <==> x in s'.locks && s'.locks[x] == c
  {
    if c < |s.calls| {
      LocksOfOthers(cfg, s, a, c);
      assert Locks(s.calls[c], x) <==> x in s.locks && s.locks[x] == c;
    }
  }

  lemma StepKeepsLocks(cfg: Config, s: State, a: Action)
    requires CallsOk(cfg, s) && LocksOk(s) && Enabled(cfg, s, a)
    ensures LocksOk(Apply(cfg, s, a))
  {
    var s' := Apply(cfg, s, a);
    LocksInRange(cfg, s, a);
    forall c, x | 0 <= c < |s'.calls|
      ensures Locks(s'.calls[c], x) <==> x in s'.locks && s'.locks[x] == c
    {
      if a.Tick? || a.Begin? {
        LocksIdle(cfg, s, a, c, x);
      } else if a.c == c {
        ActorsLocks(cfg, s, a, x);
      } else {
        OthersLocks(cfg, s, a, c, x);
      }
    }
  }

  lemma LocksInRange(cfg: Config, s: State, a: Action)
    requires LocksOk(s) && Enabled(cfg, s, a)
    ensures forall x :: x in Apply(cfg, s, a).locks ==> Apply(cfg, s, a).locks[x] < |Apply(cfg, s, a).calls|
  {
  }

  lemma StepKeepsHolds(cfg: Config, s: State, a: Action)
    requires HoldsOk(s) && Enabled(cfg, s, a)
    ensures HoldsOk(Apply(cfg, s, a))
  {
    var s' := Apply(cfg, s, a);
    forall i | 0 <= i < |s'.holds|
      ensures HoldOk(s', s'.holds[i])
    {
      if i < |s.holds| {
        assert HoldOk(s, s.holds[i]);
      }
    }
    forall c, x | 0 <= c < |s'.calls| && (s'.calls[c].pc == Held || s'.calls[c].pc == Closed) && x in s'.calls[c].order
      ensures HasHold(s'.holds, c, x)
    {
      GrantedHasHold(cfg, s, a, c, x);
    }
  }

  lemma GrantedHasHold(cfg: Config, s: State, a: Action, c: nat, x: Scope)
    requires HoldsOk(s) && Enabled(cfg, s, a)
    requires var s' := Apply(cfg, s, a);
             c < |s'.calls| && (s'.calls[c].pc == Held || s'.calls[c].pc == Closed) && x in s'.calls[c].order
    ensures HasHold(Apply(cfg, s, a).holds, c, x)
  {
    var s' := Apply(cfg, s, a);
    if a.Commit? && a.c == c {
      var i :| 0 <= i < |s.calls[c].order| && s.calls[c].order[i] == x;
      assert s'.holds[|s.holds| + i].scope == x;
    } else {
      assert HasHold(s.holds, c, x);
      var i :| 0 <= i < |s.holds| && s.holds[i].call == c && s.holds[i].scope == x;
      assert s'.holds[i].call == c && s'.holds[i].scope == x;
    }
  }

  lemma StepKeepsWf(cfg: Config, s: State, a: Action)
    requires Wf(cfg, s) && Enabled(cfg, s, a) && Sane(a)
    ensures Wf(cfg, Apply(cfg, s, a))
  {
    StepKeepsCalls(cfg, s, a);
    StepKeepsLocks(cfg, s, a);
    StepKeepsHolds(cfg, s, a);
  }

  ghost predicate SaneRun(run: seq<Action>) {
    forall i :: 0 <= i < |run| ==> Sane(run[i])
  }

  lemma {:induction false} RunKeepsWf(cfg: Config, s: State, run: seq<Action>)
    requires Wf(cfg, s) && Legal(cfg, s, run) && SaneRun(run)
    ensures Wf(cfg, Final(cfg, s, run))
    decreases |run|
  {
    if run != [] {
      assert Sane(run[0]);
      StepKeepsWf(cfg, s, run[0]);
      RunKeepsWf(cfg, Apply(cfg, s, run[0]), run[1..]);
    }
  }

  /** In every run a refused or crashed reserve leaves no hold on any scope, and a granted
      one holds its estimate on every budgeted scope of its call. */
  lemma RefusalLeavesNothing(cfg: Config, s: State, run: seq<Action>, c: nat, x: Scope)
    requires Wf(cfg, s) && Legal(cfg, s, run) && SaneRun(run)
    requires c < |Final(cfg, s, run).calls|
    ensures var call := Final(cfg, s, run).calls[c];
            && (HasHold(Final(cfg, s, run).holds, c, x) ==> call.pc == Held || call.pc == Closed)
            && (call.pc == Held && x in call.scopes && x in cfg.quotas && cfg.quotas[x] != [] ==>
              HasHold(Final(cfg, s, run).holds, c, x))
  {
    RunKeepsWf(cfg, s, run);
  }
}
