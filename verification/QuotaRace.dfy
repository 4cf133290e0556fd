/** The bound on a blocking budget is met, whatever the limit: a run in which a settle falls
    between the two reads of a check (quotas.py). */
module QuotaRace {
  import opened Wrappers
  import opened Quotas
  import opened QuotaRuns
  import opened QuotaSafety

  /** One project with one blocking daily budget of `limit` micros. */
  function OneBudget(limit: nat): Config {
    Config(map[Scope(0, 7) := [Quota(Day, true, Some(limit), None)]], (t: int) => t)
  }

  function OneWatch(limit: nat): Watch {
    Watch(Scope(0, 7), 0, Micros, 0, limit)
  }

  function Nothing(): State {
    State(0, [], map[], [], [])
  }

  function OneCall(limit: nat, pc: Pc): Call {
    Call(0, limit, {Scope(0, 7)}, [Scope(0, 7)], pc)
  }

  // One call under way.
  function Lone(limit: nat, pc: Pc, locked: bool): State {
    State(0, [OneCall(limit, pc)], if locked then map[Scope(0, 7) := 0] else map[], [], [])
  }

  // Call 0 granted, call 1 under way.
  function Both(limit: nat, pc: Pc, locked: bool): State {
    State(0, [OneCall(limit, Held), OneCall(limit, pc)], if locked then map[Scope(0, 7) := 1] else map[],
      [Hold(0, Scope(0, 7), 0, limit, None)], [])
  }

  // Call 0 settled, call 1 still under way.
  function Overtaken(limit: nat, pc: Pc): State {
    State(0, [OneCall(limit, Closed), OneCall(limit, pc)], map[Scope(0, 7) := 1],
      [Hold(0, Scope(0, 7), 0, limit, Some(limit))], [Row({Scope(0, 7)}, 0, limit)])
  }

  function Overspent(limit: nat): State {
    State(0, [OneCall(limit, Closed), OneCall(limit, Held)], map[],
      [Hold(0, Scope(0, 7), 0, limit, Some(limit)), Hold(1, Scope(0, 7), 0, limit, None)],
        [Row({Scope(0, 7)}, 0, limit)])
  }

  ghost predicate Leads(limit: nat, s: State, run: seq<Action>, t: State) {
    Legal(OneBudget(limit), s, run) && Final(OneBudget(limit), s, run) == t
      && TameRun(OneBudget(limit), s, run, OneWatch(limit))
  }

  /** Some tame run leads there. */
  ghost predicate CanLead(limit: nat, s: State, t: State) {
    exists run :: Leads(limit, s, run, t)
  }

  lemma {:induction false} OneMore(limit: nat, s: State, run: seq<Action>, a: Action)
    requires Legal(OneBudget(limit), s, run) && TameRun(OneBudget(limit), s, run, OneWatch(limit))
    requires var t := Final(OneBudget(limit), s, run);
             Enabled(OneBudget(limit), t, a) && Tame(OneBudget(limit), t, a, OneWatch(limit))
    ensures Leads(limit, s, run + [a], Apply(OneBudget(limit), Final(OneBudget(limit), s, run), a))
    decreases |run|
  {
    var cfg, w := OneBudget(limit), OneWatch(limit);
    if run == [] {
      var u := Apply(cfg, s, a);
      assert [] + [a] == [a] && [a][1..] == [];
      assert Legal(cfg, u, []) && Final(cfg, u, []) == u && TameRun(cfg, u, [], w);
    } else {
      assert (run + [a])[0] == run[0] && (run + [a])[1..] == run[1..] + [a];
      OneMore(limit, Apply(cfg, s, run[0]), run[1..], a);
    }
  }

  lemma Then(limit: nat, s: State, t: State, a: Action, u: State)
    requires CanLead(limit, s, t)
    requires Enabled(OneBudget(limit), t, a) && Apply(OneBudget(limit), t, a) == u
      && Tame(OneBudget(limit), t, a, OneWatch(limit))
    ensures CanLead(limit, s, u)
  {
    var run: seq<Action> :| Leads(limit, s, run, t);
    OneMore(limit, s, run, a);
  }

  lemma OneScopeCall(limit: nat, scopes: seq<Scope>)
    requires scopes == [Scope(0, 7)]
    ensures NewCall(OneBudget(limit), scopes, 0, limit) == OneCall(limit, Waiting(0))
  {
    assert scopes[..0] == [];
    assert InOrder(scopes) == scopes;
    assert Budgeted(OneBudget(limit), scopes) == scopes;
    assert (set y | y in scopes) == {Scope(0, 7)};
  }

  // Each call starts with one scope to lock.
  lemma Begins(limit: nat, s: State, t: State, u: State)
    requires CanLead(limit, s, t) && t.clock == 0 && u == t.(calls := t.calls + [OneCall(limit, Waiting(0))])
    ensures CanLead(limit, s, u)
  {
    var scopes := [Scope(0, 7)];
    OneScopeCall(limit, scopes);
    BeginWith(limit, s, t, u, scopes);
  }

  lemma BeginWith(limit: nat, s: State, t: State, u: State, scopes: seq<Scope>)
    requires CanLead(limit, s, t) && t.clock == 0 && |scopes| == 1
    requires u == t.(calls := t.calls + [NewCall(OneBudget(limit), scopes, 0, limit)])
    ensures CanLead(limit, s, u)
  {
    Then(limit, s, t, Begin(scopes, limit), u);
  }

  lemma FirstReads(limit: nat, s: State)
    requires s == Nothing()
    ensures CanLead(limit, s, Lone(limit, HalfRead(0, 0, 0, 0), true))
  {
    assert Leads(limit, s, [], s);
    Begins(limit, s, s, Lone(limit, Waiting(0), false));
    Then(limit, s, Lone(limit, Waiting(0), false), Lock(0), Lone(limit, Checking(0, 0), true));
    Then(limit, s, Lone(limit, Checking(0, 0), true), ReadLedger(0), Lone(limit, HalfRead(0, 0, 0, 0), true));
  }

  lemma FirstIsGranted(limit: nat, s: State)
    requires CanLead(limit, s, Lone(limit, HalfRead(0, 0, 0, 0), true))
    ensures CanLead(limit, s, Both(limit, Waiting(0), false))
  {
    var granted := State(0, [OneCall(limit, Held)], map[], [Hold(0, Scope(0, 7), 0, limit, None)], []);
    Then(limit, s, Lone(limit, HalfRead(0, 0, 0, 0), true), ReadHolds(0), Lone(limit, Waiting(1), true));
    assert Released(map[Scope(0, 7) := 0], 0) == map[];
    Then(limit, s, Lone(limit, Waiting(1), true), Commit(0), granted);
    Begins(limit, s, granted, Both(limit, Waiting(0), false));
  }

  lemma SecondIsOvertaken(limit: nat, s: State)
    requires CanLead(limit, s, Both(limit, Waiting(0), false))
    ensures CanLead(limit, s, Overtaken(limit, HalfRead(0, 0, 0, 0)))
  {
    Then(limit, s, Both(limit, Waiting(0), false), Lock(1), Both(limit, Checking(0, 0), true));
    Then(limit, s, Both(limit, Checking(0, 0), true), ReadLedger(1), Both(limit, HalfRead(0, 0, 0, 0), true));
    assert MarkSettled(Both(limit, Held, true).holds, 0, limit) == Overtaken(limit, Held).holds;
    Then(limit, s, Both(limit, HalfRead(0, 0, 0, 0), true), Settle(0, limit), Overtaken(limit, HalfRead(0, 0, 0, 0)));
  }

  // A settled hold counts for nothing, so the second check sees only its own estimate.
  lemma SecondCheckPasses(limit: nat)
    ensures AfterCheck(OneBudget(limit), Overtaken(limit, HalfRead(0, 0, 0, 0)), OneCall(limit, HalfRead(0, 0, 0, 0)))
      == Waiting(1)
  {
    var holds, x := Overtaken(limit, Held).holds, Scope(0, 7);
    assert holds[..0] == [];
    assert HeldSum(holds[..0], Micros, x, 0, 0) == 0 && HeldSum(holds, Micros, x, 0, 0) == 0;
  }

  lemma SecondIsGranted(limit: nat, s: State)
    requires CanLead(limit, s, Overtaken(limit, HalfRead(0, 0, 0, 0)))
    ensures CanLead(limit, s, Overspent(limit))
  {
    SecondCheckPasses(limit);
    Then(limit, s, Overtaken(limit, HalfRead(0, 0, 0, 0)), ReadHolds(1), Overtaken(limit, Waiting(1)));
    assert Released(map[Scope(0, 7) := 1], 1) == map[];
    assert NewHolds(1, [Scope(0, 7)], 0, limit) == [Hold(1, Scope(0, 7), 0, limit, None)];
    assert Overtaken(limit, Held).holds + [Hold(1, Scope(0, 7), 0, limit, None)] == Overspent(limit).holds;
    Then(limit, s, Overtaken(limit, Waiting(1)), Commit(1), Overspent(limit));
  }

  lemma TwiceTheLimit(limit: nat)
    ensures Used(Overspent(limit), OneWatch(limit)) == 2 * limit
  {
    var holds, ledger, x := Overspent(limit).holds, Overspent(limit).ledger, Scope(0, 7);
    assert holds[..1] == [Hold(0, x, 0, limit, Some(limit))] && holds[..1][..0] == [] && ledger[..0] == [];
    assert HeldSum(holds[..0], Micros, x, 0, 0) == 0 && LedgerSum(ledger[..0], Micros, x, 0) == 0;
    assert HeldSum(holds[..1], Micros, x, 0, 0) == 0;
    assert HeldSum(holds, Micros, x, 0, 0) == limit && LedgerSum(ledger, Micros, x, 0) == limit;
  }

  /** For every limit, two calls that each hold all of it: the second is granted because it
      saw the first neither in the ledger nor among the holds, and twice the limit is used.
      No smaller bound than NoOvershoot's holds of every run. */
  lemma RacedSettleOvershoots(limit: nat)
    ensures Watches(OneBudget(limit), OneWatch(limit)) && Quiet(Nothing()) && Used(Nothing(), OneWatch(limit)) == 0
    ensures CanLead(limit, Nothing(), Overspent(limit)) && Used(Overspent(limit), OneWatch(limit)) == 2 * limit
  {
    FirstReads(limit, Nothing());
    FirstIsGranted(limit, Nothing());
    SecondIsOvertaken(limit, Nothing());
    SecondIsGranted(limit, Nothing());
    TwiceTheLimit(limit);
  }
}
