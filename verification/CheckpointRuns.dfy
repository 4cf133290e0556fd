/** A step tried again and again: crashes anywhere, saves cut short, cancels and resumes
    (llm_step.py). */
module CheckpointRuns {
  import opened Wrappers
  import opened Checkpoint

  datatype Worker = Stopped | Working(done: map<nat, RowResult>, pending: seq<nat>, at: nat)

  /** `calls` counts mesh calls and `interruptions` the attempts that broke off inside a
      batch, over the step's whole history. */
  datatype State = State(n: nat, every: nat, files: Files, worker: Worker, calls: nat, interruptions: nat,
      results: Option<seq<RowResult>>)

  datatype Action =
    | Start(done: map<nat, RowResult>)
    | Batch(bodies: seq<Body>)
    | CutSave(bodies: seq<Body>, kept: nat)
    | Break(made: nat)
    | Cancel
    | Finish

  function To(s: State): nat
    requires s.worker.Working?
  {
    if s.worker.at + s.every <= |s.worker.pending| then s.worker.at + s.every else |s.worker.pending|
  }

  predicate HasBatch(s: State) {
    s.worker.Working? && s.worker.at < |s.worker.pending| && s.every >= 1
  }

  /** `Start` loads what is stored. `CutSave` dies while saving, leaving the first `kept`
      rows readable; `Break` dies or meets a fatal answer after `made` calls of the batch. */
  ghost predicate Enabled(s: State, a: Action) {
    match a
    case Start(done) => s.worker == Stopped && Mirrors(done, s.files) && done.Keys == StoredIndices(s.files)
    case Batch(bodies) => HasBatch(s) && |bodies| == To(s) - s.worker.at
    case CutSave(bodies, kept) => HasBatch(s) && |bodies| == To(s) - s.worker.at && kept <= |bodies|
    case Break(made) => HasBatch(s) && made <= To(s) - s.worker.at
    case Cancel => HasBatch(s)
    case Finish => s.worker.Working? && s.worker.at >= |s.worker.pending| && forall i: nat :: i < s.n ==>
      i in s.worker.done
  }

  function Rows(s: State, bodies: seq<Body>): (r: seq<RowResult>)
    requires HasBatch(s) && |bodies| == To(s) - s.worker.at
    ensures |r| == |bodies| && forall k :: 0 <= k < |r| ==>
      r[k] == RowResult(s.worker.pending[s.worker.at + k], bodies[k])
  {
    seq(|bodies|, k requires 0 <= k < |bodies| => RowResult(s.worker.pending[s.worker.at + k], bodies[k]))
  }

  ghost function Apply(s: State, a: Action): State
    requires Enabled(s, a)
  {
    match a
    case Start(done) => s.(worker := Working(done, Pending(s.n, done), 0))
    case Batch(bodies) =>
      var rows := Rows(s, bodies);
      s.(files := Saved(s.files, rows[0].index, rows), calls := s.calls + |rows|,
         worker := Working(ByIndex(s.worker.done, rows), s.worker.pending, To(s)))
    case CutSave(bodies, kept) =>
      var rows := Rows(s, bodies);
      s.(files := Saved(s.files, rows[0].index, rows[..kept]), calls := s.calls + |rows|,
        interruptions := s.interruptions + 1, worker := Stopped)
    case Break(made) => s.(calls := s.calls + made, interruptions := s.interruptions + 1, worker := Stopped)
    case Cancel => s.(worker := Stopped)
    case Finish => s.(worker := Stopped, results := Some(seq(s.n, i requires 0 <= i < s.n => s.worker.done[i])))
  }

  ghost predicate Legal(s: State, run: seq<Action>)
    decreases |run|
  {
    run == [] || (Enabled(s, run[0]) && Legal(Apply(s, run[0]), run[1..]))
  }

  ghost function Final(s: State, run: seq<Action>): State
    requires Legal(s, run)
    decreases |run|
  {
    if run == [] then s else Final(Apply(s, run[0]), run[1..])
  }

  function Times(a: nat, b: nat): nat {
    if a == 0 then 0 else Times(a - 1, b) + b
  }

  lemma {:induction false} TimesIsProduct(a: nat, b: nat)
    ensures Times(a, b) == a * b
  {
    if a > 0 {
      TimesIsProduct(a - 1, b);
      assert a * b == (a - 1) * b + b;
    }
  }

  /** The files are sound, a working attempt mirrors them, and every call made is either a
      stored row or lost in an interrupted batch. */
  ghost predicate Sound(s: State) {
    && FilesOk(s.n, s.files)
    && (s.worker.Working? ==> Between(s.n, s.files, s.worker.done, s.worker.pending, s.worker.at))
    && s.calls <= |StoredIndices(s.files)| + Times(s.interruptions, s.every)
    && ResultsOk(s.n, s.results, s.files)
  }

  ghost predicate ResultsOk(n: nat, results: Option<seq<RowResult>>, files: Files) {
    results.Some? ==> InOrder(n, results.value) && forall i :: 0 <= i < n ==> Stored(files, results.value[i])
  }

  lemma ResultsStay(n: nat, results: Option<seq<RowResult>>, files: Files, after: Files)
    requires ResultsOk(n, results, files) && forall r :: Stored(files, r) ==> Stored(after, r)
    ensures ResultsOk(n, results, after)
  {
  }

  lemma BatchFacts(s: State, bodies: seq<Body>)
    requires Sound(s) && HasBatch(s) && |bodies| == To(s) - s.worker.at
    ensures var rows := Rows(s, bodies);
            && rows != [] && FileOk(s.n, rows[0].index, rows) && rows[0].index !in StoredIndices(s.files)
            && Indices(rows) !! StoredIndices(s.files)
            && Between(s.n, Saved(s.files, rows[0].index, rows), ByIndex(s.worker.done, rows), s.worker.pending, To(s))
  {
    var rows := Rows(s, bodies);
    assert Answers(s.worker.pending[s.worker.at..To(s)], rows);
    BatchIsNew(s.n, s.files, s.worker.done, s.worker.pending, s.worker.at, To(s), rows);
    BatchSaved(s.n, s.files, s.worker.done, s.worker.pending, s.worker.at, To(s), rows);
  }

  lemma PartOk(n: nat, name: nat, rows: seq<RowResult>, kept: nat)
    requires FileOk(n, name, rows) && kept <= |rows|
    ensures FileOk(n, name, rows[..kept]) && Indices(rows[..kept]) <= Indices(rows) && |Indices(rows[..kept])| == kept
  {
    var part := rows[..kept];
    IndicesCount(part);
    forall i | i in Indices(part)
      ensures i in Indices(rows)
    {
      var k: nat :| k < kept && part[k].index == i;
      assert rows[k].index == i;
    }
  }

  // Saving the first `kept` rows of a batch: nothing stored is lost, and that many more are.
  lemma PartSaved(s: State, bodies: seq<Body>, kept: nat)
    requires Sound(s) && HasBatch(s) && |bodies| == To(s) - s.worker.at && kept <= |bodies|
    ensures Rows(s, bodies) != []
    ensures var files' := Saved(s.files, Rows(s, bodies)[0].index, Rows(s, bodies)[..kept]);
            && FilesOk(s.n, files')
            && (forall r :: Stored(s.files, r) ==> Stored(files', r))
            && |StoredIndices(files')| == |StoredIndices(s.files)| + kept
  {
    BatchFacts(s, bodies);
    RowsSaved(s.n, s.files, Rows(s, bodies), kept);
  }

  lemma RowsSaved(n: nat, files: Files, rows: seq<RowResult>, kept: nat)
    requires FilesOk(n, files) && rows != [] && kept <= |rows|
    requires FileOk(n, rows[0].index, rows) && rows[0].index !in StoredIndices(files)
      && Indices(rows) !! StoredIndices(files)
    ensures var files' := Saved(files, rows[0].index, rows[..kept]);
            && FilesOk(n, files')
            && (forall r :: Stored(files, r) ==> Stored(files', r))
            && |StoredIndices(files')| == |StoredIndices(files)| + kept
  {
    PartOk(n, rows[0].index, rows, kept);
    NameIsFree(n, files, rows[0].index);
    SaveAdds(n, files, rows[0].index, rows[..kept]);
  }

  // What a save that stores `kept` of the calls has to leave.
  lemma SaveKeepsSound(s: State, s': State, kept: nat)
    requires Sound(s) && s'.n == s.n && s'.every == s.every && s'.results == s.results
    requires FilesOk(s'.n, s'.files) && |StoredIndices(s'.files)| == |StoredIndices(s.files)| + kept
    requires forall r :: Stored(s.files, r) ==> Stored(s'.files, r)
    requires s'.worker.Working? ==> Between(s'.n, s'.files, s'.worker.done, s'.worker.pending, s'.worker.at)
    requires s'.calls + Times(s.interruptions, s.every) <= s.calls + kept + Times(s'.interruptions, s'.every)
    ensures Sound(s')
  {
    ResultsStay(s.n, s.results, s.files, s'.files);
  }

  lemma BatchKeepsSound(s: State, a: Action)
    requires Sound(s) && Enabled(s, a) && a.Batch?
    ensures Sound(Apply(s, a))
    ensures forall r :: Stored(s.files, r) ==> Stored(Apply(s, a).files, r)
  {
    PartSaved(s, a.bodies, |a.bodies|);
    BatchBetween(s, a.bodies);
    assert Rows(s, a.bodies)[..|a.bodies|] == Rows(s, a.bodies);
    SaveKeepsSound(s, Apply(s, a), |a.bodies|);
  }

  lemma BatchBetween(s: State, bodies: seq<Body>)
    requires Sound(s) && HasBatch(s) && |bodies| == To(s) - s.worker.at
    ensures var rows := Rows(s, bodies);
            && rows != []
            && Between(s.n, Saved(s.files, rows[0].index, rows), ByIndex(s.worker.done, rows), s.worker.pending, To(s))
  {
    BatchFacts(s, bodies);
  }

  lemma CutKeepsSound(s: State, a: Action)
    requires Sound(s) && Enabled(s, a) && a.CutSave?
    ensures Sound(Apply(s, a))
    ensures forall r :: Stored(s.files, r) ==> Stored(Apply(s, a).files, r)
  {
    PartSaved(s, a.bodies, a.kept);
    SaveKeepsSound(s, Apply(s, a), a.kept);
  }

  lemma BreakKeepsSound(s: State, a: Action)
    requires Sound(s) && Enabled(s, a) && a.Break?
    ensures Sound(Apply(s, a))
  {
    var s' := Apply(s, a);
    assert Times(s'.interruptions, s.every) == Times(s.interruptions, s.every) + s.every;
  }

  lemma StepKeepsSound(s: State, a: Action)
    requires Sound(s) && Enabled(s, a)
    ensures Sound(Apply(s, a))
    ensures forall r :: Stored(s.files, r) ==> Stored(Apply(s, a).files, r)
  {
    match a {
      case Start(done) => StartBetween(s.n, s.files, done);
      case Batch(_) => BatchKeepsSound(s, a);
      case CutSave(_, _) => CutKeepsSound(s, a);
      case Break(_) => BreakKeepsSound(s, a);
      case Cancel =>
      case Finish =>
        assert forall i: nat :: i < s.n ==> s.worker.done[i].index == i;
    }
  }

  /** Over any history of crashes, cancels and resumes: stored rows are never lost, a finished
      step has row i at place i, and the mesh was called at most once per row and once more
      per row of each interrupted batch. */
  lemma {:induction false} HistoryIsSound(s: State, run: seq<Action>)
    requires Sound(s) && Legal(s, run)
    ensures Sound(Final(s, run)) && Final(s, run).n == s.n && Final(s, run).every == s.every
    ensures forall r :: Stored(s.files, r) ==> Stored(Final(s, run).files, r)
    decreases |run|
  {
    if run != [] {
      StepKeepsSound(s, run[0]);
      HistoryIsSound(Apply(s, run[0]), run[1..]);
    }
  }

  lemma StoredFit(n: nat, files: Files)
    requires FilesOk(n, files)
    ensures |StoredIndices(files)| <= n
  {
    forall i | i in StoredIndices(files)
      ensures i in First(n)
    {
      var f: nat, k: nat :| f in files && k < |files[f]| && files[f][k].index == i;
      assert FileOk(n, f, files[f]);
    }
    SubsetSize(StoredIndices(files), First(n));
  }

  function First(n: nat): (r: set<nat>)
    ensures |r| == n && forall i: nat :: i in r <==> i < n
  {
    if n == 0 then {} else First(n - 1) + {n - 1}
  }

  lemma SubsetSize(a: set<nat>, b: set<nat>)
    requires a <= b
    ensures |a| <= |b|
  {
    assert b == a + (b - a);
  }

  lemma CallsBounded(s: State, run: seq<Action>)
    requires Sound(s) && Legal(s, run)
    ensures Final(s, run).calls <= s.n + Final(s, run).interruptions * s.every
  {
    HistoryIsSound(s, run);
    TimesIsProduct(Final(s, run).interruptions, s.every);
    StoredFit(s.n, Final(s, run).files);
  }

  // ---- A deterministic mesh ----

  /** Every call answers by its row alone. */
  ghost predicate Answered(s: State, a: Action, mesh: nat -> Body)
    requires Enabled(s, a)
  {
    (a.Batch? || a.CutSave?) ==>
      forall k :: 0 <= k < |a.bodies| ==> a.bodies[k] == mesh(s.worker.pending[s.worker.at + k])
  }

  ghost predicate AnsweredRun(s: State, run: seq<Action>, mesh: nat -> Body)
    requires Legal(s, run)
    decreases |run|
  {
    run == [] || (Answered(s, run[0], mesh) && AnsweredRun(Apply(s, run[0]), run[1..], mesh))
  }

  ghost predicate AsMesh(files: Files, mesh: nat -> Body) {
    forall r :: Stored(files, r) ==> r.body == mesh(r.index)
  }

  lemma SaveKeepsMesh(files: Files, name: nat, rows: seq<RowResult>, mesh: nat -> Body)
    requires AsMesh(files, mesh) && forall k :: 0 <= k < |rows| ==> rows[k].body == mesh(rows[k].index)
    ensures AsMesh(Saved(files, name, rows), mesh)
  {
    forall r | Stored(Saved(files, name, rows), r)
      ensures r.body == mesh(r.index)
    {
      var f: nat :| f in Saved(files, name, rows) && r in Saved(files, name, rows)[f];
      if f != name {
        assert Stored(files, r);
      }
    }
  }

  lemma {:induction false} HistoryAsMesh(s: State, run: seq<Action>, mesh: nat -> Body)
    requires Sound(s) && Legal(s, run) && AnsweredRun(s, run, mesh) && AsMesh(s.files, mesh)
    ensures AsMesh(Final(s, run).files, mesh)
    decreases |run|
  {
    if run != [] {
      var a := run[0];
      if a.Batch? {
        SaveKeepsMesh(s.files, Rows(s, a.bodies)[0].index, Rows(s, a.bodies), mesh);
      } else if a.CutSave? {
        SaveKeepsMesh(s.files, Rows(s, a.bodies)[0].index, Rows(s, a.bodies)[..a.kept], mesh);
      }
      StepKeepsSound(s, a);
      HistoryAsMesh(Apply(s, a), run[1..], mesh);
    }
  }

  /** Whenever a step finishes, however often it was interrupted, it finishes with what one
      uninterrupted run gives: the mesh's answer for every row, in row order. */
  lemma SameAsUninterrupted(s: State, run: seq<Action>, mesh: nat -> Body)
    requires Sound(s) && Legal(s, run) && AnsweredRun(s, run, mesh) && AsMesh(s.files, mesh)
    requires Final(s, run).results.Some?
    ensures Final(s, run).results.value == seq(s.n, i requires 0 <= i < s.n => RowResult(i, mesh(i)))
  {
    HistoryIsSound(s, run);
    HistoryAsMesh(s, run, mesh);
    var t := Final(s, run);
    forall i | 0 <= i < s.n
      ensures t.results.value[i] == RowResult(i, mesh(i))
    {
      assert Stored(t.files, t.results.value[i]);
    }
  }

  function Fresh(n: nat, every: nat): State {
    State(n, every, map[], Stopped, 0, 0, None)
  }

  /** All of it, for every history of a step that starts with nothing stored. */
  lemma FromFresh(n: nat, every: nat, run: seq<Action>, mesh: nat -> Body)
    requires Legal(Fresh(n, every), run)
    ensures Sound(Final(Fresh(n, every), run))
    ensures Final(Fresh(n, every), run).calls <= n + Final(Fresh(n, every), run).interruptions * every
    ensures AnsweredRun(Fresh(n, every), run, mesh) && Final(Fresh(n, every), run).results.Some? ==>
      Final(Fresh(n, every), run).results.value == seq(n, i requires 0 <= i < n => RowResult(i, mesh(i)))
  {
    var s := Fresh(n, every);
    assert StoredIndices(s.files) == {};
    assert Sound(s) && AsMesh(s.files, mesh);
    HistoryIsSound(s, run);
    CallsBounded(s, run);
    if AnsweredRun(s, run, mesh) && Final(s, run).results.Some? {
      SameAsUninterrupted(s, run, mesh);
    }
  }
}
