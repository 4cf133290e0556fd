/** Row-by-row model calls with checkpoints: batches saved under their first row's index,
    resumed after crashes (llm_step.py). */
module Checkpoint {
  import opened Wrappers

  /** A finished row: an output, or this row's own error. */
  datatype Body = Output(text: string, cost: nat) | RowError(detail: string)

  datatype RowResult = RowResult(index: nat, body: Body)

  /** What one call to the mesh gives: a body, or a failure that aborts the whole step. */
  datatype Attempt = Done(body: Body) | Fatal(slug: string)

  /** Batch files by the index in their name. A file holds the rows that can be read back: a
      line cut short by a crash, or an unreadable file, counts for nothing. */
  type Files = map<nat, seq<RowResult>>

  function Indices(rows: seq<RowResult>): set<nat> {
    set k | 0 <= k < |rows| :: rows[k].index
  }

  function StoredIndices(files: Files): set<nat> {
    set f, k | f in files && 0 <= k < |files[f]| :: files[f][k].index
  }

  ghost predicate Stored(files: Files, r: RowResult) {
    exists f :: f in files && r in files[f]
  }

  predicate Ascending(rows: seq<RowResult>) {
    forall a, b :: 0 <= a < b < |rows| ==> rows[a].index < rows[b].index
  }

  /** A file's rows ascend from the index in its name. */
  predicate FileOk(n: nat, f: nat, rows: seq<RowResult>) {
    Ascending(rows) && (rows != [] ==> rows[0].index == f) && forall k :: 0 <= k < |rows| ==> rows[k].index < n
  }

  ghost predicate FilesOk(n: nat, files: Files) {
    && (forall f :: f in files ==> FileOk(n, f, files[f]))
    && (forall f, g :: f in files && g in files && f != g ==> Indices(files[f]) !! Indices(files[g]))
  }

  lemma OneRowPerIndex(n: nat, files: Files, r: RowResult, q: RowResult)
    requires FilesOk(n, files) && Stored(files, r) && Stored(files, q) && r.index == q.index
    ensures r == q
  {
    var f: nat :| f in files && r in files[f];
    var g: nat :| g in files && q in files[g];
    var a: nat :| a < |files[f]| && files[f][a] == r;
    var b: nat :| b < |files[g]| && files[g][b] == q;
    assert r.index in Indices(files[f]) && q.index in Indices(files[g]);
    assert FileOk(n, f, files[f]);
  }

  /** `done` is exactly what the files hold. */
  ghost predicate Mirrors(done: map<nat, RowResult>, files: Files) {
    && (forall i :: i in done ==> done[i].index == i && Stored(files, done[i]))
    && (forall r :: Stored(files, r) ==> r.index in done && done[r.index] == r)
  }

  // ---- Saving a batch ----

  function Saved(files: Files, name: nat, rows: seq<RowResult>): Files {
    files[name := rows]
  }

  function ByIndex(done: map<nat, RowResult>, rows: seq<RowResult>): map<nat, RowResult> {
    if rows == [] then done else ByIndex(done, rows[..|rows| - 1])[rows[|rows| - 1].index := rows[|rows| - 1]]
  }

  lemma IndicesSplit(rows: seq<RowResult>)
    requires rows != []
    ensures Indices(rows) == Indices(rows[..|rows| - 1]) + {rows[|rows| - 1].index}
  {
    var n := |rows| - 1;
    forall i | i in Indices(rows)
      ensures i in Indices(rows[..n]) + {rows[n].index}
    {
      var k: nat :| k < |rows| && rows[k].index == i;
      assert k < n ==> rows[..n][k].index == i;
    }
    assert forall k :: 0 <= k < n ==> rows[..n][k] == rows[k];
  }

  lemma {:induction false} ByIndexAt(done: map<nat, RowResult>, rows: seq<RowResult>)
    requires Ascending(rows)
    ensures ByIndex(done, rows).Keys == done.Keys + Indices(rows)
    ensures forall k :: 0 <= k < |rows| ==> ByIndex(done, rows)[rows[k].index] == rows[k]
    ensures forall i :: i in done && i !in Indices(rows) ==> ByIndex(done, rows)[i] == done[i]
  {
    if rows == [] {
      assert Indices(rows) == {};
    } else {
      var n := |rows| - 1;
      var rest := rows[..n];
      ByIndexAt(done, rest);
      IndicesSplit(rows);
      forall k | 0 <= k < |rows|
        ensures rows[k].index in ByIndex(done, rows) && ByIndex(done, rows)[rows[k].index] == rows[k]
      {
        if k < n {
          assert rest[k] == rows[k] && rows[k].index < rows[n].index;
        }
      }
    }
  }

  lemma NamedRowIsStored(n: nat, files: Files, f: nat)
    requires FilesOk(n, files)
    ensures f in files && files[f] != [] ==> f in StoredIndices(files)
  {
    if f in files && files[f] != [] {
      assert FileOk(n, f, files[f]) && files[f][0].index == f;
    }
  }

  /** A save never replaces a file that holds rows: its name is a pending row's index, and a
      file with rows holds the row it is named for. */
  lemma NameIsFree(n: nat, files: Files, name: nat)
    requires FilesOk(n, files) && name !in StoredIndices(files)
    ensures name in files ==> files[name] == []
  {
    NamedRowIsStored(n, files, name);
  }

  /** Saving new rows, whole or cut short, only adds them. */
  lemma SaveAdds(n: nat, files: Files, name: nat, rows: seq<RowResult>)
    requires FilesOk(n, files) && FileOk(n, name, rows) && (name in files ==> files[name] == [])
      && Indices(rows) !! StoredIndices(files)
    ensures FilesOk(n, Saved(files, name, rows))
    ensures forall r :: Stored(Saved(files, name, rows), r) <==> Stored(files, r) || r in rows
    ensures StoredIndices(Saved(files, name, rows)) == StoredIndices(files) + Indices(rows)
  {
    var files' := Saved(files, name, rows);
    forall f | f in files
      ensures Indices(files[f]) <= StoredIndices(files)
    {
    }
    forall r
      ensures Stored(files', r) <==> Stored(files, r) || r in rows
    {
      if Stored(files, r) {
        var f: nat :| f in files && r in files[f];
        assert f != name && r in files'[f];
      }
      if r in rows {
        assert r in files'[name];
      }
    }
    StoredAfterSave(files, name, rows);
  }

  lemma StoredAfterSave(files: Files, name: nat, rows: seq<RowResult>)
    requires name in files ==> files[name] == []
    ensures StoredIndices(Saved(files, name, rows)) == StoredIndices(files) + Indices(rows)
  {
    var files' := Saved(files, name, rows);
    forall i | i in StoredIndices(files)
      ensures i in StoredIndices(files')
    {
      var f: nat, k: nat :| f in files && k < |files[f]| && files[f][k].index == i;
      assert files'[f] == files[f];
    }
    forall i | i in Indices(rows)
      ensures i in StoredIndices(files')
    {
      var k: nat :| k < |rows| && rows[k].index == i;
      assert files'[name][k].index == i;
    }
  }

  lemma MirrorsAfterSave(n: nat, files: Files, done: map<nat, RowResult>, name: nat, rows: seq<RowResult>)
    requires FilesOk(n, files) && FileOk(n, name, rows) && (name in files ==> files[name] == [])
      && Indices(rows) !! StoredIndices(files)
    requires Mirrors(done, files) && done.Keys == StoredIndices(files)
    ensures Mirrors(ByIndex(done, rows), Saved(files, name, rows))
    ensures ByIndex(done, rows).Keys == StoredIndices(Saved(files, name, rows))
  {
    SaveAdds(n, files, name, rows);
    ByIndexAt(done, rows);
    var done', files' := ByIndex(done, rows), Saved(files, name, rows);
    forall i | i in done'
      ensures done'[i].index == i && Stored(files', done'[i])
    {
      if i in Indices(rows) {
        var k: nat :| k < |rows| && rows[k].index == i;
        assert done'[i] == rows[k];
      }
    }
    forall r | Stored(files', r)
      ensures r.index in done' && done'[r.index] == r
    {
      if r in rows {
        var k: nat :| k < |rows| && rows[k] == r;
      } else {
        assert Stored(files, r) && r.index in done;
      }
    }
  }

  // ---- What is still to do ----

  function Pending(n: nat, done: map<nat, RowResult>): seq<nat> {
    if n == 0 then [] else Pending(n - 1, done) + if n - 1 in done then [] else [n - 1]
  }

  ghost predicate Rising(s: seq<nat>) {
    forall a, b :: 0 <= a < b < |s| ==> s[a] < s[b]
  }

  lemma {:induction false} PendingIs(n: nat, done: map<nat, RowResult>)
    ensures Rising(Pending(n, done)) && forall i: nat :: i in Pending(n, done) <==> i < n && i !in done
  {
    if n > 0 {
      PendingIs(n - 1, done);
      var rest := Pending(n - 1, done);
      assert forall k :: 0 <= k < |rest| ==> rest[k] in rest;
    }
  }

  lemma {:induction false} IndicesCount(rows: seq<RowResult>)
    requires Ascending(rows)
    ensures |Indices(rows)| == |rows|
  {
    if rows == [] {
      assert Indices(rows) == {};
    } else {
      var n := |rows| - 1;
      IndicesCount(rows[..n]);
      IndicesSplit(rows);
      assert rows[n].index !in Indices(rows[..n]);
    }
  }

  // ---- One attempt at the step ----

  datatype Outcome = Finished(results: seq<RowResult>, resumed: nat) | Cancelled | Aborted(slug: string)

  /** Rows are only added, and only as the mesh gave them. */
  ghost predicate Grew(before: Files, after: Files, mesh: nat -> Attempt) {
    && (forall r :: Stored(before, r) ==> Stored(after, r))
    && (forall r :: Stored(after, r) ==> Stored(before, r) || mesh(r.index) == Done(r.body))
  }

  /** Between batches: `done` is what is stored, and pending[at..] what is not. */
  ghost predicate Between(n: nat, files: Files, done: map<nat, RowResult>, pending: seq<nat>, at: nat) {
    && FilesOk(n, files) && Mirrors(done, files) && done.Keys == StoredIndices(files)
    && Rising(pending) && at <= |pending| && (forall k :: 0 <= k < |pending| ==> pending[k] < n)
    && (forall k :: at <= k < |pending| ==> pending[k] !in done)
    && (forall i: nat :: i < n && i !in done ==> i in pending[at..])
  }

  // The rows a batch of calls gave.
  ghost predicate Answers(batch: seq<nat>, rows: seq<RowResult>) {
    |rows| == |batch| && forall k :: 0 <= k < |batch| ==> rows[k].index == batch[k]
  }

  lemma BatchIsNew(n: nat, files: Files, done: map<nat, RowResult>, pending: seq<nat>, at: nat, to: nat,
      rows: seq<RowResult>)
    requires Between(n, files, done, pending, at) && at < to <= |pending| && Answers(pending[at..to], rows)
    ensures FileOk(n, rows[0].index, rows) && rows[0].index !in StoredIndices(files)
      && Indices(rows) !! StoredIndices(files)
    ensures forall k :: at <= k < to ==> pending[k] in Indices(rows)
    ensures forall k :: to <= k < |pending| ==> pending[k] !in Indices(rows)
  {
    assert forall k :: 0 <= k < |rows| ==> rows[k].index == pending[at + k] && pending[at + k] !in done;
    forall k | at <= k < to
      ensures pending[k] in Indices(rows)
    {
      assert rows[k - at].index == pending[k];
    }
  }

  lemma StillToDo(pending: seq<nat>, at: nat, to: nat, i: nat)
    requires at <= to <= |pending| && i in pending[at..] && forall k :: at <= k < to ==> pending[k] != i
    ensures i in pending[to..]
  {
    var k: nat :| k < |pending[at..]| && pending[at..][k] == i;
    assert pending[at + k] == i;
    assert pending[to..][at + k - to] == i;
  }

  /** Saving the next batch moves on to the rows after it. */
  lemma BatchSaved(n: nat, files: Files, done: map<nat, RowResult>, pending: seq<nat>, at: nat, to: nat,
      rows: seq<RowResult>)
    requires Between(n, files, done, pending, at) && at < to <= |pending| && Answers(pending[at..to], rows)
    ensures Between(n, Saved(files, rows[0].index, rows), ByIndex(done, rows), pending, to)
  {
    BatchIsNew(n, files, done, pending, at, to, rows);
    NameIsFree(n, files, rows[0].index);
    MirrorsAfterSave(n, files, done, rows[0].index, rows);
    SaveAdds(n, files, rows[0].index, rows);
    ByIndexAt(done, rows);
    forall i: nat | i < n && i !in ByIndex(done, rows)
      ensures i in pending[to..]
    {
      StillToDo(pending, at, to, i);
    }
  }

  lemma StartBetween(n: nat, files: Files, done: map<nat, RowResult>)
    requires FilesOk(n, files) && Mirrors(done, files) && done.Keys == StoredIndices(files)
    ensures Between(n, files, done, Pending(n, done), 0)
  {
    PendingIs(n, done);
    var p := Pending(n, done);
    assert forall k :: 0 <= k < |p| ==> p[k] in p;
    assert p[0..] == p;
  }

  // The files already read are `seen`, those still to read `names`.
  ghost predicate LoadedSoFar(n: nat, files: Files, names: set<nat>, seen: Files, done: map<nat, RowResult>) {
    ReadSoFar(files, names, seen) && StoreMirrored(n, seen, done)
  }

  ghost predicate ReadSoFar(files: Files, names: set<nat>, seen: Files) {
    && names <= files.Keys && (forall f :: f in seen <==> f in files && f !in names)
    && (forall f :: f in seen ==> seen[f] == files[f])
  }

  ghost predicate StoreMirrored(n: nat, files: Files, done: map<nat, RowResult>) {
    FilesOk(n, files) && Mirrors(done, files) && done.Keys == StoredIndices(files)
  }

  lemma StoreNext(n: nat, files: Files, done: map<nat, RowResult>, f: nat, rows: seq<RowResult>)
    requires StoreMirrored(n, files, done) && f !in files
    requires FileOk(n, f, rows) && Indices(rows) !! StoredIndices(files)
    ensures StoreMirrored(n, Saved(files, f, rows), ByIndex(done, rows))
  {
    MirrorsAfterSave(n, files, done, f, rows);
    SaveAdds(n, files, f, rows);
  }

  lemma ReadNext(files: Files, names: set<nat>, seen: Files, f: nat)
    requires ReadSoFar(files, names, seen) && f in names
    ensures ReadSoFar(files, names - {f}, Saved(seen, f, files[f]))
  {
  }

  lemma LoadedNext(n: nat, files: Files, names: set<nat>, seen: Files, done: map<nat, RowResult>, f: nat)
    requires FilesOk(n, files) && LoadedSoFar(n, files, names, seen, done) && f in names
    ensures LoadedSoFar(n, files, names - {f}, Saved(seen, f, files[f]), ByIndex(done, files[f]))
  {
    UnreadIsNew(n, files, seen, f);
    ReadNext(files, names, seen, f);
    StoreNext(n, seen, done, f, files[f]);
  }

  lemma LoadedNone(n: nat, files: Files)
    requires FilesOk(n, files)
    ensures LoadedSoFar(n, files, files.Keys, map[], map[])
  {
    assert StoredIndices(map[]) == {};
  }

  lemma LoadedAll(n: nat, files: Files, seen: Files, done: map<nat, RowResult>)
    requires LoadedSoFar(n, files, {}, seen, done)
    ensures Mirrors(done, files) && done.Keys == StoredIndices(files)
  {
    assert seen == files;
  }

  // A file still to be read shares no row with those read.
  lemma UnreadIsNew(n: nat, files: Files, seen: Files, f: nat)
    requires FilesOk(n, files) && f in files && f !in seen
    requires forall g :: g in seen ==> g in files && seen[g] == files[g]
    ensures FileOk(n, f, files[f]) && Indices(files[f]) !! StoredIndices(seen)
  {
    forall i | i in StoredIndices(seen)
      ensures i !in Indices(files[f])
    {
      var g: nat, k: nat :| g in seen && k < |seen[g]| && seen[g][k].index == i;
      assert i in Indices(files[g]) && Indices(files[g]) !! Indices(files[f]);
    }
  }

  /** The rows of one file go in one by one. */
  method LoadFile(rows: seq<RowResult>, before: map<nat, RowResult>) returns (done: map<nat, RowResult>)
    ensures done == ByIndex(before, rows)
  {
    done := before;
    var k := 0;
    while k < |rows|
      invariant 0 <= k <= |rows| && done == ByIndex(before, rows[..k])
    {
      assert rows[..k + 1][..k] == rows[..k];
      done := done[rows[k].index := rows[k]];
      k := k + 1;
    }
    assert rows[..k] == rows;
  }

  class StepStore {
    var files: Files

    constructor ()
      ensures files == map[]
    {
      files := map[];
    }

    /** Every row of every readable line. */
    method Load(ghost n: nat) returns (done: map<nat, RowResult>)
      requires FilesOk(n, files)
      ensures Mirrors(done, files) && done.Keys == StoredIndices(files)
    {
      done := map[];
      var names := files.Keys;
      ghost var seen: Files := map[];
      LoadedNone(n, files);
      while names != {}
        invariant LoadedSoFar(n, files, names, seen, done)
        decreases |names|
      {
        var f: nat :| f in names;
        LoadedNext(n, files, names, seen, done, f);
        done := LoadFile(files[f], done);
        seen, names := Saved(seen, f, files[f]), names - {f};
      }
      LoadedAll(n, files, seen, done);
    }

    /** Named for the first row's index; replaces whatever had that name. */
    method Save(batch: seq<RowResult>)
      modifies this`files
      ensures batch == [] ==> files == old(files)
      ensures batch != [] ==>
        exists first :: first in Indices(batch) && (forall i :: i in Indices(batch) ==> first <= i)
          && files == Saved(old(files), first, batch)
    {
      if batch == [] {
        return;
      }
      var first, k := batch[0].index, 1;
      while k < |batch|
        invariant 1 <= k <= |batch| && first in Indices(batch)
        invariant forall j :: 0 <= j < k ==> first <= batch[j].index
      {
        if batch[k].index < first {
          first := batch[k].index;
        }
        k := k + 1;
      }
      files := Saved(files, first, batch);
    }

    /** One batch: all its calls, then its checkpoint. */
    method RunBatch(ghost n: nat, pending: seq<nat>, at: nat, to: nat, done: map<nat, RowResult>, mesh: nat -> Attempt)
      returns (next: map<nat, RowResult>, fatal: Option<string>)
      requires at < to <= |pending| && Between(n, files, done, pending, at)
      modifies this`files
      ensures fatal == None ==> Between(n, files, next, pending, to) && Grew(old(files), files, mesh)
      ensures fatal.Some? ==> files == old(files) && exists i :: 0 <= i < n && mesh(i) == Fatal(fatal.value)
    {
      var batch := pending[at..to];
      var rows;
      rows, fatal := CallBatch(batch, mesh);
      next := done;
      if fatal == None {
        BatchDone(n, files, done, pending, at, to, rows, mesh);
        next := LoadFile(rows, done);
        Save(rows);
      }
    }

    /** Runs the rows not yet stored, a checkpoint after every batch. */
    method RunRows(n: nat, every: nat, cancelled: nat -> bool, mesh: nat -> Attempt) returns (r: Outcome)
      requires every >= 1 && FilesOk(n, files)
      modifies this`files
      ensures FilesOk(n, files) && Grew(old(files), files, mesh)
      ensures r.Finished? ==> InOrder(n, r.results) && forall i :: 0 <= i < n ==> Stored(files, r.results[i])
      ensures r.Finished? ==> r.resumed == |StoredIndices(old(files))|
      ensures r.Cancelled? ==> exists at :: cancelled(at)
      ensures r.Aborted? ==> exists i :: 0 <= i < n && mesh(i) == Fatal(r.slug)
    {
      var done := Load(n);
      var resumed := |done|;
      var pending, at := Pending(n, done), 0;
      StartBetween(n, files, done);
      while at < |pending|
        invariant Between(n, files, done, pending, at) && Grew(old(files), files, mesh)
        decreases |pending| - at
      {
        if cancelled(at) {
          return Cancelled;
        }
        var to := if at + every <= |pending| then at + every else |pending|;
        ghost var before := files;
        var next, fatal := RunBatch(n, pending, at, to, done, mesh);
        if fatal.Some? {
          return Aborted(fatal.value);
        }
        GrewOn(old(files), before, files, mesh);
        done, at := next, to;
      }
      var results := Collect(n, done);
      return Finished(results, resumed);
    }
  }

  /** Reassembled by index, whatever order the rows finished in. */
  predicate InOrder(n: nat, results: seq<RowResult>) {
    |results| == n && forall i :: 0 <= i < n ==> results[i].index == i
  }

  method Collect(n: nat, done: map<nat, RowResult>) returns (results: seq<RowResult>)
    requires (forall i: nat :: i < n ==> i in done) && forall i :: i in done ==> done[i].index == i
    ensures InOrder(n, results) && forall i :: 0 <= i < n ==> results[i] == done[i]
  {
    results := [];
    for i := 0 to n
      invariant |results| == i && forall k :: 0 <= k < i ==> results[k] == done[k]
    {
      results := results + [done[i]];
    }
  }

  /** The calls of one batch; a fatal answer ends the step. */
  method CallBatch(batch: seq<nat>, mesh: nat -> Attempt) returns (rows: seq<RowResult>, fatal: Option<string>)
    ensures fatal == None ==>
      Answers(batch, rows) && forall k :: 0 <= k < |batch| ==> mesh(batch[k]) == Done(rows[k].body)
    ensures fatal.Some? ==> exists k :: 0 <= k < |batch| && mesh(batch[k]) == Fatal(fatal.value)
  {
    rows, fatal := [], None;
    for k := 0 to |batch|
      invariant |rows| == k && forall j :: 0 <= j < k ==>
        rows[j].index == batch[j] && mesh(batch[j]) == Done(rows[j].body)
    {
      var answer := mesh(batch[k]);
      match answer {
        case Fatal(slug) => return rows, Some(slug);
        case Done(body) => rows := rows + [RowResult(batch[k], body)];
      }
    }
  }

  lemma GrewOn(a: Files, b: Files, c: Files, mesh: nat -> Attempt)
    requires Grew(a, b, mesh) && Grew(b, c, mesh)
    ensures Grew(a, c, mesh)
  {
  }

  lemma SmallestIsFirst(rows: seq<RowResult>)
    requires Ascending(rows) && rows != []
    ensures forall i :: i in Indices(rows) ==> rows[0].index <= i
    ensures rows[0].index in Indices(rows)
  {
  }

  lemma BatchDone(n: nat, files: Files, done: map<nat, RowResult>, pending: seq<nat>, at: nat, to: nat,
      rows: seq<RowResult>, mesh: nat -> Attempt)
    requires Between(n, files, done, pending, at) && at < to <= |pending| && Answers(pending[at..to], rows)
    requires forall k :: 0 <= k < |rows| ==> mesh(pending[at..to][k]) == Done(rows[k].body)
    ensures rows != [] && rows[0].index in Indices(rows) && forall i :: i in Indices(rows) ==> rows[0].index <= i
    ensures Between(n, Saved(files, rows[0].index, rows), ByIndex(done, rows), pending, to)
    ensures Grew(files, Saved(files, rows[0].index, rows), mesh)
  {
    BatchIsNew(n, files, done, pending, at, to, rows);
    BatchSaved(n, files, done, pending, at, to, rows);
    SaveGrows(n, files, rows, mesh);
    SmallestIsFirst(rows);
  }

  lemma SaveGrows(n: nat, files: Files, rows: seq<RowResult>, mesh: nat -> Attempt)
    requires FilesOk(n, files) && rows != [] && FileOk(n, rows[0].index, rows)
    requires rows[0].index !in StoredIndices(files) && Indices(rows) !! StoredIndices(files)
    requires forall k :: 0 <= k < |rows| ==> mesh(rows[k].index) == Done(rows[k].body)
    ensures Grew(files, Saved(files, rows[0].index, rows), mesh)
  {
    NameIsFree(n, files, rows[0].index);
    SaveAdds(n, files, rows[0].index, rows);
  }
}
