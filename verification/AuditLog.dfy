/** The hash-chained audit log: row hashes, verification in batches, tamper evidence, and
    concurrent writers (audit.py). */
module AuditLog {
  import opened Wrappers
  import opened Canonical
  import Keyset

  /** What a row says. `id`, `ts` and the ids are their fixed canonical texts. */
  datatype Entry = Entry(
    id: string,
    ts: string,
    actorId: Option<string>,
    projectId: Option<string>,
    action: string,
    objectKind: string,
    objectId: Option<string>,
    details: Json,
    ip: Option<string>)

  /** `seq` is the chain order and takes no part in the hash. */
  datatype Row = Row(seqNo: nat, entry: Entry, prevHash: string, rowHash: string)

  type Hash = string -> string

  const WIDTH: nat := 64

  // What stands before the first row.
  function Genesis(): (s: string)
    ensures |s| == WIDTH
  {
    seq(WIDTH, i => '0')
  }

  function Optional(x: Option<string>): Value {
    if x.Some? then Str(x.value) else Null
  }

  function Payload(e: Entry): Value {
    Obj(map[
      Text("id") := Str(e.id),
      Text("ts") := Str(e.ts),
      Text("actor_id") := Optional(e.actorId),
      Text("project_id") := Optional(e.projectId),
      Text("action") := Str(e.action),
      Text("object_kind") := Str(e.objectKind),
      Text("object_id") := Optional(e.objectId),
      Text("details") := e.details,
      Text("ip") := Optional(e.ip)])
  }

  lemma PayloadPrints(e: Entry)
    ensures Printable(Payload(e))
  {
    assert Printable(Optional(e.actorId)) && Printable(Optional(e.projectId)) && Printable(Optional(e.objectId))
      && Printable(Optional(e.ip));
  }

  function CanonicalRow(e: Entry): string
  {
    PayloadPrints(e);
    Print(Payload(e))
  }

  lemma PayloadIsInjective(e: Entry, f: Entry)
    requires Payload(e) == Payload(f)
    ensures e == f
  {
    var m, n := Payload(e).fields, Payload(f).fields;
    assert m[Text("id")] == n[Text("id")] && m[Text("ts")] == n[Text("ts")] && m[Text("action")] == n[Text("action")];
    assert m[Text("object_kind")] == n[Text("object_kind")] && m[Text("details")] == n[Text("details")];
    assert m[Text("actor_id")] == n[Text("actor_id")] && m[Text("project_id")] == n[Text("project_id")];
    assert m[Text("object_id")] == n[Text("object_id")] && m[Text("ip")] == n[Text("ip")];
  }

  /** Two entries have the same canonical text exactly when they say the same. */
  lemma CanonicalRowIsInjective(e: Entry, f: Entry)
    ensures CanonicalRow(e) == CanonicalRow(f) <==> e == f
  {
    PayloadPrints(e);
    PayloadPrints(f);
    PrintIsInjective(Payload(e), Payload(f));
    if CanonicalRow(e) == CanonicalRow(f) {
      PayloadIsInjective(e, f);
    }
  }

  function RowHash(h: Hash, prev: string, e: Entry): string
  {
    h(prev + CanonicalRow(e))
  }

  // ---- The chain ----

  function HeadHash(rows: seq<Row>): string {
    if rows == [] then Genesis() else rows[|rows| - 1].rowHash
  }

  // Row i links to the row before it and hashes to what it claims.
  ghost predicate LinkedAt(h: Hash, rows: seq<Row>, i: nat)
    requires i < |rows|
  {
    rows[i].prevHash == HeadHash(rows[..i]) && rows[i].rowHash == RowHash(h, HeadHash(rows[..i]), rows[i].entry)
  }

  ghost predicate Linked(h: Hash, rows: seq<Row>)
  {
    forall i :: 0 <= i < |rows| ==> LinkedAt(h, rows, i)
  }

  /** Sequence numbers start at 1. */
  ghost predicate InSeqOrder(rows: seq<Row>) {
    Keyset.InOrder(rows, SeqOf) && forall i :: 0 <= i < |rows| ==> rows[i].seqNo >= 1
  }

  // ---- Verification ----

  datatype Reason = PrevHashMismatch | RowHashMismatch

  datatype Verdict = Intact(checked: nat) | Broken(checked: nat, firstBad: nat, reason: Reason)

  /** Intact, or the first row that does not link. */
  ghost predicate Judges(h: Hash, rows: seq<Row>, v: Verdict)
  {
    match v
    case Intact(n) => n == |rows| && Linked(h, rows)
    case Broken(n, bad, reason) =>
      && n < |rows| && bad == rows[n].seqNo
      && (forall i :: 0 <= i < n ==> LinkedAt(h, rows, i)) && !LinkedAt(h, rows, n)
      && (reason == PrevHashMismatch <==> rows[n].prevHash != HeadHash(rows[..n]))
  }

  /** The verdict does not depend on how the rows were read. */
  lemma VerdictIsUnique(h: Hash, rows: seq<Row>, v: Verdict, w: Verdict)
    requires Judges(h, rows, v) && Judges(h, rows, w)
    ensures v == w
  {
    if v.Broken? && w.Broken? {
      assert v.checked == w.checked;
    }
  }

  const SeqOf: Row -> nat := (row: Row) => row.seqNo

  // The first n rows are checked; prev and lastSeq are the last one's.
  ghost predicate Checked(h: Hash, rows: seq<Row>, n: nat, prev: string, lastSeq: nat)
  {
    && n <= |rows| && (forall i :: 0 <= i < n ==> LinkedAt(h, rows, i))
    && prev == HeadHash(rows[..n]) && Keyset.Upto(rows, SeqOf, lastSeq, n)
  }

  lemma CheckedNext(h: Hash, rows: seq<Row>, n: nat, prev: string, lastSeq: nat)
    requires InSeqOrder(rows) && Checked(h, rows, n, prev, lastSeq) && n < |rows| && LinkedAt(h, rows, n)
    ensures Checked(h, rows, n + 1, rows[n].rowHash, rows[n].seqNo)
  {
    assert rows[..n + 1][n] == rows[n];
  }

  /** Walks the chain by seq in batches. The verdict is the same for every batch size. */
  method VerifyChain(h: Hash, rows: seq<Row>, batchSize: nat) returns (v: Verdict)
    requires InSeqOrder(rows) && batchSize >= 1
    ensures Judges(h, rows, v)
  {
    var prev, checked, lastSeq := Genesis(), 0, 0;
    while true
      invariant Checked(h, rows, checked, prev, lastSeq)
      decreases |rows| - checked
    {
      Keyset.FetchContinues(rows, SeqOf, lastSeq, checked, batchSize);
      var batch := Keyset.Fetch(rows, SeqOf, lastSeq, batchSize);
      if batch == [] {
        return Intact(checked);
      }
      ghost var start := checked;
      var i := 0;
      while i < |batch|
        invariant 0 <= i <= |batch| && checked == start + i
        invariant Checked(h, rows, checked, prev, lastSeq)
      {
        var row := batch[i];
        assert row == rows[checked];
        if row.prevHash != prev {
          return Broken(checked, row.seqNo, PrevHashMismatch);
        }
        if row.rowHash != RowHash(h, prev, row.entry) {
          return Broken(checked, row.seqNo, RowHashMismatch);
        }
        CheckedNext(h, rows, checked, prev, lastSeq);
        prev, lastSeq, checked, i := row.rowHash, row.seqNo, checked + 1, i + 1;
      }
    }
  }

  // ---- Tamper evidence ----

  ghost function HashedText(rows: seq<Row>, i: nat): string
    requires i < |rows|
  {
    HeadHash(rows[..i]) + CanonicalRow(rows[i].entry)
  }

  /** What is assumed of SHA-256 on the texts of two logs: 64 characters, no collision, and
      never the genesis value. */
  ghost predicate NoCollision(h: Hash, a: seq<Row>, b: seq<Row>)
  {
    && (forall x :: |h(x)| == WIDTH)
    && (forall i, j :: 0 <= i < |a| && 0 <= j < |b| && h(HashedText(a, i)) == h(HashedText(b, j)) ==>
      HashedText(a, i) == HashedText(b, j))
    && (forall i :: 0 <= i < |a| ==> h(HashedText(a, i)) != Genesis())
    && (forall j :: 0 <= j < |b| ==> h(HashedText(b, j)) != Genesis())
  }

  /** Same rows, seq numbers aside. */
  ghost predicate SameLog(a: seq<Row>, b: seq<Row>) {
    |a| == |b| && forall i :: 0 <= i < |a| ==> a[i].(seqNo := 0) == b[i].(seqNo := 0)
  }

  lemma LinkedPrefix(h: Hash, rows: seq<Row>, n: nat)
    requires Linked(h, rows) && n <= |rows|
    ensures Linked(h, rows[..n])
  {
    forall i | 0 <= i < n
      ensures LinkedAt(h, rows[..n], i)
    {
      assert rows[..n][..i] == rows[..i];
      assert LinkedAt(h, rows, i);
    }
  }

  lemma CollisionPrefix(h: Hash, a: seq<Row>, b: seq<Row>, n: nat, m: nat)
    requires NoCollision(h, a, b) && n <= |a| && m <= |b|
    ensures NoCollision(h, a[..n], b[..m])
  {
    forall i | 0 <= i < n
      ensures HashedText(a[..n], i) == HashedText(a, i)
    {
      assert a[..n][..i] == a[..i];
    }
    forall j | 0 <= j < m
      ensures HashedText(b[..m], j) == HashedText(b, j)
    {
      assert b[..m][..j] == b[..j];
    }
  }

  lemma LastRowsAgree(h: Hash, a: seq<Row>, b: seq<Row>)
    requires Linked(h, a) && Linked(h, b) && NoCollision(h, a, b)
    requires a != [] && b != [] && HeadHash(a) == HeadHash(b)
    ensures HeadHash(a[..|a| - 1]) == HeadHash(b[..|b| - 1]) && a[|a| - 1].entry == b[|b| - 1].entry
  {
    var i, j := |a| - 1, |b| - 1;
    assert LinkedAt(h, a, i) && LinkedAt(h, b, j);
    assert h(HashedText(a, i)) == h(HashedText(b, j));
    HeadLength(h, a, i);
    HeadLength(h, b, j);
    Joined(HeadHash(a[..i]), CanonicalRow(a[i].entry));
    Joined(HeadHash(b[..j]), CanonicalRow(b[j].entry));
    CanonicalRowIsInjective(a[i].entry, b[j].entry);
  }

  lemma HeadLength(h: Hash, rows: seq<Row>, i: nat)
    requires Linked(h, rows) && i <= |rows| && forall x :: |h(x)| == WIDTH
    ensures |HeadHash(rows[..i])| == WIDTH
    ensures i > 0 ==> HeadHash(rows[..i]) == h(HashedText(rows, i - 1))
  {
    if i > 0 {
      assert LinkedAt(h, rows, i - 1);
    }
  }

  /** Two logs that verify and end in the same hash are the same log: no row can be edited,
      dropped, inserted or reordered before a head hash that someone remembers. */
  lemma {:induction false} HeadDeterminesLog(h: Hash, a: seq<Row>, b: seq<Row>)
    requires Linked(h, a) && Linked(h, b) && NoCollision(h, a, b)
    requires HeadHash(a) == HeadHash(b)
    ensures SameLog(a, b)
    decreases |a|
  {
    GenesisMeansEmpty(h, a, b);
    if a != [] {
      var i, j := |a| - 1, |b| - 1;
      LastRowsAgree(h, a, b);
      LinkedPrefix(h, a, i);
      LinkedPrefix(h, b, j);
      CollisionPrefix(h, a, b, i, j);
      HeadDeterminesLog(h, a[..i], b[..j]);
      assert LinkedAt(h, a, i) && LinkedAt(h, b, j);
      SameLogExtends(a, b);
    }
  }

  lemma GenesisMeansEmpty(h: Hash, a: seq<Row>, b: seq<Row>)
    requires Linked(h, a) && Linked(h, b) && NoCollision(h, a, b)
    ensures HeadHash(a) == HeadHash(b) ==> (a == [] <==> b == [])
  {
    HeadLength(h, a, |a|);
    HeadLength(h, b, |b|);
    assert a[..|a|] == a && b[..|b|] == b;
  }

  lemma SameLogExtends(a: seq<Row>, b: seq<Row>)
    requires a != [] && b != [] && SameLog(a[..|a| - 1], b[..|b| - 1])
    requires a[|a| - 1].(seqNo := 0) == b[|b| - 1].(seqNo := 0)
    ensures SameLog(a, b)
  {
    forall k | 0 <= k < |a|
      ensures a[k].(seqNo := 0) == b[k].(seqNo := 0)
    {
      if k < |a| - 1 {
        assert a[k] == a[..|a| - 1][k] && b[k] == b[..|b| - 1][k];
      }
    }
  }

  /** What the chain cannot show: a log cut short still verifies. */
  lemma CutLogVerifies(h: Hash, rows: seq<Row>, n: nat)
    requires Linked(h, rows) && n <= |rows|
    ensures Judges(h, rows[..n], Intact(n))
  {
    LinkedPrefix(h, rows, n);
  }
}
