/** Concurrent audit writers: a lock held until commit keeps the chain whole, aborts
    included (audit.py). */
module AuditWriters {
  import opened Wrappers
  import opened Canonical
  import opened AuditLog

  type Txn = nat

  /** `committed` is the table in seq order. A transaction's own rows are visible to it
      alone. `head` is a head hash a writer has read and not yet used. */
  datatype State = State(lock: Option<Txn>, committed: seq<Row>, own: map<Txn, seq<Row>>, head: map<Txn, string>,
      nextSeq: nat)

  datatype Action =
    | Acquire(t: Txn)
    | ReadHead(t: Txn)
    | Insert(t: Txn, entry: Entry)
    | Commit(t: Txn)
    | Abort(t: Txn)

  function Own(s: State, t: Txn): seq<Row> {
    if t in s.own then s.own[t] else []
  }

  // What a transaction sees: the committed rows and its own.
  function Visible(s: State, t: Txn): seq<Row> {
    s.committed + Own(s, t)
  }

  /** write_audit takes the lock before it reads, and its caller's commit or rollback ends
      it; a transaction may call it several times. */
  predicate Enabled(s: State, a: Action) {
    match a
    case Acquire(t) => s.lock == None || s.lock == Some(t)
    case ReadHead(t) => s.lock == Some(t)
    case Insert(t, e) => s.lock == Some(t) && t in s.head && CheckDetails(e.details)
    case Commit(t) => true
    case Abort(t) => true
  }

  function Freed(s: State, t: Txn): Option<Txn> {
    if s.lock == Some(t) then None else s.lock
  }

  function Apply(h: Hash, s: State, a: Action): State
    requires Enabled(s, a)
  {
    match a
    case Acquire(t) => s.(lock := Some(t))
    case ReadHead(t) => s.(head := s.head[t := HeadHash(Visible(s, t))])
    case Insert(t, e) =>
      var row := Row(s.nextSeq, e, s.head[t], RowHash(h, s.head[t], e));
      s.(own := s.own[t := Own(s, t) + [row]], head := s.head - {t}, nextSeq := s.nextSeq + 1)
    case Commit(t) => s.(lock := Freed(s, t), committed := Visible(s, t), own := s.own - {t}, head := s.head - {t})
    case Abort(t) => s.(lock := Freed(s, t), own := s.own - {t}, head := s.head - {t})
  }

  ghost predicate Legal(h: Hash, s: State, run: seq<Action>)
    decreases |run|
  {
    run == [] || (Enabled(s, run[0]) && Legal(h, Apply(h, s, run[0]), run[1..]))
  }

  ghost function Final(h: Hash, s: State, run: seq<Action>): State
    requires Legal(h, s, run)
    decreases |run|
  {
    if run == [] then s else Final(h, Apply(h, s, run[0]), run[1..])
  }

  ghost predicate Whole(h: Hash, rows: seq<Row>) {
    Linked(h, rows) && InSeqOrder(rows)
  }

  /** Only the lock's holder has rows or a head of its own; what it sees is a whole chain
      below the next seq, and the head it read is that chain's. */
  ghost predicate Safe(h: Hash, s: State) {
    && s.nextSeq >= 1 && Whole(h, s.committed)
    && (forall t :: t in s.own || t in s.head ==> s.lock == Some(t))
    && (s.lock.Some? ==> Whole(h, Visible(s, s.lock.value)))
    && (forall t :: t in s.head ==> s.head[t] == HeadHash(Visible(s, t)))
    && (forall i :: 0 <= i < |s.committed| ==> s.committed[i].seqNo < s.nextSeq)
    && (s.lock.Some? ==>
      forall i :: 0 <= i < |Visible(s, s.lock.value)| ==> Visible(s, s.lock.value)[i].seqNo < s.nextSeq)
  }

  lemma WholeExtends(h: Hash, rows: seq<Row>, row: Row)
    requires Whole(h, rows)
    requires row.prevHash == HeadHash(rows) && row.rowHash == RowHash(h, HeadHash(rows), row.entry)
    requires row.seqNo >= 1 && forall i :: 0 <= i < |rows| ==> rows[i].seqNo < row.seqNo
    ensures Whole(h, rows + [row])
  {
    var all := rows + [row];
    forall i | 0 <= i < |all|
      ensures LinkedAt(h, all, i)
    {
      if i < |rows| {
        assert LinkedAt(h, rows, i);
        assert all[..i] == rows[..i];
      } else {
        assert all[..i] == rows;
      }
    }
  }

  lemma InsertKeepsSafe(h: Hash, s: State, a: Action)
    requires Safe(h, s) && Enabled(s, a) && a.Insert?
    ensures Safe(h, Apply(h, s, a))
  {
    var row := Row(s.nextSeq, a.entry, s.head[a.t], RowHash(h, s.head[a.t], a.entry));
    WholeExtends(h, Visible(s, a.t), row);
    assert Visible(Apply(h, s, a), a.t) == Visible(s, a.t) + [row];
  }

  lemma CommitKeepsSafe(h: Hash, s: State, a: Action)
    requires Safe(h, s) && Enabled(s, a) && a.Commit?
    ensures Safe(h, Apply(h, s, a))
  {
    assert s.lock != Some(a.t) ==> Visible(s, a.t) == s.committed;
  }

  lemma StepKeepsSafe(h: Hash, s: State, a: Action)
    requires Safe(h, s) && Enabled(s, a)
    ensures Safe(h, Apply(h, s, a))
  {
    match a {
      case Acquire(t) =>
        assert t !in s.own ==> Visible(s, t) == s.committed;
      case Insert(_, _) => InsertKeepsSafe(h, s, a);
      case Commit(_) => CommitKeepsSafe(h, s, a);
      case _ =>
    }
  }

  /** Whatever writers interleave, append and abort, the committed rows always verify, at
      every batch size, and their seqs only ascend. */
  lemma {:induction false} CommittedAlwaysVerifies(h: Hash, s: State, run: seq<Action>)
    requires Safe(h, s) && Legal(h, s, run)
    ensures Safe(h, Final(h, s, run))
    ensures Whole(h, Final(h, s, run).committed)
      && Judges(h, Final(h, s, run).committed, Intact(|Final(h, s, run).committed|))
    decreases |run|
  {
    if run != [] {
      StepKeepsSafe(h, s, run[0]);
      CommittedAlwaysVerifies(h, Apply(h, s, run[0]), run[1..]);
    }
  }

  /** Committed rows are never changed or taken away: the table only grows at its end. */
  lemma {:induction false} CommittedOnlyGrows(h: Hash, s: State, run: seq<Action>)
    requires Legal(h, s, run)
    ensures s.committed <= Final(h, s, run).committed
    decreases |run|
  {
    if run != [] {
      CommittedOnlyGrows(h, Apply(h, s, run[0]), run[1..]);
    }
  }

  function Empty(): State {
    State(None, [], map[], map[], 1)
  }

  /** So every run from an empty table commits a chain that verifies. */
  lemma VerifiesFromEmpty(h: Hash, run: seq<Action>)
    requires Legal(h, Empty(), run)
    ensures Judges(h, Final(h, Empty(), run).committed, Intact(|Final(h, Empty(), run).committed|))
  {
    CommittedAlwaysVerifies(h, Empty(), run);
  }

  /** The table as the transaction that holds the lock sees it. */
  class AuditTable {
    var rows: seq<Row>
    var nextSeq: nat
    const hash: Hash

    ghost predicate Valid()
      reads this
    {
      Whole(hash, rows) && nextSeq >= 1 && forall i :: 0 <= i < |rows| ==> rows[i].seqNo < nextSeq
    }

    constructor (h: Hash)
      ensures Valid() && rows == [] && hash == h
    {
      rows, nextSeq, hash := [], 1, h;
    }

    /** write_audit: refuses details that JSON cannot carry or that hold a float, otherwise
        appends one row linked to the head. The table verifies after it. */
    method WriteAudit(entry: Entry, details: Value) returns (written: bool)
      requires Valid()
      modifies this`rows, this`nextSeq
      ensures Valid() && Judges(hash, rows, Intact(|rows|))
      ensures written <==> CheckDetails(details)
      ensures !written ==> rows == old(rows) && nextSeq == old(nextSeq)
      ensures written ==> |rows| == |old(rows)| + 1 && rows[..|old(rows)|] == old(rows)
      ensures written ==>
        var row := rows[|old(rows)|];
        row.entry.details == details && row.entry == entry.(details := row.entry.details)
        && row.prevHash == HeadHash(old(rows)) && row.seqNo == old(nextSeq)
    {
      if !CheckDetails(details) {
        return false;
      }
      AcceptedIsPrintable(details);
      var prev, said := HeadHash(rows), entry.(details := details);
      var row := Row(nextSeq, said, prev, RowHash(hash, prev, said));
      WholeExtends(hash, rows, row);
      rows, nextSeq := rows + [row], nextSeq + 1;
      return true;
    }
  }
}
