/** Reading a table in batches by its ascending number: the rows past the last one seen
    (audit.py, events.py). */
module Keyset {

  ghost predicate InOrder<T>(rows: seq<T>, num: T -> nat) {
    forall i, j :: 0 <= i < j < |rows| ==> num(rows[i]) < num(rows[j])
  }

  /** The first n rows are those up to `last`. */
  ghost predicate Upto<T>(rows: seq<T>, num: T -> nat, last: nat, n: nat) {
    && n <= |rows|
    && (forall i :: 0 <= i < n ==> num(rows[i]) <= last)
    && (forall i :: n <= i < |rows| ==> num(rows[i]) > last)
  }

  // The rows numbered above `last`, at most `limit` of them.
  function Fetch<T>(rows: seq<T>, num: T -> nat, last: nat, limit: nat): seq<T> {
    if rows == [] || limit == 0 then []
    else if num(rows[0]) > last then [rows[0]] + Fetch(rows[1..], num, last, limit - 1)
    else Fetch(rows[1..], num, last, limit)
  }

  function Limit<T>(rows: seq<T>, limit: nat): seq<T> {
    if limit <= |rows| then rows[..limit] else rows
  }

  /** A batch is the next rows of the table, none skipped. */
  lemma {:induction false} FetchContinues<T>(rows: seq<T>, num: T -> nat, last: nat, n: nat, limit: nat)
    requires Upto(rows, num, last, n)
    ensures Fetch(rows, num, last, limit) == Limit(rows[n..], limit)
    decreases |rows|
  {
    if rows != [] && limit > 0 {
      if n == 0 {
        FetchContinues(rows[1..], num, last, 0, limit - 1);
      } else {
        FetchContinues(rows[1..], num, last, n - 1, limit);
        assert rows[1..][n - 1..] == rows[n..];
      }
    }
  }

  lemma UptoSuffix<T>(rows: seq<T>, num: T -> nat, last: nat, n: nat, p: nat)
    requires Upto(rows, num, last, n) && p <= n
    ensures Upto(rows[p..], num, last, n - p) && rows[p..][n - p..] == rows[n..]
  {
    forall i | 0 <= i < |rows[p..]|
      ensures if i < n - p then num(rows[p..][i]) <= last else num(rows[p..][i]) > last
    {
      assert rows[p..][i] == rows[p + i];
    }
  }

  lemma UptoGrows<T>(a: seq<T>, b: seq<T>, num: T -> nat, last: nat, n: nat)
    requires Upto(a, num, last, n) && forall i :: 0 <= i < |b| ==> num(b[i]) > last
    ensures Upto(a + b, num, last, n)
  {
    forall i | 0 <= i < |a + b|
      ensures if i < n then num((a + b)[i]) <= last else num((a + b)[i]) > last
    {
      if i < |a| {
        assert (a + b)[i] == a[i];
      } else {
        assert (a + b)[i] == b[i - |a|];
      }
    }
  }
}
