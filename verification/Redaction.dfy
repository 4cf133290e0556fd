/** Overlapping detections resolved, placeholders put in, and the checksums that decide what
    is an identifier at all (detectors.py, redact.py). */
module Redaction {
  import opened Ascii

  datatype Detection = Detection(kind: string, start: nat, end: nat)

  function Length(d: Detection): int {
    d.end as int - d.start as int
  }

  // ---- De-overlap ----

  /** The sort key: earliest start, then longest. */
  predicate NotAfter(a: Detection, b: Detection) {
    a.start < b.start || (a.start == b.start && Length(a) >= Length(b))
  }

  ghost predicate SortedByKey(ds: seq<Detection>) {
    forall i, j :: 0 <= i < j < |ds| ==> NotAfter(ds[i], ds[j])
  }

  function Insert(ds: seq<Detection>, d: Detection): seq<Detection> {
    if ds == [] then [d]
    else if NotAfter(ds[|ds| - 1], d) then ds + [d]
    else Insert(ds[..|ds| - 1], d) + [ds[|ds| - 1]]
  }

  // A stable sort, as list.sort is.
  function Sorted(ds: seq<Detection>): seq<Detection> {
    if ds == [] then [] else Insert(Sorted(ds[..|ds| - 1]), ds[|ds| - 1])
  }

  lemma SplitLast(ds: seq<Detection>)
    requires ds != []
    ensures multiset(ds) == multiset(ds[..|ds| - 1]) + multiset{ds[|ds| - 1]}
  {
    assert ds == ds[..|ds| - 1] + [ds[|ds| - 1]];
  }

  lemma {:induction false} InsertPermutes(ds: seq<Detection>, d: Detection)
    ensures multiset(Insert(ds, d)) == multiset(ds) + multiset{d}
  {
    if ds != [] && !NotAfter(ds[|ds| - 1], d) {
      InsertPermutes(ds[..|ds| - 1], d);
      SplitLast(ds);
    }
  }

  lemma {:induction false} InsertSorts(ds: seq<Detection>, d: Detection)
    requires SortedByKey(ds)
    ensures SortedByKey(Insert(ds, d))
  {
    if ds != [] && !NotAfter(ds[|ds| - 1], d) {
      var rest, last := ds[..|ds| - 1], ds[|ds| - 1];
      InsertSorts(rest, d);
      InsertPermutes(rest, d);
      var inner := Insert(rest, d);
      forall i | 0 <= i < |inner|
        ensures NotAfter(inner[i], last)
      {
        assert inner[i] in multiset(inner);
        assert inner[i] == d || inner[i] in rest;
      }
    }
  }

  lemma {:induction false} SortedPermutes(ds: seq<Detection>)
    ensures multiset(Sorted(ds)) == multiset(ds)
  {
    if ds != [] {
      SortedPermutes(ds[..|ds| - 1]);
      InsertPermutes(Sorted(ds[..|ds| - 1]), ds[|ds| - 1]);
      SplitLast(ds);
    }
  }

  lemma {:induction false} SortedSorts(ds: seq<Detection>)
    ensures SortedByKey(Sorted(ds))
  {
    if ds != [] {
      SortedSorts(ds[..|ds| - 1]);
      InsertSorts(Sorted(ds[..|ds| - 1]), ds[|ds| - 1]);
    }
  }

  /** Kept detections follow one another without overlap. */
  ghost predicate Disjoint(ds: seq<Detection>) {
    forall i, j :: 0 <= i < j < |ds| ==> ds[i].end <= ds[j].start
  }

  /** A detection starts inside a kept one that the sort put no later. */
  ghost predicate Covered(kept: seq<Detection>, d: Detection) {
    exists k :: 0 <= k < |kept| && NotAfter(kept[k], d) && d.start < kept[k].end
  }

  // What the loop has made of the first n sorted detections.
  ghost predicate Resolved(ds: seq<Detection>, n: nat, kept: seq<Detection>, cursor: int) {
    && n <= |ds| && Disjoint(kept) && (kept == [] ==> cursor == -1) && (kept != [] ==> cursor == kept[|kept| - 1].end)
    && (forall k :: 0 <= k < |kept| ==> kept[k] in ds[..n])
    && (forall i :: 0 <= i < n ==> ds[i] in kept || Covered(kept, ds[i]))
  }

  lemma KeepNext(ds: seq<Detection>, n: nat, kept: seq<Detection>, cursor: int)
    requires SortedByKey(ds) && (forall i :: 0 <= i < |ds| ==> ds[i].start <= ds[i].end)
    requires Resolved(ds, n, kept, cursor) && n < |ds|
    ensures ds[n].start >= cursor ==> Resolved(ds, n + 1, kept + [ds[n]], ds[n].end)
    ensures ds[n].start < cursor ==> Resolved(ds, n + 1, kept, cursor)
  {
    assert ds[..n + 1] == ds[..n] + [ds[n]];
    if ds[n].start >= cursor {
      var more := kept + [ds[n]];
      forall i | 0 <= i < |kept|
        ensures kept[i].end <= ds[n].start
      {
        assert i < |kept| - 1 ==> kept[i].end <= kept[|kept| - 1].start;
        assert kept[|kept| - 1] in ds[..n];
      }
      forall i | 0 <= i < n + 1
        ensures ds[i] in more || Covered(more, ds[i])
      {
        if i < n && ds[i] !in kept {
          assert Covered(kept, ds[i]);
          var k :| 0 <= k < |kept| && NotAfter(kept[k], ds[i]) && ds[i].start < kept[k].end;
          assert more[k] == kept[k];
        }
      }
    } else {
      var last := |kept| - 1;
      assert kept[last] in ds[..n];
      assert Covered(kept, ds[n]);
    }
  }

  lemma SameDetections(found: seq<Detection>)
    ensures forall k :: 0 <= k < |Sorted(found)| ==> Sorted(found)[k] in found
    ensures forall i :: 0 <= i < |found| ==> found[i] in Sorted(found)
  {
    SortedPermutes(found);
    forall k | 0 <= k < |Sorted(found)|
      ensures Sorted(found)[k] in found
    {
      assert Sorted(found)[k] in multiset(Sorted(found));
    }
    forall i | 0 <= i < |found|
      ensures found[i] in Sorted(found)
    {
      assert found[i] in multiset(found);
    }
  }

  lemma AllResolved(found: seq<Detection>, kept: seq<Detection>, cursor: int)
    requires Resolved(Sorted(found), |Sorted(found)|, kept, cursor)
    ensures forall k :: 0 <= k < |kept| ==> kept[k] in found
    ensures forall i :: 0 <= i < |found| ==> found[i] in kept || Covered(kept, found[i])
  {
    var ds := Sorted(found);
    SameDetections(found);
    assert ds[..|ds|] == ds;
  }

  /** Every detection, de-overlapped: a disjoint selection in document order, and whatever was
      dropped starts inside a kept one that begins earlier or is at least as long. */
  method DetectAll(found: seq<Detection>) returns (kept: seq<Detection>)
    requires forall i :: 0 <= i < |found| ==> found[i].start <= found[i].end
    ensures Disjoint(kept)
    ensures forall k :: 0 <= k < |kept| ==> kept[k] in found
    ensures forall i :: 0 <= i < |found| ==> found[i] in kept || Covered(kept, found[i])
  {
    var ds := Sorted(found);
    SortedSorts(found);
    SameDetections(found);
    kept := [];
    var cursor: int, n := -1, 0;
    while n < |ds|
      invariant Resolved(ds, n, kept, cursor)
    {
      KeepNext(ds, n, kept, cursor);
      if ds[n].start >= cursor {
        kept := kept + [ds[n]];
        cursor := ds[n].end;
      }
      n := n + 1;
    }
    AllResolved(found, kept, cursor);
  }

  // ---- Replacement ----

  function Placeholder(d: Detection): string {
    "<" + UpperCase(d.kind) + ">"
  }

  ghost predicate Fits(text: string, ds: seq<Detection>) {
    && Disjoint(ds)
    && forall i :: 0 <= i < |ds| ==> ds[i].start <= ds[i].end <= |text|
  }

  /** The text from `from` on, read left to right: untouched gaps and placeholders in turn. */
  function Weave(text: string, ds: seq<Detection>, k: nat, from: nat): string
    requires k <= |ds| && from <= |text| && (forall i :: k <= i < |ds| ==> ds[i].start <= ds[i].end <= |text|)
    decreases |ds| - k
  {
    if k == |ds| || ds[k].start < from then text[from..]
    else text[from..ds[k].start] + Placeholder(ds[k]) + Weave(text, ds, k + 1, ds[k].end)
  }

  // The end of the detection before k, where its gap begins.
  function GapStart(ds: seq<Detection>, k: nat): nat
    requires k <= |ds|
  {
    if k == 0 then 0 else ds[k - 1].end
  }

  // The text up to detection k - 1, and all from there on woven.
  ghost predicate Woven(text: string, ds: seq<Detection>, k: nat, redacted: string)
    requires Fits(text, ds) && k <= |ds|
  {
    GapStart(ds, k) <= |text| && redacted == text[..GapStart(ds, k)] + Weave(text, ds, k, GapStart(ds, k))
  }

  // One replacement to the left of what is already woven.
  lemma ReplaceOne(text: string, ds: seq<Detection>, k: nat, redacted: string)
    requires Fits(text, ds) && k < |ds| && Woven(text, ds, k + 1, redacted)
    ensures ds[k].start <= ds[k].end <= |redacted|
    ensures Woven(text, ds, k, redacted[..ds[k].start] + Placeholder(ds[k]) + redacted[ds[k].end..])
  {
    var d, e := ds[k], GapStart(ds, k);
    var tail := Weave(text, ds, k + 1, d.end);
    assert e <= d.start;
    assert redacted[..d.start] == text[..d.start] && redacted[d.end..] == tail;
    assert text[..d.start] == text[..e] + text[e..d.start];
    Regroup(text[..e], text[e..d.start], Placeholder(d), tail);
  }

  lemma Regroup(a: string, b: string, c: string, d: string)
    ensures a + b + c + d == a + (b + c + d)
  {
  }

  lemma WovenEnds(text: string, ds: seq<Detection>, redacted: string)
    requires Fits(text, ds)
    ensures Woven(text, ds, |ds|, text)
    ensures Woven(text, ds, 0, redacted) ==> redacted == Weave(text, ds, 0, 0)
  {
    var e := GapStart(ds, |ds|);
    assert text == text[..e] + text[e..];
    assert text[..0] + Weave(text, ds, 0, 0) == Weave(text, ds, 0, 0);
  }

  // ---- The order of replacement ----

  /** The order a reverse sort by start visits, read from its end: ascending starts, and of two
      equal ones the later in the list first. */
  function Ordered(ds: seq<Detection>): seq<Detection> {
    if ds == [] then [] else Place(Ordered(ds[..|ds| - 1]), ds[|ds| - 1])
  }

  function Place(ordered: seq<Detection>, d: Detection): (r: seq<Detection>)
    ensures |r| == |ordered| + 1 && forall i :: 0 <= i < |r| ==> r[i] == d || r[i] in ordered
  {
    if ordered == [] || d.start <= ordered[0].start then [d] + ordered
    else [ordered[0]] + Place(ordered[1..], d)
  }

  predicate Clear(a: Detection, b: Detection) {
    a.end <= b.start || b.end <= a.start
  }

  /** Non-empty spans of the text, no two overlapping, in any order. */
  ghost predicate Apart(text: string, ds: seq<Detection>) {
    && (forall i :: 0 <= i < |ds| ==> ds[i].start < ds[i].end <= |text|)
    && forall i, j :: 0 <= i < j < |ds| ==> Clear(ds[i], ds[j])
  }

  lemma {:induction false} PlacePermutes(ordered: seq<Detection>, d: Detection)
    ensures multiset(Place(ordered, d)) == multiset(ordered) + multiset{d}
  {
    if ordered != [] && d.start > ordered[0].start {
      PlacePermutes(ordered[1..], d);
      assert ordered == [ordered[0]] + ordered[1..];
    }
  }

  lemma {:induction false} PlaceFits(text: string, ordered: seq<Detection>, d: Detection)
    requires Fits(text, ordered) && d.start < d.end <= |text|
    requires forall i :: 0 <= i < |ordered| ==> ordered[i].start < ordered[i].end && Clear(ordered[i], d)
    ensures Fits(text, Place(ordered, d))
  {
    if ordered == [] {
    } else if d.start <= ordered[0].start {
      assert Clear(ordered[0], d);
      FirstFits(text, d, ordered);
    } else {
      assert Clear(ordered[0], d);
      PlaceFits(text, ordered[1..], d);
      FirstFits(text, ordered[0], Place(ordered[1..], d));
    }
  }

  lemma FirstFits(text: string, first: Detection, rest: seq<Detection>)
    requires Fits(text, rest) && first.start <= first.end <= |text|
    requires forall i :: 0 <= i < |rest| ==> first.end <= rest[i].start
    ensures Fits(text, [first] + rest)
  {
  }

  /** Detections that do not overlap can be replaced whatever order they are listed in. */
  lemma {:induction false} ApartFits(text: string, ds: seq<Detection>)
    requires Apart(text, ds)
    ensures Fits(text, Ordered(ds)) && multiset(Ordered(ds)) == multiset(ds)
  {
    if ds != [] {
      var rest, d := ds[..|ds| - 1], ds[|ds| - 1];
      ApartFits(text, rest);
      SplitLast(ds);
      forall i | 0 <= i < |Ordered(rest)|
        ensures Ordered(rest)[i].start < Ordered(rest)[i].end && Clear(Ordered(rest)[i], d)
      {
        assert Ordered(rest)[i] in multiset(Ordered(rest));
        assert Ordered(rest)[i] in rest;
      }
      PlaceFits(text, Ordered(rest), d);
      PlacePermutes(Ordered(rest), d);
    }
  }

  lemma {:induction false} PlaceLast(ordered: seq<Detection>, d: Detection)
    requires forall i :: 0 <= i < |ordered| ==> ordered[i].start < d.start
    ensures Place(ordered, d) == ordered + [d]
  {
    if ordered != [] {
      PlaceLast(ordered[1..], d);
      assert ordered == [ordered[0]] + ordered[1..];
    }
  }

  /** Detections already in document order are left in it. */
  lemma {:induction false} OrderedKeeps(ds: seq<Detection>)
    requires Disjoint(ds) && forall i :: 0 <= i < |ds| ==> ds[i].start < ds[i].end
    ensures Ordered(ds) == ds
  {
    if ds != [] {
      OrderedKeeps(ds[..|ds| - 1]);
      PlaceLast(ds[..|ds| - 1], ds[|ds| - 1]);
    }
  }

  // A slice bound past the end stands for the end.
  function Upto(text: string, n: nat): nat {
    if n <= |text| then n else |text|
  }

  function ReplacedBy(text: string, d: Detection): string {
    text[..Upto(text, d.start)] + Placeholder(d) + text[Upto(text, d.end)..]
  }

  /** One replacement after another, the last detection first, whatever they overlap. */
  function Replaced(text: string, ds: seq<Detection>): string
    decreases |ds|
  {
    if ds == [] then text else Replaced(ReplacedBy(text, ds[|ds| - 1]), ds[..|ds| - 1])
  }

  /** Every detection is replaced, in descending order of where it starts, equal starts in the
      order of the list. When each replacement ends before the one made before it, replacing
      from the right is the same as weaving from the left. */
  method ApplyRedactions(text: string, detections: seq<Detection>) returns (redacted: string)
    ensures redacted == Replaced(text, Ordered(detections))
    ensures Fits(text, Ordered(detections)) ==> redacted == Weave(text, Ordered(detections), 0, 0)
  {
    var ds := Ordered(detections);
    redacted := text;
    var k := |ds|;
    assert ds[..k] == ds;
    while k > 0
      invariant 0 <= k <= |ds| && Replaced(text, ds) == Replaced(redacted, ds[..k])
    {
      k := k - 1;
      assert ds[..k + 1][..k] == ds[..k];
      redacted := ReplacedBy(redacted, ds[k]);
    }
    if Fits(text, ds) {
      WovenEnds(text, ds, text);
      assert ds[..|ds|] == ds;
      ReplacedIsWoven(text, ds, |ds|, text);
    }
  }

  lemma {:induction false} ReplacedIsWoven(text: string, ds: seq<Detection>, k: nat, redacted: string)
    requires Fits(text, ds) && k <= |ds| && Woven(text, ds, k, redacted)
    ensures Replaced(redacted, ds[..k]) == Weave(text, ds, 0, 0)
    decreases k
  {
    if k == 0 {
      WovenEnds(text, ds, redacted);
    } else {
      ReplaceOne(text, ds, k - 1, redacted);
      assert ds[..k][..k - 1] == ds[..k - 1];
      ReplacedIsWoven(text, ds, k - 1, ReplacedBy(redacted, ds[k - 1]));
    }
  }

  /** Whatever the detectors find, overlapping or not, what was found is covered by the kept
      detections, and exactly those are replaced, left to right. */
  method Redact(text: string, found: seq<Detection>) returns (redacted: string, kept: seq<Detection>)
    requires forall i :: 0 <= i < |found| ==> found[i].start < found[i].end <= |text|
    ensures Disjoint(kept) && forall k :: 0 <= k < |kept| ==> kept[k] in found
    ensures forall i :: 0 <= i < |found| ==> found[i] in kept || Covered(kept, found[i])
    ensures forall k :: 0 <= k < |kept| ==> kept[k].start <= kept[k].end <= |text|
    ensures redacted == Weave(text, kept, 0, 0)
  {
    kept := DetectAll(found);
    OrderedKeeps(kept);
    if kept == [] {
      return text, kept;
    }
    redacted := ApplyRedactions(text, kept);
  }
}
