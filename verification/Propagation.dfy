/** CP-1 label ladders and the ratchet applied on every build (propagation.py). */
module Propagation {

  // A position in one of the three ladders: none < persoonsgegevens < bijzonder < bsn,
  // unset < bbn1 < bbn2 < bbn3, unset < intern < vertrouwelijk < geheim.
  type Level = n: nat | n < 4

  const BIJZONDER: Level := 2
  const BBN3: Level := 3

  datatype Labels = Labels(classification: Level, bbn: Level, confidentiality: Level)

  function Max(a: Level, b: Level): Level {
    if a < b then b else a
  }

  function Join(a: Labels, b: Labels): Labels {
    Labels(Max(a.classification, b.classification), Max(a.bbn, b.bbn), Max(a.confidentiality, b.confidentiality))
  }

  predicate Below(a: Labels, b: Labels) {
    a.classification <= b.classification && a.bbn <= b.bbn && a.confidentiality <= b.confidentiality
  }

  ghost predicate AllBelow(inputs: seq<Labels>, bound: Labels) {
    forall l :: l in inputs ==> Below(l, bound)
  }

  /** classification_floor: the MAX of every axis over the inputs. */
  function Floor(inputs: seq<Labels>): Labels {
    if inputs == [] then Labels(0, 0, 0) else Join(inputs[0], Floor(inputs[1..]))
  }

  /** Raise the output to the floor; never lower it. */
  function ApplyFloor(output: Labels, inputs: seq<Labels>): Labels {
    var floor := Floor(inputs);
    Labels(
      if output.classification < floor.classification then floor.classification else output.classification,
      if output.bbn < floor.bbn then floor.bbn else output.bbn,
      if output.confidentiality < floor.confidentiality then floor.confidentiality else output.confidentiality)
  }

  lemma {:induction false} FloorIsLeast(inputs: seq<Labels>, bound: Labels)
    ensures AllBelow(inputs, bound) <==> Below(Floor(inputs), bound)
  {
    if inputs != [] {
      FloorIsLeast(inputs[1..], bound);
      assert inputs == [inputs[0]] + inputs[1..];
      assert AllBelow(inputs, bound) <==> Below(inputs[0], bound) && AllBelow(inputs[1..], bound);
    }
  }

  /** The ratchet yields the least labels above the output's own and every input's. */
  lemma ApplyFloorIsLeast(output: Labels, inputs: seq<Labels>, bound: Labels)
    ensures Below(output, bound) && AllBelow(inputs, bound) <==> Below(ApplyFloor(output, inputs), bound)
  {
    FloorIsLeast(inputs, bound);
  }

  /** Labels a Python recipe may not read (executor._blocking_labels). */
  predicate Blocking(l: Labels) {
    l.classification >= BIJZONDER || l.bbn == BBN3
  }

  // The highest labels that do not block.
  const READABLE: Labels := Labels(BIJZONDER - 1, BBN3 - 1, 3)

  predicate Exceeds(l: Labels, bound: Labels) {
    !Below(l, bound)
  }

  lemma BlockingExceedsReadable(l: Labels)
    ensures Blocking(l) <==> Exceeds(l, READABLE)
  {
  }

  /** The ratchet takes an output above a bound exactly when its own labels or an input's
      were above it. */
  lemma RatchetExceeds(output: Labels, inputs: seq<Labels>, bound: Labels)
    ensures Exceeds(ApplyFloor(output, inputs), bound) <==>
      Exceeds(output, bound) || exists l :: l in inputs && Exceeds(l, bound)
  {
    ApplyFloorIsLeast(output, inputs, bound);
  }

  /** So it introduces a blocking label exactly when the output or an input had one. */
  lemma RatchetBlocks(output: Labels, inputs: seq<Labels>)
    ensures Blocking(ApplyFloor(output, inputs)) <==> Blocking(output) || exists l :: l in inputs && Blocking(l)
  {
    RatchetExceeds(output, inputs, READABLE);
    BlockingExceedsReadable(ApplyFloor(output, inputs));
    BlockingExceedsReadable(output);
    forall l
      ensures Blocking(l) <==> Exceeds(l, READABLE)
    {
      BlockingExceedsReadable(l);
    }
  }
}
