/** Serial edits of the recipe graph (routers/recipes.py, provision_outputs, load_graph). */
module RecipeEdits {
  import opened Digraph
  import opened RecipeGraphs
  import opened Wrappers

  datatype Kind = Prepare | Join | Group | Stack | Split | Sample | Sql | Python

  datatype EditError =
    | DatasetNotFound | RecipeNotFound | WrongInputCount | WrongOutputCount
    | NameArchived | AlreadyProduced | WouldCycle | NameInUse | DatasetInUse

  function OutputArity(kind: Kind): nat {
    if kind == Split then 2 else 1
  }

  predicate InputArityOk(kind: Kind, count: nat) {
    match kind
    case Prepare | Group | Split | Sample => count == 1
    case Join => count == 2
    case Stack => count >= 2
    case Sql | Python => count >= 1
  }

  predicate Distinct(s: seq<Id>) {
    forall i, j :: 0 <= i < j < |s| ==> s[i] != s[j]
  }

  // ---- What load_graph sees of the rows of active recipes ----

  predicate Lists(outs: map<Id, seq<Id>>, r: Id, d: Id) {
    r in outs && d in outs[r]
  }

  ghost predicate Rows(active: set<Id>, ins: map<Id, seq<Id>>, outs: map<Id, seq<Id>>) {
    && active <= ins.Keys && active <= outs.Keys
    && (forall r :: r in outs && r !in active ==> outs[r] == [])
    && (forall r, q, d :: Lists(outs, r, d) && Lists(outs, q, d) ==> r == q)
    && (forall r :: r in outs ==> Distinct(outs[r]))
  }

  predicate Produces(active: set<Id>, outs: map<Id, seq<Id>>, r: Id, d: Id) {
    r in active && Lists(outs, r, d)
  }

  ghost predicate IsGraphOf(g: RecipeGraph, active: set<Id>, ins: map<Id, seq<Id>>, outs: map<Id, seq<Id>>)
    requires active <= ins.Keys && active <= outs.Keys
  {
    && g.inputs == (map r | r in active :: ins[r])
    && g.outputs == (map r | r in active :: outs[r])
    && (forall d :: d in g.producer ==> Produces(active, outs, g.producer[d], d))
    && (forall r, d :: Produces(active, outs, r, d) ==> d in g.producer && g.producer[d] == r)
  }

  /** The dataset dependency edges the rows spell out. */
  ghost predicate RowEdge(active: set<Id>, ins: map<Id, seq<Id>>, outs: map<Id, seq<Id>>, a: Id, b: Id) {
    exists r :: Produces(active, outs, r, a) && r in ins && b in ins[r]
  }

  ghost predicate AcyclicRows(active: set<Id>, ins: map<Id, seq<Id>>, outs: map<Id, seq<Id>>) {
    exists g: Graph :: !Cyclic(g) && forall a, b :: RowEdge(active, ins, outs, a, b) ==> Edge(g, a, b)
  }

  lemma LoadedSingleProducer(g: RecipeGraph, active: set<Id>, ins: map<Id, seq<Id>>, outs: map<Id, seq<Id>>)
    requires Rows(active, ins, outs) && IsGraphOf(g, active, ins, outs)
    ensures SingleProducer(g)
  {
    forall r, i, j | r in g.outputs && 0 <= i < j < |g.outputs[r]|
      ensures g.outputs[r][i] != g.outputs[r][j]
    {
      assert Distinct(outs[r]);
    }
    forall r, d | r in g.outputs && d in g.outputs[r]
      ensures d in g.producer && g.producer[d] == r
    {
      assert Produces(active, outs, r, d);
    }
  }

  lemma LoadedEdges(g: RecipeGraph, active: set<Id>, ins: map<Id, seq<Id>>, outs: map<Id, seq<Id>>, a: Id, b: Id)
    requires active <= ins.Keys && active <= outs.Keys && IsGraphOf(g, active, ins, outs)
    requires Edge(DatasetGraph(g.producer, g.inputs), a, b)
    ensures RowEdge(active, ins, outs, a, b)
  {
    assert Produces(active, outs, g.producer[a], a);
  }

  /** The loaded graph is single-producer, and it is acyclic when the rows are. */
  lemma LoadedGraphSound(g: RecipeGraph, active: set<Id>, ins: map<Id, seq<Id>>, outs: map<Id, seq<Id>>)
    requires Rows(active, ins, outs) && IsGraphOf(g, active, ins, outs)
    ensures SingleProducer(g)
    ensures AcyclicRows(active, ins, outs) ==> AcyclicGraph(g)
  {
    LoadedSingleProducer(g, active, ins, outs);
    if AcyclicRows(active, ins, outs) {
      var big: Graph :| !Cyclic(big) && forall a, b :: RowEdge(active, ins, outs, a, b) ==> Edge(big, a, b);
      forall a, b | Edge(DatasetGraph(g.producer, g.inputs), a, b)
        ensures Edge(big, a, b)
      {
        LoadedEdges(g, active, ins, outs, a, b);
      }
      CycleInSupergraph(DatasetGraph(g.producer, g.inputs), big);
    }
  }

  /** Once the check has passed, writing the recipe's rows keeps the graph acyclic. */
  lemma EditKeepsAcyclic(g: RecipeGraph, active: set<Id>, ins: map<Id, seq<Id>>, outs: map<Id, seq<Id>>,
                         r: Id, newIns: seq<Id>, newOuts: seq<Id>)
    requires Rows(active, ins, outs) && IsGraphOf(g, active, ins, outs)
    requires forall d :: Lists(outs, r, d) ==> d in newOuts
    requires !Cyclic(Overlay(g, r, newIns, newOuts))
    requires forall q, d :: Lists(outs, q, d) && q != r ==> d !in newOuts
    ensures AcyclicRows(active + {r}, ins[r := newIns], outs[r := newOuts])
  {
    var overlay := Overlay(g, r, newIns, newOuts);
    forall a, b | RowEdge(active + {r}, ins[r := newIns], outs[r := newOuts], a, b)
      ensures Edge(overlay, a, b)
    {
      var q :| Produces(active + {r}, outs[r := newOuts], q, a) && q in ins[r := newIns] && b in ins[r := newIns][q];
      if q != r {
        assert Produces(active, outs, q, a);
      }
    }
  }

  /** And the check refuses nothing else: if the rows would be acyclic, so is the overlay. */
  lemma AcyclicEditPasses(g: RecipeGraph, active: set<Id>, ins: map<Id, seq<Id>>, outs: map<Id, seq<Id>>,
                          r: Id, newIns: seq<Id>, newOuts: seq<Id>)
    requires Rows(active, ins, outs) && IsGraphOf(g, active, ins, outs)
    requires forall d :: Lists(outs, r, d) ==> d in newOuts
    requires AcyclicRows(active + {r}, ins[r := newIns], outs[r := newOuts])
    ensures !Cyclic(Overlay(g, r, newIns, newOuts))
  {
    var overlay := Overlay(g, r, newIns, newOuts);
    var outs', ins', active' := outs[r := newOuts], ins[r := newIns], active + {r};
    var big: Graph :| !Cyclic(big) && forall a, b :: RowEdge(active', ins', outs', a, b) ==> Edge(big, a, b);
    forall a, b | Edge(overlay, a, b)
      ensures Edge(big, a, b)
    {
      OverlayEdge(g, active, ins, outs, r, newIns, newOuts, a, b);
    }
    CycleInSupergraph(overlay, big);
  }

  // An edge of the overlay is spelled out by the rows as they would be written.
  lemma OverlayEdge(g: RecipeGraph, active: set<Id>, ins: map<Id, seq<Id>>, outs: map<Id, seq<Id>>,
                    r: Id, newIns: seq<Id>, newOuts: seq<Id>, a: Id, b: Id)
    requires active <= ins.Keys && active <= outs.Keys && IsGraphOf(g, active, ins, outs)
    requires Edge(Overlay(g, r, newIns, newOuts), a, b)
    requires forall d :: Lists(outs, r, d) ==> d in newOuts
    ensures RowEdge(active + {r}, ins[r := newIns], outs[r := newOuts], a, b)
  {
    var q := OverlayProducer(g.producer, r, newOuts)[a];
    assert q != r ==> Produces(active, outs, q, a);
    assert Produces(active + {r}, outs[r := newOuts], q, a);
  }

  /** The part of the graph outside the edited recipe is acyclic because the whole was. */
  lemma PremiseFromRows(g: RecipeGraph, active: set<Id>, ins: map<Id, seq<Id>>, outs: map<Id, seq<Id>>,
                        r: Id, newOuts: seq<Id>)
    requires Rows(active, ins, outs) && IsGraphOf(g, active, ins, outs) && AcyclicRows(active, ins, outs)
    requires forall d :: Lists(outs, r, d) ==> d in newOuts
    ensures EditPremise(g, r, newOuts)
  {
    LoadedGraphSound(g, active, ins, outs);
    CycleInSupergraph(DatasetGraph(Without(g, r), g.inputs), DatasetGraph(g.producer, g.inputs));
    forall d | d in g.producer && g.producer[d] == r
      ensures d in newOuts
    {
      assert Produces(active, outs, r, d);
    }
  }

  /** Deleting rows never makes a cycle. */
  lemma FewerRowsAcyclic(active: set<Id>, ins: map<Id, seq<Id>>, outs: map<Id, seq<Id>>,
                         active': set<Id>, outs': map<Id, seq<Id>>)
    requires AcyclicRows(active, ins, outs)
    requires forall r, d :: Produces(active', outs', r, d) ==> Produces(active, outs, r, d)
    ensures AcyclicRows(active', ins, outs')
  {
    var g: Graph :| !Cyclic(g) && forall a, b :: RowEdge(active, ins, outs, a, b) ==> Edge(g, a, b);
    forall a, b | RowEdge(active', ins, outs', a, b)
      ensures Edge(g, a, b)
    {
      var r :| Produces(active', outs', r, a) && r in ins && b in ins[r];
      assert RowEdge(active, ins, outs, a, b);
    }
  }

  lemma RowsAfterEdit(active: set<Id>, ins: map<Id, seq<Id>>, outs: map<Id, seq<Id>>,
                      r: Id, newIns: seq<Id>, newOuts: seq<Id>)
    requires Rows(active, ins, outs) && Distinct(newOuts) && OthersAvoid(outs, r, newOuts)
    ensures Rows(active + {r}, ins[r := newIns], outs[r := newOuts])
  {
    var outs' := outs[r := newOuts];
    forall p, q, d | Lists(outs', p, d) && Lists(outs', q, d)
      ensures p == q
    {
      assert p != r ==> Lists(outs, p, d);
      assert q != r ==> Lists(outs, q, d);
    }
    forall q | q in outs'
      ensures Distinct(outs'[q])
    {
      assert q != r ==> outs'[q] == outs[q];
    }
  }

  lemma RowsAfterClearing(active: set<Id>, ins: map<Id, seq<Id>>, outs: map<Id, seq<Id>>, r: Id, active': set<Id>)
    requires Rows(active, ins, outs) && AcyclicRows(active, ins, outs)
    requires active - {r} <= active' <= active && r in outs
    ensures Rows(active', ins, outs[r := []]) && AcyclicRows(active', ins, outs[r := []])
  {
    RowsAfterEdit(active, ins, outs, r, [], []);
    assert forall q, d :: Lists(outs[r := []], q, d) ==> Lists(outs, q, d);
    FewerRowsAcyclic(active, ins, outs, active', outs[r := []]);
  }

  lemma OwnOutputsFree(active: set<Id>, ins: map<Id, seq<Id>>, outs: map<Id, seq<Id>>, r: Id)
    requires Rows(active, ins, outs) && r in outs
    ensures Frees(outs, r, outs[r])
  {
    forall q, d | Lists(outs, q, d) && q != r
      ensures d !in outs[r]
    {
      assert d in outs[r] ==> Lists(outs, r, d);
    }
  }

  lemma NoRowsAcyclic()
    ensures AcyclicRows({}, map[], map[])
  {
    EmptyGraphAcyclic();
    var g: Graph := map[];
    assert !Cyclic(g) && forall a, b :: RowEdge({}, map[], map[], a, b) ==> Edge(g, a, b);
  }

  // ---- The tables, and what each request makes of them ----

  /** `names` maps a dataset's name to its id, archived datasets included; `kinds` holds every
      recipe ever created, `active` the active ones. */
  datatype Tables = Tables(
    names: map<string, Id>, archived: set<Id>, kinds: map<Id, Kind>, active: set<Id>,
    inputRows: map<Id, seq<Id>>, outputRows: map<Id, seq<Id>>, nextId: Id)

  /** Single producer and no cycle. */
  ghost predicate GraphValid(t: Tables) {
    && Rows(t.active, t.inputRows, t.outputRows) && AcyclicRows(t.active, t.inputRows, t.outputRows)
    && t.active <= t.kinds.Keys && t.outputRows.Keys == t.inputRows.Keys == t.kinds.Keys
  }

  ghost predicate AllBelow(ids: seq<Id>, bound: Id) {
    forall d :: d in ids ==> d < bound
  }

  ghost predicate RowsBelow(outs: map<Id, seq<Id>>, bound: Id) {
    forall r :: r in outs ==> AllBelow(outs[r], bound)
  }

  /** Every id in use is below the next one. */
  ghost predicate IdsValid(t: Tables) {
    && (forall r :: r in t.kinds ==> r < t.nextId)
    && (forall n :: n in t.names ==> t.names[n] < t.nextId)
    && (forall d :: d in t.archived ==> d < t.nextId)
    && RowsBelow(t.outputRows, t.nextId)
  }

  ghost predicate NoneIn(ids: seq<Id>, s: set<Id>) {
    forall d :: d in ids ==> d !in s
  }

  /** What active recipes read and write is not archived. */
  ghost predicate NoneArchived(t: Tables) {
    forall r :: r in t.active && r in t.inputRows && r in t.outputRows ==>
      NoneIn(t.inputRows[r], t.archived) && NoneIn(t.outputRows[r], t.archived)
  }

  ghost predicate Valid(t: Tables) {
    GraphValid(t) && IdsValid(t) && NoneArchived(t)
  }

  ghost predicate AllNamed(names: map<string, Id>, ids: seq<Id>) {
    forall d :: d in ids ==> d in names.Values
  }

  /** A recipe has the inputs and outputs its kind asks for, all of them registered. */
  ghost predicate ShapeOk(t: Tables, r: Id)
    requires r in t.kinds && r in t.inputRows && r in t.outputRows
  {
    && InputArityOk(t.kinds[r], |t.inputRows[r]|) && |t.outputRows[r]| == OutputArity(t.kinds[r])
    && AllNamed(t.names, t.inputRows[r]) && AllNamed(t.names, t.outputRows[r])
  }

  ghost predicate Shaped(t: Tables) {
    forall r :: r in t.active && r in t.kinds && r in t.inputRows && r in t.outputRows ==> ShapeOk(t, r)
  }

  // An active dataset's name.
  predicate Open(t: Tables, name: string) {
    name in t.names && t.names[name] !in t.archived
  }

  predicate Produced(outs: map<Id, seq<Id>>, d: Id) {
    exists q :: q in outs && Lists(outs, q, d)
  }

  function IdsOf(t: Tables, names: seq<string>): (r: seq<Id>)
    requires forall n :: n in names ==> n in t.names
    ensures |r| == |names| && forall k :: 0 <= k < |r| ==> r[k] == t.names[names[k]]
  {
    seq(|names|, k requires 0 <= k < |names| => t.names[names[k]])
  }

  /** Why a name cannot become an output: reserved by an archived dataset, or produced. */
  function RefusalOf(t: Tables, name: string): Option<EditError> {
    if name in t.names && t.names[name] in t.archived then Some(NameArchived)
    else if name in t.names && Produced(t.outputRows, t.names[name]) then Some(AlreadyProduced)
    else None
  }

  // The first refusal, in the order of the names.
  function FirstRefusal(t: Tables, names: seq<string>): Option<EditError> {
    if names == [] then None
    else
      var earlier := FirstRefusal(t, names[..|names| - 1]);
      if earlier.Some? then earlier else RefusalOf(t, names[|names| - 1])
  }

  function OutputError(t: Tables, kind: Kind, names: seq<string>): Option<EditError> {
    if |names| != OutputArity(kind) then Some(WrongOutputCount) else FirstRefusal(t, names)
  }

  function InputError(t: Tables, kind: Kind, names: seq<string>): Option<EditError> {
    if exists n :: n in names && !Open(t, n) then Some(DatasetNotFound)
    else if !InputArityOk(kind, |names|) then Some(WrongInputCount)
    else None
  }

  datatype Provision = Provision(names: map<string, Id>, nextId: Id, ids: seq<Id>)

  /** One dataset per name: the existing one, or a new one under the next id. */
  function Provisioned(t: Tables, names: seq<string>): Provision {
    if names == [] then Provision(t.names, t.nextId, [])
    else
      var p := Provisioned(t, names[..|names| - 1]);
      var name := names[|names| - 1];
      if name in p.names then p.(ids := p.ids + [p.names[name]])
      else Provision(p.names[name := p.nextId], p.nextId + 1, p.ids + [p.nextId])
  }

  function WithDatasets(t: Tables, p: Provision): Tables {
    t.(names := p.names, nextId := p.nextId)
  }

  function Written(t: Tables, recipe: Id, kind: Kind, ins: seq<Id>, outs: seq<Id>): Tables {
    t.(kinds := t.kinds[recipe := kind], active := t.active + {recipe},
       inputRows := t.inputRows[recipe := ins], outputRows := t.outputRows[recipe := outs])
  }

  /** Writing the rows fails when they would close a cycle; otherwise when a dataset is
      repeated, which the row tables' primary keys refuse. */
  ghost function WriteError(t: Tables, recipe: Id, ins: seq<Id>, outs: seq<Id>): Option<EditError> {
    if !AcyclicRows(t.active + {recipe}, t.inputRows[recipe := ins], t.outputRows[recipe := outs]) then Some(WouldCycle)
    else if !Distinct(ins) || !Distinct(outs) then Some(AlreadyProduced)
    else None
  }

  /** Why a create is refused, if it is. */
  ghost function CreateError(t: Tables, kind: Kind, inputNames: seq<string>,
      outputNames: seq<string>): Option<EditError> {
    if InputError(t, kind, inputNames).Some? then InputError(t, kind, inputNames)
    else if OutputError(t, kind, outputNames).Some? then OutputError(t, kind, outputNames)
    else
      var p := Provisioned(t, outputNames);
      WriteError(WithDatasets(t, p), p.nextId, IdsOf(t, inputNames), p.ids)
  }

  ghost function Created(t: Tables, kind: Kind, inputNames: seq<string>, outputNames: seq<string>): Tables
    requires forall n :: n in inputNames ==> n in t.names
  {
    var p := Provisioned(t, outputNames);
    Written(WithDatasets(t, p).(nextId := p.nextId + 1), p.nextId, kind, IdsOf(t, inputNames), p.ids)
  }

  // The recipe's own outputs are freed first, so that it can adopt them again.
  function Freed(t: Tables, recipe: Id, outputNames: Option<seq<string>>): Tables {
    if outputNames.Some? then t.(outputRows := t.outputRows[recipe := []]) else t
  }

  function PatchInputError(t: Tables, recipe: Id, inputNames: Option<seq<string>>): Option<EditError>
    requires recipe in t.kinds && recipe in t.inputRows
  {
    if inputNames.Some? then InputError(t, t.kinds[recipe], inputNames.value)
    else if !InputArityOk(t.kinds[recipe], |t.inputRows[recipe]|) then Some(WrongInputCount)
    else None
  }

  function PatchOutputs(t: Tables, recipe: Id, outputNames: Option<seq<string>>): Provision
    requires recipe in t.outputRows
  {
    if outputNames.Some? then Provisioned(Freed(t, recipe, outputNames), outputNames.value)
    else Provision(t.names, t.nextId, t.outputRows[recipe])
  }

  function PatchInputs(t: Tables, recipe: Id, inputNames: Option<seq<string>>): seq<Id>
    requires recipe in t.inputRows && (inputNames.Some? ==> forall n :: n in inputNames.value ==> n in t.names)
  {
    if inputNames.Some? then IdsOf(t, inputNames.value) else t.inputRows[recipe]
  }

  /** Why a rewiring is refused, if it is. */
  ghost function PatchError(t: Tables, recipe: Id, inputNames: Option<seq<string>>,
      outputNames: Option<seq<string>>): Option<EditError>
    requires GraphValid(t)
  {
    if recipe !in t.active then Some(RecipeNotFound)
    else if inputNames == None && outputNames == None then None
    else if PatchInputError(t, recipe, inputNames).Some? then PatchInputError(t, recipe, inputNames)
    else
      var freed := Freed(t, recipe, outputNames);
      if outputNames.Some? && OutputError(freed, t.kinds[recipe], outputNames.value).Some?
      then OutputError(freed, t.kinds[recipe], outputNames.value)
      else
        var p := PatchOutputs(t, recipe, outputNames);
        WriteError(WithDatasets(freed, p), recipe, PatchInputs(t, recipe, inputNames), p.ids)
  }

  /** The tables after a rewiring: only the recipe's own rows differ, and new output datasets. */
  ghost function Patched(t: Tables, recipe: Id, inputNames: Option<seq<string>>,
      outputNames: Option<seq<string>>): Tables
    requires GraphValid(t) && PatchError(t, recipe, inputNames, outputNames) == None
  {
    var p := PatchOutputs(t, recipe, outputNames);
    WithDatasets(t, p).(
      inputRows := t.inputRows[recipe := PatchInputs(t, recipe, inputNames)],
      outputRows := t.outputRows[recipe := p.ids])
  }

  // No other recipe produces any of outs, and recipe produces nothing else.
  ghost predicate Frees(rows: map<Id, seq<Id>>, recipe: Id, outs: seq<Id>) {
    && (forall d :: Lists(rows, recipe, d) ==> d in outs)
    && OthersAvoid(rows, recipe, outs)
  }

  ghost predicate OthersAvoid(rows: map<Id, seq<Id>>, recipe: Id, outs: seq<Id>) {
    forall q, d :: Lists(rows, q, d) && q != recipe ==> d !in outs
  }

  // ---- What provisioning gives ----

  lemma {:induction false} RefusalIsFinal(t: Tables, names: seq<string>, k: nat)
    requires k <= |names| && FirstRefusal(t, names[..k]).Some?
    ensures FirstRefusal(t, names) == FirstRefusal(t, names[..k])
    decreases |names|
  {
    if k == |names| {
      assert names[..k] == names;
    } else {
      assert names[..|names| - 1][..k] == names[..k];
      RefusalIsFinal(t, names[..|names| - 1], k);
    }
  }

  /** Existing names keep their datasets and every other one is new. */
  ghost predicate OnlyAdds(t: Tables, p: Provision) {
    && t.nextId <= p.nextId
    && (forall n :: n in t.names ==> n in p.names && p.names[n] == t.names[n])
    && (forall n :: n in p.names && n !in t.names ==> t.nextId <= p.names[n] < p.nextId)
  }

  lemma {:induction false} ProvisionedAdds(t: Tables, names: seq<string>)
    ensures OnlyAdds(t, Provisioned(t, names)) && |Provisioned(t, names).ids| == |names|
    ensures forall k :: 0 <= k < |names| ==>
      names[k] in Provisioned(t, names).names && Provisioned(t, names).names[names[k]] == Provisioned(t, names).ids[k]
  {
    if names != [] {
      ProvisionedAdds(t, names[..|names| - 1]);
    }
  }

  lemma {:induction false} ProvisionedFree(t: Tables, names: seq<string>)
    requires IdsValid(t) && FirstRefusal(t, names) == None
    ensures forall d :: d in Provisioned(t, names).ids ==>
      d < Provisioned(t, names).nextId && d !in t.archived && !Produced(t.outputRows, d)
  {
    if names != [] {
      var rest, name := names[..|names| - 1], names[|names| - 1];
      var p := Provisioned(t, rest);
      ProvisionedFree(t, rest);
      ProvisionedAdds(t, rest);
      var d := if name in p.names then p.names[name] else p.nextId;
      if name !in t.names {
        NewIdIsFree(t, d);
      }
    }
  }

  lemma NewIdIsFree(t: Tables, d: Id)
    requires IdsValid(t) && t.nextId <= d
    ensures d !in t.archived && !Produced(t.outputRows, d)
  {
    forall q | q in t.outputRows
      ensures !Lists(t.outputRows, q, d)
    {
      assert AllBelow(t.outputRows[q], t.nextId);
    }
  }

  lemma ProvisioningKeepsValid(t: Tables, names: seq<string>)
    requires Valid(t)
    ensures Valid(WithDatasets(t, Provisioned(t, names)))
  {
    ProvisionedAdds(t, names);
    var p := Provisioned(t, names);
    forall r | r in t.outputRows
      ensures AllBelow(t.outputRows[r], p.nextId)
    {
      assert AllBelow(t.outputRows[r], t.nextId);
    }
  }

  lemma RowsBelowAfter(rows: map<Id, seq<Id>>, bound: Id, r: Id, ids: seq<Id>)
    requires RowsBelow(rows, bound) && AllBelow(ids, bound)
    ensures RowsBelow(rows[r := ids], bound)
  {
  }

  lemma InputsOpen(t: Tables, kind: Kind, names: seq<string>)
    requires InputError(t, kind, names) == None
    ensures NoneIn(IdsOf(t, names), t.archived)
  {
    forall k | 0 <= k < |names|
      ensures IdsOf(t, names)[k] !in t.archived
    {
      assert Open(t, names[k]);
    }
  }

  /** Rows that pass the checks keep everything valid. */
  lemma WritingKeepsValid(t: Tables, recipe: Id, kind: Kind, ins: seq<Id>, outs: seq<Id>)
    requires Valid(t) && Frees(t.outputRows, recipe, outs) && WriteError(t, recipe, ins, outs) == None
    requires recipe < t.nextId && AllBelow(outs, t.nextId) && NoneIn(ins, t.archived) && NoneIn(outs, t.archived)
    ensures Valid(Written(t, recipe, kind, ins, outs))
  {
    RowsAfterEdit(t.active, t.inputRows, t.outputRows, recipe, ins, outs);
    RowsBelowAfter(t.outputRows, t.nextId, recipe, outs);
  }

  // The outputs a request provisions are free for its recipe.
  lemma ProvisionedFrees(t: Tables, recipe: Id, names: seq<string>)
    requires IdsValid(t) && FirstRefusal(t, names) == None && forall d :: !Lists(t.outputRows, recipe, d)
    ensures Frees(t.outputRows, recipe, Provisioned(t, names).ids)
    ensures AllBelow(Provisioned(t, names).ids, Provisioned(t, names).nextId)
      && NoneIn(Provisioned(t, names).ids, t.archived)
  {
    ProvisionedFree(t, names);
  }

  // The tables and outputs a create hands to the cycle check.
  lemma ProvisionedReady(t: Tables, recipe: Id, outputNames: seq<string>)
    requires Valid(t) && recipe == Provisioned(t, outputNames).nextId && FirstRefusal(t, outputNames) == None
    ensures Valid(WithDatasets(t, Provisioned(t, outputNames)))
    ensures Frees(t.outputRows, recipe, Provisioned(t, outputNames).ids)
    ensures AllBelow(Provisioned(t, outputNames).ids, recipe) && NoneIn(Provisioned(t, outputNames).ids, t.archived)
  {
    ProvisionedAdds(t, outputNames);
    assert recipe !in t.outputRows;
    ProvisionedFrees(t, recipe, outputNames);
    ProvisioningKeepsValid(t, outputNames);
  }

  /** A create that is not refused keeps the graph valid. */
  lemma CreateKeepsValid(t: Tables, kind: Kind, inputNames: seq<string>, outputNames: seq<string>)
    requires Valid(t) && CreateError(t, kind, inputNames, outputNames) == None
    ensures Valid(Created(t, kind, inputNames, outputNames))
  {
    var p := Provisioned(t, outputNames);
    ProvisionedReady(t, p.nextId, outputNames);
    InputsOpen(t, kind, inputNames);
    OneMoreId(WithDatasets(t, p));
    WritingKeepsValid(WithDatasets(t, p).(nextId := p.nextId + 1), p.nextId, kind, IdsOf(t, inputNames), p.ids);
  }

  lemma OneMoreId(t: Tables)
    requires Valid(t)
    ensures Valid(t.(nextId := t.nextId + 1))
  {
    forall r | r in t.outputRows
      ensures AllBelow(t.outputRows[r], t.nextId + 1)
    {
      assert AllBelow(t.outputRows[r], t.nextId);
    }
  }

  lemma FreeingKeepsValid(t: Tables, recipe: Id, outputNames: Option<seq<string>>)
    requires Valid(t) && recipe in t.active
    ensures Valid(Freed(t, recipe, outputNames))
  {
    RowsAfterClearing(t.active, t.inputRows, t.outputRows, recipe, t.active);
    RowsBelowAfter(t.outputRows, t.nextId, recipe, []);
  }

  lemma PatchInputsOpen(t: Tables, recipe: Id, inputNames: Option<seq<string>>)
    requires Valid(t) && recipe in t.active && PatchInputError(t, recipe, inputNames) == None
    ensures NoneIn(PatchInputs(t, recipe, inputNames), t.archived)
  {
    if inputNames.Some? {
      InputsOpen(t, t.kinds[recipe], inputNames.value);
    }
  }

  // What a rewiring writes is fit to be written.
  lemma PatchReady(t: Tables, recipe: Id, inputNames: Option<seq<string>>, outputNames: Option<seq<string>>)
    requires Valid(t) && recipe in t.active && PatchInputError(t, recipe, inputNames) == None
    requires outputNames.Some? ==>
      OutputError(Freed(t, recipe, outputNames), t.kinds[recipe], outputNames.value) == None
    ensures var p := PatchOutputs(t, recipe, outputNames);
      var ready := WithDatasets(Freed(t, recipe, outputNames), p);
      && Valid(ready) && Frees(ready.outputRows, recipe, p.ids) && AllBelow(p.ids, ready.nextId)
      && NoneIn(p.ids, t.archived) && NoneIn(PatchInputs(t, recipe, inputNames), t.archived) && recipe < ready.nextId
  {
    FreeingKeepsValid(t, recipe, outputNames);
    PatchInputsOpen(t, recipe, inputNames);
    if outputNames.Some? {
      var freed := Freed(t, recipe, outputNames);
      ProvisionedFrees(freed, recipe, outputNames.value);
      ProvisioningKeepsValid(freed, outputNames.value);
      ProvisionedAdds(freed, outputNames.value);
    } else {
      OwnOutputsFree(t.active, t.inputRows, t.outputRows, recipe);
    }
  }

  /** A rewiring that is not refused keeps the graph valid. */
  lemma PatchKeepsValid(t: Tables, recipe: Id, inputNames: Option<seq<string>>, outputNames: Option<seq<string>>)
    requires Valid(t) && PatchError(t, recipe, inputNames, outputNames) == None
    ensures Valid(Patched(t, recipe, inputNames, outputNames))
  {
    var p, ins := PatchOutputs(t, recipe, outputNames), PatchInputs(t, recipe, inputNames);
    if inputNames == None && outputNames == None {
      assert Patched(t, recipe, inputNames, outputNames) == t by {
        assert t.inputRows[recipe := t.inputRows[recipe]] == t.inputRows;
        assert t.outputRows[recipe := t.outputRows[recipe]] == t.outputRows;
      }
    } else {
      var freed := Freed(t, recipe, outputNames);
      PatchReady(t, recipe, inputNames, outputNames);
      WritingKeepsValid(WithDatasets(freed, p), recipe, t.kinds[recipe], ins, p.ids);
      PatchedIsWritten(t, recipe, inputNames, outputNames);
    }
  }

  lemma PatchedIsWritten(t: Tables, recipe: Id, inputNames: Option<seq<string>>, outputNames: Option<seq<string>>)
    requires GraphValid(t) && recipe in t.active && PatchError(t, recipe, inputNames, outputNames) == None
    ensures var p, ins := PatchOutputs(t, recipe, outputNames), PatchInputs(t, recipe, inputNames);
      Written(WithDatasets(Freed(t, recipe, outputNames), p), recipe, t.kinds[recipe], ins, p.ids)
        == Patched(t, recipe, inputNames, outputNames)
  {
    var p := PatchOutputs(t, recipe, outputNames);
    assert t.kinds[recipe := t.kinds[recipe]] == t.kinds && t.active + {recipe} == t.active;
    assert Freed(t, recipe, outputNames).outputRows[recipe := p.ids] == t.outputRows[recipe := p.ids];
  }

  // ---- What an edit leaves of the shapes ----

  lemma StillNamed(t: Tables, p: Provision, ids: seq<Id>)
    requires OnlyAdds(t, p) && AllNamed(t.names, ids)
    ensures AllNamed(p.names, ids)
  {
    forall d | d in ids
      ensures d in p.names.Values
    {
      var n :| n in t.names && t.names[n] == d;
      assert p.names[n] == d;
    }
  }

  lemma ProvisionedNamed(t: Tables, names: seq<string>)
    ensures AllNamed(Provisioned(t, names).names, Provisioned(t, names).ids)
  {
    ProvisionedAdds(t, names);
  }

  lemma IdsNamed(t: Tables, names: seq<string>)
    requires forall n :: n in names ==> n in t.names
    ensures AllNamed(t.names, IdsOf(t, names))
  {
  }

  // Recipes other than the one edited keep their rows.
  lemma OthersKeepShape(t: Tables, p: Provision, t': Tables, recipe: Id)
    requires Shaped(t) && OnlyAdds(t, p) && t'.names == p.names && t'.active <= t.active + {recipe}
    requires GraphValid(t) && t.kinds.Keys <= t'.kinds.Keys && t'.inputRows.Keys == t'.outputRows.Keys == t'.kinds.Keys
    requires forall r :: r in t.kinds && r != recipe ==>
      t'.kinds[r] == t.kinds[r] && t'.inputRows[r] == t.inputRows[r] && t'.outputRows[r] == t.outputRows[r]
    ensures forall r :: r in t'.active && r in t'.kinds && r != recipe ==> ShapeOk(t', r)
  {
    forall r | r in t'.active && r in t'.kinds && r != recipe
      ensures ShapeOk(t', r)
    {
      assert ShapeOk(t, r);
      StillNamed(t, p, t.inputRows[r]);
      StillNamed(t, p, t.outputRows[r]);
    }
  }

  lemma CreatedShape(t: Tables, kind: Kind, inputNames: seq<string>, outputNames: seq<string>)
    requires InputError(t, kind, inputNames) == None && OutputError(t, kind, outputNames) == None
    ensures OnlyAdds(t, Provisioned(t, outputNames))
    ensures ShapeOk(Created(t, kind, inputNames, outputNames), Provisioned(t, outputNames).nextId)
  {
    ProvisionedAdds(t, outputNames);
    ProvisionedNamed(t, outputNames);
    IdsNamed(t, inputNames);
    StillNamed(t, Provisioned(t, outputNames), IdsOf(t, inputNames));
  }

  /** A create keeps every recipe of its kind's shape, over registered datasets. */
  lemma CreateKeepsShaped(t: Tables, kind: Kind, inputNames: seq<string>, outputNames: seq<string>)
    requires Valid(t) && Shaped(t) && CreateError(t, kind, inputNames, outputNames) == None
    ensures Shaped(Created(t, kind, inputNames, outputNames))
  {
    var p := Provisioned(t, outputNames);
    CreatedShape(t, kind, inputNames, outputNames);
    OthersKeepShape(t, p, Created(t, kind, inputNames, outputNames), p.nextId);
  }

  // Refused or not.
  lemma CreateKeepsAll(t: Tables, kind: Kind, inputNames: seq<string>, outputNames: seq<string>, t': Tables)
    requires Valid(t)
    requires CreateError(t, kind, inputNames, outputNames).Some? ==> t' == t
    requires CreateError(t, kind, inputNames, outputNames) == None ==> t' == Created(t, kind, inputNames, outputNames)
    ensures Valid(t') && (Shaped(t) ==> Shaped(t'))
  {
    if CreateError(t, kind, inputNames, outputNames) == None {
      CreateKeepsValid(t, kind, inputNames, outputNames);
      if Shaped(t) {
        CreateKeepsShaped(t, kind, inputNames, outputNames);
      }
    }
  }

  lemma PatchedShape(t: Tables, recipe: Id, inputNames: Option<seq<string>>, outputNames: Option<seq<string>>)
    requires GraphValid(t) && recipe in t.active && ShapeOk(t, recipe)
    requires PatchError(t, recipe, inputNames, outputNames) == None
    ensures OnlyAdds(t, PatchOutputs(t, recipe, outputNames))
    ensures ShapeOk(Patched(t, recipe, inputNames, outputNames), recipe)
  {
    if outputNames.Some? {
      ProvisionedAdds(Freed(t, recipe, outputNames), outputNames.value);
      ProvisionedNamed(Freed(t, recipe, outputNames), outputNames.value);
    }
    if inputNames.Some? {
      IdsNamed(t, inputNames.value);
    }
    StillNamed(t, PatchOutputs(t, recipe, outputNames), PatchInputs(t, recipe, inputNames));
  }

  /** And so does a rewiring. */
  lemma PatchKeepsShaped(t: Tables, recipe: Id, inputNames: Option<seq<string>>, outputNames: Option<seq<string>>)
    requires Valid(t) && Shaped(t) && PatchError(t, recipe, inputNames, outputNames) == None
    ensures Shaped(Patched(t, recipe, inputNames, outputNames))
  {
    assert ShapeOk(t, recipe);
    PatchedShape(t, recipe, inputNames, outputNames);
    OthersKeepShape(t, PatchOutputs(t, recipe, outputNames), Patched(t, recipe, inputNames, outputNames), recipe);
  }

  lemma PatchKeepsAll(t: Tables, recipe: Id, inputNames: Option<seq<string>>, outputNames: Option<seq<string>>,
      t': Tables)
    requires Valid(t)
    requires PatchError(t, recipe, inputNames, outputNames).Some? ==> t' == t
    requires PatchError(t, recipe, inputNames, outputNames) == None ==>
      t' == Patched(t, recipe, inputNames, outputNames)
    ensures Valid(t') && (Shaped(t) ==> Shaped(t'))
  {
    if PatchError(t, recipe, inputNames, outputNames) == None {
      PatchKeepsValid(t, recipe, inputNames, outputNames);
      if Shaped(t) {
        PatchKeepsShaped(t, recipe, inputNames, outputNames);
      }
    }
  }

  lemma OthersShaped(t: Tables, t': Tables)
    requires Shaped(t) && t' == t.(archived := t'.archived)
    ensures Shaped(t')
  {
    forall r | r in t.active && r in t.kinds && r in t.inputRows && r in t.outputRows
      ensures ShapeOk(t', r)
    {
      assert ShapeOk(t, r);
    }
  }

  lemma RegisterKeepsShaped(t: Tables, name: string)
    requires Valid(t) && Shaped(t) && name !in t.names
    ensures Shaped(t.(names := t.names[name := t.nextId], nextId := t.nextId + 1))
  {
    var p := Provision(t.names[name := t.nextId], t.nextId + 1, []);
    OthersKeepShape(t, p, WithDatasets(t, p), t.nextId);
  }

  lemma {:induction false} ArchivingKeepsShaped(t: Tables, recipe: Id)
    requires Valid(t) && Shaped(t) && recipe in t.active
    ensures Shaped(t.(active := t.active - {recipe}, outputRows := t.outputRows[recipe := []]))
  {
    var p := Provision(t.names, t.nextId, []);
    OthersKeepShape(t, p, t.(active := t.active - {recipe}, outputRows := t.outputRows[recipe := []]), recipe);
  }

  /** The tables the recipe and dataset routers write. A method that returns an error has
      rolled the request back. */
  class RecipeStore {
    var names: map<string, Id>
    var archived: set<Id>
    var kinds: map<Id, Kind>
    var active: set<Id>
    var inputRows: map<Id, seq<Id>>
    var outputRows: map<Id, seq<Id>>
    var nextId: Id

    ghost function State(): Tables
      reads this
    {
      Tables(names, archived, kinds, active, inputRows, outputRows, nextId)
    }

    constructor ()
      ensures Valid(State()) && Shaped(State()) && active == {} && names == map[]
    {
      names, archived, kinds, active := map[], {}, map[], {};
      inputRows, outputRows, nextId := map[], map[], 0;
      new;
      NoRowsAcyclic();
    }

    /** create_dataset, as far as the graph goes: a source under a name nobody has had. */
    method RegisterDataset(name: string) returns (r: Result<Id, EditError>)
      requires Valid(State())
      modifies this`names, this`nextId
      ensures Valid(State()) && (old(Shaped(State())) ==> Shaped(State()))
      ensures name in old(names) ==> r == Err(NameInUse) && State() == old(State())
      ensures name !in old(names) ==>
        r == Ok(old(nextId))
          && State() == old(State()).(names := old(names)[name := old(nextId)], nextId := old(nextId) + 1)
    {
      if name in names {
        return Err(NameInUse);
      }
      OneMoreId(State());
      if Shaped(State()) {
        RegisterKeepsShaped(State(), name);
      }
      names, nextId := names[name := nextId], nextId + 1;
      return Ok(nextId - 1);
    }

    /** archive_dataset: refused exactly while an active recipe reads or writes the dataset. */
    method ArchiveDataset(name: string) returns (r: Result<(), EditError>)
      requires Valid(State())
      modifies this`archived
      ensures Valid(State()) && (old(Shaped(State())) ==> Shaped(State()))
      ensures !Open(old(State()), name) ==> r == Err(DatasetNotFound)
      ensures Open(old(State()), name) ==> (r == Err(DatasetInUse) <==> InUse(old(State()), names[name]))
      ensures r.Err? ==> r.error == DatasetNotFound || r.error == DatasetInUse
      ensures State() == old(State()).(archived := if r.Ok? then old(archived) + {names[name]} else old(archived))
    {
      if name !in names || names[name] in archived {
        return Err(DatasetNotFound);
      }
      if exists q :: q in active && (names[name] in inputRows[q] || Lists(outputRows, q, names[name])) {
        return Err(DatasetInUse);
      }
      ArchivingKeepsValid(State(), names[name]);
      assert Shaped(State()) ==> Shaped(State().(archived := archived + {names[name]})) by {
        if Shaped(State()) {
          OthersShaped(State(), State().(archived := archived + {names[name]}));
        }
      }
      archived := archived + {names[name]};
      return Ok(());
    }

    /** load_graph: the active recipes' rows, with each output pointing at its producer. */
    method LoadGraph() returns (g: RecipeGraph)
      requires GraphValid(State())
      ensures IsGraphOf(g, active, inputRows, outputRows)
      ensures SingleProducer(g) && AcyclicGraph(g)
    {
      var producer: map<Id, Id> := map[];
      var todo := active;
      while todo != {}
        invariant todo <= active
        invariant forall d :: d in producer ==> Produces(active, outputRows, producer[d], d)
        invariant forall r, d :: Produces(active, outputRows, r, d) && r !in todo ==> d in producer && producer[d] == r
        decreases todo
      {
        var r :| r in todo;
        todo := todo - {r};
        var k := 0;
        while k < |outputRows[r]|
          invariant 0 <= k <= |outputRows[r]|
          invariant forall d :: d in producer ==> Produces(active, outputRows, producer[d], d)
          invariant forall q, d :: Produces(active, outputRows, q, d) && q !in todo && q != r ==>
            d in producer && producer[d] == q
          invariant forall j :: 0 <= j < k ==> outputRows[r][j] in producer && producer[outputRows[r][j]] == r
        {
          producer := producer[outputRows[r][k] := r];
          k := k + 1;
        }
      }
      g := RecipeGraph(producer, map r | r in active :: inputRows[r], map r | r in active :: outputRows[r]);
      LoadedGraphSound(g, active, inputRows, outputRows);
    }

    /** provision_outputs: one dataset per name, created, or adopted when nothing produces
        it. The first name that cannot be an output is the error; datasets created before it
        stay for the caller to roll back. */
    method ProvisionOutputs(kind: Kind, outputNames: seq<string>) returns (r: Result<seq<Id>, EditError>)
      requires IdsValid(State())
      modifies this`names, this`nextId
      ensures match OutputError(old(State()), kind, outputNames)
        case Some(e) => r == Err(e)
        case None =>
          var p := Provisioned(old(State()), outputNames);
          r == Ok(p.ids) && State() == WithDatasets(old(State()), p)
    {
      if |outputNames| != OutputArity(kind) {
        return Err(WrongOutputCount);
      }
      ghost var t := State();
      var datasets: seq<Id> := [];
      var k := 0;
      while k < |outputNames|
        invariant 0 <= k <= |outputNames| && FirstRefusal(t, outputNames[..k]) == None
        invariant Provisioned(t, outputNames[..k]) == Provision(names, nextId, datasets)
      {
        ghost var upto := outputNames[..k + 1];
        assert upto[..k] == outputNames[..k];
        ProvisionedAdds(t, outputNames[..k]);
        var name := outputNames[k];
        if name in names {
          var existing := names[name];
          if name !in t.names {
            NewIdIsFree(t, existing);
          }
          if existing in archived {
            RefusalIsFinal(t, outputNames, k + 1);
            return Err(NameArchived);
          }
          if Produced(outputRows, existing) {
            RefusalIsFinal(t, outputNames, k + 1);
            return Err(AlreadyProduced);
          }
          datasets := datasets + [existing];
        } else {
          names, datasets, nextId := names[name := nextId], datasets + [nextId], nextId + 1;
        }
        k := k + 1;
      }
      assert outputNames[..k] == outputNames;
      r := Ok(datasets);
    }

    /** _resolve_inputs: active datasets in the order requested. */
    method ResolveInputs(inputNames: seq<string>) returns (r: Result<seq<Id>, EditError>)
      ensures r.Ok? <==> forall n :: n in inputNames ==> Open(State(), n)
      ensures r == if r.Ok? then Ok(IdsOf(State(), inputNames)) else Err(DatasetNotFound)
    {
      var ids: seq<Id> := [];
      while |ids| < |inputNames|
        invariant |ids| <= |inputNames|
        invariant forall k :: 0 <= k < |ids| ==> Open(State(), inputNames[k]) && ids[k] == names[inputNames[k]]
      {
        var name := inputNames[|ids|];
        if name !in names || names[name] in archived {
          assert name in inputNames;
          return Err(DatasetNotFound);
        }
        ids := ids + [names[name]];
      }
      assert ids == IdsOf(State(), inputNames);
      r := Ok(ids);
    }

    /** Load the graph and ask whether the candidate closes a cycle. */
    method CheckCycle(recipe: Id, ins: seq<Id>, outs: seq<Id>) returns (cycle: bool)
      requires GraphValid(State()) && Frees(outputRows, recipe, outs)
      ensures cycle <==> !AcyclicRows(active + {recipe}, inputRows[recipe := ins], outputRows[recipe := outs])
    {
      var graph := LoadGraph();
      PremiseFromRows(graph, active, inputRows, outputRows, recipe, outs);
      cycle := WouldCreateCycle(graph, recipe, ins, outs);
      if !cycle {
        EditKeepsAcyclic(graph, active, inputRows, outputRows, recipe, ins, outs);
      } else if AcyclicRows(active + {recipe}, inputRows[recipe := ins], outputRows[recipe := outs]) {
        AcyclicEditPasses(graph, active, inputRows, outputRows, recipe, ins, outs);
      }
    }

    /** The shared tail of create and patch: check the cycle, then write the rows. */
    method CheckAndWrite(recipe: Id, kind: Kind, ins: seq<Id>, outs: seq<Id>) returns (e: Option<EditError>)
      requires GraphValid(State()) && Frees(outputRows, recipe, outs)
      modifies this`kinds, this`active, this`inputRows, this`outputRows
      ensures e == WriteError(old(State()), recipe, ins, outs)
      ensures State() == if e == None then Written(old(State()), recipe, kind, ins, outs) else old(State())
    {
      var cycle := CheckCycle(recipe, ins, outs);
      if cycle {
        return Some(WouldCycle);
      }
      if !Distinct(ins) || !Distinct(outs) {
        return Some(AlreadyProduced);
      }
      kinds, active := kinds[recipe := kind], active + {recipe};
      inputRows, outputRows := inputRows[recipe := ins], outputRows[recipe := outs];
      return None;
    }

    /** create_recipe: refused for exactly the first reason that applies, and then nothing
        has changed; otherwise exactly the new recipe's rows and its new datasets are
        written, and the graph stays single-producer and acyclic. */
    method CreateRecipe(kind: Kind, inputNames: seq<string>, outputNames: seq<string>)
      returns (r: Result<Id, EditError>)
      requires Valid(State())
      modifies this`names, this`nextId, this`kinds, this`active, this`inputRows, this`outputRows
      ensures Valid(State()) && (old(Shaped(State())) ==> Shaped(State()))
      ensures match CreateError(old(State()), kind, inputNames, outputNames)
        case Some(e) => r == Err(e) && State() == old(State())
        case None => r == Ok(nextId - 1) && State() == Created(old(State()), kind, inputNames, outputNames)
    {
      var ins := ResolveInputs(inputNames);
      if ins.Err? {
        return Err(ins.error);
      }
      if !InputArityOk(kind, |ins.value|) {
        return Err(WrongInputCount);
      }
      r := CreateWired(kind, inputNames, ins.value, outputNames);
      CreateKeepsAll(old(State()), kind, inputNames, outputNames, State());
    }

    // On a refusal every table is put back.
    method CreateWired(kind: Kind, ghost inputNames: seq<string>, ins: seq<Id>, outputNames: seq<string>)
      returns (r: Result<Id, EditError>)
      requires Valid(State()) && InputError(State(), kind, inputNames) == None && ins == IdsOf(State(), inputNames)
      modifies this`names, this`nextId, this`kinds, this`active, this`inputRows, this`outputRows
      ensures match CreateError(old(State()), kind, inputNames, outputNames)
        case Some(e) => r == Err(e) && State() == old(State())
        case None => r == Ok(nextId - 1) && State() == Created(old(State()), kind, inputNames, outputNames)
    {
      var names0, nextId0, kinds0 := names, nextId, kinds;
      var active0, inputRows0, outputRows0 := active, inputRows, outputRows;
      var refused := ProvisionAndWrite(kind, inputNames, ins, outputNames);
      if refused.Some? {
        names, nextId, kinds := names0, nextId0, kinds0;
        active, inputRows, outputRows := active0, inputRows0, outputRows0;
        return Err(refused.value);
      }
      return Ok(nextId - 1);
    }

    /** create_recipe from its first write up to its commit. */
    method ProvisionAndWrite(kind: Kind, ghost inputNames: seq<string>, ins: seq<Id>, outputNames: seq<string>)
      returns (refused: Option<EditError>)
      requires Valid(State()) && InputError(State(), kind, inputNames) == None && ins == IdsOf(State(), inputNames)
      modifies this`names, this`nextId, this`kinds, this`active, this`inputRows, this`outputRows
      ensures refused == CreateError(old(State()), kind, inputNames, outputNames)
      ensures refused == None ==> nextId > 0 && State() == Created(old(State()), kind, inputNames, outputNames)
      ensures archived == old(archived)
    {
      var outs := ProvisionOutputs(kind, outputNames);
      if outs.Err? {
        return Some(outs.error);
      }
      var recipe := nextId;
      ProvisionedReady(old(State()), recipe, outputNames);
      nextId := nextId + 1;
      refused := CheckAndWrite(recipe, kind, ins, outs.value);
    }

    /** patch_recipe, the rewiring part: `None` keeps what the recipe has. */
    method PatchRecipe(recipe: Id, inputNames: Option<seq<string>>, outputNames: Option<seq<string>>)
      returns (r: Result<(), EditError>)
      requires Valid(State())
      modifies this`names, this`nextId, this`kinds, this`active, this`inputRows, this`outputRows
      ensures Valid(State()) && (old(Shaped(State())) ==> Shaped(State()))
      ensures match PatchError(old(State()), recipe, inputNames, outputNames)
        case Some(e) => r == Err(e) && State() == old(State())
        case None => r == Ok(()) && State() == Patched(old(State()), recipe, inputNames, outputNames)
    {
      if recipe !in active {
        return Err(RecipeNotFound);
      }
      if inputNames == None && outputNames == None {
        assert inputRows[recipe := inputRows[recipe]] == inputRows
          && outputRows[recipe := outputRows[recipe]] == outputRows;
        return Ok(());
      }
      var ins := NewInputs(recipe, inputNames);
      if ins.Err? {
        return Err(ins.error);
      }
      r := PatchWired(recipe, inputNames, ins.value, outputNames);
      PatchKeepsAll(old(State()), recipe, inputNames, outputNames, State());
    }

    // On a refusal every table is put back.
    method PatchWired(recipe: Id, ghost inputNames: Option<seq<string>>, ins: seq<Id>, outputNames: Option<seq<string>>)
      returns (r: Result<(), EditError>)
      requires Valid(State()) && recipe in active && (inputNames.Some? || outputNames.Some?)
      requires PatchInputError(State(), recipe, inputNames) == None && ins == PatchInputs(State(), recipe, inputNames)
      modifies this`names, this`nextId, this`kinds, this`active, this`inputRows, this`outputRows
      ensures match PatchError(old(State()), recipe, inputNames, outputNames)
        case Some(e) => r == Err(e) && State() == old(State())
        case None => r == Ok(()) && State() == Patched(old(State()), recipe, inputNames, outputNames)
    {
      var names0, nextId0, kinds0 := names, nextId, kinds;
      var active0, inputRows0, outputRows0 := active, inputRows, outputRows;
      var refused := Rewire(recipe, inputNames, ins, outputNames);
      if refused.Some? {
        names, nextId, kinds := names0, nextId0, kinds0;
        active, inputRows, outputRows := active0, inputRows0, outputRows0;
        return Err(refused.value);
      }
      return Ok(());
    }

    method NewInputs(recipe: Id, inputNames: Option<seq<string>>) returns (r: Result<seq<Id>, EditError>)
      requires GraphValid(State()) && recipe in active
      ensures match PatchInputError(State(), recipe, inputNames)
        case Some(e) => r == Err(e)
        case None => r == Ok(PatchInputs(State(), recipe, inputNames))
    {
      r := Ok(inputRows[recipe]);
      if inputNames.Some? {
        r := ResolveInputs(inputNames.value);
      }
      if r.Ok? && !InputArityOk(kinds[recipe], |r.value|) {
        r := Err(WrongInputCount);
      }
    }

    /** patch_recipe from its first write up to its commit; on a refusal the caller rolls
        back. */
    method Rewire(recipe: Id, ghost inputNames: Option<seq<string>>, ins: seq<Id>, outputNames: Option<seq<string>>)
      returns (refused: Option<EditError>)
      requires Valid(State()) && recipe in active && (inputNames.Some? || outputNames.Some?)
      requires PatchInputError(State(), recipe, inputNames) == None && ins == PatchInputs(State(), recipe, inputNames)
      modifies this`names, this`nextId, this`kinds, this`active, this`inputRows, this`outputRows
      ensures refused == PatchError(old(State()), recipe, inputNames, outputNames)
      ensures refused == None ==> State() == Patched(old(State()), recipe, inputNames, outputNames)
    {
      ghost var t := State();
      var outs := NewOutputs(recipe, outputNames);
      if outs.Err? {
        return Some(outs.error);
      }
      PatchReady(t, recipe, inputNames, outputNames);
      refused := CheckAndWrite(recipe, kinds[recipe], ins, outs.value);
      if refused == None {
        PatchedIsWritten(t, recipe, inputNames, outputNames);
      }
    }

    // Given output names, free the recipe's own outputs first, so it can adopt them again.
    method NewOutputs(recipe: Id, outputNames: Option<seq<string>>) returns (r: Result<seq<Id>, EditError>)
      requires Valid(State()) && recipe in active
      modifies this`names, this`nextId, this`outputRows
      ensures r.Ok? ==> var p := PatchOutputs(old(State()), recipe, outputNames);
        r.value == p.ids && State() == WithDatasets(Freed(old(State()), recipe, outputNames), p)
      ensures outputNames == None ==> r.Ok?
      ensures outputNames.Some? ==>
        var e := OutputError(Freed(old(State()), recipe, outputNames), kinds[recipe], outputNames.value);
        if e.Some? then r == Err(e.value) else r.Ok?
    {
      if outputNames == None {
        return Ok(outputRows[recipe]);
      }
      FreeingKeepsValid(State(), recipe, outputNames);
      outputRows := outputRows[recipe := []];
      r := ProvisionOutputs(kinds[recipe], outputNames.value);
    }

    /** archive_recipe: the outputs become producer-less, the input rows stay. */
    method ArchiveRecipe(recipe: Id) returns (r: Result<(), EditError>)
      requires Valid(State())
      modifies this`active, this`outputRows
      ensures Valid(State()) && (old(Shaped(State())) ==> Shaped(State()))
      ensures r == if recipe in old(active) then Ok(()) else Err(RecipeNotFound)
      ensures State() == if r.Ok?
        then old(State()).(active := old(active) - {recipe}, outputRows := old(outputRows)[recipe := []])
          else old(State())
    {
      if recipe !in active {
        return Err(RecipeNotFound);
      }
      RowsAfterClearing(active, inputRows, outputRows, recipe, active - {recipe});
      RowsBelowAfter(outputRows, nextId, recipe, []);
      if Shaped(State()) {
        ArchivingKeepsShaped(State(), recipe);
      }
      active := active - {recipe};
      outputRows := outputRows[recipe := []];
      r := Ok(());
    }
  }

  ghost predicate InUse(t: Tables, d: Id) {
    exists q :: q in t.active && q in t.inputRows && (d in t.inputRows[q] || Lists(t.outputRows, q, d))
  }

  lemma ArchivingKeepsValid(t: Tables, d: Id)
    requires Valid(t) && !InUse(t, d) && d < t.nextId
    ensures Valid(t.(archived := t.archived + {d}))
  {
    forall r | r in t.active
      ensures NoneIn(t.inputRows[r], t.archived + {d}) && NoneIn(t.outputRows[r], t.archived + {d})
    {
      assert d in t.outputRows[r] ==> Lists(t.outputRows, r, d);
    }
  }
}
