/** The event log and one subscriber of it: publishers under a lock, batches behind a
    cursor, reconnects, pruning (events.py, routers/events.py). */
module EventStream {
  import opened Wrappers
  import Keyset

  const BATCH: nat := 500

  type Txn = nat

  datatype Event = Event(seqNo: nat, topic: string, projectId: Option<nat>, userId: Option<nat>, ts: int)

  const SeqOf: Event -> nat := (e: Event) => e.seqNo

  // ---- Who sees what ----

  /** A subscriber: who it is, the topics it asked for, and its projects. */
  datatype Viewer = Viewer(user: nat, siteAdmin: bool, projects: set<nat>, topics: Option<set<string>>)

  predicate Visible(v: Viewer, e: Event) {
    if e.userId.Some? then e.userId.value == v.user
    else if e.projectId.Some? then v.siteAdmin || e.projectId.value in v.projects
    else true
  }

  predicate Wants(v: Viewer, e: Event) {
    (v.topics.Some? ==> e.topic in v.topics.value) && Visible(v, e)
  }

  /** The events of a stretch of the log the viewer is to receive, in order. */
  function Wanted(v: Viewer, events: seq<Event>): seq<Event> {
    if events == [] then []
    else Wanted(v, events[..|events| - 1]) + if Wants(v, events[|events| - 1]) then [events[|events| - 1]] else []
  }

  lemma {:induction false} WantedOfBoth(v: Viewer, a: seq<Event>, b: seq<Event>)
    ensures Wanted(v, a + b) == Wanted(v, a) + Wanted(v, b)
  {
    if b == [] {
      assert a + b == a;
    } else {
      assert (a + b)[..|a + b| - 1] == a + b[..|b| - 1];
      WantedOfBoth(v, a, b[..|b| - 1]);
    }
  }

  /** Exactly once, in order, nothing else: a received event sits once in the wanted list
      for each time it is in the log, and only if it is wanted. */
  lemma {:induction false} WantedIsExact(v: Viewer, events: seq<Event>, e: Event)
    ensures multiset(Wanted(v, events))[e] == if Wants(v, e) then multiset(events)[e] else 0
  {
    if events != [] {
      var rest := events[..|events| - 1];
      assert events == rest + [events[|events| - 1]];
      WantedIsExact(v, rest, e);
    }
  }

  // ---- One wake-up: drain the log in batches ----

  // Rows n0 up to n have been read, and what was wanted of them sent.
  ghost predicate Drained(table: seq<Event>, v: Viewer, cursor0: nat, n0: nat, n: nat, cursor: nat, sent: seq<Event>) {
    && n0 <= n <= |table| && Keyset.Upto(table, SeqOf, cursor, n)
    && sent == Wanted(v, table[n0..n])
    && cursor == if n == n0 then cursor0 else table[n - 1].seqNo
  }

  lemma DrainedNext(table: seq<Event>, v: Viewer, cursor0: nat, n0: nat, n: nat, cursor: nat, sent: seq<Event>)
    requires Keyset.InOrder(table, SeqOf) && Drained(table, v, cursor0, n0, n, cursor, sent) && n < |table|
    ensures var sent' := if Wants(v, table[n]) then sent + [table[n]] else sent;
            Drained(table, v, cursor0, n0, n + 1, table[n].seqNo, sent')
  {
    assert SeqOf(table[n]) == table[n].seqNo;
    assert table[n0..n + 1] == table[n0..n] + [table[n]];
    WantedOfBoth(v, table[n0..n], [table[n]]);
    assert [table[n]][..0] == [];
  }

  lemma DrainedAll(table: seq<Event>, v: Viewer, cursor0: nat, n0: nat, cursor: nat, sent: seq<Event>)
    requires Drained(table, v, cursor0, n0, |table|, cursor, sent)
    ensures sent == Wanted(v, table[n0..]) && cursor == if n0 == |table| then cursor0 else table[|table| - 1].seqNo
  {
    assert table[n0..|table|] == table[n0..];
  }

  // One batch: the cursor moves past every event, sent or not.
  method SendBatch(ghost table: seq<Event>, v: Viewer, ghost cursor0: nat, ghost n0: nat, ghost n: nat, cursor: nat,
      sent: seq<Event>, batch: seq<Event>)
    returns (cursor': nat, sent': seq<Event>)
    requires Keyset.InOrder(table, SeqOf) && Drained(table, v, cursor0, n0, n, cursor, sent)
      && batch == Keyset.Limit(table[n..], BATCH)
    ensures Drained(table, v, cursor0, n0, n + |batch|, cursor', sent')
  {
    cursor', sent' := cursor, sent;
    var i := 0;
    while i < |batch|
      invariant 0 <= i <= |batch|
      invariant Drained(table, v, cursor0, n0, n + i, cursor', sent')
    {
      assert batch[i] == table[n + i];
      DrainedNext(table, v, cursor0, n0, n + i, cursor', sent');
      cursor' := batch[i].seqNo;
      if Wants(v, batch[i]) {
        sent' := sent' + [batch[i]];
      }
      i := i + 1;
    }
  }

  method FetchOne(table: seq<Event>, cursor: nat, ghost n: nat, limit: nat) returns (batch: seq<Event>)
    requires Keyset.Upto(table, SeqOf, cursor, n)
    ensures batch == Keyset.Limit(table[n..], limit)
  {
    Keyset.FetchContinues(table, SeqOf, cursor, n, limit);
    batch := Keyset.Fetch(table, SeqOf, cursor, limit);
  }

  /** From a cursor, send what is wanted of everything after it, and leave the cursor at the
      last event read, wanted or not. */
  method Drain(table: seq<Event>, v: Viewer, cursor0: nat, ghost n0: nat) returns (sent: seq<Event>, cursor: nat)
    requires Keyset.InOrder(table, SeqOf) && Keyset.Upto(table, SeqOf, cursor0, n0)
    ensures sent == Wanted(v, table[n0..])
    ensures cursor == if n0 == |table| then cursor0 else table[|table| - 1].seqNo
  {
    cursor, sent := cursor0, [];
    ghost var n := n0;
    assert table[n0..n0] == [];
    while true
      invariant Drained(table, v, cursor0, n0, n, cursor, sent)
      decreases |table| - n
    {
      var batch := FetchOne(table, cursor, n, BATCH);
      cursor, sent := SendBatch(table, v, cursor0, n0, n, cursor, sent, batch);
      n := n + |batch|;
      if |batch| < BATCH {
        DrainedAll(table, v, cursor0, n0, cursor, sent);
        return;
      }
    }
  }

  // ---- The whole system, over any run ----

  /** `Online` has read `batch` from the table and not yet sent it. */
  datatype Link = Offline | Online(cursor: nat, batch: seq<Event>)

  /** `ever` is every event committed so far, pruned or not; `gone` the pruned numbers. The
      client remembers the last id it received; `received` is what it got since it last
      started from a head. */
  datatype State = State(
    lock: Option<Txn>,
    nextSeq: nat,
    own: map<Txn, seq<Event>>,
    ever: seq<Event>,
    gone: set<nat>,
    link: Link,
    lastId: Option<nat>,
    received: seq<Event>)

  datatype Action =
    | Acquire(t: Txn)
    | Publish(t: Txn, e: Event)
    | Commit(t: Txn)
    | Abort(t: Txn)
    | Prune(cutoff: int)
    | Connect
    | FetchBatch
    | Send
    | Drop

  function Own(s: State, t: Txn): seq<Event> {
    if t in s.own then s.own[t] else []
  }

  function Retained(ever: seq<Event>, gone: set<nat>): seq<Event> {
    if ever == [] then []
    else
      var e := ever[|ever| - 1];
      Retained(ever[..|ever| - 1], gone) + if e.seqNo in gone then [] else [e]
  }

  function Table(s: State): seq<Event> {
    Retained(s.ever, s.gone)
  }

  function Head(table: seq<Event>): nat {
    if table == [] then 0 else table[|table| - 1].seqNo
  }

  /** The client's last id predates what is retained. */
  predicate Resets(table: seq<Event>, lastId: nat) {
    table != [] && lastId + 1 < table[0].seqNo
  }

  predicate Enabled(s: State, a: Action) {
    match a
    case Acquire(t) => s.lock == None || s.lock == Some(t)
    case Publish(t, _) => s.lock == Some(t)
    case Commit(_) => true
    case Abort(_) => true
    case Prune(_) => true
    case Connect => s.link == Offline
    case FetchBatch => s.link.Online? && s.link.batch == []
    case Send => s.link.Online? && s.link.batch != []
    case Drop => s.link.Online?
  }

  function Freed(s: State, t: Txn): Option<Txn> {
    if s.lock == Some(t) then None else s.lock
  }

  function Doomed(events: seq<Event>, cutoff: int): set<nat> {
    set i | 0 <= i < |events| && events[i].ts < cutoff :: events[i].seqNo
  }

  function Apply(v: Viewer, s: State, a: Action): State
    requires Enabled(s, a)
  {
    match a
    case Acquire(t) => s.(lock := Some(t))
    case Publish(t, e) => s.(own := s.own[t := Own(s, t) + [e.(seqNo := s.nextSeq)]], nextSeq := s.nextSeq + 1)
    case Commit(t) => s.(lock := Freed(s, t), ever := s.ever + Own(s, t), own := s.own - {t})
    case Abort(t) => s.(lock := Freed(s, t), own := s.own - {t})
    case Prune(cutoff) => s.(gone := s.gone + Doomed(s.ever, cutoff))
    case Connect =>
      var table := Table(s);
      if s.lastId == None then s.(link := Online(Head(table), []), received := [])
      else if Resets(table, s.lastId.value)
        then s.(link := Online(Head(table), []), lastId := Some(Head(table)), received := [])
      else s.(link := Online(s.lastId.value, []))
    case FetchBatch => s.(link := Online(s.link.cursor, Keyset.Fetch(Table(s), SeqOf, s.link.cursor, BATCH)))
    case Send =>
      var e := s.link.batch[0];
      var moved := s.(link := Online(e.seqNo, s.link.batch[1..]));
      if Wants(v, e) then moved.(received := s.received + [e], lastId := Some(e.seqNo)) else moved
    case Drop => s.(link := Offline)
  }

  ghost predicate Legal(v: Viewer, s: State, run: seq<Action>)
    decreases |run|
  {
    run == [] || (Enabled(s, run[0]) && Legal(v, Apply(v, s, run[0]), run[1..]))
  }

  ghost function Final(v: Viewer, s: State, run: seq<Action>): State
    requires Legal(v, s, run)
    decreases |run|
  {
    if run == [] then s else Final(v, Apply(v, s, run[0]), run[1..])
  }

  // ---- The log: numbers are committed in order ----

  ghost predicate Above(low: nat, rows: seq<Event>, high: nat) {
    Keyset.InOrder(rows, SeqOf) && forall i :: 0 <= i < |rows| ==> low < rows[i].seqNo < high
  }

  /** Rows still uncommitted are numbered above everything committed: no cursor at a
      committed event can pass one that commits later. */
  ghost predicate LogOk(s: State) {
    && Above(0, s.ever, s.nextSeq) && Head(s.ever) < s.nextSeq
    && (forall t :: t in s.own ==> s.lock == Some(t))
    && (forall t :: t in s.own ==> Above(Head(s.ever), s.own[t], s.nextSeq))
  }

  lemma HeadIsLast(events: seq<Event>)
    requires Keyset.InOrder(events, SeqOf)
    ensures forall i :: 0 <= i < |events| ==> events[i].seqNo <= Head(events)
  {
    assert forall i :: 0 <= i < |events| ==> SeqOf(events[i]) == events[i].seqNo;
  }

  lemma AboveJoin(low: nat, a: seq<Event>, b: seq<Event>, high: nat)
    requires Above(low, a, high) && Above(Head(a), b, high) && Above(low, b, high)
    ensures Above(low, a + b, high)
  {
    HeadIsLast(a);
    assert forall e: Event :: SeqOf(e) == e.seqNo;
  }

  lemma AboveMore(low: nat, rows: seq<Event>, e: Event)
    requires Above(low, rows, e.seqNo) && low < e.seqNo
    ensures Above(low, rows + [e], e.seqNo + 1)
  {
    assert forall x: Event :: SeqOf(x) == x.seqNo;
  }

  lemma PublishKeepsLog(v: Viewer, s: State, a: Action)
    requires LogOk(s) && Enabled(s, a) && a.Publish?
    ensures LogOk(Apply(v, s, a))
  {
    AboveMore(Head(s.ever), Own(s, a.t), a.e.(seqNo := s.nextSeq));
  }

  lemma CommitKeepsLog(v: Viewer, s: State, a: Action)
    requires LogOk(s) && Enabled(s, a) && a.Commit?
    ensures LogOk(Apply(v, s, a))
  {
    AboveJoin(0, s.ever, Own(s, a.t), s.nextSeq);
    assert Own(s, a.t) == [] ==> s.ever + Own(s, a.t) == s.ever;
  }

  lemma StepKeepsLog(v: Viewer, s: State, a: Action)
    requires LogOk(s) && Enabled(s, a)
    ensures LogOk(Apply(v, s, a))
  {
    if a.Publish? {
      PublishKeepsLog(v, s, a);
    } else if a.Commit? {
      CommitKeepsLog(v, s, a);
    }
  }

  // ---- Pruning ----

  /** What was pruned is a prefix of the log, and not all of it. */
  ghost predicate PrunedPrefix(s: State) {
    && (forall i, j :: 0 <= i < j < |s.ever| && s.ever[j].seqNo in s.gone ==> s.ever[i].seqNo in s.gone)
    && (s.ever != [] ==> s.ever[|s.ever| - 1].seqNo !in s.gone)
    && (forall x :: x in s.gone ==> x <= Head(s.ever))
  }

  lemma SuffixSplit<T>(s: seq<T>, p: nat)
    requires p < |s|
    ensures s[p..] == s[..|s| - 1][p..] + [s[|s| - 1]]
  {
  }

  lemma {:induction false} RetainedSuffix(ever: seq<Event>, gone: set<nat>, p: nat)
    requires p <= |ever| && (forall i :: 0 <= i < p ==> ever[i].seqNo in gone)
      && (forall i :: p <= i < |ever| ==> ever[i].seqNo !in gone)
    ensures Retained(ever, gone) == ever[p..]
    decreases |ever|
  {
    if ever != [] {
      var n := |ever| - 1;
      if p == |ever| {
        RetainedSuffix(ever[..n], gone, n);
        assert ever[n].seqNo in gone;
      } else {
        RetainedSuffix(ever[..n], gone, p);
        SuffixSplit(ever, p);
        assert ever[n].seqNo !in gone;
      }
    }
  }

  // Where the retained rows begin.
  lemma {:induction false} PruneBound(ever: seq<Event>, gone: set<nat>) returns (p: nat)
    requires forall i, j :: 0 <= i < j < |ever| && ever[j].seqNo in gone ==> ever[i].seqNo in gone
    ensures p <= |ever| && (forall i :: 0 <= i < p ==> ever[i].seqNo in gone)
      && (forall i :: p <= i < |ever| ==> ever[i].seqNo !in gone)
  {
    p := |ever|;
    while p > 0 && ever[p - 1].seqNo !in gone
      invariant 0 <= p <= |ever| && forall i :: p <= i < |ever| ==> ever[i].seqNo !in gone
    {
      p := p - 1;
    }
  }

  /** An event after the client's last id has been pruned. */
  ghost predicate Lost(s: State, lastId: nat) {
    exists i :: 0 <= i < |s.ever| && s.ever[i].seqNo > lastId && s.ever[i].seqNo in s.gone
  }

  /** With prefix pruning, a reconnect that has lost events announces it exactly when
      something is retained; a fully pruned log loses them silently. */
  lemma LossAnnouncedIff(s: State, lastId: nat)
    requires LogOk(s) && Lost(s, lastId)
    requires forall i, j :: 0 <= i < j < |s.ever| && s.ever[j].seqNo in s.gone ==> s.ever[i].seqNo in s.gone
    ensures Resets(Table(s), lastId) <==> Table(s) != []
  {
    var p := PruneBound(s.ever, s.gone);
    RetainedSuffix(s.ever, s.gone, p);
    var i :| 0 <= i < |s.ever| && s.ever[i].seqNo > lastId && s.ever[i].seqNo in s.gone;
    assert i < p;
    assert p < |s.ever| ==> SeqOf(s.ever[i]) < SeqOf(s.ever[p]);
  }

  /** Pruning deletes by timestamp: it takes a prefix for every cutoff exactly when
      timestamps never run against the numbers. */
  lemma PruneIsPrefixIff(ever: seq<Event>)
    requires Keyset.InOrder(ever, SeqOf)
    ensures (forall cutoff, i, j :: 0 <= i < j < |ever| && ever[j].seqNo in Doomed(ever, cutoff) ==>
      ever[i].seqNo in Doomed(ever, cutoff))
      <==> (forall i, j :: 0 <= i < j < |ever| ==> ever[i].ts <= ever[j].ts)
  {
    forall cutoff, i | 0 <= i < |ever|
      ensures ever[i].seqNo in Doomed(ever, cutoff) <==> ever[i].ts < cutoff
    {
      DoomedAt(ever, cutoff, i);
    }
    if forall cutoff, i, j :: 0 <= i < j < |ever| && ever[j].seqNo in Doomed(ever, cutoff) ==>
         ever[i].seqNo in Doomed(ever, cutoff)
    {
      forall i, j | 0 <= i < j < |ever|
        ensures ever[i].ts <= ever[j].ts
      {
        assert ever[j].seqNo in Doomed(ever, ever[j].ts + 1);
      }
    }
  }

  lemma DoomedAt(ever: seq<Event>, cutoff: int, i: nat)
    requires Keyset.InOrder(ever, SeqOf) && i < |ever|
    ensures ever[i].seqNo in Doomed(ever, cutoff) <==> ever[i].ts < cutoff
  {
    if ever[i].seqNo in Doomed(ever, cutoff) {
      var k :| 0 <= k < |ever| && ever[k].ts < cutoff && ever[k].seqNo == ever[i].seqNo;
      OneOfEach(ever, i, k);
    }
  }

  lemma OneOfEach(ever: seq<Event>, i: nat, k: nat)
    requires Keyset.InOrder(ever, SeqOf) && i < |ever| && k < |ever|
    ensures ever[i].seqNo == ever[k].seqNo ==> i == k
  {
    if i < k {
      assert SeqOf(ever[i]) < SeqOf(ever[k]);
    } else if k < i {
      assert SeqOf(ever[k]) < SeqOf(ever[i]);
    }
  }

  // ---- Exactly once, in order, across batches and reconnects ----

  ghost predicate Spared(s: State, k: nat) {
    forall i :: k <= i < |s.ever| ==> s.ever[i].seqNo !in s.gone
  }

  // The client started at event b, remembers event m, and its stream has read up to event k.
  ghost predicate Following(v: Viewer, s: State, b: nat, m: nat, k: nat) {
    && b <= m <= k <= |s.ever| && s.received == Wanted(v, s.ever[b..k])
    && (s.lastId.Some? ==>
      Keyset.Upto(s.ever, SeqOf, s.lastId.value, m) && Wanted(v, s.ever[m..k]) == [] && s.lastId.value <= Head(s.ever))
    && (s.lastId == None ==> s.received == []) && Streaming(s, k)
  }

  // A connected cursor stands at event k, with the next events in hand and none pruned.
  ghost predicate Streaming(s: State, k: nat)
    requires k <= |s.ever|
  {
    match s.link
    case Offline => true
    case Online(cursor, batch) =>
      && Keyset.Upto(s.ever, SeqOf, cursor, k) && cursor <= Head(s.ever) && Spared(s, k)
      && k + |batch| <= |s.ever| && batch == s.ever[k..k + |batch|]
  }

  /** Since event b the client has received exactly what it wants of everything committed up
      to where its stream stands: each event once, in order, and none skipped. */
  ghost predicate FollowsFrom(v: Viewer, s: State, b: nat) {
    exists m, k :: Following(v, s, b, m, k)
  }

  /** Pruning takes a prefix, keeps something, and does not overtake a connected cursor. */
  ghost predicate Calm(v: Viewer, s: State, a: Action)
    requires Enabled(s, a)
  {
    a.Prune? ==>
      PrunedPrefix(Apply(v, s, a))
        && (s.link.Online? ==> forall x :: x in Doomed(s.ever, a.cutoff) ==> x <= s.link.cursor)
  }

  /** Connecting without an id, or after a loss was announced, starts over from the head. */
  predicate Restarts(s: State, a: Action) {
    a.Connect? && (s.lastId == None || Resets(Table(s), s.lastId.value))
  }

  lemma CommitKeepsPrefix(v: Viewer, s: State, a: Action)
    requires LogOk(s) && PrunedPrefix(s) && Enabled(s, a) && a.Commit?
    ensures PrunedPrefix(Apply(v, s, a)) && Head(s.ever) <= Head(Apply(v, s, a).ever)
  {
    var own := Own(s, a.t);
    AboveJoin(0, s.ever, own, s.nextSeq);
    HeadIsLast(s.ever + own);
    assert own == [] ==> s.ever + own == s.ever;
    assert own != [] ==> (s.ever + own)[|s.ever + own| - 1] == own[|own| - 1];
    if s.ever != [] {
      assert (s.ever + own)[|s.ever| - 1] == s.ever[|s.ever| - 1];
    }
  }

  lemma SliceOfJoin<T>(a: seq<T>, b: seq<T>, i: nat, j: nat)
    requires i <= j <= |a|
    ensures (a + b)[i..j] == a[i..j]
  {
  }

  lemma CommitKeepsStreaming(v: Viewer, s: State, a: Action, k: nat)
    requires LogOk(s) && PrunedPrefix(s) && Enabled(s, a) && a.Commit? && k <= |s.ever| && Streaming(s, k)
    ensures Streaming(Apply(v, s, a), k)
  {
    var own := Own(s, a.t);
    CommitKeepsPrefix(v, s, a);
    if s.link.Online? {
      assert forall i :: 0 <= i < |own| ==> SeqOf(own[i]) > s.link.cursor;
      SliceOfJoin(s.ever, own, k, k + |s.link.batch|);
      Keyset.UptoGrows(s.ever, own, SeqOf, s.link.cursor, k);
      NewAreSpared(s, own, k);
    }
  }

  lemma CommitKeepsFollowing(v: Viewer, s: State, a: Action, b: nat, m: nat, k: nat)
    requires LogOk(s) && PrunedPrefix(s) && Enabled(s, a) && a.Commit? && Following(v, s, b, m, k)
    ensures Following(v, Apply(v, s, a), b, m, k)
  {
    var own := Own(s, a.t);
    CommitKeepsStreaming(v, s, a, k);
    CommitKeepsPrefix(v, s, a);
    SliceOfJoin(s.ever, own, b, k);
    SliceOfJoin(s.ever, own, m, k);
    if s.lastId.Some? {
      assert forall i :: 0 <= i < |own| ==> SeqOf(own[i]) > s.lastId.value;
      Keyset.UptoGrows(s.ever, own, SeqOf, s.lastId.value, m);
    }
  }

  lemma NewAreSpared(s: State, own: seq<Event>, k: nat)
    requires PrunedPrefix(s) && Spared(s, k) && forall i :: 0 <= i < |own| ==> Head(s.ever) < own[i].seqNo
    ensures forall i :: k <= i < |s.ever + own| ==> (s.ever + own)[i].seqNo !in s.gone
  {
  }

  // A full table's head is the log's.
  lemma TableHead(s: State)
    requires LogOk(s) && PrunedPrefix(s)
    ensures Head(Table(s)) == Head(s.ever) && (Table(s) == [] <==> s.ever == [])
      && Keyset.Upto(s.ever, SeqOf, Head(s.ever), |s.ever|)
  {
    var p := PruneBound(s.ever, s.gone);
    RetainedSuffix(s.ever, s.gone, p);
    HeadIsLast(s.ever);
    assert forall e: Event :: SeqOf(e) == e.seqNo;
  }

  lemma ConnectFollows(v: Viewer, s: State, b: nat, m: nat, k: nat)
    requires LogOk(s) && PrunedPrefix(s) && Enabled(s, Connect) && Following(v, s, b, m, k)
    ensures Restarts(s, Connect) ==> Following(v, Apply(v, s, Connect), |s.ever|, |s.ever|, |s.ever|)
    ensures !Restarts(s, Connect) ==> Following(v, Apply(v, s, Connect), b, m, m)
  {
    TableHead(s);
    if Restarts(s, Connect) {
      assert s.ever[|s.ever|..|s.ever|] == [];
    } else {
      var lastId := s.lastId.value;
      if Lost(s, lastId) {
        LossAnnouncedIff(s, lastId);
      }
      assert s.ever[b..k] == s.ever[b..m] + s.ever[m..k] && s.ever[m..m] == [];
      WantedOfBoth(v, s.ever[b..m], s.ever[m..k]);
      forall i | m <= i < |s.ever|
        ensures s.ever[i].seqNo !in s.gone
      {
        assert SeqOf(s.ever[i]) > lastId;
      }
    }
  }

  lemma FetchPastPruned(ever: seq<Event>, p: nat, cursor: nat, k: nat, limit: nat)
    requires Keyset.Upto(ever, SeqOf, cursor, k) && p <= k
    ensures Keyset.Fetch(ever[p..], SeqOf, cursor, limit) == Keyset.Limit(ever[k..], limit)
  {
    Keyset.UptoSuffix(ever, SeqOf, cursor, k, p);
    Keyset.FetchContinues(ever[p..], SeqOf, cursor, k - p, limit);
  }

  // The table is the log but for events the cursor has passed.
  lemma TableReaches(s: State, k: nat) returns (p: nat)
    requires PrunedPrefix(s) && k <= |s.ever| && Spared(s, k)
    ensures p <= k && Table(s) == s.ever[p..]
  {
    p := PruneBound(s.ever, s.gone);
    RetainedSuffix(s.ever, s.gone, p);
    if p > 0 {
      assert s.ever[p - 1].seqNo in s.gone;
    }
  }

  // The table after a spared cursor is the log after it.
  lemma FetchIsNext(s: State, cursor: nat, k: nat)
    requires PrunedPrefix(s) && Keyset.Upto(s.ever, SeqOf, cursor, k) && Spared(s, k)
    ensures Keyset.Fetch(Table(s), SeqOf, cursor, BATCH) == Keyset.Limit(s.ever[k..], BATCH)
  {
    var p := TableReaches(s, k);
    FetchPastPruned(s.ever, p, cursor, k, BATCH);
  }

  lemma FetchFollows(v: Viewer, s: State, b: nat, m: nat, k: nat)
    requires LogOk(s) && PrunedPrefix(s) && Enabled(s, FetchBatch) && Following(v, s, b, m, k)
    ensures Following(v, Apply(v, s, FetchBatch), b, m, k)
    ensures Apply(v, s, FetchBatch).link.batch == [] ==> k == |s.ever|
  {
    FetchIsNext(s, s.link.cursor, k);
    var batch := Apply(v, s, FetchBatch).link.batch;
    assert batch == s.ever[k..k + |batch|];
  }

  lemma WantedNext(v: Viewer, ever: seq<Event>, b: nat, k: nat)
    requires b <= k < |ever|
    ensures Wanted(v, ever[b..k + 1]) == Wanted(v, ever[b..k]) + if Wants(v, ever[k]) then [ever[k]] else []
  {
    assert ever[b..k + 1][..k - b] == ever[b..k];
  }

  lemma UptoNext(ever: seq<Event>, k: nat)
    requires Keyset.InOrder(ever, SeqOf) && k < |ever|
    ensures Keyset.Upto(ever, SeqOf, ever[k].seqNo, k + 1) && ever[k].seqNo <= Head(ever)
  {
    HeadIsLast(ever);
    assert SeqOf(ever[k]) == ever[k].seqNo;
  }

  lemma SendStreams(v: Viewer, s: State, k: nat)
    requires LogOk(s) && Enabled(s, Send) && k <= |s.ever| && Streaming(s, k)
    ensures k < |s.ever| && s.link.batch[0] == s.ever[k] && Streaming(Apply(v, s, Send), k + 1)
  {
    var batch := s.link.batch;
    UptoNext(s.ever, k);
    assert batch[1..] == s.ever[k + 1..k + 1 + |batch[1..]|];
  }

  lemma SendFollows(v: Viewer, s: State, b: nat, m: nat, k: nat)
    requires LogOk(s) && Enabled(s, Send) && Following(v, s, b, m, k)
    ensures Following(v, Apply(v, s, Send), b, if Wants(v, s.link.batch[0]) then k + 1 else m, k + 1)
  {
    SendStreams(v, s, k);
    WantedNext(v, s.ever, b, k);
    WantedNext(v, s.ever, m, k);
    UptoNext(s.ever, k);
    assert s.ever[k + 1..k + 1] == [];
  }

  lemma StepFollows(v: Viewer, s: State, a: Action, b: nat)
    requires LogOk(s) && PrunedPrefix(s) && Enabled(s, a) && Calm(v, s, a) && FollowsFrom(v, s, b)
    ensures PrunedPrefix(Apply(v, s, a))
    ensures FollowsFrom(v, Apply(v, s, a), if Restarts(s, a) then |s.ever| else b)
  {
    var m: nat, k: nat :| Following(v, s, b, m, k);
    StepFollowsAt(v, s, a, b, m, k);
  }

  lemma PruneFollows(v: Viewer, s: State, a: Action, b: nat, m: nat, k: nat)
    requires Enabled(s, a) && a.Prune? && Calm(v, s, a) && Following(v, s, b, m, k)
    ensures PrunedPrefix(Apply(v, s, a)) && Following(v, Apply(v, s, a), b, m, k)
  {
    assert forall i :: 0 <= i < |s.ever| ==> SeqOf(s.ever[i]) == s.ever[i].seqNo;
  }

  // The same log and client, with the connection perhaps lost.
  predicate SameClient(s: State, s': State) {
    && s'.ever == s.ever && s'.gone == s.gone && s'.received == s.received && s'.lastId == s.lastId
    && (s'.link == s.link || s'.link == Offline)
  }

  lemma SameClientFollows(v: Viewer, s: State, s': State, b: nat, m: nat, k: nat)
    requires PrunedPrefix(s) && SameClient(s, s') && Following(v, s, b, m, k)
    ensures PrunedPrefix(s') && Following(v, s', b, m, k)
  {
  }

  lemma OthersFollow(v: Viewer, s: State, a: Action, b: nat, m: nat, k: nat)
    requires PrunedPrefix(s) && Enabled(s, a) && (a.Acquire? || a.Publish? || a.Abort? || a.Drop?)
      && Following(v, s, b, m, k)
    ensures PrunedPrefix(Apply(v, s, a)) && FollowsFrom(v, Apply(v, s, a), b)
  {
    assert SameClient(s, Apply(v, s, a));
    SameClientFollows(v, s, Apply(v, s, a), b, m, k);
  }

  lemma ClientFollows(v: Viewer, s: State, a: Action, b: nat, m: nat, k: nat)
    requires LogOk(s) && PrunedPrefix(s) && Enabled(s, a) && (a.Connect? || a.FetchBatch? || a.Send?)
      && Following(v, s, b, m, k)
    ensures PrunedPrefix(Apply(v, s, a))
    ensures FollowsFrom(v, Apply(v, s, a), if Restarts(s, a) then |s.ever| else b)
  {
    match a {
      case Connect => ConnectFollows(v, s, b, m, k);
      case FetchBatch => FetchFollows(v, s, b, m, k);
      case Send => SendFollows(v, s, b, m, k);
    }
  }

  lemma StepFollowsAt(v: Viewer, s: State, a: Action, b: nat, m: nat, k: nat)
    requires LogOk(s) && PrunedPrefix(s) && Enabled(s, a) && Calm(v, s, a) && Following(v, s, b, m, k)
    ensures PrunedPrefix(Apply(v, s, a))
    ensures FollowsFrom(v, Apply(v, s, a), if Restarts(s, a) then |s.ever| else b)
  {
    match a {
      case Commit(t) => CommitKeepsPrefix(v, s, a); CommitKeepsFollowing(v, s, a, b, m, k);
      case Prune(_) => PruneFollows(v, s, a, b, m, k);
      case Connect => ClientFollows(v, s, a, b, m, k);
      case FetchBatch => ClientFollows(v, s, a, b, m, k);
      case Send => ClientFollows(v, s, a, b, m, k);
      case _ => OthersFollow(v, s, a, b, m, k);
    }
  }

  ghost predicate CalmRun(v: Viewer, s: State, run: seq<Action>)
    requires Legal(v, s, run)
    decreases |run|
  {
    run == [] || (Calm(v, s, run[0]) && CalmRun(v, Apply(v, s, run[0]), run[1..]))
  }

  /** The event the client's current stretch starts at: the head of the log at its last
      restart. */
  ghost function StartOf(v: Viewer, s: State, run: seq<Action>, b: nat): nat
    requires Legal(v, s, run)
    decreases |run|
  {
    if run == [] then b else StartOf(v, Apply(v, s, run[0]), run[1..], if Restarts(s, run[0]) then |s.ever| else b)
  }

  /** Publishers interleaved and aborting, the client dropping and reconnecting: it has every
      wanted event since the head it last started from, exactly once and in order. Only a
      connect without an id or an announced loss moves that start. */
  lemma {:induction false} ExactlyOnce(v: Viewer, s: State, run: seq<Action>, b: nat)
    requires LogOk(s) && PrunedPrefix(s) && FollowsFrom(v, s, b) && Legal(v, s, run) && CalmRun(v, s, run)
    ensures LogOk(Final(v, s, run)) && PrunedPrefix(Final(v, s, run))
    ensures FollowsFrom(v, Final(v, s, run), StartOf(v, s, run, b))
    decreases |run|
  {
    if run != [] {
      StepKeepsLog(v, s, run[0]);
      StepFollows(v, s, run[0], b);
      ExactlyOnce(v, Apply(v, s, run[0]), run[1..], if Restarts(s, run[0]) then |s.ever| else b);
    }
  }

  /** When a connected stream finds nothing more to fetch, nothing wanted is missing. */
  lemma CaughtUp(v: Viewer, s: State, b: nat)
    requires LogOk(s) && PrunedPrefix(s) && Enabled(s, FetchBatch) && FollowsFrom(v, s, b)
    requires Apply(v, s, FetchBatch).link.batch == []
    ensures b <= |s.ever| && s.received == Wanted(v, s.ever[b..])
  {
    var m: nat, k: nat :| Following(v, s, b, m, k);
    CaughtUpAt(v, s, b, m, k);
  }

  lemma CaughtUpAt(v: Viewer, s: State, b: nat, m: nat, k: nat)
    requires LogOk(s) && PrunedPrefix(s) && Enabled(s, FetchBatch) && Following(v, s, b, m, k)
    requires Apply(v, s, FetchBatch).link.batch == []
    ensures b <= |s.ever| && s.received == Wanted(v, s.ever[b..])
  {
    FetchFollows(v, s, b, m, k);
    assert s.ever[b..k] == s.ever[b..];
  }

  /** An empty log and a client that has never connected. */
  function Fresh(): State {
    State(None, 1, map[], [], {}, Offline, None, [])
  }

  lemma FreshFollows(v: Viewer)
    ensures LogOk(Fresh()) && PrunedPrefix(Fresh()) && FollowsFrom(v, Fresh(), 0)
  {
    var none: seq<Event> := [];
    assert none[0..0] == [];
    assert Following(v, Fresh(), 0, 0, 0);
  }

  /** So it is in every calm run from the beginning. */
  lemma ExactlyOnceFromFresh(v: Viewer, run: seq<Action>)
    requires Legal(v, Fresh(), run) && CalmRun(v, Fresh(), run)
    ensures FollowsFrom(v, Final(v, Fresh(), run), StartOf(v, Fresh(), run, 0))
  {
    FreshFollows(v);
    ExactlyOnce(v, Fresh(), run, 0);
  }
}
