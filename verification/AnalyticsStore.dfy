/** The memory repository's snapshots, rollups and document facts, and the service code that fills them. */
module AnalyticsStore {
  import opened Calendar
  import opened Buckets
  import opened Timestamps
  import opened Kpi
  import opened Rollups
  import opened Reporting
  import opened Sorting

  datatype Row = Row(dimension: Dimension, key: string, kpi: DocumentKpi)

  lemma MergeOne(target: Segments, part: Segments, key: string, kpi: DocumentKpi)
    requires key !in part
    ensures Merged(target, part[key := kpi]) == Merged(target, part)[key := Plus(At(Merged(target, part), key), kpi)]
  {
    hide Plus;
    var before, after := Merged(target, part), Merged(target, part[key := kpi]);
    MergedAt(target, part, key);
    PlusZero(At(target, key));
    assert At(before, key) == At(target, key);
    assert after.Keys == before.Keys + {key};
    forall k | k in before && k != key ensures after[k] == before[k] {
      assert At(part[key := kpi], k) == At(part, k);
    }
    assert after[key] == Plus(At(target, key), kpi);
  }

  /** mergeSegments; Go visits the source's keys in any order. */
  method MergeSegments(target: Segments, source: Segments) returns (merged: Segments)
    ensures merged == Merged(target, source)
  {
    hide Merged, Plus;
    merged := target;
    var left := source.Keys;
    ghost var part: Segments := map[];
    MergeNone(target);
    while left != {}
      invariant part.Keys == source.Keys - left && left <= source.Keys
      invariant forall key <- part :: part[key] == source[key]
      invariant merged == Merged(target, part)
      decreases left
    {
      var key :| key in left;
      MergeOne(target, part, key, source[key]);
      var current := Plus(At(merged, key), source[key]);
      merged, left := merged[key := current], left - {key};
      part := part[key := source[key]];
    }
    assert part == source;
  }

  lemma MergeNone(target: Segments)
    ensures Merged(target, map[]) == target
  {
    assert forall key <- target :: Plus(target[key], NO_DOCUMENTS) == target[key];
  }

  ghost predicate Due(id: string, granularity: Granularity, snapshots: seq<Snapshot>) {
    exists s <- snapshots :: RollupAt(granularity, s.generatedAt, snapshots).id == id
  }

  /** Every bucket of the listed snapshots is built, with its plain sum, and nothing else. */
  ghost predicate Built(buckets: map<string, Rollup>, granularity: Granularity, snapshots: seq<Snapshot>) {
    && (forall s <- snapshots :: Holds(buckets, RollupAt(granularity, s.generatedAt, snapshots)))
    && (forall id <- buckets :: Due(id, granularity, snapshots))
  }

  lemma BuiltMore(buckets: map<string, Rollup>, granularity: Granularity, snapshots: seq<Snapshot>, s: Snapshot,
                  r: Rollup)
    requires Built(buckets, granularity, snapshots)
    requires r == RollupAt(granularity, s.generatedAt, snapshots + [s])
    ensures Built(buckets[r.id := r], granularity, snapshots + [s])
  {
    hide RollupAt;
    var more := snapshots + [s];
    assert s in more && forall x <- snapshots :: x in more;
    forall x | x in more ensures Holds(buckets[r.id := r], RollupAt(granularity, x.generatedAt, more)) {
      if x in snapshots {
        RollupStep(granularity, x, snapshots, s);
      }
    }
    forall id | id in buckets[r.id := r] ensures Due(id, granularity, more) {
      if id != r.id {
        assert Due(id, granularity, snapshots);
        var x :| x in snapshots && RollupAt(granularity, x.generatedAt, snapshots).id == id;
        RollupStep(granularity, x, snapshots, s);
      }
    }
  }

  /** Adding `s` changes the rollup of `x` only when they share it. */
  lemma RollupStep(granularity: Granularity, x: Snapshot, snapshots: seq<Snapshot>, s: Snapshot)
    ensures var before, after := RollupAt(granularity, x.generatedAt, snapshots),
        RollupAt(granularity, x.generatedAt, snapshots + [s]);
      && before.id == after.id
      && (after == before || after == RollupAt(granularity, s.generatedAt, snapshots + [s]))
      && (after.id == RollupAt(granularity, s.generatedAt, snapshots + [s]).id
          ==> after == RollupAt(granularity, s.generatedAt, snapshots + [s]))
  {
    hide BucketRange, Key, Total, AddSnapshot;
    RollupMore(granularity, x.generatedAt, snapshots, s);
    if StartOf(granularity, s) == StartOf(granularity, x) {
      RollupSame(granularity, x.generatedAt, s.generatedAt, snapshots + [s]);
    }
    if RollupAt(granularity, x.generatedAt, snapshots + [s]).id ==
        RollupAt(granularity, s.generatedAt, snapshots + [s]).id {
      SameId(granularity, x.generatedAt, granularity, s.generatedAt, snapshots + [s]);
    }
  }

  /** The loop body of buildRollups. */
  method AddToBucket(buckets: map<string, Rollup>, granularity: Granularity, snapshots: seq<Snapshot>, s: Snapshot)
    returns (more: map<string, Rollup>)
    requires Built(buckets, granularity, snapshots)
    ensures Built(more, granularity, snapshots + [s])
  {
    hide BucketRange, Key, Total;
    var (start, end) := BucketRange(granularity, s.generatedAt);
    var key := Key(granularity, start);
    ghost var due := RollupAt(granularity, s.generatedAt, snapshots);
    var rollup := Rollup(key, granularity, start, end, NOTHING);
    if key in buckets {
      rollup := buckets[key];
      assert Due(key, granularity, snapshots);
      ghost var x :| x in snapshots && RollupAt(granularity, x.generatedAt, snapshots).id == key;
      SameId(granularity, x.generatedAt, granularity, s.generatedAt, snapshots);
    } else {
      NoneInBucket(granularity, start, snapshots);
      assert Total([]) == NOTHING by { TotalOfNone(); }
    }
    assert rollup == due;
    RollupMore(granularity, s.generatedAt, snapshots, s);
    var t := rollup.totals;
    var byType := MergeSegments(t.byType, s.byType);
    var byLocation := MergeSegments(t.byLocation, s.byLocation);
    rollup := rollup.(totals := Totals(t.count + 1, Plus(t.documents, s.documents), byType, byLocation,
                                       PlusWorkflow(t.workflow, s.workflow),
                                       PlusReliability(t.reliability, s.reliability)));
    BuiltMore(buckets, granularity, snapshots, s, rollup);
    more := buckets[key := rollup];
  }

  lemma TotalOfNone()
    ensures Total([]) == NOTHING
  {
  }

  lemma NoneInBucket(granularity: Granularity, start: Time, snapshots: seq<Snapshot>)
    requires forall x <- snapshots :: RollupAt(granularity, x.generatedAt, snapshots).id != Key(granularity, start)
    ensures InBucket(granularity, start, snapshots) == []
  {
    hide BucketRange, Key;
    forall x | x in snapshots ensures StartOf(granularity, x) != start {
    }
    EmptyBucket(granularity, start, snapshots);
  }

  lemma EmptyBucket(granularity: Granularity, start: Time, snapshots: seq<Snapshot>)
    requires forall x <- snapshots :: StartOf(granularity, x) != start
    ensures InBucket(granularity, start, snapshots) == []
  {
    if snapshots != [] {
      hide BucketRange;
      EmptyBucket(granularity, start, snapshots[..|snapshots| - 1]);
    }
  }

  /** The rollups due at one granularity, each once or more. */
  ghost predicate Lists(items: seq<Rollup>, granularity: Granularity, snapshots: seq<Snapshot>) {
    && (forall s <- snapshots :: RollupAt(granularity, s.generatedAt, snapshots) in items)
    && (forall r <- items :: IsDue(r, granularity, snapshots))
  }

  ghost predicate IsDue(r: Rollup, granularity: Granularity, snapshots: seq<Snapshot>) {
    exists s <- snapshots :: RollupAt(granularity, s.generatedAt, snapshots) == r
  }

  predicate Earlier(a: Rollup, b: Rollup) {
    a.start < b.start
  }

  method BuildRollups(granularity: Granularity, snapshots: seq<Snapshot>) returns (items: seq<Rollup>)
    ensures Lists(items, granularity, snapshots)
    ensures SortedBy(items, Earlier)
  {
    hide RollupAt;
    var buckets: map<string, Rollup> := map[];
    for i := 0 to |snapshots|
      invariant Built(buckets, granularity, snapshots[..i])
    {
      buckets := AddToBucket(buckets, granularity, snapshots[..i], snapshots[i]);
      assert snapshots[..i + 1] == snapshots[..i] + [snapshots[i]];
    }
    assert snapshots[..|snapshots|] == snapshots;
    var unsorted := ValuesOf(buckets);
    items := SortSlice(unsorted, Earlier);
    ArrangementMembers(items, unsorted);
    forall r | r in items ensures IsDue(r, granularity, snapshots) {
      var id :| id in buckets && buckets[id] == r;
      assert Due(id, granularity, snapshots);
      var s :| s in snapshots && RollupAt(granularity, s.generatedAt, snapshots).id == id;
    }
    forall s | s in snapshots ensures RollupAt(granularity, s.generatedAt, snapshots) in items {
      assert Holds(buckets, RollupAt(granularity, s.generatedAt, snapshots));
    }
  }

  method ValuesOf(buckets: map<string, Rollup>) returns (items: seq<Rollup>)
    ensures forall id <- buckets :: buckets[id] in items
    ensures forall r <- items :: exists id <- buckets :: buckets[id] == r
  {
    items := [];
    var left := buckets.Keys;
    while left != {}
      invariant left <= buckets.Keys
      invariant forall id <- buckets :: id !in left ==> buckets[id] in items
      invariant forall r <- items :: exists id <- buckets :: buckets[id] == r
      decreases left
    {
      var id :| id in left;
      items, left := items + [buckets[id]], left - {id};
    }
  }

  lemma ListsOrder(items: seq<Rollup>, granularity: Granularity, listed: seq<Snapshot>, snapshots: seq<Snapshot>)
    requires Lists(items, granularity, listed) && multiset(listed) == multiset(snapshots)
    ensures Lists(items, granularity, snapshots)
  {
    hide RollupAt;
    ArrangementMembers(listed, snapshots);
    forall s | s in snapshots ensures RollupAt(granularity, s.generatedAt, snapshots) in items {
      assert s in listed;
      RollupOrder(granularity, s.generatedAt, listed, snapshots);
    }
    forall r | r in items ensures IsDue(r, granularity, snapshots) {
      DueOrder(r, granularity, listed, snapshots);
    }
  }

  lemma DueOrder(r: Rollup, granularity: Granularity, listed: seq<Snapshot>, snapshots: seq<Snapshot>)
    requires IsDue(r, granularity, listed) && multiset(listed) == multiset(snapshots)
    ensures IsDue(r, granularity, snapshots)
  {
    hide RollupAt;
    var s :| s in listed && RollupAt(granularity, s.generatedAt, listed) == r;
    assert s in multiset(listed);
    RollupOrder(granularity, s.generatedAt, listed, snapshots);
  }

  /** Storing one due rollup leaves every other due rollup in place. */
  lemma StoreDue(rollups: map<string, Rollup>, r: Rollup, g: Granularity, other: Rollup, h: Granularity,
                 snapshots: seq<Snapshot>)
    requires IsDue(r, g, snapshots) && IsDue(other, h, snapshots) && Holds(rollups, other)
    ensures Holds(rollups[r.id := r], other)
  {
    hide RollupAt;
    var s :| s in snapshots && RollupAt(g, s.generatedAt, snapshots) == r;
    var x :| x in snapshots && RollupAt(h, x.generatedAt, snapshots) == other;
    if r.id == other.id {
      SameId(g, s.generatedAt, h, x.generatedAt, snapshots);
    }
  }

  lemma DueKey(r: Rollup, g: Granularity, snapshots: seq<Snapshot>)
    requires IsDue(r, g, snapshots)
    ensures r.id == Key(r.granularity, r.start) && !Stale(r.id, snapshots)
  {
    hide BucketRange, Key, Total;
    var s :| s in snapshots && RollupAt(g, s.generatedAt, snapshots) == r;
  }

  predicate EarlierSnapshot(a: Snapshot, b: Snapshot) {
    a.generatedAt < b.generatedAt
  }

  predicate RowBefore(a: Row, b: Row) {
    StringLess(a.key, b.key)
  }

  class MemoryRepository {
    var snapshots: seq<Snapshot>
    var rollups: map<string, Rollup>
    var facts: seq<DocumentFact>
    ghost var captures: seq<Capture>        // every snapshot ever captured
    ghost var sources: seq<seq<Document>>   // and the documents it was taken from

    ghost predicate Valid()
      reads this
    {
      && facts == AllFacts(captures) && (forall c <- captures :: ValidCapture(c))
      && AllTaken(captures, sources)
    }

    constructor ()
      ensures Valid() && snapshots == [] && rollups == map[] && captures == []
    {
      snapshots, rollups, facts, captures, sources := [], map[], [], [], [];
    }

    method SaveSnapshot(snapshot: Snapshot)
      modifies this`snapshots
      ensures snapshots == old(snapshots) + [snapshot]
    {
      snapshots := snapshots + [snapshot];
    }

    method ListSnapshots() returns (items: seq<Snapshot>)
      ensures Arrangement(items, snapshots, EarlierSnapshot)
    {
      items := SortSlice(snapshots, EarlierSnapshot);
    }

    method DeleteOlderThan(cutoff: Time)
      modifies this`snapshots
      ensures snapshots == Since(cutoff, old(snapshots))
      ensures forall s: Snapshot ::
                multiset(snapshots)[s] == if s.generatedAt < cutoff then 0 else multiset(old(snapshots))[s]
    {
      var filtered := [];
      for i := 0 to |snapshots|
        invariant snapshots == old(snapshots)
        invariant filtered == Since(cutoff, snapshots[..i])
      {
        assert snapshots[..i + 1][..i] == snapshots[..i];
        if snapshots[i].generatedAt < cutoff {
          continue;
        }
        filtered := filtered + [snapshots[i]];
      }
      assert snapshots[..|snapshots|] == snapshots;
      forall s: Snapshot
        ensures multiset(filtered)[s] == if s.generatedAt < cutoff then 0 else multiset(old(snapshots))[s]
      {
        SinceCount(cutoff, snapshots, s);
      }
      snapshots := filtered;
    }

    method UpsertRollup(rollup: Rollup)
      modifies this`rollups
      ensures rollups == old(rollups)[Key(rollup.granularity, rollup.start) := rollup]
    {
      rollups := rollups[Key(rollup.granularity, rollup.start) := rollup];
    }

    /** The rollups of `id`s that no retained snapshot is due to. */
    twostate predicate StaleUntouched()
      reads this
    {
      forall id :: Stale(id, snapshots) ==>
        (id in rollups <==> id in old(rollups)) && (id in rollups ==> rollups[id] == old(rollups)[id])
    }

    ghost predicate StoredAt(granularity: Granularity)
      reads this
    {
      forall s <- snapshots :: Holds(rollups, RollupAt(granularity, s.generatedAt, snapshots))
    }

    method StoreItems(granularity: Granularity, items: seq<Rollup>, ghost others: set<Granularity>)
      requires Lists(items, granularity, snapshots)
      requires forall h <- others :: StoredAt(h)
      modifies this`rollups
      ensures StoredAt(granularity) && StaleUntouched()
      ensures forall h <- others :: StoredAt(h)
    {
      hide RollupAt, Key, Stale;
      for j := 0 to |items|
        invariant forall r <- items[..j] :: Holds(rollups, r)
        invariant forall h <- others :: StoredAt(h)
        invariant StaleUntouched()
      {
        var r := items[j];
        DueKey(r, granularity, snapshots);
        forall h, s | h in others && s in snapshots
          ensures Holds(rollups[r.id := r], RollupAt(h, s.generatedAt, snapshots))
        {
          StoreDue(rollups, r, granularity, RollupAt(h, s.generatedAt, snapshots), h, snapshots);
        }
        forall x | x in items[..j] ensures Holds(rollups[r.id := r], x) {
          StoreDue(rollups, r, granularity, x, granularity, snapshots);
        }
        UpsertRollup(r);
        assert items[..j + 1] == items[..j] + [r];
      }
      assert items[..|items|] == items;
    }

    method RefreshRollups()
      modifies this`rollups
      ensures Agrees(rollups, snapshots) && StaleUntouched()
    {
      hide RollupAt, Stale;
      var granularities := [Daily, Weekly, Monthly];
      for i := 0 to 3
        invariant forall h <- granularities[..i] :: StoredAt(h)
        invariant StaleUntouched()
      {
        label before:
        var listed := ListSnapshots();
        var items := BuildRollups(granularities[i], listed);
        ListsOrder(items, granularities[i], listed, snapshots);
        StoreItems(granularities[i], items, set h | h in granularities[..i]);
        assert granularities[..i + 1] == granularities[..i] + [granularities[i]];
      }
      assert granularities[..3] == granularities;
      forall g: Granularity, s | s in snapshots ensures Holds(rollups, RollupAt(g, s.generatedAt, snapshots)) {
        assert granularities[0] == Daily && granularities[1] == Weekly && granularities[2] == Monthly;
        assert g in granularities by {
          match g
          case Daily =>
          case Weekly =>
          case Monthly =>
        }
        assert StoredAt(g);
      }
    }

    method SaveFacts(documents: seq<DocumentFact>, ghost c: Capture, ghost source: seq<Document>)
      requires Valid() && ValidCapture(c) && documents == FactsOf(c) && TakenFrom(c.snapshot, source)
      modifies this`facts, this`captures, this`sources
      ensures Valid() && captures == old(captures) + [c] && sources == old(sources) + [source]
    {
      hide TakenFrom, FactsOf, ValidCapture;
      AllFactsMore(captures, c);
      AllTakenMore(captures, sources, c, source);
      facts := facts + documents;
      captures := captures + [c];
      sources := sources + [source];
    }

    method QueryFacts(query: FactQuery) returns (documents: seq<DocumentFact>)
      ensures documents == Select(facts, query)
    {
      documents := [];
      for i := 0 to |facts|
        invariant documents == Select(facts[..i], query)
      {
        var fact := facts[i];
        assert facts[..i + 1][..i] == facts[..i];
        if query.from != 0 && fact.capturedAt < query.from { continue; }
        if query.to != 0 && query.to < fact.capturedAt { continue; }
        if query.location != "" && fact.location != query.location { continue; }
        if query.kind != "" && fact.kind != query.kind { continue; }
        documents := documents + [fact];
      }
      assert facts[..|facts|] == facts;
    }

    method ReportingBreakdown(query: FactQuery, dimension: Dimension) returns (items: seq<Row>)
      ensures IsBreakdown(items, facts, query, dimension)
    {
      var selected := QueryFacts(query);
      var rows: map<string, DocumentKpi> := map[];
      for i := 0 to |selected|
        invariant rows == RowMap(selected[..i], dimension)
      {
        var fact := selected[i];
        assert selected[..i + 1][..i] == selected[..i];
        var key := FactKey(dimension, fact);
        if key == "" {
          continue;
        }
        rows := rows[key := Plus(At(rows, key), fact.kpi)];
      }
      assert selected[..|selected|] == selected;
      RowMapMeaning(facts, query, dimension);
      var unsorted := RowsOf(rows, dimension);
      RowOrder();
      items := SortSlice(unsorted, RowBefore);
      ArrangementMembers(items, unsorted);
      SortedRows(items, unsorted);
    }

    /** One capture: a snapshot is taken and stored, with its facts and the refreshed rollups. */
    method CaptureSnapshot(documents: seq<Document>, id: string, at: Time, workflow: WorkflowKpi,
                           reliability: ReliabilityKpi)
      returns (snapshot: Snapshot)
      requires Valid()
      modifies this
      ensures Valid() && snapshots == old(snapshots) + [snapshot]
      ensures TakenFrom(snapshot, documents) && snapshot.id == id && snapshot.generatedAt == at
      ensures snapshot.workflow == workflow && snapshot.reliability == reliability
      ensures |captures| == |old(captures)| + 1 && old(captures) <= captures
      ensures captures[|old(captures)|].snapshot == snapshot && sources == old(sources) + [documents]
      ensures Agrees(rollups, snapshots) && StaleUntouched()
    {
      hide RollupAt, Stale, AllFacts, FactsOf, Agrees, AllTaken, Grouped, Count, Tally, SegmentsCount, FactFor;
      var docs, byType, byLocation := TakeSnapshot(documents);
      snapshot := Snapshot(id, at, docs, byType, byLocation, workflow, reliability);
      SaveSnapshot(snapshot);
      ghost var c;
      var built;
      built, c := BuildFacts(snapshot);
      SaveFacts(built, c, documents);
      RefreshRollups();
    }
  }

  lemma AllFactsMore(captures: seq<Capture>, c: Capture)
    ensures AllFacts(captures + [c]) == AllFacts(captures) + FactsOf(c)
  {
    assert (captures + [c])[..|captures|] == captures;
  }

  lemma AllTakenMore(captures: seq<Capture>, sources: seq<seq<Document>>, c: Capture, source: seq<Document>)
    requires AllTaken(captures, sources) && TakenFrom(c.snapshot, source)
    ensures AllTaken(captures + [c], sources + [source])
  {
    hide TakenFrom;
  }

  // ---- Rows of a breakdown ----

  function Select(facts: seq<DocumentFact>, query: FactQuery): seq<DocumentFact> {
    if facts == [] then []
    else
      var rest := Select(facts[..|facts| - 1], query);
      var fact := facts[|facts| - 1];
      if Matches(query, fact) then rest + [fact] else rest
  }

  function RowMap(facts: seq<DocumentFact>, dimension: Dimension): map<string, DocumentKpi> {
    if facts == [] then map[]
    else
      var rest := RowMap(facts[..|facts| - 1], dimension);
      var fact := facts[|facts| - 1];
      var key := FactKey(dimension, fact);
      if key == "" then rest else rest[key := Plus(At(rest, key), fact.kpi)]
  }

  lemma {:induction false} RowMapMeaning(facts: seq<DocumentFact>, query: FactQuery, dimension: Dimension)
    ensures forall key :: key in RowMap(Select(facts, query), dimension) <==> HasRow(facts, query, dimension, key)
    ensures forall key <- RowMap(Select(facts, query), dimension) ::
              RowMap(Select(facts, query), dimension)[key] == RowOf(facts, query, dimension, key)
    decreases |facts|
  {
    var rows := RowMap(Select(facts, query), dimension);
    forall key
      ensures key in rows <==> HasRow(facts, query, dimension, key)
      ensures key in rows ==> rows[key] == RowOf(facts, query, dimension, key)
    {
      RowMapAt(facts, query, dimension, key);
    }
  }

  predicate RowMapFits(facts: seq<DocumentFact>, query: FactQuery, dimension: Dimension, key: string) {
    var rows := RowMap(Select(facts, query), dimension);
    && (key in rows <==> HasRow(facts, query, dimension, key))
    && (key != "" ==> At(rows, key) == RowOf(facts, query, dimension, key))
  }

  lemma {:induction false} RowMapAt(facts: seq<DocumentFact>, query: FactQuery, dimension: Dimension, key: string)
    ensures RowMapFits(facts, query, dimension, key)
    decreases |facts|
  {
    if facts != [] {
      var init, fact := facts[..|facts| - 1], facts[|facts| - 1];
      RowMapAt(init, query, dimension, key);
      RowMapStep(init, fact, query, dimension, key);
      assert facts == init + [fact];
    }
  }

  lemma SelectMore(facts: seq<DocumentFact>, fact: DocumentFact, query: FactQuery)
    ensures Select(facts + [fact], query)
         == if Matches(query, fact) then Select(facts, query) + [fact] else Select(facts, query)
  {
    assert (facts + [fact])[..|facts|] == facts;
  }

  lemma RowMapPlus(facts: seq<DocumentFact>, fact: DocumentFact, dimension: Dimension)
    ensures var rows, key := RowMap(facts, dimension), FactKey(dimension, fact);
      RowMap(facts + [fact], dimension) == if key == "" then rows else rows[key := Plus(At(rows, key), fact.kpi)]
  {
    assert (facts + [fact])[..|facts|] == facts;
  }

  lemma RowMapMore(facts: seq<DocumentFact>, fact: DocumentFact, query: FactQuery, dimension: Dimension)
    ensures var rows, key := RowMap(Select(facts, query), dimension), FactKey(dimension, fact);
      RowMap(Select(facts + [fact], query), dimension)
      == if Matches(query, fact) && key != "" then rows[key := Plus(At(rows, key), fact.kpi)] else rows
  {
    hide Select, RowMap, Matches, Plus;
    SelectMore(facts, fact, query);
    RowMapPlus(Select(facts, query), fact, dimension);
  }

  lemma RowMapStep(init: seq<DocumentFact>, fact: DocumentFact, query: FactQuery, dimension: Dimension, key: string)
    requires RowMapFits(init, query, dimension, key)
    ensures RowMapFits(init + [fact], query, dimension, key)
  {
    hide Select, RowMap, RowOf, Selected, Plus, Matches;
    RowMapMore(init, fact, query, dimension);
    RowOfMore(init, fact, query, dimension, key);
    SelectedConcat(init, [fact], query, dimension, key);
    SelectedOne(fact, query, dimension, key);
  }

  lemma SelectedOne(fact: DocumentFact, query: FactQuery, dimension: Dimension, key: string)
    ensures Selected([fact], query, dimension, key) <==> Contributes(query, dimension, key, fact)
  {
    assert fact in [fact];
  }

  /** The rows are sorted by key, one for each key with a fact, and carry that key's sum. */
  ghost predicate IsBreakdown(items: seq<Row>, facts: seq<DocumentFact>, query: FactQuery, dimension: Dimension) {
    && (forall i, j :: 0 <= i < j < |items| ==> StringLess(items[i].key, items[j].key))
    && (forall row <- items :: row == Row(dimension, row.key, RowOf(facts, query, dimension, row.key)))
    && (forall key :: HasRow(facts, query, dimension, key) <==> exists row <- items :: row.key == key)
  }

  /** The rows are exactly the keys of the snapshots in the window that pass, each with its plain sum. */
  ghost predicate PlainRows(items: seq<Row>, captures: seq<Capture>, query: FactQuery, dimension: Dimension) {
    && (forall row <- items :: row.kpi == WindowSum(captures, query, dimension, row.key))
    && (forall key :: key != "" ==>
          ((exists row <- items :: row.key == key) <==>
           Passes(query, dimension, key) && KeySeen(captures, query, dimension, key)))
  }

  lemma RowPasses(facts: seq<DocumentFact>, query: FactQuery, dimension: Dimension, key: string)
    requires HasRow(facts, query, dimension, key)
    ensures key != "" && Passes(query, dimension, key)
  {
  }

  /**
   * End to end: as long as the other dimension is not filtered, the breakdown of the stored facts has
   * a row exactly for each key of the snapshots captured in the window that passes the filter on its
   * own dimension, and the row is the plain sum of its segments.
   */
  lemma BreakdownIsPlainSum(items: seq<Row>, captures: seq<Capture>, query: FactQuery, dimension: Dimension)
    requires forall c <- captures :: ValidCapture(c)
    requires CrossFilter(query, dimension) == ""
    requires IsBreakdown(items, AllFacts(captures), query, dimension)
    ensures PlainRows(items, captures, query, dimension)
  {
    hide WindowSum, AllFacts, KeySeen, HasRow, RowOf, Passes, CrossFilter;
    forall row | row in items ensures row.kpi == WindowSum(captures, query, dimension, row.key) {
      NamedRow(items, AllFacts(captures), query, dimension, row);
      RowPasses(AllFacts(captures), query, dimension, row.key);
      RowsAgree(captures, query, dimension, row.key);
    }
    forall key | key != ""
      ensures (exists row <- items :: row.key == key) <==>
              Passes(query, dimension, key) && KeySeen(captures, query, dimension, key)
    {
      if Passes(query, dimension, key) {
        RowsPresent(captures, query, dimension, key);
      } else if HasRow(AllFacts(captures), query, dimension, key) {
        RowPasses(AllFacts(captures), query, dimension, key);
      }
    }
  }

  predicate EmptyWindow(query: FactQuery) {
    query.from != 0 && query.to != 0 && query.to < query.from
  }

  lemma WindowHas(query: FactQuery) returns (at: Time)
    requires !EmptyWindow(query)
    ensures InWindow(query, at)
  {
    at := if query.from != 0 then query.from else query.to;
  }

  /** Whatever documents were captured, and when, the breakdown has the plain-sum rows. */
  ghost predicate AlwaysPlain(query: FactQuery, dimension: Dimension) {
    forall captures, sources, items ::
      AllCaptured(captures, sources) && IsBreakdown(items, AllFacts(captures), query, dimension) ==>
        PlainRows(items, captures, query, dimension)
  }

  ghost predicate AllCaptured(captures: seq<Capture>, sources: seq<seq<Document>>) {
    AllTaken(captures, sources) && forall c <- captures :: ValidCapture(c)
  }

  /** The capture of one draft, of type and at location `key`. */
  function OneDraft(key: string, at: Time): Capture {
    var documents := [Document(key, key, Draft)];
    Capture(Snapshot("", at, Count(documents), Grouped(ByType, documents), Grouped(ByLocation, documents),
                     NO_WORKFLOW, NO_RELIABILITY), [key], [key])
  }

  lemma OneDraftIsCaptured(key: string, at: Time)
    requires key != ""
    ensures AllCaptured([OneDraft(key, at)], [[Document(key, key, Draft)]])
    ensures key in OneDraft(key, at).snapshot.byType && key in OneDraft(key, at).snapshot.byLocation
  {
    var d := Document(key, key, Draft);
    OneMore([], d, ByType);
    OneMore([], d, ByLocation);
    assert [] + [d] == [d];
    hide Bump, Count;
    assert Grouped(ByType, [d]).Keys == {key} && Grouped(ByLocation, [d]).Keys == {key};
    assert [key][..0] == [] && Distinct([]);
    assert Distinct([key]) && forall k :: k in [key] <==> k in {key};
  }

  lemma CrossFilterLoses(query: FactQuery, dimension: Dimension)
    requires CrossFilter(query, dimension) != "" && !EmptyWindow(query)
    ensures !AlwaysPlain(query, dimension)
  {
    var key := if OwnFilter(query, dimension) == "" then "k" else OwnFilter(query, dimension);
    var at := WindowHas(query);
    OneDraftIsCaptured(key, at);
    hide OneDraft, Count, Grouped, InWindow, CrossFilter, ValidCapture, FactsOf, TakenFrom;
    var captures := [OneDraft(key, at)];
    OneDraftIsSeen(query, dimension, key, at);
    forall k ensures !HasRow(AllFacts(captures), query, dimension, k) {
      CrossFilterIsEmpty(captures, query, dimension, k);
    }
    hide AllFacts, HasRow, KeySeen, WindowSum, AllCaptured;
    var none: seq<Row> := [];
    assert IsBreakdown(none, AllFacts(captures), query, dimension);
    assert !PlainRows(none, captures, query, dimension);
  }

  lemma OneDraftIsSeen(query: FactQuery, dimension: Dimension, key: string, at: Time)
    requires key != "" && InWindow(query, at)
    ensures KeySeen([OneDraft(key, at)], query, dimension, key)
  {
    OneDraftIsCaptured(key, at);
    hide Grouped, Count, InWindow;
    assert OneDraft(key, at) in [OneDraft(key, at)];
  }

  lemma {:induction false} EmptyWindowHasNothing(facts: seq<DocumentFact>, captures: seq<Capture>, query: FactQuery,
                                                 dimension: Dimension, key: string)
    requires EmptyWindow(query)
    ensures !HasRow(facts, query, dimension, key) && !KeySeen(captures, query, dimension, key)
  {
  }

  /**
   * A breakdown has the plain-sum rows, whatever was captured, exactly when the other dimension is not
   * filtered, or the window is empty and there is nothing to show.
   */
  lemma FilteredBreakdownExactly(query: FactQuery, dimension: Dimension)
    ensures AlwaysPlain(query, dimension) <==> CrossFilter(query, dimension) == "" || EmptyWindow(query)
  {
    hide AllFacts, IsBreakdown, PlainRows, CrossFilter;
    if CrossFilter(query, dimension) != "" && !EmptyWindow(query) {
      CrossFilterLoses(query, dimension);
    } else {
      forall captures, sources, items |
        AllCaptured(captures, sources) && IsBreakdown(items, AllFacts(captures), query, dimension)
        ensures PlainRows(items, captures, query, dimension)
      {
        if EmptyWindow(query) {
          NothingToShow(items, captures, query, dimension);
        } else {
          BreakdownIsPlainSum(items, captures, query, dimension);
        }
      }
    }
  }

  lemma NothingToShow(items: seq<Row>, captures: seq<Capture>, query: FactQuery, dimension: Dimension)
    requires EmptyWindow(query) && IsBreakdown(items, AllFacts(captures), query, dimension)
    ensures PlainRows(items, captures, query, dimension)
  {
    hide AllFacts, HasRow, KeySeen, WindowSum, RowOf, EmptyWindow;
    forall key ensures !HasRow(AllFacts(captures), query, dimension, key) && !KeySeen(captures, query, dimension, key) {
      EmptyWindowHasNothing(AllFacts(captures), captures, query, dimension, key);
    }
    forall row | row in items ensures HasRow(AllFacts(captures), query, dimension, row.key) {
    }
  }

  /** Each row has the number of documents of its key, and of those with each status, over the window. */
  ghost predicate RowsCount(items: seq<Row>, captures: seq<Capture>, sources: seq<seq<Document>>, query: FactQuery,
                            dimension: Dimension)
    requires |sources| == |captures|
  {
    forall row <- items :: row.kpi == DocumentSum(captures, sources, query, dimension, row.key)
  }

  /** There is a row for `key` exactly when its filter lets it through and there is a document of it. */
  ghost predicate RowIsDue(items: seq<Row>, captures: seq<Capture>, sources: seq<seq<Document>>, query: FactQuery,
                           dimension: Dimension, key: string)
    requires |sources| == |captures|
  {
    var own := if dimension == ByType then query.kind else query.location;
    (exists row <- items :: row.key == key) <==>
    (own == "" || key == own) && DocumentSeen(captures, sources, query, dimension, key)
  }

  ghost predicate RowsCover(items: seq<Row>, captures: seq<Capture>, sources: seq<seq<Document>>, query: FactQuery,
                            dimension: Dimension)
    requires |sources| == |captures|
  {
    forall key | key != "" :: RowIsDue(items, captures, sources, query, dimension, key)
  }

  lemma PassesMeaning(query: FactQuery, dimension: Dimension, key: string)
    ensures var own := if dimension == ByType then query.kind else query.location;
      Passes(query, dimension, key) <==> own == "" || key == own
  {
  }

  lemma PlainRowsCover(items: seq<Row>, captures: seq<Capture>, sources: seq<seq<Document>>, query: FactQuery,
                       dimension: Dimension)
    requires AllTaken(captures, sources) && PlainRows(items, captures, query, dimension)
    ensures RowsCover(items, captures, sources, query, dimension)
  {
    assert |sources| == |captures|;
    hide WindowSum, KeySeen, DocumentSeen, AllTaken, Passes;
    forall key | key != "" ensures RowIsDue(items, captures, sources, query, dimension, key) {
      PassesMeaning(query, dimension, key);
      KeySeenInDocuments(captures, sources, query, dimension, key);
    }
  }

  lemma PlainRowsCount(items: seq<Row>, captures: seq<Capture>, sources: seq<seq<Document>>, query: FactQuery,
                       dimension: Dimension)
    requires AllTaken(captures, sources) && PlainRows(items, captures, query, dimension)
    ensures RowsCount(items, captures, sources, query, dimension)
  {
    assert |sources| == |captures|;
    hide WindowSum, DocumentSum, AllTaken, Passes, KeySeen;
    forall row | row in items ensures row.kpi == DocumentSum(captures, sources, query, dimension, row.key) {
      WindowSumCounts(captures, sources, query, dimension, row.key);
    }
  }

  /**
   * From documents to rows, as long as the other dimension is not filtered: a row has the number of
   * documents of its key, and of those with each status, once for each capture in the window; and it is
   * there exactly when its own filter is blank or names it and there is such a document.
   */
  lemma RowsCountDocuments(items: seq<Row>, captures: seq<Capture>, sources: seq<seq<Document>>, query: FactQuery,
                           dimension: Dimension)
    requires (forall c <- captures :: ValidCapture(c)) && AllTaken(captures, sources)
    requires (if dimension == ByType then query.location else query.kind) == ""
    requires IsBreakdown(items, AllFacts(captures), query, dimension)
    ensures RowsCount(items, captures, sources, query, dimension)
    ensures RowsCover(items, captures, sources, query, dimension)
  {
    hide ValidCapture, AllTaken, IsBreakdown, AllFacts, RowsCount, RowsCover, PlainRows;
    BreakdownIsPlainSum(items, captures, query, dimension);
    PlainRowsCount(items, captures, sources, query, dimension);
    PlainRowsCover(items, captures, sources, query, dimension);
  }

  lemma NamedRow(items: seq<Row>, facts: seq<DocumentFact>, query: FactQuery, dimension: Dimension, row: Row)
    requires IsBreakdown(items, facts, query, dimension) && row in items
    ensures HasRow(facts, query, dimension, row.key)
  {
    hide HasRow;
    assert HasRow(facts, query, dimension, row.key);
  }

  method RowsOf(rows: map<string, DocumentKpi>, dimension: Dimension) returns (items: seq<Row>)
    ensures forall row <- items :: row.key in rows && row == Row(dimension, row.key, rows[row.key])
    ensures forall key <- rows :: Row(dimension, key, rows[key]) in items
    ensures forall i, j :: 0 <= i < j < |items| ==> items[i].key != items[j].key
  {
    items := [];
    var left := rows.Keys;
    while left != {}
      invariant left <= rows.Keys
      invariant forall row <- items :: row.key in rows && row.key !in left
      invariant forall row <- items :: row == Row(dimension, row.key, rows[row.key])
      invariant forall key <- rows :: key !in left ==> Row(dimension, key, rows[key]) in items
      invariant forall i, j :: 0 <= i < j < |items| ==> items[i].key != items[j].key
      decreases left
    {
      var key :| key in left;
      items, left := items + [Row(dimension, key, rows[key])], left - {key};
    }
  }

  lemma RowOrder()
    ensures StrictWeakOrder(RowBefore)
  {
    forall a, b, c: Row
      ensures !RowBefore(a, a)
      ensures RowBefore(a, b) && RowBefore(b, c) ==> RowBefore(a, c)
      ensures RowBefore(a, c) ==> RowBefore(a, b) || RowBefore(b, c)
    {
      StringOrder(a.key, b.key, c.key);
    }
  }

  lemma SortedRows(items: seq<Row>, unsorted: seq<Row>)
    requires Arrangement(items, unsorted, RowBefore)
    requires DistinctKeys(unsorted, (row: Row) => row.key)
    ensures forall i, j :: 0 <= i < j < |items| ==> StringLess(items[i].key, items[j].key)
  {
    DistinctKeysKept(items, unsorted, (row: Row) => row.key);
    forall i, j | 0 <= i < j < |items| ensures StringLess(items[i].key, items[j].key) {
      StringLessTotal(items[i].key, items[j].key);
    }
  }

  /** The snapshots that a cleanup at `cutoff` retains. */
  function Since(cutoff: Time, snapshots: seq<Snapshot>): seq<Snapshot> {
    if snapshots == [] then []
    else
      var rest := Since(cutoff, snapshots[..|snapshots| - 1]);
      var s := snapshots[|snapshots| - 1];
      if s.generatedAt < cutoff then rest else rest + [s]
  }

  lemma {:induction false} SinceCount(cutoff: Time, snapshots: seq<Snapshot>, x: Snapshot)
    ensures multiset(Since(cutoff, snapshots))[x] == if x.generatedAt < cutoff then 0 else multiset(snapshots)[x]
    decreases |snapshots|
  {
    if snapshots != [] {
      var n := |snapshots| - 1;
      assert snapshots == snapshots[..n] + [snapshots[n]];
      SinceCount(cutoff, snapshots[..n], x);
    }
  }
}
