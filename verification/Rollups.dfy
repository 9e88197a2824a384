/** What a stored rollup should be: the plain sum over the snapshots of its bucket. */
module Rollups {
  import opened Calendar
  import opened Counting
  import opened Buckets
  import opened Timestamps
  import opened Kpi
  import opened Sorting

  datatype Totals = Totals(
    count: nat,
    documents: DocumentKpi,
    byType: Segments,
    byLocation: Segments,
    workflow: WorkflowKpi,
    reliability: ReliabilityKpi)

  datatype Rollup = Rollup(id: string, granularity: Granularity, start: Time, end: Time, totals: Totals)

  const NOTHING := Totals(0, NO_DOCUMENTS, map[], map[], NO_WORKFLOW, NO_RELIABILITY)

  function AddSnapshot(t: Totals, s: Snapshot): Totals {
    Totals(t.count + 1, Plus(t.documents, s.documents),
           Merged(t.byType, s.byType), Merged(t.byLocation, s.byLocation),
           PlusWorkflow(t.workflow, s.workflow), PlusReliability(t.reliability, s.reliability))
  }

  /** The plain sum over a list of snapshots. */
  function Total(snapshots: seq<Snapshot>): Totals {
    if snapshots == [] then NOTHING
    else AddSnapshot(Total(snapshots[..|snapshots| - 1]), snapshots[|snapshots| - 1])
  }

  function StartOf(granularity: Granularity, s: Snapshot): Time {
    BucketRange(granularity, s.generatedAt).0
  }

  /** The snapshots of the bucket that starts at `start`. */
  function InBucket(granularity: Granularity, start: Time, snapshots: seq<Snapshot>): seq<Snapshot> {
    if snapshots == [] then []
    else
      var rest := InBucket(granularity, start, snapshots[..|snapshots| - 1]);
      var s := snapshots[|snapshots| - 1];
      if StartOf(granularity, s) == start then rest + [s] else rest
  }

  /** The rollup due to the bucket that holds `t`. */
  function RollupAt(granularity: Granularity, t: Time, snapshots: seq<Snapshot>): Rollup {
    var (start, end) := BucketRange(granularity, t);
    Rollup(Key(granularity, start), granularity, start, end, Total(InBucket(granularity, start, snapshots)))
  }

  // ---- The sum does not depend on the order of the snapshots ----

  lemma AddCommutes(t: Totals, x: Snapshot, y: Snapshot)
    ensures AddSnapshot(AddSnapshot(t, x), y) == AddSnapshot(AddSnapshot(t, y), x)
  {
    MergeCommutes(t.byType, x.byType, y.byType);
    MergeCommutes(t.byLocation, x.byLocation, y.byLocation);
  }

  lemma MergeCommutes(a: Segments, b: Segments, c: Segments)
    ensures Merged(Merged(a, b), c) == Merged(Merged(a, c), b)
  {
    var left, right := Merged(Merged(a, b), c), Merged(Merged(a, c), b);
    assert left.Keys == right.Keys;
    forall key | key in left ensures left[key] == right[key] {
      MergedAt(a, b, key);
      MergedAt(a, c, key);
      PlusCommutes(At(a, key), At(b, key), At(c, key));
    }
  }

  lemma MergedAt(a: Segments, b: Segments, key: string)
    ensures At(Merged(a, b), key) == Plus(At(a, key), At(b, key))
    ensures key in Merged(a, b) <==> key in a || key in b
  {
  }

  lemma PlusCommutes(a: DocumentKpi, b: DocumentKpi, c: DocumentKpi)
    ensures Plus(Plus(a, b), c) == Plus(Plus(a, c), b)
  {
  }

  lemma {:induction false} TotalRemove(snapshots: seq<Snapshot>, i: nat)
    requires i < |snapshots|
    ensures Total(snapshots) == AddSnapshot(Total(snapshots[..i] + snapshots[i + 1..]), snapshots[i])
    decreases |snapshots|
  {
    hide AddSnapshot;
    var n := |snapshots| - 1;
    var init, last := snapshots[..n], snapshots[n];
    if i == n {
      assert snapshots[..i] + snapshots[i + 1..] == init;
    } else {
      var rest := snapshots[..i] + snapshots[i + 1..];
      assert rest[..n - 1] == init[..i] + init[i + 1..] && rest[n - 1] == last;
      TotalRemove(init, i);
      assert init[i] == snapshots[i];
      AddCommutes(Total(rest[..n - 1]), snapshots[i], last);
    }
  }

  lemma {:induction false} TotalOrder(a: seq<Snapshot>, b: seq<Snapshot>)
    requires multiset(a) == multiset(b)
    ensures Total(a) == Total(b)
    decreases |a|
  {
    if a == [] {
      assert |multiset(b)| == 0;
    } else {
      hide AddSnapshot;
      var i := TakeOut(a, b);
      TotalOrder(a[..|a| - 1], b[..i] + b[i + 1..]);
      TotalRemove(b, i);
    }
  }

  lemma {:induction false} InBucketCount(granularity: Granularity, start: Time, snapshots: seq<Snapshot>, x: Snapshot)
    ensures multiset(InBucket(granularity, start, snapshots))[x]
         == if StartOf(granularity, x) == start then multiset(snapshots)[x] else 0
    decreases |snapshots|
  {
    if snapshots != [] {
      hide BucketRange;
      var n := |snapshots| - 1;
      assert snapshots == snapshots[..n] + [snapshots[n]];
      InBucketCount(granularity, start, snapshots[..n], x);
    }
  }

  lemma RollupOrder(granularity: Granularity, t: Time, a: seq<Snapshot>, b: seq<Snapshot>)
    requires multiset(a) == multiset(b)
    ensures RollupAt(granularity, t, a) == RollupAt(granularity, t, b)
  {
    hide BucketRange, Key;
    var start := BucketRange(granularity, t).0;
    forall x ensures multiset(InBucket(granularity, start, a))[x] == multiset(InBucket(granularity, start, b))[x] {
      InBucketCount(granularity, start, a, x);
      InBucketCount(granularity, start, b, x);
    }
    TotalOrder(InBucket(granularity, start, a), InBucket(granularity, start, b));
  }

  // ---- The sum field by field ----

  function Documents(): Snapshot -> DocumentKpi {
    (s: Snapshot) => s.documents
  }

  function OfType(key: string): Snapshot -> DocumentKpi {
    (s: Snapshot) => if key in s.byType then s.byType[key] else NO_DOCUMENTS
  }

  function AtLocation(key: string): Snapshot -> DocumentKpi {
    (s: Snapshot) => if key in s.byLocation then s.byLocation[key] else NO_DOCUMENTS
  }

  /** Each counter summed by itself over the snapshots. */
  function DocumentSums(snapshots: seq<Snapshot>, part: Snapshot -> DocumentKpi): DocumentKpi {
    DocumentKpi(Sum(snapshots, s => part(s).created), Sum(snapshots, s => part(s).draft),
                Sum(snapshots, s => part(s).submitted), Sum(snapshots, s => part(s).approved),
                Sum(snapshots, s => part(s).rejected), Sum(snapshots, s => part(s).cancelled))
  }

  function WorkflowSums(snapshots: seq<Snapshot>): WorkflowKpi {
    WorkflowKpi(Sum(snapshots, (s: Snapshot) => s.workflow.openTasks),
                Sum(snapshots, (s: Snapshot) => s.workflow.pendingApprovals),
                Sum(snapshots, (s: Snapshot) => s.workflow.completedTasks))
  }

  function ReliabilitySums(snapshots: seq<Snapshot>): ReliabilityKpi {
    ReliabilityKpi(Sum(snapshots, (s: Snapshot) => s.reliability.outboxPending),
                   Sum(snapshots, (s: Snapshot) => s.reliability.deadLetters),
                   Sum(snapshots, (s: Snapshot) => s.reliability.dispatchSuccess),
                   Sum(snapshots, (s: Snapshot) => s.reliability.dispatchRetries))
  }

  ghost predicate AddsUp(t: Totals, snapshots: seq<Snapshot>) {
    && t.count == |snapshots|
    && t.documents == DocumentSums(snapshots, Documents())
    && t.workflow == WorkflowSums(snapshots)
    && t.reliability == ReliabilitySums(snapshots)
    && (forall key :: key in t.byType <==> exists s <- snapshots :: key in s.byType)
    && (forall key <- t.byType :: t.byType[key] == DocumentSums(snapshots, OfType(key)))
    && (forall key :: key in t.byLocation <==> exists s <- snapshots :: key in s.byLocation)
    && (forall key <- t.byLocation :: t.byLocation[key] == DocumentSums(snapshots, AtLocation(key)))
  }

  lemma DocumentSumsMore(snapshots: seq<Snapshot>, s: Snapshot, part: Snapshot -> DocumentKpi)
    ensures DocumentSums(snapshots + [s], part) == Plus(DocumentSums(snapshots, part), part(s))
  {
    assert (snapshots + [s])[..|snapshots|] == snapshots;
  }

  lemma OtherSumsMore(snapshots: seq<Snapshot>, s: Snapshot)
    ensures WorkflowSums(snapshots + [s]) == PlusWorkflow(WorkflowSums(snapshots), s.workflow)
    ensures ReliabilitySums(snapshots + [s]) == PlusReliability(ReliabilitySums(snapshots), s.reliability)
  {
    assert (snapshots + [s])[..|snapshots|] == snapshots;
  }

  lemma TotalMore(snapshots: seq<Snapshot>, s: Snapshot)
    ensures Total(snapshots + [s]) == AddSnapshot(Total(snapshots), s)
  {
    assert (snapshots + [s])[..|snapshots|] == snapshots;
  }

  lemma SegmentMore(t: Totals, s: Snapshot, key: string)
    ensures At(AddSnapshot(t, s).byType, key) == Plus(At(t.byType, key), OfType(key)(s))
    ensures At(AddSnapshot(t, s).byLocation, key) == Plus(At(t.byLocation, key), AtLocation(key)(s))
    ensures key in AddSnapshot(t, s).byType <==> key in t.byType || key in s.byType
    ensures key in AddSnapshot(t, s).byLocation <==> key in t.byLocation || key in s.byLocation
  {
    hide Merged, Plus;
    MergedAt(t.byType, s.byType, key);
    MergedAt(t.byLocation, s.byLocation, key);
  }

  lemma NoSegments(key: string)
    ensures At(Total([]).byType, key) == DocumentSums([], OfType(key)) && key !in Total([]).byType
    ensures At(Total([]).byLocation, key) == DocumentSums([], AtLocation(key)) && key !in Total([]).byLocation
  {
  }

  /** The segments of a total, also where a key is in none of the snapshots. */
  lemma {:induction false} SegmentsAddUp(snapshots: seq<Snapshot>, key: string)
    ensures At(Total(snapshots).byType, key) == DocumentSums(snapshots, OfType(key))
    ensures At(Total(snapshots).byLocation, key) == DocumentSums(snapshots, AtLocation(key))
    ensures key in Total(snapshots).byType <==> exists s <- snapshots :: key in s.byType
    ensures key in Total(snapshots).byLocation <==> exists s <- snapshots :: key in s.byLocation
    decreases |snapshots|
  {
    hide *;
    if snapshots == [] {
      NoSegments(key);
    } else {
      var init, s := snapshots[..|snapshots| - 1], snapshots[|snapshots| - 1];
      SegmentsAddUp(init, key);
      assert snapshots == init + [s];
      TotalMore(init, s);
      SegmentMore(Total(init), s, key);
      DocumentSumsMore(init, s, OfType(key));
      DocumentSumsMore(init, s, AtLocation(key));
    }
  }

  lemma {:induction false} FieldsAddUp(snapshots: seq<Snapshot>)
    ensures var t := Total(snapshots);
      && t.count == |snapshots|
      && t.documents == DocumentSums(snapshots, Documents())
      && t.workflow == WorkflowSums(snapshots) && t.reliability == ReliabilitySums(snapshots)
    decreases |snapshots|
  {
    if snapshots != [] {
      hide DocumentSums, WorkflowSums, ReliabilitySums, Plus, PlusWorkflow, PlusReliability, Merged;
      var init, s := snapshots[..|snapshots| - 1], snapshots[|snapshots| - 1];
      FieldsAddUp(init);
      assert snapshots == init + [s];
      DocumentSumsMore(init, s, Documents());
      OtherSumsMore(init, s);
    }
  }

  lemma TotalAddsUp(snapshots: seq<Snapshot>)
    ensures AddsUp(Total(snapshots), snapshots)
  {
    hide Total, DocumentSums, WorkflowSums, ReliabilitySums;
    FieldsAddUp(snapshots);
    forall key
      ensures At(Total(snapshots).byType, key) == DocumentSums(snapshots, OfType(key))
      ensures At(Total(snapshots).byLocation, key) == DocumentSums(snapshots, AtLocation(key))
      ensures key in Total(snapshots).byType <==> exists s <- snapshots :: key in s.byType
      ensures key in Total(snapshots).byLocation <==> exists s <- snapshots :: key in s.byLocation
    {
      SegmentsAddUp(snapshots, key);
    }
  }

  /** The snapshots generated from `start` on and before `end`. */
  function Within(start: Time, end: Time, snapshots: seq<Snapshot>): seq<Snapshot> {
    if snapshots == [] then []
    else
      var rest := Within(start, end, snapshots[..|snapshots| - 1]);
      var s := snapshots[|snapshots| - 1];
      if start <= s.generatedAt < end then rest + [s] else rest
  }

  lemma {:induction false} InBucketIsWithin(granularity: Granularity, t: Time, snapshots: seq<Snapshot>)
    ensures var (start, end) := BucketRange(granularity, t);
      InBucket(granularity, start, snapshots) == Within(start, end, snapshots)
    decreases |snapshots|
  {
    if snapshots != [] {
      hide BucketRange;
      InBucketIsWithin(granularity, t, snapshots[..|snapshots| - 1]);
      BucketsPartition(granularity, t, snapshots[|snapshots| - 1].generatedAt);
    }
  }

  /**
   * The rollup due to a bucket has the number of snapshots generated in it, and every counter of it,
   * also per type and per location, is the sum of that counter over those snapshots.
   */
  lemma RollupMeaning(granularity: Granularity, t: Time, snapshots: seq<Snapshot>)
    ensures var r := RollupAt(granularity, t, snapshots);
      && r.start <= t < r.end
      && AddsUp(r.totals, Within(r.start, r.end, snapshots))
  {
    hide BucketRange, Total, AddsUp, Key;
    BucketsPartition(granularity, t, t);
    InBucketIsWithin(granularity, t, snapshots);
    TotalAddsUp(Within(BucketRange(granularity, t).0, BucketRange(granularity, t).1, snapshots));
  }

  // ---- One more snapshot ----

  lemma RollupSame(granularity: Granularity, t: Time, u: Time, snapshots: seq<Snapshot>)
    requires BucketRange(granularity, t).0 == BucketRange(granularity, u).0
    ensures RollupAt(granularity, t, snapshots) == RollupAt(granularity, u, snapshots)
  {
    hide BucketRange, Key;
    BucketsPartition(granularity, t, u);
  }

  lemma RollupMore(granularity: Granularity, t: Time, snapshots: seq<Snapshot>, s: Snapshot)
    ensures var r := RollupAt(granularity, t, snapshots);
      RollupAt(granularity, t, snapshots + [s])
      == if StartOf(granularity, s) == BucketRange(granularity, t).0 then r.(totals := AddSnapshot(r.totals, s)) else r
  {
    hide BucketRange, Key, AddSnapshot;
    var start := BucketRange(granularity, t).0;
    assert (snapshots + [s])[..|snapshots|] == snapshots;
    var inside := InBucket(granularity, start, snapshots);
    assert (inside + [s])[..|inside|] == inside;
  }

  // ---- The stored form and the plain sum ----

  /** Every bucket that holds a retained snapshot has its exact sum stored, at every granularity. */
  ghost predicate Agrees(rollups: map<string, Rollup>, snapshots: seq<Snapshot>) {
    forall g: Granularity, s <- snapshots :: Holds(rollups, RollupAt(g, s.generatedAt, snapshots))
  }

  predicate Holds(rollups: map<string, Rollup>, r: Rollup) {
    r.id in rollups && rollups[r.id] == r
  }

  /** Rollups of buckets that hold no retained snapshot. */
  ghost predicate Stale(id: string, snapshots: seq<Snapshot>) {
    forall g: Granularity, s <- snapshots :: RollupAt(g, s.generatedAt, snapshots).id != id
  }

  lemma SameId(g: Granularity, t: Time, h: Granularity, u: Time, snapshots: seq<Snapshot>)
    requires RollupAt(g, t, snapshots).id == RollupAt(h, u, snapshots).id
    ensures RollupAt(g, t, snapshots) == RollupAt(h, u, snapshots)
  {
    hide BucketRange, Key, Total;
    KeyInjective(g, t, h, u);
    RollupSame(g, t, u, snapshots);
  }
}
