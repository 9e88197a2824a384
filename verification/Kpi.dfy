/** Document counters, segment maps of counters, and snapshots. Counters are unbounded integers. */
module Kpi {
  import opened Calendar

  datatype DocumentKpi = DocumentKpi(created: int, draft: int, submitted: int, approved: int, rejected: int,
                                     cancelled: int)

  datatype WorkflowKpi = WorkflowKpi(openTasks: int, pendingApprovals: int, completedTasks: int)

  datatype ReliabilityKpi = ReliabilityKpi(outboxPending: int, deadLetters: int, dispatchSuccess: int,
                                           dispatchRetries: int)

  type Segments = map<string, DocumentKpi>

  datatype Snapshot = Snapshot(
    id: string,
    generatedAt: Time,
    documents: DocumentKpi,
    byType: Segments,
    byLocation: Segments,
    workflow: WorkflowKpi,
    reliability: ReliabilityKpi)

  const NO_DOCUMENTS := DocumentKpi(0, 0, 0, 0, 0, 0)
  const NO_WORKFLOW := WorkflowKpi(0, 0, 0)
  const NO_RELIABILITY := ReliabilityKpi(0, 0, 0, 0)

  function Plus(a: DocumentKpi, b: DocumentKpi): DocumentKpi {
    DocumentKpi(a.created + b.created, a.draft + b.draft, a.submitted + b.submitted,
                a.approved + b.approved, a.rejected + b.rejected, a.cancelled + b.cancelled)
  }

  function PlusWorkflow(a: WorkflowKpi, b: WorkflowKpi): WorkflowKpi {
    WorkflowKpi(a.openTasks + b.openTasks, a.pendingApprovals + b.pendingApprovals, a.completedTasks + b.completedTasks)
  }

  function PlusReliability(a: ReliabilityKpi, b: ReliabilityKpi): ReliabilityKpi {
    ReliabilityKpi(a.outboxPending + b.outboxPending, a.deadLetters + b.deadLetters,
                   a.dispatchSuccess + b.dispatchSuccess, a.dispatchRetries + b.dispatchRetries)
  }

  /** A Go map lookup: a missing key reads as the zero value. */
  function At(segments: Segments, key: string): DocumentKpi {
    if key in segments then segments[key] else NO_DOCUMENTS
  }

  /** The field-wise sum of two segment maps, over the keys of both. */
  function Merged(a: Segments, b: Segments): Segments {
    map key <- a.Keys + b.Keys :: Plus(At(a, key), At(b, key))
  }

  // ---- Sums over the entries of a map ----

  /** The sum of `f` over the entries, taken in some order. */
  ghost function SumOver<V>(m: map<string, V>, f: V -> int): int
    decreases |m|
  {
    if m == map[] then 0
    else
      assert |m| > 0;
      var key :| key in m;
      assert |m - {key}| < |m| by { assert m.Keys == (m - {key}).Keys + {key}; }
      f(m[key]) + SumOver(m - {key}, f)
  }

  /** The order does not matter: any entry can be taken first. */
  lemma {:induction false} SumOverRemove<V>(m: map<string, V>, key: string, f: V -> int)
    requires key in m
    ensures SumOver(m, f) == f(m[key]) + SumOver(m - {key}, f)
    decreases |m|
  {
    var first :| first in m && SumOver(m, f) == f(m[first]) + SumOver(m - {first}, f);
    if first != key {
      assert |m - {first}| < |m| by { assert m.Keys == (m - {first}).Keys + {first}; }
      assert |m - {key}| < |m| by { assert m.Keys == (m - {key}).Keys + {key}; }
      SumOverRemove(m - {first}, key, f);
      SumOverRemove(m - {key}, first, f);
      assert m - {first} - {key} == m - {key} - {first};
    }
  }

  lemma SumOverUpdate<V>(m: map<string, V>, key: string, v: V, f: V -> int)
    ensures SumOver(m[key := v], f) == SumOver(m - {key}, f) + f(v)
  {
    SumOverRemove(m[key := v], key, f);
    assert m[key := v] - {key} == m - {key};
  }
}
