/** From documents to snapshots, from snapshots to facts, and from facts to report rows. */
module Reporting {
  import opened Calendar
  import opened Counting
  import opened Kpi

  datatype Status = Draft | Submitted | Approved | Rejected | Cancelled | OtherStatus(text: string)

  datatype Document = Document(kind: string, location: string, status: Status)

  /** ReportingBreakdown groups by location, or by document type for any other dimension name. */
  datatype Dimension = ByType | ByLocation

  // ---- Snapshots of documents ----

  function Increment(kpi: DocumentKpi, status: Status): DocumentKpi {
    match status
    case Draft => kpi.(draft := kpi.draft + 1)
    case Submitted => kpi.(submitted := kpi.submitted + 1)
    case Approved => kpi.(approved := kpi.approved + 1)
    case Rejected => kpi.(rejected := kpi.rejected + 1)
    case Cancelled => kpi.(cancelled := kpi.cancelled + 1)
    case OtherStatus(_) => kpi
  }

  function Bump(kpi: DocumentKpi, d: Document): DocumentKpi {
    Increment(kpi.(created := kpi.created + 1), d.status)
  }

  function Count(documents: seq<Document>): DocumentKpi {
    if documents == [] then NO_DOCUMENTS
    else Bump(Count(documents[..|documents| - 1]), documents[|documents| - 1])
  }

  function GroupKey(dimension: Dimension, d: Document): string {
    match dimension
    case ByType => d.kind
    case ByLocation => if d.location == "" then "unscoped" else d.location
  }

  function Grouped(dimension: Dimension, documents: seq<Document>): Segments {
    if documents == [] then map[]
    else
      var rest := Grouped(dimension, documents[..|documents| - 1]);
      var d := documents[|documents| - 1];
      rest[GroupKey(dimension, d) := Bump(At(rest, GroupKey(dimension, d)), d)]
  }

  lemma OneMore(documents: seq<Document>, d: Document, dimension: Dimension)
    ensures Count(documents + [d]) == Bump(Count(documents), d)
    ensures var groups, key := Grouped(dimension, documents), GroupKey(dimension, d);
      Grouped(dimension, documents + [d]) == groups[key := Bump(At(groups, key), d)]
  {
    assert (documents + [d])[..|documents|] == documents;
  }

  // ---- What the counters mean ----

  function Everyone(): Document -> bool {
    (d: Document) => true
  }

  /** The documents of a type, or those at a location; the ones without a location go by "unscoped". */
  function Carrying(dimension: Dimension, key: string): Document -> bool {
    (d: Document) =>
      match dimension
      case ByType => d.kind == key
      case ByLocation => if key == "unscoped" then d.location in {"", "unscoped"} else key == d.location != ""
  }

  function With(chosen: Document -> bool, status: Status): Document -> bool {
    (d: Document) => chosen(d) && d.status == status
  }

  /** The number of chosen documents, and the number of those with each of the five statuses. */
  ghost function Tally(documents: seq<Document>, chosen: Document -> bool): DocumentKpi {
    DocumentKpi(HowMany(documents, chosen),
                HowMany(documents, With(chosen, Draft)),
                HowMany(documents, With(chosen, Submitted)),
                HowMany(documents, With(chosen, Approved)),
                HowMany(documents, With(chosen, Rejected)),
                HowMany(documents, With(chosen, Cancelled)))
  }

  lemma TallyNone(chosen: Document -> bool)
    ensures Tally([], chosen) == NO_DOCUMENTS
  {
    assert forall counts: Document -> bool :: Places([], counts) == {};
  }

  lemma TallyMore(documents: seq<Document>, d: Document, chosen: Document -> bool)
    ensures Tally(documents + [d], chosen)
         == if chosen(d) then Bump(Tally(documents, chosen), d) else Tally(documents, chosen)
  {
    hide HowMany;
    HowManyMore(documents, d, chosen);
    HowManyMore(documents, d, With(chosen, Draft));
    HowManyMore(documents, d, With(chosen, Submitted));
    HowManyMore(documents, d, With(chosen, Approved));
    HowManyMore(documents, d, With(chosen, Rejected));
    HowManyMore(documents, d, With(chosen, Cancelled));
  }

  /**
   * The counters of a list of documents are its length and, for each of the five statuses, the number
   * of documents with that very status; one with any other status counts as created only.
   */
  lemma {:induction false} CountIsTally(documents: seq<Document>)
    ensures Count(documents) == Tally(documents, Everyone())
    decreases |documents|
  {
    if documents == [] {
      TallyNone(Everyone());
    } else {
      hide Bump, Tally;
      var n := |documents| - 1;
      CountIsTally(documents[..n]);
      assert documents == documents[..n] + [documents[n]];
      TallyMore(documents[..n], documents[n], Everyone());
    }
  }

  /** And the counters of a segment are those of the documents that carry its key. */
  lemma {:induction false} GroupedIsTally(dimension: Dimension, documents: seq<Document>, key: string)
    ensures At(Grouped(dimension, documents), key) == Tally(documents, Carrying(dimension, key))
    ensures key in Grouped(dimension, documents) <==> exists d <- documents :: Carrying(dimension, key)(d)
    decreases |documents|
  {
    if documents == [] {
      TallyNone(Carrying(dimension, key));
    } else {
      hide Bump, Tally;
      var n := |documents| - 1;
      GroupedIsTally(dimension, documents[..n], key);
      assert documents == documents[..n] + [documents[n]];
      TallyMore(documents[..n], documents[n], Carrying(dimension, key));
    }
  }

  ghost predicate SegmentsCount(segments: Segments, dimension: Dimension, documents: seq<Document>) {
    && (forall key :: At(segments, key) == Tally(documents, Carrying(dimension, key)))
    && (forall key :: key in segments <==> exists d <- documents :: Carrying(dimension, key)(d))
  }

  lemma GroupedCounts(dimension: Dimension, documents: seq<Document>)
    ensures SegmentsCount(Grouped(dimension, documents), dimension, documents)
  {
    hide Grouped, Tally, Carrying, At;
    forall key
      ensures At(Grouped(dimension, documents), key) == Tally(documents, Carrying(dimension, key))
      ensures key in Grouped(dimension, documents) <==> exists d <- documents :: Carrying(dimension, key)(d)
    {
      GroupedIsTally(dimension, documents, key);
    }
  }

  lemma SnapshotCounts(documents: seq<Document>)
    ensures Count(documents) == Tally(documents, Everyone()) && Count(documents).created == |documents|
    ensures SegmentsCount(Grouped(ByType, documents), ByType, documents)
    ensures SegmentsCount(Grouped(ByLocation, documents), ByLocation, documents)
  {
    CountIsTally(documents);
    CreatedIsLength(documents);
    GroupedCounts(ByType, documents);
    GroupedCounts(ByLocation, documents);
  }

  lemma NothingCounted()
    ensures Count([]) == NO_DOCUMENTS && Grouped(ByType, []) == map[] == Grouped(ByLocation, [])
  {
  }

  lemma {:induction false} CreatedIsLength(documents: seq<Document>)
    ensures Count(documents).created == |documents|
    decreases |documents|
  {
    if documents != [] {
      CreatedIsLength(documents[..|documents| - 1]);
    }
  }

  method TakeSnapshot(documents: seq<Document>) returns (docs: DocumentKpi, byType: Segments, byLocation: Segments)
    ensures docs == Tally(documents, Everyone()) && docs.created == |documents|
    ensures SegmentsCount(byType, ByType, documents) && SegmentsCount(byLocation, ByLocation, documents)
    ensures docs == Count(documents)
    ensures byType == Grouped(ByType, documents) && byLocation == Grouped(ByLocation, documents)
  {
    hide Tally, SegmentsCount, Everyone, Count, Grouped, Increment, At;
    SnapshotCounts(documents);
    NothingCounted();
    docs, byType, byLocation := NO_DOCUMENTS, map[], map[];
    for i := 0 to |documents|
      invariant docs == Count(documents[..i])
      invariant byType == Grouped(ByType, documents[..i]) && byLocation == Grouped(ByLocation, documents[..i])
    {
      var record := documents[i];
      assert documents[..i + 1] == documents[..i] + [record];
      OneMore(documents[..i], record, ByType);
      OneMore(documents[..i], record, ByLocation);
      docs := docs.(created := docs.created + 1);
      docs := Increment(docs, record.status);
      var typeKpi := At(byType, record.kind);
      typeKpi := typeKpi.(created := typeKpi.created + 1);
      typeKpi := Increment(typeKpi, record.status);
      byType := byType[record.kind := typeKpi];
      var locationKey := record.location;
      if locationKey == "" {
        locationKey := "unscoped";
      }
      var locationKpi := At(byLocation, locationKey);
      locationKpi := locationKpi.(created := locationKpi.created + 1);
      locationKpi := Increment(locationKpi, record.status);
      byLocation := byLocation[locationKey := locationKpi];
    }
    assert documents[..|documents|] == documents;
  }

  datatype Field = Created | InDraft | InSubmitted | InApproved | InRejected | InCancelled

  function Read(field: Field): DocumentKpi -> int {
    (kpi: DocumentKpi) =>
      match field
      case Created => kpi.created
      case InDraft => kpi.draft
      case InSubmitted => kpi.submitted
      case InApproved => kpi.approved
      case InRejected => kpi.rejected
      case InCancelled => kpi.cancelled
  }

  lemma BumpIsUniform(a: DocumentKpi, b: DocumentKpi, d: Document, field: Field)
    ensures Read(field)(Bump(a, d)) - Read(field)(a) == Read(field)(Bump(b, d)) - Read(field)(b)
  {
  }

  /** Per type and per location, every counter of the segments sums to the document total. */
  lemma {:induction false} SegmentsSumToTotals(dimension: Dimension, documents: seq<Document>, field: Field)
    ensures SumOver(Grouped(dimension, documents), Read(field)) == Read(field)(Count(documents))
    decreases |documents|
  {
    if documents != [] {
      var n := |documents| - 1;
      var rest, d := Grouped(dimension, documents[..n]), documents[n];
      var key, f := GroupKey(dimension, d), Read(field);
      SegmentsSumToTotals(dimension, documents[..n], field);
      SumOverUpdate(rest, key, Bump(At(rest, key), d), f);
      if key in rest {
        SumOverRemove(rest, key, f);
      } else {
        assert rest - {key} == rest;
      }
      BumpIsUniform(At(rest, key), Count(documents[..n]), d, field);
    }
  }

  // ---- Facts ----

  datatype DocumentFact = DocumentFact(snapshotId: string, capturedAt: Time, location: string, kind: string,
                                       kpi: DocumentKpi)

  /** A zero time means no bound, an empty text no filter. */
  datatype FactQuery = FactQuery(from: Time, to: Time, location: string, kind: string)

  predicate InWindow(query: FactQuery, at: Time) {
    (query.from == 0 || query.from <= at) && (query.to == 0 || at <= query.to)
  }

  predicate Matches(query: FactQuery, fact: DocumentFact) {
    && InWindow(query, fact.capturedAt)
    && (query.location == "" || fact.location == query.location)
    && (query.kind == "" || fact.kind == query.kind)
  }

  function FactKey(dimension: Dimension, fact: DocumentFact): string {
    match dimension
    case ByType => fact.kind
    case ByLocation => fact.location
  }

  function SegmentsOf(dimension: Dimension, s: Snapshot): Segments {
    match dimension
    case ByType => s.byType
    case ByLocation => s.byLocation
  }

  function FactFor(dimension: Dimension, s: Snapshot, key: string): DocumentFact {
    match dimension
    case ByType => DocumentFact(s.id, s.generatedAt, "", key, At(s.byType, key))
    case ByLocation => DocumentFact(s.id, s.generatedAt, key, "", At(s.byLocation, key))
  }

  /** The facts of one segment map, in the order in which its keys were visited. */
  function FactsFor(dimension: Dimension, s: Snapshot, order: seq<string>): seq<DocumentFact> {
    if order == [] then []
    else FactsFor(dimension, s, order[..|order| - 1]) + [FactFor(dimension, s, order[|order| - 1])]
  }

  predicate Distinct(order: seq<string>) {
    order == [] || (order[|order| - 1] !in order[..|order| - 1] && Distinct(order[..|order| - 1]))
  }

  /** `order` visits every key once. */
  ghost predicate Visits(order: seq<string>, keys: set<string>) {
    Distinct(order) && forall key :: key in order <==> key in keys
  }

  /** A captured snapshot, with the orders in which Go happened to visit its maps. */
  datatype Capture = Capture(snapshot: Snapshot, types: seq<string>, locations: seq<string>)

  ghost predicate ValidCapture(c: Capture) {
    Visits(c.types, c.snapshot.byType.Keys) && Visits(c.locations, c.snapshot.byLocation.Keys)
  }

  function FactsOf(c: Capture): seq<DocumentFact> {
    FactsFor(ByType, c.snapshot, c.types) + FactsFor(ByLocation, c.snapshot, c.locations)
  }

  function AllFacts(captures: seq<Capture>): seq<DocumentFact> {
    if captures == [] then []
    else AllFacts(captures[..|captures| - 1]) + FactsOf(captures[|captures| - 1])
  }

  method VisitKeys(m: Segments) returns (order: seq<string>)
    ensures Visits(order, m.Keys) && |order| == |m|
  {
    order := [];
    var left := m.Keys;
    while left != {}
      invariant left <= m.Keys && Visits(order, m.Keys - left)
      invariant |order| + |left| == |m.Keys|
      decreases left
    {
      var key :| key in left;
      assert (order + [key])[..|order|] == order;
      order, left := order + [key], left - {key};
    }
  }

  lemma {:induction false} FactsForMembers(dimension: Dimension, s: Snapshot, order: seq<string>)
    ensures |FactsFor(dimension, s, order)| == |order|
    ensures forall fact :: fact in FactsFor(dimension, s, order) <==>
        exists key <- order :: fact == FactFor(dimension, s, key)
    decreases |order|
  {
    if order != [] {
      hide FactFor;
      var init, last := order[..|order| - 1], order[|order| - 1];
      FactsForMembers(dimension, s, init);
      assert order == init + [last];
    }
  }

  /** One fact for each key of each map, and no other. */
  method BuildFacts(snapshot: Snapshot) returns (documents: seq<DocumentFact>, ghost c: Capture)
    ensures c.snapshot == snapshot && ValidCapture(c) && documents == FactsOf(c)
    ensures |documents| == |snapshot.byType| + |snapshot.byLocation|
    ensures forall key <- snapshot.byType :: FactFor(ByType, snapshot, key) in documents
    ensures forall key <- snapshot.byLocation :: FactFor(ByLocation, snapshot, key) in documents
    ensures forall fact <- documents ::
              || (fact.kind in snapshot.byType && fact == FactFor(ByType, snapshot, fact.kind))
              || (fact.location in snapshot.byLocation && fact == FactFor(ByLocation, snapshot, fact.location))
  {
    documents := [];
    var types := VisitKeys(snapshot.byType);
    for i := 0 to |types|
      invariant documents == FactsFor(ByType, snapshot, types[..i])
    {
      assert types[..i + 1][..i] == types[..i] && types[i] in snapshot.byType;
      documents := documents +
          [DocumentFact(snapshot.id, snapshot.generatedAt, "", types[i], snapshot.byType[types[i]])];
    }
    ghost var typeFacts := documents;
    var locations := VisitKeys(snapshot.byLocation);
    for i := 0 to |locations|
      invariant documents == typeFacts + FactsFor(ByLocation, snapshot, locations[..i])
    {
      assert locations[..i + 1][..i] == locations[..i] && locations[i] in snapshot.byLocation;
      documents := documents +
        [DocumentFact(snapshot.id, snapshot.generatedAt, locations[i], "", snapshot.byLocation[locations[i]])];
    }
    assert types[..|types|] == types && locations[..|locations|] == locations;
    c := Capture(snapshot, types, locations);
    FactsForMembers(ByType, snapshot, types);
    FactsForMembers(ByLocation, snapshot, locations);
  }

  // ---- Rows ----

  predicate Contributes(query: FactQuery, dimension: Dimension, key: string, fact: DocumentFact) {
    Matches(query, fact) && FactKey(dimension, fact) == key
  }

  /** The row of a key: the sum over the facts that the query selects and that carry the key. */
  function RowOf(facts: seq<DocumentFact>, query: FactQuery, dimension: Dimension, key: string): DocumentKpi {
    if facts == [] then NO_DOCUMENTS
    else
      var rest := RowOf(facts[..|facts| - 1], query, dimension, key);
      var fact := facts[|facts| - 1];
      if Contributes(query, dimension, key, fact) then Plus(rest, fact.kpi) else rest
  }

  predicate Selected(facts: seq<DocumentFact>, query: FactQuery, dimension: Dimension, key: string) {
    exists fact <- facts :: Contributes(query, dimension, key, fact)
  }

  predicate HasRow(facts: seq<DocumentFact>, query: FactQuery, dimension: Dimension, key: string) {
    key != "" && Selected(facts, query, dimension, key)
  }

  lemma SelectedConcat(a: seq<DocumentFact>, b: seq<DocumentFact>, query: FactQuery, dimension: Dimension, key: string)
    ensures Selected(a + b, query, dimension, key) <==>
        Selected(a, query, dimension, key) || Selected(b, query, dimension, key)
  {
  }

  lemma {:induction false} RowOfConcat(a: seq<DocumentFact>, b: seq<DocumentFact>, query: FactQuery,
                                       dimension: Dimension, key: string)
    ensures RowOf(a + b, query, dimension, key) ==
        Plus(RowOf(a, query, dimension, key), RowOf(b, query, dimension, key))
    decreases |b|
  {
    if b == [] {
      assert a + b == a;
    } else {
      var n := |b| - 1;
      assert (a + b)[..|a + b| - 1] == a + b[..n] && (a + b)[|a + b| - 1] == b[n];
      RowOfConcat(a, b[..n], query, dimension, key);
    }
  }

  lemma PlusZero(a: DocumentKpi)
    ensures Plus(a, NO_DOCUMENTS) == a && Plus(NO_DOCUMENTS, a) == a
  {
  }

  lemma RowOfMore(facts: seq<DocumentFact>, fact: DocumentFact, query: FactQuery, dimension: Dimension, key: string)
    ensures RowOf(facts + [fact], query, dimension, key)
         == if Contributes(query, dimension, key, fact) then Plus(RowOf(facts, query, dimension, key), fact.kpi)
            else RowOf(facts, query, dimension, key)
  {
    assert (facts + [fact])[..|facts|] == facts;
  }

  /** The filter on the dimension of a breakdown, and the one on the other dimension. */
  function OwnFilter(query: FactQuery, dimension: Dimension): string {
    if dimension == ByType then query.kind else query.location
  }

  function CrossFilter(query: FactQuery, dimension: Dimension): string {
    if dimension == ByType then query.location else query.kind
  }

  predicate Passes(query: FactQuery, dimension: Dimension, key: string) {
    OwnFilter(query, dimension) == "" || key == OwnFilter(query, dimension)
  }

  /** The query lets the facts of `key` through. */
  predicate Reaches(query: FactQuery, dimension: Dimension, key: string) {
    key != "" && CrossFilter(query, dimension) == "" && Passes(query, dimension, key)
  }

  lemma OneFact(kind: Dimension, s: Snapshot, visited: string, query: FactQuery, dimension: Dimension, key: string)
    requires Reaches(query, dimension, key)
    ensures Contributes(query, dimension, key, FactFor(kind, s, visited))
       <==> kind == dimension && visited == key && InWindow(query, s.generatedAt)
    ensures FactFor(kind, s, visited).kpi == At(SegmentsOf(kind, s), visited)
  {
  }

  /** What the facts of one map give a key: its own segment once, or nothing. */
  function Share(kind: Dimension, s: Snapshot, visited: bool, query: FactQuery, dimension: Dimension,
                 key: string): DocumentKpi {
    if kind == dimension && visited && InWindow(query, s.generatedAt) then At(SegmentsOf(dimension, s), key)
    else NO_DOCUMENTS
  }

  lemma {:induction false} RowOfSegments(kind: Dimension, s: Snapshot, order: seq<string>, query: FactQuery,
                                         dimension: Dimension, key: string)
    requires Reaches(query, dimension, key)
    requires Distinct(order)
    ensures RowOf(FactsFor(kind, s, order), query, dimension, key) ==
        Share(kind, s, key in order, query, dimension, key)
    decreases |order|
  {
    if order != [] {
      var init, last := order[..|order| - 1], order[|order| - 1];
      RowOfSegments(kind, s, init, query, dimension, key);
      assert order == init + [last];
      RowOfLast(kind, s, init, last, query, dimension, key);
    }
  }

  lemma RowOfLast(kind: Dimension, s: Snapshot, init: seq<string>, last: string, query: FactQuery,
                  dimension: Dimension, key: string)
    requires Reaches(query, dimension, key) && last !in init
    requires RowOf(FactsFor(kind, s, init), query, dimension, key) == Share(kind, s, key in init, query, dimension, key)
    ensures RowOf(FactsFor(kind, s, init + [last]), query, dimension, key)
         == Share(kind, s, key in init + [last], query, dimension, key)
  {
    hide RowOf, Contributes, Plus, At;
    assert (init + [last])[..|init|] == init;
    OneFact(kind, s, last, query, dimension, key);
    RowOfMore(FactsFor(kind, s, init), FactFor(kind, s, last), query, dimension, key);
    PlusZero(At(SegmentsOf(kind, s), last));
  }

  lemma {:induction false} SelectedSegments(kind: Dimension, s: Snapshot, order: seq<string>, query: FactQuery,
                                            dimension: Dimension, key: string)
    requires Reaches(query, dimension, key)
    ensures Selected(FactsFor(kind, s, order), query, dimension, key)
       <==> kind == dimension && key in order && InWindow(query, s.generatedAt)
    decreases |order|
  {
    if order != [] {
      hide InWindow, At, Contributes, FactFor;
      var n := |order| - 1;
      var last := FactFor(kind, s, order[n]);
      OneFact(kind, s, order[n], query, dimension, key);
      assert Selected([last], query, dimension, key) <==> Contributes(query, dimension, key, last) by {
        assert last in [last];
      }
      SelectedSegments(kind, s, order[..n], query, dimension, key);
      SelectedConcat(FactsFor(kind, s, order[..n]), [last], query, dimension, key);
      assert key in order <==> key in order[..n] || key == order[n];
    }
  }

  /** The plain sum over the snapshots captured in the window. */
  function WindowSum(captures: seq<Capture>, query: FactQuery, dimension: Dimension, key: string): DocumentKpi {
    if captures == [] then NO_DOCUMENTS
    else
      var rest := WindowSum(captures[..|captures| - 1], query, dimension, key);
      var s := captures[|captures| - 1].snapshot;
      if InWindow(query, s.generatedAt) then Plus(rest, At(SegmentsOf(dimension, s), key)) else rest
  }

  /** What one capture gives a key, although every document is stored under its type and its location. */
  lemma RowOfCapture(c: Capture, query: FactQuery, dimension: Dimension, key: string)
    requires ValidCapture(c) && Reaches(query, dimension, key)
    ensures RowOf(FactsOf(c), query, dimension, key)
         == if InWindow(query, c.snapshot.generatedAt) then At(SegmentsOf(dimension, c.snapshot), key) else NO_DOCUMENTS
  {
    hide InWindow, FactsFor, RowOf, Plus, At, Reaches;
    var s := c.snapshot;
    RowOfSegments(ByType, s, c.types, query, dimension, key);
    RowOfSegments(ByLocation, s, c.locations, query, dimension, key);
    RowOfConcat(FactsFor(ByType, s, c.types), FactsFor(ByLocation, s, c.locations), query, dimension, key);
    PlusZero(At(SegmentsOf(dimension, s), key));
    PlusZero(NO_DOCUMENTS);
    assert key in SegmentsOf(dimension, s) || At(SegmentsOf(dimension, s), key) == NO_DOCUMENTS by {
      AtMissing(SegmentsOf(dimension, s), key);
    }
  }

  lemma AtMissing(segments: Segments, key: string)
    ensures key in segments || At(segments, key) == NO_DOCUMENTS
  {
  }

  /**
   * Unless the query filters the other dimension or another key, a row is the plain sum of its key's
   * segment over the window.
   */
  lemma {:induction false} RowsAgree(captures: seq<Capture>, query: FactQuery, dimension: Dimension, key: string)
    requires forall c <- captures :: ValidCapture(c)
    requires Reaches(query, dimension, key)
    ensures RowOf(AllFacts(captures), query, dimension, key) == WindowSum(captures, query, dimension, key)
    decreases |captures|
  {
    hide InWindow, FactsOf, Plus, At, Reaches, ValidCapture;
    if captures != [] {
      hide RowOf;
      var n := |captures| - 1;
      RowsAgree(captures[..n], query, dimension, key);
      RowOfCapture(captures[n], query, dimension, key);
      RowOfConcat(AllFacts(captures[..n]), FactsOf(captures[n]), query, dimension, key);
      PlusZero(WindowSum(captures[..n], query, dimension, key));
    }
  }

  predicate KeySeen(captures: seq<Capture>, query: FactQuery, dimension: Dimension, key: string) {
    exists c <- captures :: InWindow(query, c.snapshot.generatedAt) && key in SegmentsOf(dimension, c.snapshot)
  }

  /** And there is a row exactly for the keys that some snapshot of the window has. */
  lemma {:induction false} RowsPresent(captures: seq<Capture>, query: FactQuery, dimension: Dimension, key: string)
    requires forall c <- captures :: ValidCapture(c)
    requires Reaches(query, dimension, key)
    ensures HasRow(AllFacts(captures), query, dimension, key) <==> KeySeen(captures, query, dimension, key)
    decreases |captures|
  {
    if captures != [] {
      hide InWindow, FactsFor, Selected;
      var n := |captures| - 1;
      var c, s := captures[n], captures[n].snapshot;
      assert ValidCapture(c);
      RowsPresent(captures[..n], query, dimension, key);
      SelectedSegments(ByType, s, c.types, query, dimension, key);
      SelectedSegments(ByLocation, s, c.locations, query, dimension, key);
      SelectedConcat(FactsFor(ByType, s, c.types), FactsFor(ByLocation, s, c.locations), query, dimension, key);
      SelectedConcat(AllFacts(captures[..n]), FactsOf(c), query, dimension, key);
      SeenConcat(captures[..n], c, query, dimension, key);
      assert captures == captures[..n] + [c];
    }
  }

  // ---- Rows and the documents they count ----

  /** A snapshot of these documents. */
  predicate TakenFrom(s: Snapshot, documents: seq<Document>) {
    && s.documents == Count(documents)
    && s.byType == Grouped(ByType, documents) && s.byLocation == Grouped(ByLocation, documents)
  }

  /** How many of the documents found count, over the captures in the window. */
  ghost function Found(captures: seq<Capture>, sources: seq<seq<Document>>, query: FactQuery,
                       counts: Document -> bool): nat
    requires |sources| == |captures|
  {
    if captures == [] then 0
    else
      var n := |captures| - 1;
      var at := captures[n].snapshot.generatedAt;
      var rest := Found(captures[..n], sources[..n], query, counts);
      if (query.from == 0 || query.from <= at) && (query.to == 0 || at <= query.to)
      then rest + HowMany(sources[n], counts)
      else rest
  }

  /** The number of documents found that carry a key, and of those with each of the five statuses. */
  ghost function DocumentSum(captures: seq<Capture>, sources: seq<seq<Document>>, query: FactQuery,
                             dimension: Dimension, key: string): DocumentKpi
    requires |sources| == |captures|
  {
    var chosen := Carrying(dimension, key);
    DocumentKpi(Found(captures, sources, query, chosen),
                Found(captures, sources, query, With(chosen, Draft)),
                Found(captures, sources, query, With(chosen, Submitted)),
                Found(captures, sources, query, With(chosen, Approved)),
                Found(captures, sources, query, With(chosen, Rejected)),
                Found(captures, sources, query, With(chosen, Cancelled)))
  }

  ghost predicate AllTaken(captures: seq<Capture>, sources: seq<seq<Document>>) {
    |sources| == |captures| && forall i | 0 <= i < |captures| :: TakenFrom(captures[i].snapshot, sources[i])
  }

  /** The sum over stored segments is the sum over the documents they were counted from. */
  lemma {:induction false} WindowSumCounts(captures: seq<Capture>, sources: seq<seq<Document>>, query: FactQuery,
                                           dimension: Dimension, key: string)
    requires AllTaken(captures, sources)
    ensures WindowSum(captures, query, dimension, key) == DocumentSum(captures, sources, query, dimension, key)
    decreases |captures|
  {
    if captures != [] {
      hide Grouped, Count, At, With, Carrying, HowMany;
      var n := |captures| - 1;
      WindowSumCounts(captures[..n], sources[..n], query, dimension, key);
      assert TakenFrom(captures[n].snapshot, sources[n]);
      GroupedIsTally(dimension, sources[n], key);
    }
  }

  /** And a key is seen exactly when a document of that key was there at a capture in the window. */
  ghost predicate DocumentSeen(captures: seq<Capture>, sources: seq<seq<Document>>, query: FactQuery,
                               dimension: Dimension, key: string)
    requires |sources| == |captures|
  {
    exists i | 0 <= i < |captures| ::
      var at := captures[i].snapshot.generatedAt;
      && (query.from == 0 || query.from <= at) && (query.to == 0 || at <= query.to)
      && exists d <- sources[i] :: Carrying(dimension, key)(d)
  }

  lemma KeySeenInDocuments(captures: seq<Capture>, sources: seq<seq<Document>>, query: FactQuery,
                           dimension: Dimension, key: string)
    requires AllTaken(captures, sources)
    ensures KeySeen(captures, query, dimension, key) <==> DocumentSeen(captures, sources, query, dimension, key)
  {
    hide Grouped, Count, Carrying;
    forall i | 0 <= i < |captures|
      ensures key in SegmentsOf(dimension, captures[i].snapshot) <==>
          exists d <- sources[i] :: Carrying(dimension, key)(d)
    {
      assert TakenFrom(captures[i].snapshot, sources[i]);
      GroupedIsTally(dimension, sources[i], key);
    }
    forall c | c in captures ensures exists i :: 0 <= i < |captures| && captures[i] == c {
    }
  }

  lemma SeenConcat(captures: seq<Capture>, c: Capture, query: FactQuery, dimension: Dimension, key: string)
    ensures KeySeen(captures + [c], query, dimension, key)
       <==> KeySeen(captures, query, dimension, key)
            || (InWindow(query, c.snapshot.generatedAt) && key in SegmentsOf(dimension, c.snapshot))
  {
    assert c in captures + [c];
  }

  /**
   * A location filter leaves a breakdown by document type without any row, since a fact carries
   * either a type or a location; and so the other way round.
   */
  lemma {:induction false} CrossFilterIsEmpty(captures: seq<Capture>, query: FactQuery, dimension: Dimension,
                                              key: string)
    requires CrossFilter(query, dimension) != ""
    ensures !HasRow(AllFacts(captures), query, dimension, key)
    decreases |captures|
  {
    if captures != [] {
      var n := |captures| - 1;
      var c := captures[n];
      CrossFilterIsEmpty(captures[..n], query, dimension, key);
      OneSided(ByType, c.snapshot, c.types);
      OneSided(ByLocation, c.snapshot, c.locations);
    }
  }

  lemma OneSided(kind: Dimension, s: Snapshot, order: seq<string>)
    ensures forall fact <- FactsFor(kind, s, order) :: if kind == ByType then fact.location == "" else fact.kind == ""
  {
  }
}
