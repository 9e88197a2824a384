/** What the report store keeps over every run of its operations, cleanup included. */
module ReportInvariants {
  import opened Calendar
  import opened Filters
  import opened ReportModel

  /** The attempt numbers recorded for an address, in storage order. */
  function Attempts(deliveries: seq<Delivery>, to: Address): seq<int> {
    if deliveries == [] then []
    else
      var rest := Attempts(deliveries[..|deliveries| - 1], to);
      var x := deliveries[|deliveries| - 1];
      if x.to == to then rest + [x.attempt] else rest
  }

  function UpTo(n: nat): (s: seq<int>)
    ensures |s| == n && forall i :: 0 <= i < n ==> s[i] == i + 1
  {
    seq(n, i => i + 1)
  }

  /** Every address has its attempts numbered 1, 2, ..., n. */
  ghost predicate Numbered(deliveries: seq<Delivery>) {
    forall to :: Attempts(deliveries, to) == UpTo(|Attempts(deliveries, to)|)
  }

  datatype Note = Note(to: Address, reason: string, attempt: int)

  /** What the deliveries that ended dead, and the dead letters, have to say. */
  function DeadNotes(deliveries: seq<Delivery>): seq<Note> {
    if deliveries == [] then []
    else
      var rest := DeadNotes(deliveries[..|deliveries| - 1]);
      var x := deliveries[|deliveries| - 1];
      if x.status == DeadLettered then rest + [Note(x.to, x.lastError, x.attempt)] else rest
  }

  function LetterNotes(letters: seq<DeadLetter>): (notes: seq<Note>)
    ensures |notes| == |letters|
  {
    if letters == [] then []
    else
      var y := letters[|letters| - 1];
      LetterNotes(letters[..|letters| - 1]) + [Note(y.to, y.reason, y.attempt)]
  }

  /** No dangling link. */
  predicate Closed(d: Data) {
    && (forall a <- d.artifacts :: a.runId in RunIds(d.runs))
    && (forall x <- d.deliveries :: x.to.artifactId in ArtifactIds(d.artifacts))
    && (forall y <- d.deadLetters :: y.to.artifactId in ArtifactIds(d.artifacts))
  }

  /** Nothing is older than the artifact it belongs to. */
  predicate Dated(d: Data) {
    && (forall x <- d.deliveries, a <- d.artifacts :: a.id == x.to.artifactId ==> a.createdAt <= x.createdAt)
    && (forall y <- d.deadLetters, a <- d.artifacts :: a.id == y.to.artifactId ==> a.createdAt <= y.createdAt)
  }

  ghost predicate Inv(d: Data) {
    && Closed(d) && Dated(d)
    && Numbered(d.deliveries)
    && (forall x <- d.deliveries :: x.status == DeadLettered <==> x.status != Delivered && x.attempt >= 3)
    && DeadNotes(d.deliveries) == LetterNotes(d.deadLetters)
  }

  // ---- Deliveries ----

  lemma {:induction false} AttemptRecorded(deliveries: seq<Delivery>, x: Delivery)
    requires x in deliveries
    ensures x.attempt in Attempts(deliveries, x.to)
    decreases |deliveries|
  {
    if deliveries[|deliveries| - 1] != x {
      AttemptRecorded(deliveries[..|deliveries| - 1], x);
    }
  }

  lemma {:induction false} RecordedAttempt(deliveries: seq<Delivery>, to: Address, n: int)
    requires n in Attempts(deliveries, to)
    ensures exists x <- deliveries :: x.to == to && x.attempt == n
    decreases |deliveries|
  {
    var init, last := deliveries[..|deliveries| - 1], deliveries[|deliveries| - 1];
    if last.to != to || last.attempt != n {
      RecordedAttempt(init, to, n);
    }
  }

  lemma AttemptsMore(deliveries: seq<Delivery>, x: Delivery, to: Address)
    ensures Attempts(deliveries + [x], to)
         == if x.to == to then Attempts(deliveries, to) + [x.attempt] else Attempts(deliveries, to)
  {
    assert (deliveries + [x])[..|deliveries|] == deliveries;
  }

  /** A delivery with the next number keeps every address numbered. */
  lemma NumberedMore(deliveries: seq<Delivery>, x: Delivery)
    requires Numbered(deliveries) && x.attempt == |Attempts(deliveries, x.to)| + 1
    ensures Numbered(deliveries + [x])
  {
    forall to ensures Attempts(deliveries + [x], to) == UpTo(|Attempts(deliveries + [x], to)|) {
      AttemptsMore(deliveries, x, to);
      assert Attempts(deliveries, to) == UpTo(|Attempts(deliveries, to)|);
    }
  }

  // ---- Cleanup ----

  lemma KeptWithArtifact(d: Data, cutoff: Time)
    requires Inv(d)
    ensures var ids := ArtifactIds(KeptArtifacts(d, cutoff));
      && KeptDeliveries(d, cutoff) == Filter(d.deliveries, (x: Delivery) => x.to.artifactId in ids)
      && KeptLetters(d, cutoff) == Filter(d.deadLetters, (y: DeadLetter) => y.to.artifactId in ids)
  {
    var ids := ArtifactIds(KeptArtifacts(d, cutoff));
    forall x | x in d.deliveries && x.to.artifactId in ids ensures cutoff <= x.createdAt {
      KeptArtifactIds(d, cutoff, x.to.artifactId);
    }
    forall y | y in d.deadLetters && y.to.artifactId in ids ensures cutoff <= y.createdAt {
      KeptArtifactIds(d, cutoff, y.to.artifactId);
    }
    FilterSame(d.deliveries, (x: Delivery) => cutoff <= x.createdAt && x.to.artifactId in ids,
               (x: Delivery) => x.to.artifactId in ids);
    FilterSame(d.deadLetters, (y: DeadLetter) => cutoff <= y.createdAt && y.to.artifactId in ids,
               (y: DeadLetter) => y.to.artifactId in ids);
  }

  lemma {:induction false} AttemptsFiltered(deliveries: seq<Delivery>, ids: set<string>, to: Address)
    ensures Attempts(Filter(deliveries, (x: Delivery) => x.to.artifactId in ids), to)
         == if to.artifactId in ids then Attempts(deliveries, to) else []
    decreases |deliveries|
  {
    if deliveries != [] {
      var keep := (x: Delivery) => x.to.artifactId in ids;
      var init, last := deliveries[..|deliveries| - 1], deliveries[|deliveries| - 1];
      AttemptsFiltered(init, ids, to);
      AttemptsMore(Filter(init, keep), last, to);
    }
  }

  lemma {:induction false} NotesFiltered(deliveries: seq<Delivery>, ids: set<string>)
    ensures DeadNotes(Filter(deliveries, (x: Delivery) => x.to.artifactId in ids))
         == Filter(DeadNotes(deliveries), (n: Note) => n.to.artifactId in ids)
    decreases |deliveries|
  {
    if deliveries != [] {
      var init, last := deliveries[..|deliveries| - 1], deliveries[|deliveries| - 1];
      var kept := Filter(init, (x: Delivery) => x.to.artifactId in ids);
      NotesFiltered(init, ids);
      FilterMore(DeadNotes(init), Note(last.to, last.lastError, last.attempt), (n: Note) => n.to.artifactId in ids);
      assert (kept + [last])[..|kept|] == kept;
    }
  }

  lemma {:induction false} LettersFiltered(letters: seq<DeadLetter>, ids: set<string>)
    ensures LetterNotes(Filter(letters, (y: DeadLetter) => y.to.artifactId in ids))
         == Filter(LetterNotes(letters), (n: Note) => n.to.artifactId in ids)
    decreases |letters|
  {
    if letters != [] {
      var init, last := letters[..|letters| - 1], letters[|letters| - 1];
      var kept := Filter(init, (y: DeadLetter) => y.to.artifactId in ids);
      LettersFiltered(init, ids);
      FilterMore(LetterNotes(init), Note(last.to, last.reason, last.attempt), (n: Note) => n.to.artifactId in ids);
      assert (kept + [last])[..|kept|] == kept;
    }
  }

  /**
   * Cleanup keeps or drops the attempts for an artifact all together, so those of a stored artifact
   * stay numbered from 1.
   */
  lemma CleanAllOrNothing(d: Data, cutoff: Time, to: Address)
    requires Inv(d)
    ensures Attempts(Cleaned(d, cutoff).deliveries, to)
         == if ArtifactKept(d, cutoff, to.artifactId) then Attempts(d.deliveries, to) else []
  {
    KeptWithArtifact(d, cutoff);
    KeptArtifactIds(d, cutoff, to.artifactId);
    AttemptsFiltered(d.deliveries, ArtifactIds(KeptArtifacts(d, cutoff)), to);
  }

  lemma CleanKeepsNumbers(d: Data, cutoff: Time)
    requires Inv(d)
    ensures Numbered(Cleaned(d, cutoff).deliveries)
  {
    hide ArtifactKept, Cleaned, Attempts, UpTo;
    assert UpTo(0) == [];
    forall to
      ensures Attempts(Cleaned(d, cutoff).deliveries, to) == UpTo(|Attempts(Cleaned(d, cutoff).deliveries, to)|)
    {
      CleanAllOrNothing(d, cutoff, to);
      assert Attempts(d.deliveries, to) == UpTo(|Attempts(d.deliveries, to)|);
    }
  }

  /** Every invariant of the store, links and numbers and dead letters, survives a cleanup at any cutoff. */
  lemma CleanKeepsInv(d: Data, cutoff: Time)
    requires Inv(d)
    ensures Inv(Cleaned(d, cutoff))
  {
    hide Attempts, DeadNotes, LetterNotes, RunKept, ArtifactKept;
    var e := Cleaned(d, cutoff);
    var ids := ArtifactIds(KeptArtifacts(d, cutoff));
    CleanKeepsNumbers(d, cutoff);
    KeptWithArtifact(d, cutoff);
    NotesFiltered(d.deliveries, ids);
    LettersFiltered(d.deadLetters, ids);
    CleanKeepsLinks(d, cutoff);
    forall x | x in e.deliveries ensures x in d.deliveries {
      FilterMember(d.deliveries, (x: Delivery) => x.to.artifactId in ids, x);
    }
  }

  lemma CleanKeepsLinks(d: Data, cutoff: Time)
    requires Inv(d)
    ensures Closed(Cleaned(d, cutoff)) && Dated(Cleaned(d, cutoff))
  {
    hide Attempts, DeadNotes, LetterNotes, Numbered;
    var e := Cleaned(d, cutoff);
    var runs, ids := RunIds(KeptRuns(d, cutoff)), ArtifactIds(KeptArtifacts(d, cutoff));
    forall a | a in e.artifacts ensures a in d.artifacts && a.runId in runs {
      FilterMember(d.artifacts, (a: Artifact) => cutoff <= a.createdAt && a.runId in runs, a);
    }
    forall x | x in e.deliveries ensures x in d.deliveries && x.to.artifactId in ids {
      FilterMember(d.deliveries, (x: Delivery) => cutoff <= x.createdAt && x.to.artifactId in ids, x);
    }
    forall y | y in e.deadLetters ensures y in d.deadLetters && y.to.artifactId in ids {
      FilterMember(d.deadLetters, (y: DeadLetter) => cutoff <= y.createdAt && y.to.artifactId in ids, y);
    }
  }
}
