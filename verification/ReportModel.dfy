/** Report runs, their artifacts, the deliveries of artifacts and the dead letters: a linked store. */
module ReportModel {
  import opened Calendar
  import opened Filters

  datatype DeliveryStatus = Delivered | Failed | DeadLettered

  datatype Run = Run(id: string, reportId: string, artifactId: string, generatedAt: Time)

  datatype Artifact = Artifact(id: string, reportId: string, runId: string, createdAt: Time)

  /** What attempts are counted by. */
  datatype Address = Address(artifactId: string, channel: string, recipient: string)

  datatype Delivery = Delivery(id: string, to: Address, status: DeliveryStatus, attempt: int, lastError: string,
                               createdAt: Time)

  datatype DeadLetter = DeadLetter(id: string, to: Address, reason: string, attempt: int, createdAt: Time)

  datatype Data = Data(runs: seq<Run>, artifacts: seq<Artifact>, deliveries: seq<Delivery>,
                       deadLetters: seq<DeadLetter>)

  function RunIds(runs: seq<Run>): set<string> {
    set r <- runs :: r.id
  }

  function ArtifactIds(artifacts: seq<Artifact>): set<string> {
    set a <- artifacts :: a.id
  }

  // ---- Cleanup ----

  function KeptRuns(d: Data, cutoff: Time): seq<Run> {
    Filter(d.runs, (r: Run) => cutoff <= r.generatedAt)
  }

  function KeptArtifacts(d: Data, cutoff: Time): seq<Artifact> {
    var runs := RunIds(KeptRuns(d, cutoff));
    Filter(d.artifacts, (a: Artifact) => cutoff <= a.createdAt && a.runId in runs)
  }

  function KeptDeliveries(d: Data, cutoff: Time): seq<Delivery> {
    var artifacts := ArtifactIds(KeptArtifacts(d, cutoff));
    Filter(d.deliveries, (x: Delivery) => cutoff <= x.createdAt && x.to.artifactId in artifacts)
  }

  function KeptLetters(d: Data, cutoff: Time): seq<DeadLetter> {
    var artifacts := ArtifactIds(KeptArtifacts(d, cutoff));
    Filter(d.deadLetters, (x: DeadLetter) => cutoff <= x.createdAt && x.to.artifactId in artifacts)
  }

  function Cleaned(d: Data, cutoff: Time): Data {
    Data(KeptRuns(d, cutoff), KeptArtifacts(d, cutoff), KeptDeliveries(d, cutoff), KeptLetters(d, cutoff))
  }

  /** Cleanup keeps exactly the items at or after the cutoff whose whole parent chain is kept. */
  predicate RunKept(d: Data, cutoff: Time, id: string) {
    exists r <- d.runs :: r.id == id && cutoff <= r.generatedAt
  }

  predicate ArtifactKept(d: Data, cutoff: Time, id: string) {
    exists a <- d.artifacts :: a.id == id && cutoff <= a.createdAt && RunKept(d, cutoff, a.runId)
  }

  lemma KeptRunIds(d: Data, cutoff: Time, id: string)
    ensures id in RunIds(KeptRuns(d, cutoff)) <==> RunKept(d, cutoff, id)
  {
    forall r ensures r in KeptRuns(d, cutoff) <==> r in d.runs && cutoff <= r.generatedAt {
      FilterMember(d.runs, (r: Run) => cutoff <= r.generatedAt, r);
    }
  }

  lemma KeptArtifact(d: Data, cutoff: Time, a: Artifact)
    ensures a in KeptArtifacts(d, cutoff) <==> a in d.artifacts && cutoff <= a.createdAt && RunKept(d, cutoff, a.runId)
  {
    var runs := RunIds(KeptRuns(d, cutoff));
    KeptRunIds(d, cutoff, a.runId);
    FilterMember(d.artifacts, (a: Artifact) => cutoff <= a.createdAt && a.runId in runs, a);
  }

  lemma KeptArtifactIds(d: Data, cutoff: Time, id: string)
    ensures id in ArtifactIds(KeptArtifacts(d, cutoff)) <==> ArtifactKept(d, cutoff, id)
  {
    hide KeptArtifacts, RunKept;
    forall a
      ensures a in KeptArtifacts(d, cutoff) <==>
              a in d.artifacts && cutoff <= a.createdAt && RunKept(d, cutoff, a.runId)
    {
      KeptArtifact(d, cutoff, a);
    }
  }

  lemma CleanedMeaning(d: Data, cutoff: Time, r: Run, a: Artifact, x: Delivery, y: DeadLetter)
    ensures var e := Cleaned(d, cutoff);
      && (r in e.runs <==> r in d.runs && cutoff <= r.generatedAt)
      && (a in e.artifacts <==> a in d.artifacts && cutoff <= a.createdAt && RunKept(d, cutoff, a.runId))
      && (x in e.deliveries <==> x in d.deliveries && cutoff <= x.createdAt && ArtifactKept(d, cutoff, x.to.artifactId))
      && (y in e.deadLetters <==>
          y in d.deadLetters && cutoff <= y.createdAt && ArtifactKept(d, cutoff, y.to.artifactId))
  {
    var artifacts := ArtifactIds(KeptArtifacts(d, cutoff));
    FilterMember(d.runs, (r: Run) => cutoff <= r.generatedAt, r);
    KeptArtifact(d, cutoff, a);
    KeptArtifactIds(d, cutoff, x.to.artifactId);
    KeptArtifactIds(d, cutoff, y.to.artifactId);
    FilterMember(d.deliveries, (x: Delivery) => cutoff <= x.createdAt && x.to.artifactId in artifacts, x);
    FilterMember(d.deadLetters, (x: DeadLetter) => cutoff <= x.createdAt && x.to.artifactId in artifacts, y);
  }

  function Later(a: Time, b: Time): Time { if a < b then b else a }

  lemma RunsTwice(d: Data, c1: Time, c2: Time)
    ensures KeptRuns(Cleaned(d, c1), c2) == KeptRuns(d, Later(c1, c2))
  {
    FilterTwice(d.runs, (r: Run) => c1 <= r.generatedAt, (r: Run) => c2 <= r.generatedAt,
                (r: Run) => Later(c1, c2) <= r.generatedAt);
  }

  lemma LaterKeepsLess(d: Data, c1: Time, c2: Time, id: string)
    requires c1 <= c2
    ensures RunKept(d, c2, id) ==> RunKept(d, c1, id)
    ensures ArtifactKept(d, c2, id) ==> ArtifactKept(d, c1, id)
  {
    if ArtifactKept(d, c2, id) {
      var a :| a in d.artifacts && a.id == id && c2 <= a.createdAt && RunKept(d, c2, a.runId);
      assert RunKept(d, c1, a.runId);
    }
  }

  lemma ArtifactsTwice(d: Data, c1: Time, c2: Time)
    ensures KeptArtifacts(Cleaned(d, c1), c2) == KeptArtifacts(d, Later(c1, c2))
  {
    var c := Later(c1, c2);
    var runs1, runs := RunIds(KeptRuns(d, c1)), RunIds(KeptRuns(d, c));
    RunsTwice(d, c1, c2);
    forall a | a in d.artifacts ensures a.runId in runs ==> a.runId in runs1 {
      KeptRunIds(d, c1, a.runId);
      KeptRunIds(d, c, a.runId);
      LaterKeepsLess(d, c1, c, a.runId);
    }
    FilterTwice(d.artifacts, (a: Artifact) => c1 <= a.createdAt && a.runId in runs1,
                (a: Artifact) => c2 <= a.createdAt && a.runId in runs,
                (a: Artifact) => c <= a.createdAt && a.runId in runs);
  }

  lemma KeptIdsShrink(d: Data, c1: Time, c2: Time, id: string)
    requires c1 <= c2
    ensures id in ArtifactIds(KeptArtifacts(d, c2)) ==> id in ArtifactIds(KeptArtifacts(d, c1))
  {
    KeptArtifactIds(d, c1, id);
    KeptArtifactIds(d, c2, id);
    LaterKeepsLess(d, c1, c2, id);
  }

  /** Cleaning at two cutoffs in turn is cleaning once at the later of the two. */
  lemma CleanTwice(d: Data, c1: Time, c2: Time)
    ensures Cleaned(Cleaned(d, c1), c2) == Cleaned(d, Later(c1, c2))
  {
    var c := Later(c1, c2);
    var ids1, ids := ArtifactIds(KeptArtifacts(d, c1)), ArtifactIds(KeptArtifacts(d, c));
    RunsTwice(d, c1, c2);
    ArtifactsTwice(d, c1, c2);
    forall id | id in ids ensures id in ids1 {
      KeptIdsShrink(d, c1, c, id);
    }
    FilterTwice(d.deliveries, (x: Delivery) => c1 <= x.createdAt && x.to.artifactId in ids1,
                (x: Delivery) => c2 <= x.createdAt && x.to.artifactId in ids,
                (x: Delivery) => c <= x.createdAt && x.to.artifactId in ids);
    FilterTwice(d.deadLetters, (x: DeadLetter) => c1 <= x.createdAt && x.to.artifactId in ids1,
                (x: DeadLetter) => c2 <= x.createdAt && x.to.artifactId in ids,
                (x: DeadLetter) => c <= x.createdAt && x.to.artifactId in ids);
  }
}
