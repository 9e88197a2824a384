/** Running reports, delivering artifacts, running what is due, and cleaning up. */
module ReportService {
  import opened Text
  import opened Calendar
  import opened Buckets
  import opened Counting
  import opened Filters
  import opened Sorting
  import opened ReportModel
  import opened ReportInvariants

  datatype Definition = Definition(
    id: string,
    schedule: Schedule,
    nextRunAt: Time,
    enabled: bool,
    channel: string,
    target: string)

  predicate IssuedBefore(id: string, n: nat) {
    exists m | 0 <= m < n :: id == Dec(m)
  }

  lemma FreshId(n: nat)
    ensures !IssuedBefore(Dec(n), n)
  {
    DecRoundTrip(n);
    forall m | 0 <= m < n ensures Dec(m) != Dec(n) {
      DecRoundTrip(m);
    }
  }

  /** What the outside world answered: whether a report was rendered, or the error of an adapter. */
  datatype Reply = Rendered(ok: bool) | Sent(error: Option<string>)

  predicate Good(reply: Reply) {
    if reply.Rendered? then reply.ok else reply.error.None?
  }

  /** All the answers given since `before` were good. */
  ghost predicate AllGood(before: seq<Reply>, replies: seq<Reply>)
    requires before <= replies
  {
    forall i | |before| <= i < |replies| :: Good(replies[i])
  }

  /** The clock, the id service and the outside world: monotone, fresh, and otherwise arbitrary. */
  class Environment {
    var clock: Time
    var counter: nat
    ghost var replies: seq<Reply>   // every answer so far

    constructor (clock: Time)
      ensures this.clock == clock && counter == 0 && replies == []
    {
      this.clock, counter, replies := clock, 0, [];
    }

    method Now() returns (t: Time)
      modifies this`clock
      ensures old(clock) <= clock == t
    {
      var later: nat :| later >= 0;
      clock := clock + later;
      t := clock;
    }

    method NewId() returns (id: string)
      modifies this`counter
      ensures id == Dec(old(counter)) && counter == old(counter) + 1
    {
      id := Dec(counter);
      counter := counter + 1;
    }

    /** An adapter's Deliver: an error, or none. */
    method Deliver() returns (error: Option<string>)
      modifies this`replies
      ensures replies == old(replies) + [Sent(error)]
    {
      error := *;
      replies := replies + [Sent(error)];
    }

    /** Rendering a report. */
    method Export() returns (ok: bool)
      modifies this`replies
      ensures replies == old(replies) + [Rendered(ok)]
    {
      ok := *;
      replies := replies + [Rendered(ok)];
    }
  }

  lemma IssuedLater(artifacts: seq<Artifact>, n: nat)
    ensures forall a <- artifacts :: IssuedBefore(a.id, n) ==> IssuedBefore(a.id, n + 1)
  {
  }

  lemma OneLetter(y: DeadLetter)
    ensures LetterNotes([y]) == [Note(y.to, y.reason, y.attempt)] && LetterNotes([]) == []
  {
    assert [y][..0] == [];
  }

  /** No delivery was attempted of an artifact that is not stored yet. */
  lemma NoAttemptYet(d: Data, to: Address)
    requires Closed(d) && to.artifactId !in ArtifactIds(d.artifacts)
    ensures Attempts(d.deliveries, to) == []
  {
    if Attempts(d.deliveries, to) != [] {
      RecordedAttempt(d.deliveries, to, Attempts(d.deliveries, to)[0]);
    }
  }

  predicate Due(def: Definition, now: Time) {
    def.enabled && def.nextRunAt <= now
  }

  /** The definition asks for no delivery, or for one on a channel there is. */
  predicate HasChannel(def: Definition) {
    def.channel in {"", "download", "filesystem", "webhook", "email", "object_store"}
  }

  predicate RunsEarlier(a: Definition, b: Definition) {
    a.nextRunAt < b.nextRunAt
  }

  function DueIds(definitions: seq<Definition>, now: Time): seq<string> {
    if definitions == [] then []
    else
      var rest := DueIds(definitions[..|definitions| - 1], now);
      var def := definitions[|definitions| - 1];
      if Due(def, now) then rest + [def.id] else rest
  }

  /** The definitions after those named in `done` have moved on to their next run. */
  function Advanced(definitions: seq<Definition>, done: seq<string>, now: Time): (r: seq<Definition>)
    ensures |r| == |definitions|
  {
    seq(|definitions|, i requires 0 <= i < |definitions| =>
      if definitions[i].id in done then definitions[i].(nextRunAt := NextRun(definitions[i].schedule, now))
      else definitions[i])
  }

  function Replaced(definitions: seq<Definition>, def: Definition): (r: seq<Definition>)
    ensures |r| == |definitions|
  {
    seq(|definitions|, i requires 0 <= i < |definitions| => if definitions[i].id == def.id then def else definitions[i])
  }

  function ReportIds(runs: seq<Run>): (ids: seq<string>)
    ensures |ids| == |runs|
  {
    seq(|runs|, i requires 0 <= i < |runs| => runs[i].reportId)
  }

  ghost predicate UniqueIds(definitions: seq<Definition>) {
    DistinctKeys(definitions, (def: Definition) => def.id)
  }

  const CHANNELS := {"download", "filesystem", "webhook", "email", "object_store"}

  /**
   * What is recorded of one attempt at `channel`, given what was answered meanwhile. The adapter of one
   * of the five channels is asked once, the delivery counts as delivered exactly when it answers no
   * error, and an error is recorded in its own words. On any other channel nobody is asked.
   */
  predicate Tells(replies: seq<Reply>, channel: string, attempt: int, status: DeliveryStatus, lastError: string) {
    && (if channel in {"download", "filesystem", "webhook", "email", "object_store"}
        then
          && |replies| == 1 && replies[0].Sent?
          && (status == Delivered <==> replies[0].error.None?)
          && lastError == if replies[0].error.Some? then replies[0].error.value else ""
        else replies == [] && status != Delivered && lastError == "unsupported delivery channel")
    && (status != Delivered ==> status == if attempt >= 3 then DeadLettered else Failed)
  }

  /** An attempt is delivered exactly when it had a channel and all it asked answered well. */
  lemma TellsGood(before: seq<Reply>, asked: seq<Reply>, def: Definition, status: DeliveryStatus, lastError: string)
    requires Tells(asked, def.channel, 1, status, lastError) && def.channel != ""
    ensures status == Delivered <==> AllGood(before, before + [Rendered(true)] + asked) && HasChannel(def)
  {
    var replies := before + [Rendered(true)] + asked;
    assert replies[|before|] == Rendered(true);
    if |asked| == 1 {
      assert replies[|before| + 1] == asked[0];
    }
  }

  lemma NotRendered(before: seq<Reply>)
    ensures !AllGood(before, before + [Rendered(false)])
  {
    assert (before + [Rendered(false)])[|before|] == Rendered(false);
  }

  lemma Rendering(before: seq<Reply>)
    ensures AllGood(before, before + [Rendered(true)])
  {
  }

  class Store {
    const env: Environment
    var reports: seq<Definition>
    var runs: seq<Run>
    var artifacts: seq<Artifact>
    var deliveries: seq<Delivery>
    var deadLetters: seq<DeadLetter>

    ghost function Contents(): Data
      reads this
    {
      Data(runs, artifacts, deliveries, deadLetters)
    }

    ghost predicate Valid()
      reads this, env
    {
      && Inv(Contents())
      && UniqueIds(reports)
      && (forall a <- artifacts :: IssuedBefore(a.id, env.counter) && a.createdAt <= env.clock)
    }

    constructor (env: Environment)
      ensures Valid() && this.env == env && Contents() == Data([], [], [], []) && reports == []
    {
      this.env := env;
      reports, runs, artifacts, deliveries, deadLetters := [], [], [], [], [];
    }

    method GetReportArtifact(id: string) returns (artifact: Option<Artifact>)
      ensures artifact.Some? <==> id in ArtifactIds(artifacts)
      ensures artifact.Some? ==> artifact.value in artifacts && artifact.value.id == id
    {
      for i := 0 to |artifacts|
        invariant id !in ArtifactIds(artifacts[..i])
      {
        if artifacts[i].id == id {
          return Some(artifacts[i]);
        }
      }
      assert artifacts[..|artifacts|] == artifacts;
      return None;
    }

    method ListReportDeliveries() returns (items: seq<Delivery>)
      ensures multiset(items) == multiset(deliveries)
    {
      items := SortSlice(deliveries, (a: Delivery, b: Delivery) => a.createdAt < b.createdAt);
    }

    /** One more than the highest attempt for the address, in whatever order the store lists them. */
    method NextAttempt(to: Address) returns (attempt: int)
      requires Numbered(deliveries)
      ensures attempt == |Attempts(deliveries, to)| + 1
    {
      var listed := ListReportDeliveries();
      ArrangementMembers(listed, deliveries);
      attempt := 1;
      for i := 0 to |listed|
        invariant attempt >= 1
        invariant attempt > 1 ==> attempt - 1 in Attempts(deliveries, to)
        invariant forall x <- listed[..i] :: x.to == to ==> x.attempt < attempt
      {
        var prior := listed[i];
        if prior.to == to && prior.attempt >= attempt {
          AttemptRecorded(deliveries, prior);
          attempt := prior.attempt + 1;
        }
      }
      assert listed[..|listed|] == listed;
      TopAttempt(deliveries, to, attempt);
    }

    /** The adapter's part of a delivery, and the status it leads to. */
    method Attempt(channel: string, attempt: int) returns (status: DeliveryStatus, lastError: string)
      modifies env
      ensures env.clock >= old(env.clock) && env.counter >= old(env.counter)
      ensures old(env.replies) <= env.replies
      ensures Tells(env.replies[|old(env.replies)|..], channel, attempt, status, lastError)
    {
      status, lastError := Failed, "";
      if channel !in CHANNELS {
        lastError := "unsupported delivery channel";
      } else {
        var error := env.Deliver();
        if error.Some? {
          lastError := error.value;
        } else {
          status := Delivered;
          var _ := env.Now();
        }
      }
      if status != Delivered {
        if attempt >= 3 {
          status := DeadLettered;
        } else {
          status := Failed;
        }
      }
    }

    method DeliverArtifact(artifactId: string, channel: string, recipient: string) returns (ok: bool)
      requires Valid()
      modifies this`deliveries, this`deadLetters, env
      ensures Valid() && env.clock >= old(env.clock) && env.counter >= old(env.counter)
      ensures artifactId !in ArtifactIds(artifacts) ==>
        !ok && Contents() == old(Contents()) && env.replies == old(env.replies)
      ensures artifactId in ArtifactIds(artifacts) ==>
        && |deliveries| == |old(deliveries)| + 1 && old(deliveries) <= deliveries
        && var x := deliveries[|old(deliveries)|];
        && x.to == Address(artifactId, if channel == "" then "download" else channel, recipient)
        && x.attempt == |Attempts(old(deliveries), x.to)| + 1
        && old(env.replies) <= env.replies
        && Tells(env.replies[|old(env.replies)|..], x.to.channel, x.attempt, x.status, x.lastError)
        && (ok <==> x.status == Delivered)
        && old(deadLetters) <= deadLetters
        && LetterNotes(deadLetters[|old(deadLetters)|..])
           == if !ok && x.attempt >= 3 then [Note(x.to, x.lastError, x.attempt)] else []
    {
      hide Attempts, DeadNotes, LetterNotes, Closed, Dated, Numbered, UniqueIds, ArtifactIds;
      var artifact := GetReportArtifact(artifactId);
      if artifact.None? {
        return false;
      }
      var channel := if channel == "" then "download" else channel;
      var to := Address(artifact.value.id, channel, recipient);
      var attempt := NextAttempt(to);
      var status, lastError := Attempt(channel, attempt);
      Record(to, attempt, status, lastError);
      ok := status == Delivered;
    }

    /** The delivery is saved, and a dead letter beside it if it ended dead. */
    method Record(to: Address, attempt: int, status: DeliveryStatus, lastError: string)
      requires Valid() && to.artifactId in ArtifactIds(artifacts)
      requires attempt == |Attempts(deliveries, to)| + 1
      requires status == DeadLettered <==> status != Delivered && attempt >= 3
      modifies this`deliveries, this`deadLetters, env
      ensures Valid() && env.clock >= old(env.clock) && env.counter >= old(env.counter)
      ensures |deliveries| == |old(deliveries)| + 1 && old(deliveries) <= deliveries
      ensures var x := deliveries[|old(deliveries)|];
        x.to == to && x.attempt == attempt && x.status == status && x.lastError == lastError
      ensures old(deadLetters) <= deadLetters && env.replies == old(env.replies)
      ensures LetterNotes(deadLetters[|old(deadLetters)|..])
           == if status == DeadLettered then [Note(to, lastError, attempt)] else []
    {
      hide Attempts, DeadNotes, LetterNotes, Closed, Dated, Numbered, UniqueIds, ArtifactIds, IssuedBefore;
      IssuedLater(artifacts, env.counter);
      var id := env.NewId();
      var at := env.Now();
      SaveDelivery(Delivery(id, to, status, attempt, lastError, at));
      if status == DeadLettered {
        IssuedLater(artifacts, env.counter);
        var letterId := env.NewId();
        var letterAt := env.Now();
        SaveDeadLetter(DeadLetter(letterId, to, lastError, attempt, letterAt));
        OneLetter(DeadLetter(letterId, to, lastError, attempt, letterAt));
      }
    }

    /** All of Valid, save that the dead letter of the last delivery may still be missing. */
    ghost predicate AlmostValid(missing: seq<Note>)
      reads this, env
    {
      && Closed(Contents()) && Dated(Contents())
      && Numbered(deliveries)
      && (forall x <- deliveries :: x.status == DeadLettered <==> x.status != Delivered && x.attempt >= 3)
      && DeadNotes(deliveries) == LetterNotes(deadLetters) + missing
      && UniqueIds(reports)
      && (forall a <- artifacts :: IssuedBefore(a.id, env.counter) && a.createdAt <= env.clock)
    }

    method SaveDelivery(x: Delivery)
      requires AlmostValid([])
      requires x.to.artifactId in ArtifactIds(artifacts) && env.clock <= x.createdAt
      requires x.attempt == |Attempts(deliveries, x.to)| + 1
      requires x.status == DeadLettered <==> x.status != Delivered && x.attempt >= 3
      modifies this`deliveries
      ensures deliveries == old(deliveries) + [x]
      ensures AlmostValid(if x.status == DeadLettered then [Note(x.to, x.lastError, x.attempt)] else [])
    {
      hide Attempts, LetterNotes, ArtifactIds, RunIds, IssuedBefore;
      NumberedMore(deliveries, x);
      assert (deliveries + [x])[..|deliveries|] == deliveries;
      deliveries := deliveries + [x];
    }

    method SaveDeadLetter(y: DeadLetter)
      requires AlmostValid([Note(y.to, y.reason, y.attempt)])
      requires y.to.artifactId in ArtifactIds(artifacts) && env.clock <= y.createdAt
      modifies this`deadLetters
      ensures deadLetters == old(deadLetters) + [y]
      ensures AlmostValid([])
    {
      hide Attempts, DeadNotes, ArtifactIds, RunIds, IssuedBefore, Numbered;
      assert (deadLetters + [y])[..|deadLetters|] == deadLetters;
      deadLetters := deadLetters + [y];
    }

    /** What RunReport and RunDueReports may do to the store besides adding runs. */
    twostate predicate Grown()
      reads this, env
    {
      && old(runs) <= runs && old(artifacts) <= artifacts
      && old(deliveries) <= deliveries && old(deadLetters) <= deadLetters
      && old(env.clock) <= env.clock && old(env.counter) <= env.counter
    }

    /**
     * One run of a report: nothing happens when it cannot be rendered; otherwise its run and artifact are
     * stored, and the artifact is delivered when the definition names a channel.
     */
    method RunReport(def: Definition) returns (ok: bool)
      requires Valid()
      modifies this`runs, this`artifacts, this`deliveries, this`deadLetters, env
      ensures Valid() && Grown() && old(env.replies) < env.replies
      ensures var replies := env.replies[|old(env.replies)|..];
        && replies[0].Rendered?
        && (!replies[0].ok ==> !ok && Contents() == old(Contents()) && replies == [Rendered(false)])
        && (replies[0].ok ==>
              && |runs| == |old(runs)| + 1 && runs[|old(runs)|].reportId == def.id
              && |artifacts| == |old(artifacts)| + 1
              && artifacts[|old(artifacts)|].reportId == def.id
              && artifacts[|old(artifacts)|].id !in ArtifactIds(old(artifacts))
              && artifacts[|old(artifacts)|].runId == runs[|old(runs)|].id
              && runs[|old(runs)|].artifactId == artifacts[|old(artifacts)|].id
              && old(env.clock) <= artifacts[|old(artifacts)|].createdAt <= runs[|old(runs)|].generatedAt <= env.clock
              && deadLetters == old(deadLetters)
              && if def.channel == "" then ok && deliveries == old(deliveries) && replies == [Rendered(true)]
                 else
                   && |deliveries| == |old(deliveries)| + 1
                   && var x := deliveries[|old(deliveries)|];
                   && x.to == Address(artifacts[|old(artifacts)|].id, def.channel, def.target) && x.attempt == 1
                   && Tells(replies[1..], def.channel, 1, x.status, x.lastError)
                   && (ok <==> x.status == Delivered))
      ensures ok <==> AllGood(old(env.replies), env.replies) && HasChannel(def)
    {
      hide Attempts, DeadNotes, LetterNotes, Closed, Dated, Numbered, UniqueIds, UpTo, Tells, AllGood;
      ghost var before := env.replies;
      var exported := env.Export();
      if !exported {
        NotRendered(before);
        return false;
      }
      Rendering(before);
      FreshId(env.counter);
      var artifactId := env.NewId();
      var artifactAt := env.Now();
      var runId := env.NewId();
      var runAt := env.Now();
      NoAttemptYet(Contents(), Address(artifactId, def.channel, def.target));
      SaveRun(Run(runId, def.id, artifactId, runAt), Artifact(artifactId, def.id, runId, artifactAt));
      ok := true;
      if def.channel != "" {
        ok := DeliverArtifact(artifactId, def.channel, def.target);
        ghost var x := deliveries[|old(deliveries)|];
        TellsGood(before, env.replies[|before| + 1..], def, x.status, x.lastError);
        assert env.replies == before + [Rendered(true)] + env.replies[|before| + 1..];
      }
    }

    /** SaveReportRun and SaveReportArtifact. */
    method SaveRun(run: Run, artifact: Artifact)
      requires Valid()
      requires artifact.runId == run.id && artifact.id !in ArtifactIds(artifacts)
      requires IssuedBefore(artifact.id, env.counter) && artifact.createdAt <= env.clock
      modifies this`runs, this`artifacts
      ensures Valid() && runs == old(runs) + [run] && artifacts == old(artifacts) + [artifact]
    {
      runs := runs + [run];
      artifacts := artifacts + [artifact];
    }

    method ListReportDefinitions() returns (items: seq<Definition>)
      ensures Arrangement(items, reports, RunsEarlier)
    {
      items := SortSlice(reports, RunsEarlier);
    }

    method UpdateReportDefinition(def: Definition)
      requires UniqueIds(reports)
      modifies this`reports
      ensures reports == Replaced(old(reports), def)
    {
      for i := 0 to |reports|
        invariant reports == old(reports)
        invariant forall j :: 0 <= j < i ==> reports[j].id != def.id
      {
        if reports[i].id == def.id {
          var key := (d: Definition) => d.id;
          assert forall j :: i < j < |reports| ==> key(reports[i]) != key(reports[j]);
          reports := reports[i := def];
          return;
        }
      }
    }

    /** One due definition: run its report, then move it on. */
    method RunAndAdvance(def: Definition, now: Time) returns (ok: bool)
      requires Valid()
      modifies this`reports, this`runs, this`artifacts, this`deliveries, this`deadLetters, env
      ensures Valid() && Grown()
      ensures ReportIds(runs) == ReportIds(old(runs)) + (if |runs| > |old(runs)| then [def.id] else [])
      ensures ok ==>
          |runs| > |old(runs)| && reports == Replaced(old(reports), def.(nextRunAt := NextRun(def.schedule, now)))
      ensures !ok ==> reports == old(reports)
      ensures old(env.replies) <= env.replies
      ensures ok <==> AllGood(old(env.replies), env.replies) && HasChannel(def)
    {
      hide Inv, IssuedBefore, NextRun;
      label start:
      ok := RunReport(def);
      assert |runs| > |old(runs)| ==> runs == old(runs) + [runs[|old(runs)|]];
      if ok {
        UpdateReportDefinition(def.(nextRunAt := NextRun(def.schedule, now)));
      }
    }

    /**
     * On success every due definition has run exactly once and moved on, and nothing else has changed.
     * On an error the same is true of the definitions in `done`, and at most one more report has run;
     * then a report was not rendered, an adapter reported an error, or a due definition has no channel.
     */
    method RunDueReports(now: Time) returns (ok: bool, ghost done: seq<string>)
      requires Valid()
      modifies this`reports, this`runs, this`artifacts, this`deliveries, this`deadLetters, env
      ensures Valid() && Grown()
      ensures reports == Advanced(old(reports), done, now)
      ensures |reports| == |old(reports)| && forall i | 0 <= i < |reports| ::
                var def := old(reports)[i];
                reports[i] == if def.id in done then def.(nextRunAt := NextRun(def.schedule, now)) else def
      ensures old(env.replies) <= env.replies
      ensures ok ==> AllGood(old(env.replies), env.replies)
      ensures !ok ==>
        || !AllGood(old(env.replies), env.replies)
        || exists def <- old(reports) :: def.enabled && def.nextRunAt <= now && !HasChannel(def)
      ensures multiset(done) <= multiset(DueIds(old(reports), now))
      ensures ok ==> multiset(done) == multiset(DueIds(old(reports), now))
      ensures ok ==> ReportIds(runs) == ReportIds(old(runs)) + done
      ensures ReportIds(old(runs)) + done <= ReportIds(runs) && |runs| <= |old(runs)| + |done| + 1
    {
      hide Inv, IssuedBefore, NextRun, DueIds, Due;
      var listed := ListReportDefinitions();
      ArrangementMembers(listed, reports);
      done := [];
      AdvancedNone(reports, now);
      DueIdsOfNone(now);
      for i := 0 to |listed|
        invariant Valid() && Grown()
        invariant done == DueIds(listed[..i], now)
        invariant reports == Advanced(old(reports), done, now)
        invariant old(env.replies) <= env.replies && AllGood(old(env.replies), env.replies)
        invariant ReportIds(runs) == ReportIds(old(runs)) + done
      {
        var def := listed[i];
        DueIdsMore(listed[..i], def, now);
        assert listed[..i + 1] == listed[..i] + [def];
        DueOrder(listed, old(reports), now, i);
        if !def.enabled || now < def.nextRunAt {
          assert !Due(def, now) by { NotDue(def, now); }
          continue;
        }
        assert Due(def, now) by { NotDue(def, now); }
        ghost var before := runs;
        var ran := RunAndAdvance(def, now);
        if !ran {
          return false, done;
        }
        AdvancedMore(old(reports), done, def, now);
        done := done + [def.id];
      }
      assert listed[..|listed|] == listed;
      DueOrder(listed, old(reports), now, |listed|);
      ok := true;
    }

    method CleanupReportData(cutoff: Time)
      requires Valid()
      modifies this`runs, this`artifacts, this`deliveries, this`deadLetters
      ensures Valid() && Contents() == Cleaned(old(Contents()), cutoff)
    {
      ghost var d := Contents();
      CleanKeepsInv(d, cutoff);
      CleanRuns(cutoff);
      CleanArtifacts(cutoff, d);
      CleanRest(cutoff, d);
      forall a | a in artifacts ensures a in d.artifacts {
        KeptArtifact(d, cutoff, a);
      }
    }

    method CleanRuns(cutoff: Time)
      modifies this`runs
      ensures runs == KeptRuns(old(Contents()), cutoff)
    {
      var filterRuns := [];
      for i := 0 to |runs|
        invariant runs == old(runs)
        invariant filterRuns == Filter(runs[..i], (r: Run) => cutoff <= r.generatedAt)
      {
        assert runs[..i + 1] == runs[..i] + [runs[i]];
        FilterMore(runs[..i], runs[i], (r: Run) => cutoff <= r.generatedAt);
        if runs[i].generatedAt < cutoff {
          continue;
        }
        filterRuns := filterRuns + [runs[i]];
      }
      assert runs[..|runs|] == runs;
      runs := filterRuns;
    }

    method CleanArtifacts(cutoff: Time, ghost d: Data)
      requires runs == KeptRuns(d, cutoff) && artifacts == d.artifacts
      modifies this`artifacts
      ensures artifacts == KeptArtifacts(d, cutoff)
    {
      var kept := RunIds(runs);
      var filterArtifacts := [];
      ghost var keep := (a: Artifact) => cutoff <= a.createdAt && a.runId in kept;
      for i := 0 to |artifacts|
        invariant artifacts == d.artifacts
        invariant filterArtifacts == Filter(artifacts[..i], keep)
      {
        assert artifacts[..i + 1] == artifacts[..i] + [artifacts[i]];
        FilterMore(artifacts[..i], artifacts[i], keep);
        if artifacts[i].createdAt < cutoff {
          continue;
        }
        if artifacts[i].runId !in kept {
          continue;
        }
        filterArtifacts := filterArtifacts + [artifacts[i]];
      }
      assert artifacts[..|artifacts|] == artifacts;
      FilterSame(d.artifacts, keep, (a: Artifact) => cutoff <= a.createdAt && a.runId in kept);
      artifacts := filterArtifacts;
    }

    method CleanRest(cutoff: Time, ghost d: Data)
      requires artifacts == KeptArtifacts(d, cutoff) && deliveries == d.deliveries && deadLetters == d.deadLetters
      modifies this`deliveries, this`deadLetters
      ensures deliveries == KeptDeliveries(d, cutoff) && deadLetters == KeptLetters(d, cutoff)
    {
      var kept := ArtifactIds(artifacts);
      var filterDeliveries, filterDead := [], [];
      ghost var keep := (x: Delivery) => cutoff <= x.createdAt && x.to.artifactId in kept;
      ghost var keepLetter := (y: DeadLetter) => cutoff <= y.createdAt && y.to.artifactId in kept;
      for i := 0 to |deliveries|
        invariant deliveries == d.deliveries && deadLetters == d.deadLetters
        invariant filterDeliveries == Filter(deliveries[..i], keep)
      {
        assert deliveries[..i + 1] == deliveries[..i] + [deliveries[i]];
        FilterMore(deliveries[..i], deliveries[i], keep);
        if deliveries[i].createdAt < cutoff || deliveries[i].to.artifactId !in kept {
          continue;
        }
        filterDeliveries := filterDeliveries + [deliveries[i]];
      }
      assert deliveries[..|deliveries|] == deliveries;
      for i := 0 to |deadLetters|
        invariant deliveries == d.deliveries && deadLetters == d.deadLetters
        invariant filterDead == Filter(deadLetters[..i], keepLetter)
      {
        assert deadLetters[..i + 1] == deadLetters[..i] + [deadLetters[i]];
        FilterMore(deadLetters[..i], deadLetters[i], keepLetter);
        if deadLetters[i].createdAt < cutoff || deadLetters[i].to.artifactId !in kept {
          continue;
        }
        filterDead := filterDead + [deadLetters[i]];
      }
      assert deadLetters[..|deadLetters|] == deadLetters;
      FilterSame(d.deliveries, keep, (x: Delivery) => cutoff <= x.createdAt && x.to.artifactId in kept);
      FilterSame(d.deadLetters, keepLetter, (y: DeadLetter) => cutoff <= y.createdAt && y.to.artifactId in kept);
      deliveries, deadLetters := filterDeliveries, filterDead;
    }
  }

  // ---- What is due ----

  lemma NotDue(def: Definition, now: Time)
    ensures Due(def, now) <==> def.enabled && !(now < def.nextRunAt)
  {
  }

  lemma DueIdsOfNone(now: Time)
    ensures DueIds([], now) == []
  {
  }

  lemma DueIdsMore(definitions: seq<Definition>, def: Definition, now: Time)
    ensures DueIds(definitions + [def], now)
         == if Due(def, now) then DueIds(definitions, now) + [def.id] else DueIds(definitions, now)
  {
    assert (definitions + [def])[..|definitions|] == definitions;
  }

  lemma {:induction false} DueIdsConcat(a: seq<Definition>, b: seq<Definition>, now: Time)
    ensures DueIds(a + b, now) == DueIds(a, now) + DueIds(b, now)
    decreases |b|
  {
    hide Due, DueIds;
    DueIdsOfNone(now);
    if b == [] {
      assert a + b == a;
    } else {
      var init, last := b[..|b| - 1], b[|b| - 1];
      DueIdsConcat(a, init, now);
      DueIdsMore(a + init, last, now);
      DueIdsMore(init, last, now);
      assert a + b == a + init + [last] && b == init + [last];
    }
  }

  /** The due ids do not depend on the order of the definitions, counted with multiplicity. */
  lemma {:induction false} DueIdsOrder(a: seq<Definition>, b: seq<Definition>, now: Time)
    requires multiset(a) == multiset(b)
    ensures multiset(DueIds(a, now)) == multiset(DueIds(b, now))
    decreases |a|
  {
    if a == [] {
      assert |multiset(b)| == 0;
    } else {
      hide Due, DueIds;
      var init, x := a[..|a| - 1], a[|a| - 1];
      var i := TakeOut(a, b);
      var left, right := b[..i], b[i + 1..];
      DueIdsOrder(init, left + right, now);
      assert a == init + [x];
      DueIdsMore(init, x, now);
      DueIdsConcat(left, right, now);
      DueIdsConcat(left + [x], right, now);
      DueIdsMore(left, x, now);
    }
  }

  function DueAs(id: string, now: Time): Definition -> bool {
    (def: Definition) => def.id == id && def.enabled && def.nextRunAt <= now
  }

  /** An id is due as often as an enabled definition of that id has reached its time. */
  lemma {:induction false} DueIdsMeaning(definitions: seq<Definition>, now: Time, id: string)
    ensures multiset(DueIds(definitions, now))[id] == HowMany(definitions, DueAs(id, now))
    decreases |definitions|
  {
    if definitions == [] {
      assert Places(definitions, DueAs(id, now)) == {};
    } else {
      hide HowMany;
      var init, last := definitions[..|definitions| - 1], definitions[|definitions| - 1];
      DueIdsMeaning(init, now, id);
      assert definitions == init + [last];
      HowManyMore(init, last, DueAs(id, now));
    }
  }

  lemma DueOrder(listed: seq<Definition>, definitions: seq<Definition>, now: Time, n: nat)
    requires multiset(listed) == multiset(definitions) && n <= |listed|
    ensures multiset(DueIds(listed[..n], now)) <= multiset(DueIds(definitions, now))
    ensures n == |listed| ==> multiset(DueIds(listed[..n], now)) == multiset(DueIds(definitions, now))
  {
    hide Due, DueIds;
    assert listed == listed[..n] + listed[n..];
    DueIdsConcat(listed[..n], listed[n..], now);
    DueIdsOrder(listed, definitions, now);
    if n == |listed| {
      assert listed[..n] == listed;
    }
  }

  lemma AdvancedNone(definitions: seq<Definition>, now: Time)
    ensures Advanced(definitions, [], now) == definitions
  {
  }

  lemma AdvancedMore(definitions: seq<Definition>, done: seq<string>, def: Definition, now: Time)
    requires UniqueIds(definitions) && def in definitions
    ensures Advanced(definitions, done + [def.id], now)
         == Replaced(Advanced(definitions, done, now), def.(nextRunAt := NextRun(def.schedule, now)))
  {
    var key := (d: Definition) => d.id;
    forall i | 0 <= i < |definitions| && definitions[i].id == def.id ensures definitions[i] == def {
      KeyDetermines(definitions, key, i, def);
    }
  }

  lemma {:induction false} DueIdIn(definitions: seq<Definition>, def: Definition, now: Time)
    requires def in definitions && Due(def, now)
    ensures def.id in DueIds(definitions, now)
    decreases |definitions|
  {
    if definitions[|definitions| - 1] != def {
      DueIdIn(definitions[..|definitions| - 1], def, now);
    }
  }

  /**
   * After RunDueReports(now) has succeeded, every enabled definition is due only later, so a second
   * call at the same instant has nothing to run.
   */
  lemma NothingDueTwice(definitions: seq<Definition>, done: seq<string>, now: Time)
    requires multiset(done) == multiset(DueIds(definitions, now))
    ensures forall def <- Advanced(definitions, done, now) :: def.enabled ==> def.nextRunAt > now
    ensures DueIds(Advanced(definitions, done, now), now) == []
  {
    var advanced := Advanced(definitions, done, now);
    forall def | def in advanced ensures !Due(def, now) {
      var i :| 0 <= i < |advanced| && advanced[i] == def;
      NextRunLater(definitions[i].schedule, now);
      if Due(definitions[i], now) {
        DueIdIn(definitions, definitions[i], now);
        assert definitions[i].id in multiset(done);
      }
    }
    NoneDue(advanced, now);
  }

  lemma NoneDue(definitions: seq<Definition>, now: Time)
    requires forall def <- definitions :: !Due(def, now)
    ensures DueIds(definitions, now) == []
  {
  }

  /** In a numbered list, one more than every number and one more than some number is the next one. */
  lemma TopAttempt(deliveries: seq<Delivery>, to: Address, attempt: int)
    requires Numbered(deliveries) && attempt >= 1
    requires attempt > 1 ==> attempt - 1 in Attempts(deliveries, to)
    requires forall x <- deliveries :: x.to == to ==> x.attempt < attempt
    ensures attempt == |Attempts(deliveries, to)| + 1
  {
    var numbers := Attempts(deliveries, to);
    assert numbers == UpTo(|numbers|);
    if numbers != [] {
      assert numbers[|numbers| - 1] == |numbers|;
      RecordedAttempt(deliveries, to, |numbers|);
    }
  }
}
