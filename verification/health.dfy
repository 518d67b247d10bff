/** pkg/integration and pkg/controllers/owned_references_health.go: from Job pod counts to a published verdict. */
module Health {
  import opened Wrappers
  import opened References
  import opened Cluster

  datatype JobHealth = JobHealth(reference: ChildReference, succeeded: bool, running: bool, failed: bool)

  datatype HealthError = UnrecognizedResourceType | LookupFailed

  /** A Job of a listing. */
  datatype Item = Item(id: Identity, job: Object)

  /** The Jobs a label selector returned; None when the listing itself failed. */
  type Reading = Option<seq<Item>>

  function FirstFailed(jobs: seq<Item>): Option<Item> {
    if jobs == [] then None
    else if jobs[0].job.failed > 0 then Some(jobs[0])
    else FirstFailed(jobs[1..])
  }

  predicate SomeActive(jobs: seq<Item>) {
    exists j :: j in jobs && j.job.active > 0
  }

  /** One status for all Jobs carrying a tracking label. The items of a typed listing carry no apiVersion and kind, so
      neither does the entry of a failed one. */
  function Verdict(id: TrackingId, reading: Reading): Result<JobHealth, HealthError> {
    if reading.None? || reading.value == [] then Err(LookupFailed)
    else
      var culprit := FirstFailed(reading.value);
      if culprit.Some? then Ok(JobHealth(ChildReference("", "", culprit.value.job.tracking), false, false, true))
      else
        var running := SomeActive(reading.value);
        Ok(JobHealth(ChildReference("v1", "Job", id), !running, running, false))
  }

  lemma {:induction false} FirstFailedExists(jobs: seq<Item>)
    ensures FirstFailed(jobs).Some? <==> exists j :: j in jobs && j.job.failed > 0
    ensures FirstFailed(jobs).Some? ==> FirstFailed(jobs).value in jobs && FirstFailed(jobs).value.job.failed > 0
  {
    if jobs != [] {
      FirstFailedExists(jobs[1..]);
      assert jobs == [jobs[0]] + jobs[1..];
    }
  }

  lemma {:induction false} NoneFailedSoFar(jobs: seq<Item>, i: nat)
    requires i <= |jobs| && forall k :: 0 <= k < i ==> jobs[k].job.failed == 0
    ensures FirstFailed(jobs) == FirstFailed(jobs[i..])
  {
    if i > 0 {
      NoneFailedSoFar(jobs[1..], i - 1);
      assert jobs[1..][i - 1..] == jobs[i..];
    } else {
      assert jobs[0..] == jobs;
    }
  }

  /** GetScheduledJobHealthStatus: the loop with its early return. */
  method GetScheduledJobHealthStatus(id: TrackingId, reading: Reading) returns (status: Result<JobHealth, HealthError>)
    ensures status == Verdict(id, reading)
  {
    if reading.None? {
      return Err(LookupFailed);
    }
    var items := reading.value;
    var running := false;
    if |items| == 0 {
      return Err(LookupFailed);
    }
    for i := 0 to |items|
      invariant forall k :: 0 <= k < i ==> items[k].job.failed == 0
      invariant running <==> exists k :: 0 <= k < i && items[k].job.active > 0
    {
      var item := items[i];
      if item.job.failed > 0 {
        NoneFailedSoFar(items, i);
        return Ok(JobHealth(ChildReference("", "", item.job.tracking), false, false, true));
      }
      if item.job.active > 0 {
        running := true;
      }
    }
    NoneFailedSoFar(items, |items|);
    assert running <==> SomeActive(items);
    return Ok(JobHealth(ChildReference("v1", "Job", id), !running, running, false));
  }

  /** The verdict is a total classification: for every non-empty listing exactly one flag is set, failure first. */
  lemma VerdictClassifies(id: TrackingId, jobs: seq<Item>)
    requires jobs != []
    ensures Verdict(id, Some(jobs)).Ok?
    ensures var v := Verdict(id, Some(jobs)).value;
            && (v.failed <==> exists j :: j in jobs && j.job.failed > 0)
            && (v.running <==>
                (forall j :: j in jobs ==> j.job.failed == 0) && exists j :: j in jobs && j.job.active > 0)
            && (v.succeeded <==> forall j :: j in jobs ==> j.job.failed == 0 && j.job.active == 0)
            && !(v.failed && v.running) && !(v.failed && v.succeeded) && !(v.running && v.succeeded)
            && (v.failed || v.running || v.succeeded)
  {
    FirstFailedExists(jobs);
  }

  /** ... and, despite the early return, the flags do not depend on the order of the listing. */
  lemma VerdictOrderIndependent(id: TrackingId, a: seq<Item>, b: seq<Item>)
    requires multiset(a) == multiset(b)
    ensures var x, y := Verdict(id, Some(a)), Verdict(id, Some(b));
            && x.Ok? == y.Ok?
            && (x.Ok? ==> x.value.failed == y.value.failed && x.value.running == y.value.running
                          && x.value.succeeded == y.value.succeeded)
  {
    assert |a| == |multiset(a)| == |multiset(b)| == |b|;
    forall j ensures j in a <==> j in b {
      assert j in a <==> j in multiset(a);
      assert j in b <==> j in multiset(b);
    }
    if a != [] {
      VerdictClassifies(id, a);
      VerdictClassifies(id, b);
    }
  }

  /** AllSupportedJobResourceTypes: only batch/v1 Jobs are recognized, compared by printed form. */
  predicate Recognized(ref: ChildReference) {
    GetGVK(ref).Some? && GetGVK(ref).value.Print() == JOB.Print()
  }

  /** For a kind whose group and version hold no slash, being recognized means being a batch/v1 Job. */
  lemma RecognizedExactly(gvk: GVK, id: TrackingId)
    requires '/' !in gvk.group && '/' !in gvk.version
    ensures Recognized(ReferenceTo(gvk, id)) <==> gvk == GVK("batch", "v1", "Job")
  {
    ReferenceRoundTrip(gvk, id);
    assert JOB.Plain();
    if gvk.Print() == JOB.Print() {
      PlainPrint(JOB, gvk);
    }
  }

  function Examine(ref: ChildReference, reading: Reading): Result<JobHealth, HealthError> {
    if Recognized(ref) then Verdict(ref.trackingId, reading) else Err(UnrecognizedResourceType)
  }

  datatype Report = Report(entries: seq<JobHealth>, healthy: bool, erred: bool)

  /** The report over references and what was read for each of them. */
  function HealthReport(refs: seq<ChildReference>, readings: seq<Reading>): Report
    requires |refs| == |readings|
  {
    if refs == [] then Report([], true, false)
    else
      match Examine(refs[0], readings[0])
      case Ok(status) =>
        var rest := HealthReport(refs[1..], readings[1..]);
        Report([status] + rest.entries, rest.healthy && !status.failed, rest.erred)
      case Err(UnrecognizedResourceType) => HealthReport(refs[1..], readings[1..])
      case Err(LookupFailed) => Report([], false, true)
  }

  /** What the next reference adds to the report of the ones before it. */
  lemma {:induction false} ReportGrows(refs: seq<ChildReference>, readings: seq<Reading>, ref: ChildReference,
                                       reading: Reading)
    requires |refs| == |readings|
    ensures HealthReport(refs + [ref], readings + [reading]) ==
            var so := HealthReport(refs, readings);
            if so.erred then so
            else match Examine(ref, reading)
              case Ok(status) => Report(so.entries + [status], so.healthy && !status.failed, false)
              case Err(UnrecognizedResourceType) => so
              case Err(LookupFailed) => Report(so.entries, false, true)
  {
    var more, moreReadings := refs + [ref], readings + [reading];
    if refs == [] {
      assert more[1..] == [] && moreReadings[1..] == [];
      assert HealthReport(more[1..], moreReadings[1..]) == Report([], true, false);
    } else {
      assert more[1..] == refs[1..] + [ref] && moreReadings[1..] == readings[1..] + [reading];
      ReportGrows(refs[1..], readings[1..], ref, reading);
      ErredIsUnhealthy(refs[1..], readings[1..]);
      match Examine(refs[0], readings[0])
      case Ok(status) =>
        var rest := HealthReport(refs[1..], readings[1..]);
        match Examine(ref, reading) {
          case Ok(last) => assert [status] + (rest.entries + [last]) == [status] + rest.entries + [last];
          case Err(_) =>
        }
      case Err(_) =>
    }
  }

  lemma {:induction false} ErredIsUnhealthy(refs: seq<ChildReference>, readings: seq<Reading>)
    requires |refs| == |readings|
    ensures HealthReport(refs, readings).erred ==> !HealthReport(refs, readings).healthy
  {
    if refs != [] {
      ErredIsUnhealthy(refs[1..], readings[1..]);
    }
  }

  lemma {:induction false} ErrorEndsReport(refs: seq<ChildReference>, readings: seq<Reading>, i: nat)
    requires |refs| == |readings| && i <= |refs| && HealthReport(refs[..i], readings[..i]).erred
    ensures HealthReport(refs, readings) == HealthReport(refs[..i], readings[..i])
    decreases |refs| - i
  {
    if i < |refs| {
      assert refs[..i + 1] == refs[..i] + [refs[i]] && readings[..i + 1] == readings[..i] + [readings[i]];
      ReportGrows(refs[..i], readings[..i], refs[i], readings[i]);
      ErrorEndsReport(refs, readings, i + 1);
    } else {
      assert refs[..i] == refs && readings[..i] == readings;
    }
  }

  /** createOwnedReferencesHealthReport; `readings[i]` is the listing made for reference i. */
  method CreateOwnedReferencesHealthReport(refs: seq<ChildReference>, readings: seq<Reading>) returns (result: Report)
    requires |refs| == |readings|
    requires forall r :: r in refs ==> GetGVK(r).Some?
    ensures result == HealthReport(refs, readings)
  {
    var report: seq<JobHealth> := [];
    var healthy := true;
    for i := 0 to |refs|
      invariant HealthReport(refs[..i], readings[..i]) == Report(report, healthy, false)
    {
      assert refs[..i + 1] == refs[..i] + [refs[i]] && readings[..i + 1] == readings[..i] + [readings[i]];
      ReportGrows(refs[..i], readings[..i], refs[i], readings[i]);
      var status: Result<JobHealth, HealthError> := Err(UnrecognizedResourceType);
      if GetGVK(refs[i]).value.Print() == JOB.Print() {
        status := GetScheduledJobHealthStatus(refs[i].trackingId, readings[i]);
      }
      if status.Err? {
        if status.error == UnrecognizedResourceType {
          continue;
        }
        ErrorEndsReport(refs, readings, i + 1);
        return Report(report, false, true);
      }
      report := report + [status.value];
      if status.value.failed {
        healthy := false;
      }
    }
    assert refs[..|refs|] == refs && readings[..|refs|] == readings;
    return Report(report, healthy, false);
  }

  /** Every Job the reading returned, and there was one, has no failed and no active pod. */
  predicate Quiet(reading: Reading) {
    && reading.Some? && reading.value != []
    && forall j :: j in reading.value ==> j.job.failed == 0 && j.job.active == 0
  }

  predicate NoneRunning(report: Report) {
    forall h :: h in report.entries ==> !h.running
  }

  /** Healthy with nothing running means exactly: for every recognized reference at least one labelled Job was found
      and all of them were finished without failure. In particular any lookup error rules it out. */
  lemma {:induction false} HealthyExactly(refs: seq<ChildReference>, readings: seq<Reading>)
    requires |refs| == |readings|
    ensures var r := HealthReport(refs, readings);
            r.healthy && NoneRunning(r) <==>
            forall i :: 0 <= i < |refs| && Recognized(refs[i]) ==> Quiet(readings[i])
  {
    if refs != [] {
      var r := HealthReport(refs, readings);
      var rest := HealthReport(refs[1..], readings[1..]);
      HealthyExactly(refs[1..], readings[1..]);
      if readings[0].Some? && readings[0].value != [] {
        VerdictClassifies(refs[0].trackingId, readings[0].value);
      }
      assert (forall i :: 0 <= i < |refs| && Recognized(refs[i]) ==> Quiet(readings[i])) <==>
             (Recognized(refs[0]) ==> Quiet(readings[0])) &&
             (forall i :: 0 <= i < |refs[1..]| && Recognized(refs[1..][i]) ==> Quiet(readings[1..][i])) by {
        assert forall i :: 0 < i < |refs| ==> refs[i] == refs[1..][i - 1] && readings[i] == readings[1..][i - 1];
      }
      match Examine(refs[0], readings[0])
      case Ok(status) =>
        assert NoneRunning(r) <==> !status.running && NoneRunning(rest) by {
          assert forall h :: h in r.entries <==> h == status || h in rest.entries;
        }
      case Err(_) =>
    }
  }

  /** Without an error the report has one entry per recognized reference. */
  lemma {:induction false} OneEntryPerReference(refs: seq<ChildReference>, readings: seq<Reading>)
    requires |refs| == |readings| && forall r :: r in refs ==> Recognized(r)
    ensures var report := HealthReport(refs, readings);
            && |report.entries| <= |refs|
            && (report.erred <==> |report.entries| < |refs|)
  {
    if refs != [] {
      assert refs[0] in refs && forall r :: r in refs[1..] ==> r in refs;
      OneEntryPerReference(refs[1..], readings[1..]);
    }
  }

  /** A listing made with this label. */
  predicate Labels(id: TrackingId, reading: Reading) {
    reading.Some? ==> forall j :: j in reading.value ==> j.job.tracking == id
  }

  /** What an entry says about a reference whose Jobs were listed like this. */
  predicate SpeaksOf(entry: JobHealth, id: TrackingId, reading: Reading) {
    && reading.Some? && reading.value != []
    && entry.reference.trackingId == id
    && (entry.failed <==> exists j :: j in reading.value && j.job.failed > 0)
    && (entry.running <==> !entry.failed && exists j :: j in reading.value && j.job.active > 0)
    && (entry.succeeded <==> !entry.failed && !entry.running)
    && (!entry.failed ==> entry.reference.apiVersion == "v1" && entry.reference.kind == "Job")
  }

  /** Entry by entry: over references of recognized kinds, looked up by their labels, entry i is about reference i,
      under its own tracking identifier, and says how its Jobs were. */
  lemma {:induction false} EntriesWrittenOut(refs: seq<ChildReference>, readings: seq<Reading>, i: nat)
    requires |refs| == |readings| && forall r :: r in refs ==> Recognized(r)
    requires i < |HealthReport(refs, readings).entries|
    requires i < |refs| ==> Labels(refs[i].trackingId, readings[i])
    ensures i < |refs| && SpeaksOf(HealthReport(refs, readings).entries[i], refs[i].trackingId, readings[i])
  {
    assert refs[0] in refs && forall r :: r in refs[1..] ==> r in refs;
    if i > 0 {
      EntriesWrittenOut(refs[1..], readings[1..], i - 1);
    } else if readings[0].Some? && readings[0].value != [] {
      VerdictSpeaks(refs[0].trackingId, readings[0].value);
    }
  }

  /** A report is healthy if and only if no lookup failed and no entry is a failed one. */
  lemma {:induction false} HealthyMeansNoneFailed(refs: seq<ChildReference>, readings: seq<Reading>)
    requires |refs| == |readings|
    ensures var report := HealthReport(refs, readings);
            report.healthy <==> !report.erred && forall h :: h in report.entries ==> !h.failed
  {
    if refs != [] {
      HealthyMeansNoneFailed(refs[1..], readings[1..]);
      match Examine(refs[0], readings[0])
      case Ok(status) =>
        var report, rest := HealthReport(refs, readings), HealthReport(refs[1..], readings[1..]);
        assert forall h :: h in report.entries <==> h == status || h in rest.entries;
      case Err(_) =>
    }
  }

  lemma VerdictSpeaks(id: TrackingId, jobs: seq<Item>)
    requires jobs != [] && Labels(id, Some(jobs))
    ensures Verdict(id, Some(jobs)).Ok? && SpeaksOf(Verdict(id, Some(jobs)).value, id, Some(jobs))
  {
    VerdictClassifies(id, jobs);
    FirstFailedExists(jobs);
  }
}
