/** Reading check runs and combined statuses, with the ETags and summaries of the last read as a cache. */
module GitHubCIProvider {
  import opened Common

  // ---- normalising check runs ----

  /** An entry of `check_runs`; the summary is already cut to its 512 bytes. */
  datatype RawRun =
    | NotAnObject
    | CheckRun(status: string, conclusion: Option<string>, name: string, detailsUrl: Option<string>, summary: string, id: string)

  datatype FailedCheck = FailedCheck(name: string, conclusion: string, detailsUrl: Option<string>, summary: string, objectId: string)

  datatype Category = Skipped | Pending | Failing | Cancelled | Neutral | Passing

  const FAILURE_CONCLUSIONS := {"failure", "timed_out", "action_required", "startup_failure", "stale"}

  function Conclusion(run: RawRun): string {
    if run.CheckRun? && run.conclusion.Some? then run.conclusion.value else ""
  }

  function Categorize(run: RawRun): Category {
    if run.NotAnObject? then Skipped
    else if run.status in {"queued", "in_progress", "pending"} || Conclusion(run) == "" then Pending
    else if Conclusion(run) in FAILURE_CONCLUSIONS then Failing
    else if Conclusion(run) == "cancelled" then Cancelled
    else if Conclusion(run) == "success" then Passing
    else Neutral
  }

  function AsFailed(run: RawRun): FailedCheck
    requires run.CheckRun?
  {
    var name := if run.name == "" then "unnamed-check" else run.name;
    FailedCheck(name[..Min(200, |name|)], Conclusion(run), run.detailsUrl, run.summary, if run.id == "" then "unknown" else run.id)
  }

  function Count(runs: seq<RawRun>, c: Category): nat {
    if runs == [] then 0 else Count(runs[..|runs| - 1], c) + (if Categorize(runs[|runs| - 1]) == c then 1 else 0)
  }

  /** The failing runs, in order. */
  function Failures(runs: seq<RawRun>): seq<FailedCheck> {
    if runs == [] then []
    else
      Failures(runs[..|runs| - 1])
      + (if Categorize(runs[|runs| - 1]) == Failing then [AsFailed(runs[|runs| - 1])] else [])
  }

  datatype CheckSummary = CheckSummary(
    total: nat, success: nat, pending: nat, failure: nat, cancelled: nat, neutral: nat, failedChecks: seq<FailedCheck>)

  /** What a list of runs amounts to. */
  function Normalized(runs: seq<RawRun>, maxFailed: nat): CheckSummary {
    CheckSummary(|runs|, Count(runs, Passing), Count(runs, Pending), Count(runs, Failing), Count(runs, Cancelled),
                 Count(runs, Neutral), Failures(runs)[..Min(maxFailed, |Failures(runs)|)])
  }

  /** `_normalize_checks`: one pass with five counters. */
  method NormalizeChecks(runs: seq<RawRun>, maxFailed: nat) returns (summary: CheckSummary)
    ensures summary == Normalized(runs, maxFailed)
  {
    var success, pending, failure, cancelled, neutral := 0, 0, 0, 0, 0;
    var failed: seq<FailedCheck> := [];
    var i := 0;
    while i < |runs|
      invariant 0 <= i <= |runs|
      invariant success == Count(runs[..i], Passing) && pending == Count(runs[..i], Pending)
      invariant failure == Count(runs[..i], Failing) && cancelled == Count(runs[..i], Cancelled)
      invariant neutral == Count(runs[..i], Neutral)
      invariant failed == Failures(runs[..i])[..Min(maxFailed, |Failures(runs[..i])|)]
    {
      var run := runs[i];
      assert runs[..i + 1][..i] == runs[..i];
      if run.CheckRun? {
        var conclusion := Conclusion(run);
        if run.status in {"queued", "in_progress", "pending"} || conclusion == "" {
          pending := pending + 1;
        } else if conclusion in FAILURE_CONCLUSIONS {
          failure := failure + 1;
          if |failed| < maxFailed { failed := failed + [AsFailed(run)]; }
        } else if conclusion == "cancelled" {
          cancelled := cancelled + 1;
        } else if conclusion in {"neutral", "skipped"} {
          neutral := neutral + 1;
        } else if conclusion == "success" {
          success := success + 1;
        } else {
          neutral := neutral + 1;
        }
      }
      i := i + 1;
    }
    assert runs[..i] == runs;
    summary := CheckSummary(|runs|, success, pending, failure, cancelled, neutral, failed);
  }

  /** Every entry is counted once, except those that are not objects; those only count towards the total. */
  lemma {:induction false} CountsPartitionRuns(runs: seq<RawRun>, maxFailed: nat)
    ensures var s := Normalized(runs, maxFailed);
            s.success + s.pending + s.failure + s.cancelled + s.neutral + Count(runs, Skipped) == s.total
    ensures |Failures(runs)| == Count(runs, Failing)
  {
    if runs != [] { CountsPartitionRuns(runs[..|runs| - 1], maxFailed); }
  }

  lemma {:induction false} FailuresHaveFailureConclusions(runs: seq<RawRun>)
    ensures forall i :: 0 <= i < |Failures(runs)| ==> Failures(runs)[i].conclusion in FAILURE_CONCLUSIONS
  {
    if runs != [] { FailuresHaveFailureConclusions(runs[..|runs| - 1]); }
  }

  // ---- snapshots ----

  datatype LegacySummary = LegacySummary(total: nat, state: string)

  datatype Overall = NoChecks | AnyFailure | AnyCancelled | AnyPending | AnySuccess | AllNeutral

  function OverallOf(total: nat, failure: nat, cancelled: nat, pending: nat, success: nat): Overall {
    if total == 0 then NoChecks
    else if failure > 0 then AnyFailure
    else if cancelled > 0 then AnyCancelled
    else if pending > 0 then AnyPending
    else if success > 0 then AnySuccess
    else AllNeutral
  }

  datatype Snapshot = Snapshot(
    headSha: string, overall: Overall, total: nat, success: nat, pending: nat, failure: nat, cancelled: nat, neutral: nat,
    failedChecks: seq<FailedCheck>, legacyState: Option<string>)

  /** The snapshot two summaries amount to: a nonempty combined status counts with all its contexts. */
  function Combine(sha: string, checks: CheckSummary, legacy: LegacySummary): Snapshot {
    var failure := checks.failure + (if legacy.state in {"failure", "error"} then legacy.total else 0);
    var pending := checks.pending + (if legacy.state == "pending" then legacy.total else 0);
    var success := checks.success + (if legacy.state == "success" then legacy.total else 0);
    var total := checks.total + legacy.total;
    Snapshot(sha, OverallOf(total, failure, checks.cancelled, pending, success), total, success, pending, failure,
             checks.cancelled, checks.neutral, checks.failedChecks, if legacy.total > 0 then Some(legacy.state) else None)
  }

  /**
   The counters of a snapshot and the entries that are no objects add up to its total exactly if the
   combined status is empty or in a state that is counted; the failing checks are listed up to the limit.
   */
  lemma SnapshotCountsAddUpIff(sha: string, runs: seq<RawRun>, maxFailed: nat, legacy: LegacySummary)
    ensures var s := Combine(sha, Normalized(runs, maxFailed), legacy);
            && (s.success + s.pending + s.failure + s.cancelled + s.neutral + Count(runs, Skipped) == s.total
                <==> legacy.total == 0 || legacy.state in {"failure", "error", "pending", "success"})
            && |s.failedChecks| == Min(maxFailed, Count(runs, Failing))
            && (s.overall == NoChecks <==> runs == [] && legacy.total == 0)
  {
    CountsPartitionRuns(runs, maxFailed);
    hide Count, Failures;
  }

  // ---- what a snapshot says of the check runs and the combined status ----

  predicate Completes(run: RawRun) {
    run.CheckRun? && run.status != "queued" && run.status != "in_progress" && run.status != "pending"
    && run.conclusion.Some? && run.conclusion.value != ""
  }

  predicate RunPends(run: RawRun) { run.CheckRun? && !Completes(run) }

  predicate RunFails(run: RawRun) {
    Completes(run) && (run.conclusion.value == "failure" || run.conclusion.value == "timed_out" || run.conclusion.value == "action_required"
                       || run.conclusion.value == "startup_failure" || run.conclusion.value == "stale")
  }

  predicate RunIsCancelled(run: RawRun) { Completes(run) && run.conclusion.value == "cancelled" }

  predicate RunPasses(run: RawRun) { Completes(run) && run.conclusion.value == "success" }

  predicate RunIsNeutral(run: RawRun) { Completes(run) && !RunFails(run) && !RunIsCancelled(run) && !RunPasses(run) }

  /** Each category in these terms. */
  lemma CategoriesMean(run: RawRun)
    ensures Categorize(run) == Skipped <==> run.NotAnObject?
    ensures Categorize(run) == Pending <==> RunPends(run)
    ensures Categorize(run) == Failing <==> RunFails(run)
    ensures Categorize(run) == Cancelled <==> RunIsCancelled(run)
    ensures Categorize(run) == Passing <==> RunPasses(run)
    ensures Categorize(run) == Neutral <==> RunIsNeutral(run)
  {
    assert "success"[0] != "failure"[0] && "success"[0] != "stale"[2] && "cancelled"[0] != "timed_out"[0];
  }

  ghost function Those(runs: seq<RawRun>, such: RawRun -> bool): set<int> {
    set i | 0 <= i < |runs| && such(runs[i])
  }

  lemma OneMore(runs: seq<RawRun>, such: RawRun -> bool)
    requires runs != []
    ensures |Those(runs, such)| == |Those(runs[..|runs| - 1], such)| + (if such(runs[|runs| - 1]) then 1 else 0)
  {
    var n := |runs| - 1;
    if such(runs[n]) {
      assert Those(runs, such) == Those(runs[..n], such) + {n};
    } else {
      assert Those(runs, such) == Those(runs[..n], such);
    }
  }

  lemma {:induction false} CountIsNumber(runs: seq<RawRun>, c: Category, such: RawRun -> bool)
    requires forall run :: Categorize(run) == c <==> such(run)
    ensures Count(runs, c) == |Those(runs, such)|
  {
    hide Categorize;
    if runs != [] {
      hide Those;
      CountIsNumber(runs[..|runs| - 1], c, such);
      OneMore(runs, such);
    }
  }

  /** A nonempty combined status in one of two states. */
  predicate StatusIs(legacy: LegacySummary, one: string, other: string) {
    legacy.total > 0 && (legacy.state == one || legacy.state == other)
  }

  ghost predicate AnyRun(runs: seq<RawRun>, such: RawRun -> bool) {
    exists i :: 0 <= i < |runs| && such(runs[i])
  }

  lemma CountIsSome(runs: seq<RawRun>, c: Category, such: RawRun -> bool)
    requires forall run :: Categorize(run) == c <==> such(run)
    ensures Count(runs, c) > 0 <==> AnyRun(runs, such)
    ensures Count(runs, c) == |Those(runs, such)|
  {
    CountIsNumber(runs, c, such);
    hide Categorize, Count;
    if AnyRun(runs, such) {
      var i :| 0 <= i < |runs| && such(runs[i]);
      assert i in Those(runs, such);
    } else {
      assert Those(runs, such) == {};
    }
  }

  lemma CountsMean(runs: seq<RawRun>)
    ensures Count(runs, Failing) == |Those(runs, RunFails)| && (Count(runs, Failing) > 0 <==> AnyRun(runs, RunFails))
    ensures Count(runs, Cancelled) == |Those(runs, RunIsCancelled)| && (Count(runs, Cancelled) > 0 <==> AnyRun(runs, RunIsCancelled))
    ensures Count(runs, Pending) == |Those(runs, RunPends)| && (Count(runs, Pending) > 0 <==> AnyRun(runs, RunPends))
    ensures Count(runs, Passing) == |Those(runs, RunPasses)| && (Count(runs, Passing) > 0 <==> AnyRun(runs, RunPasses))
    ensures Count(runs, Neutral) == |Those(runs, RunIsNeutral)|
  {
    forall run ensures Categorize(run) == Failing <==> RunFails(run)
               ensures Categorize(run) == Cancelled <==> RunIsCancelled(run)
               ensures Categorize(run) == Pending <==> RunPends(run)
               ensures Categorize(run) == Passing <==> RunPasses(run)
               ensures Categorize(run) == Neutral <==> RunIsNeutral(run)
    {
      CategoriesMean(run);
    }
    hide *;
    CountIsSome(runs, Failing, RunFails);
    CountIsSome(runs, Cancelled, RunIsCancelled);
    CountIsSome(runs, Pending, RunPends);
    CountIsSome(runs, Passing, RunPasses);
    CountIsSome(runs, Neutral, RunIsNeutral);
  }

  /**
   The verdict on a head, from its check runs and its combined status: a failure if any run or a nonempty
   status fails; else cancelled if any run is; else pending if any run or the status is; else a success if
   any run passes or the status does; else neutral; and no checks if nothing at all was reported.
   */
  lemma VerdictTellsRuns(sha: string, runs: seq<RawRun>, maxFailed: nat, legacy: LegacySummary)
    ensures var verdict := Combine(sha, Normalized(runs, maxFailed), legacy).overall;
            var fails := AnyRun(runs, RunFails) || StatusIs(legacy, "failure", "error");
            var cancelled := AnyRun(runs, RunIsCancelled);
            var pends := AnyRun(runs, RunPends) || StatusIs(legacy, "pending", "pending");
            var passes := AnyRun(runs, RunPasses) || StatusIs(legacy, "success", "success");
            && (verdict == AnyFailure <==> fails)
            && (verdict == AnyCancelled <==> !fails && cancelled)
            && (verdict == AnyPending <==> !fails && !cancelled && pends)
            && (verdict == AnySuccess <==> !fails && !cancelled && !pends && passes)
            && (verdict == AllNeutral <==> !fails && !cancelled && !pends && !passes && (runs != [] || legacy.total > 0))
            && (verdict == NoChecks <==> runs == [] && legacy.total == 0)
  {
    CountsMean(runs);
    StatesDiffer();
    hide Count, Failures, RunFails, RunIsCancelled, RunPends, RunPasses, RunIsNeutral, Those;
    if runs == [] && legacy.total == 0 { assert forall such: RawRun -> bool :: !AnyRun(runs, such); }
  }

  lemma StatesDiffer()
    ensures "failure" != "pending" && "failure" != "success" && "pending" != "success"
    ensures "error" != "pending" && "error" != "success"
  {
    assert "failure"[0] != "pending"[0] && "failure"[0] != "success"[0] && "pending"[0] != "success"[0];
    assert |"error"| != |"pending"|;
  }

  /** The counters of a snapshot are the numbers of runs of each kind, with all contexts of a nonempty status where its state belongs. */
  lemma CountersTellRuns(sha: string, runs: seq<RawRun>, maxFailed: nat, legacy: LegacySummary)
    ensures var s := Combine(sha, Normalized(runs, maxFailed), legacy);
            && s.headSha == sha
            && s.total == |runs| + legacy.total
            && s.failure == |Those(runs, RunFails)| + (if legacy.state == "failure" || legacy.state == "error" then legacy.total else 0)
            && s.pending == |Those(runs, RunPends)| + (if legacy.state == "pending" then legacy.total else 0)
            && s.success == |Those(runs, RunPasses)| + (if legacy.state == "success" then legacy.total else 0)
            && s.cancelled == |Those(runs, RunIsCancelled)|
            && s.neutral == |Those(runs, RunIsNeutral)|
            && s.legacyState == if legacy.total > 0 then Some(legacy.state) else None
  {
    CountsMean(runs);
    hide Count, Failures, RunFails, RunIsCancelled, RunPends, RunPasses, RunIsNeutral, Those;
  }

  /** What the list says of a failing run. */
  predicate Describes(check: FailedCheck, run: RawRun) {
    && run.CheckRun?
    && check.name == (if run.name == "" then "unnamed-check" else if |run.name| > 200 then run.name[..200] else run.name)
    && run.conclusion == Some(check.conclusion)
    && check.detailsUrl == run.detailsUrl && check.summary == run.summary
    && check.objectId == (if run.id == "" then "unknown" else run.id)
  }

  /** The failing runs are listed in their order, each with its name, conclusion, link, summary and id, as far as the limit goes. */
  lemma {:induction false} FailuresTellRuns(runs: seq<RawRun>, i: nat)
    requires i < |runs| && RunFails(runs[i])
    ensures var k := |Those(runs[..i], RunFails)|;
            k < |Failures(runs)| && Describes(Failures(runs)[k], runs[i])
    ensures |Failures(runs)| == |Those(runs, RunFails)|
    decreases |runs|
  {
    CountsPartitionRuns(runs, 0);
    CountsMean(runs);
    CategoriesMean(runs[|runs| - 1]);
    var front := runs[..|runs| - 1];
    if i == |runs| - 1 {
      CountsPartitionRuns(front, 0);
      CountsMean(front);
      assert runs[..i] == front;
      hide Categorize, Count, Those;
      assert Failures(runs) == Failures(front) + [AsFailed(runs[i])];
      FailureDescribes(runs[i]);
    } else {
      assert front[..i] == runs[..i];
      FailuresTellRuns(front, i);
    }
  }

  lemma FailureDescribes(run: RawRun)
    requires RunFails(run)
    ensures Describes(AsFailed(run), run)
  {
  }

  /** A read fails exactly if a 304 finds nothing stored, and counts as unmodified exactly if both resources are. */
  lemma ReadFailsIff(sha: string, cache: Cache, checks: Response<seq<RawRun>>, status: Response<LegacySummary>, maxFailed: nat)
    ensures var read := ReadOf(sha, cache, checks, status, maxFailed);
            && (read.None? <==> (checks.NotModified? && cache.checks.None?) || (status.NotModified? && cache.legacy.None?))
            && (read.Some? ==> (read.value.notModified <==> checks.NotModified? && status.NotModified?))
            && (read.Some? && checks.Modified? && status.Modified? ==>
                  read.value.snapshot == Combine(sha, Normalized(checks.data, maxFailed), status.data))
  {
  }

  /** A read stores each summary it has used, and the tag that came with it; the old tag stays if none came, or an empty one. */
  lemma ReadStores(sha: string, cache: Cache, checks: Response<seq<RawRun>>, status: Response<LegacySummary>, maxFailed: nat)
    ensures var read := ReadOf(sha, cache, checks, status, maxFailed);
            read.Some? ==>
              var stored := read.value.cache;
              && stored.etagChecks == (if checks.etag == None || checks.etag == Some("") then cache.etagChecks else checks.etag)
              && stored.etagStatus == (if status.etag == None || status.etag == Some("") then cache.etagStatus else status.etag)
              && stored.checks == (if checks.Modified? then Some(Normalized(checks.data, maxFailed)) else cache.checks)
              && stored.legacy == (if status.Modified? then Some(status.data) else cache.legacy)
              && stored.checks.Some? && stored.legacy.Some?
              && read.value.snapshot == Combine(sha, stored.checks.value, stored.legacy.value)
  {
    assert checks.etag == Some("") <==> checks.etag.Some? && |checks.etag.value| == 0;
  }

  /** What is kept between polls. */
  datatype Cache = Cache(etagChecks: Option<string>, etagStatus: Option<string>,
                         checks: Option<CheckSummary>, legacy: Option<LegacySummary>)

  const EMPTY_CACHE := Cache(None, None, None, None)

  /** A 200 with its data, or a 304; either may carry an ETag. */
  datatype Response<D> = Modified(data: D, etag: Option<string>) | NotModified(etag: Option<string>)

  /** `x or y` on optional strings: an empty one counts as missing. */
  function Or(x: Option<string>, y: Option<string>): Option<string> {
    if x.Some? && x.value != "" then x else y
  }

  datatype Read = Read(snapshot: Snapshot, cache: Cache, notModified: bool)

  /** `snapshot`: a 304 reuses the cached summary, and raises if there is none. */
  method ReadSnapshot(sha: string, cache: Cache, checks: Response<seq<RawRun>>, status: Response<LegacySummary>, maxFailed: nat)
    returns (read: Option<Read>)
    ensures read == ReadOf(sha, cache, checks, status, maxFailed)
  {
    var checkSummary, legacy;
    if checks.NotModified? {
      if cache.checks.None? { return None; }
      checkSummary := cache.checks.value;
    } else {
      checkSummary := NormalizeChecks(checks.data, maxFailed);
    }
    if status.NotModified? {
      if cache.legacy.None? { return None; }
      legacy := cache.legacy.value;
    } else {
      legacy := status.data;
    }
    var success, pending, failure := checkSummary.success, checkSummary.pending, checkSummary.failure;
    if legacy.total > 0 {
      if legacy.state in {"failure", "error"} {
        failure := failure + legacy.total;
      } else if legacy.state == "pending" {
        pending := pending + legacy.total;
      } else if legacy.state == "success" {
        success := success + legacy.total;
      }
    }
    var total := checkSummary.total + legacy.total;
    var snapshot := Snapshot(sha, OverallOf(total, failure, checkSummary.cancelled, pending, success), total, success, pending,
                             failure, checkSummary.cancelled, checkSummary.neutral, checkSummary.failedChecks,
                             if legacy.total > 0 then Some(legacy.state) else None);
    read := Some(Read(snapshot,
                      Cache(Or(checks.etag, cache.etagChecks), Or(status.etag, cache.etagStatus), Some(checkSummary), Some(legacy)),
                      checks.NotModified? && status.NotModified?));
  }

  function ReadOf(sha: string, cache: Cache, checks: Response<seq<RawRun>>, status: Response<LegacySummary>, maxFailed: nat)
    : Option<Read>
  {
    var c := if checks.Modified? then Some(Normalized(checks.data, maxFailed)) else cache.checks;
    var s := if status.Modified? then Some(status.data) else cache.legacy;
    if c.None? || s.None? then None
    else
      Some(Read(Combine(sha, c.value, s.value),
                Cache(Or(checks.etag, cache.etagChecks), Or(status.etag, cache.etagStatus), c, s),
                checks.NotModified? && status.NotModified?))
  }

  // ---- the server's side of a conditional request ----

  /** The current representation of a resource. */
  datatype Representation<D> = Representation(data: D, etag: Option<string>)

  /**
   Sections 13.1.2 and 15.4.5 of RFC 9110: a GET whose If-None-Match names the current ETag is
   answered 304, which may repeat the tag; any other gets the representation.
   */
  function Answer<D>(rep: Representation<D>, ifNoneMatch: Option<string>, repeatsTag: bool): Response<D> {
    if ifNoneMatch.Some? && ifNoneMatch.value != "" && rep.etag == ifNoneMatch then
      NotModified(if repeatsTag then rep.etag else None)
    else Modified(rep.data, rep.etag)
  }

  /** A stored tag and summary belong together: the summary is that of what the tag names. */
  predicate ChecksBelong(cache: Cache, maxFailed: nat, named: string -> seq<RawRun>) {
    cache.etagChecks.Some? && cache.etagChecks.value != "" ==>
      cache.checks == Some(Normalized(named(cache.etagChecks.value), maxFailed))
  }

  predicate LegacyBelongs(cache: Cache, named: string -> LegacySummary) {
    cache.etagStatus.Some? && cache.etagStatus.value != "" ==> cache.legacy == Some(named(cache.etagStatus.value))
  }

  /** No ETag, or an empty one, which counts as none. */
  predicate Untagged(tag: Option<string>) { tag.None? || tag.value == "" }

  /**
   One conditional read gives what a full read gives, and keeps tags and summaries together, when a
   tag always names the same representation, and one without a tag is served only while no tag is stored.
   */
  lemma ConditionalReadIsFullRead(sha: string, cache: Cache, checks: Representation<seq<RawRun>>, status: Representation<LegacySummary>,
                                  repeats: bool, maxFailed: nat, checksNamed: string -> seq<RawRun>, statusNamed: string -> LegacySummary)
    requires ChecksBelong(cache, maxFailed, checksNamed) && LegacyBelongs(cache, statusNamed)
    requires if Untagged(checks.etag) then Untagged(cache.etagChecks) else checks.data == checksNamed(checks.etag.value)
    requires if Untagged(status.etag) then Untagged(cache.etagStatus) else status.data == statusNamed(status.etag.value)
    ensures var full := ReadOf(sha, cache, Answer(checks, None, false), Answer(status, None, false), maxFailed);
            var conditional := ReadOf(sha, cache, Answer(checks, cache.etagChecks, repeats), Answer(status, cache.etagStatus, repeats), maxFailed);
            && full.Some? && conditional.Some?
            && conditional.value.snapshot == full.value.snapshot
            && conditional.value.cache == full.value.cache
            && ChecksBelong(full.value.cache, maxFailed, checksNamed)
            && LegacyBelongs(full.value.cache, statusNamed)
            && (!Untagged(full.value.cache.etagChecks) ==> !Untagged(cache.etagChecks) || !Untagged(checks.etag))
            && (!Untagged(full.value.cache.etagStatus) ==> !Untagged(cache.etagStatus) || !Untagged(status.etag))
  {
  }

  /**
   A 200 without an ETag leaves the old tag beside the new summary. The pair still belongs together
   exactly when the two representations amount to the same summary, and the next 304 for the old tag
   reports the new one's checks.
   */
  lemma UntaggedResponseKeepsOldTag(sha: string, cache: Cache, runs: seq<RawRun>, status: Response<LegacySummary>,
                                    maxFailed: nat, named: string -> seq<RawRun>)
    requires cache.etagChecks.Some? && cache.etagChecks.value != "" && status.Modified?
    ensures var read := ReadOf(sha, cache, Modified(runs, None), status, maxFailed);
            && read.Some?
            && (ChecksBelong(read.value.cache, maxFailed, named) <==>
                  Normalized(runs, maxFailed) == Normalized(named(cache.etagChecks.value), maxFailed))
            && (var again := ReadOf(sha, read.value.cache, NotModified(None), status, maxFailed);
                again.Some? && again.value.cache.checks == Some(Normalized(runs, maxFailed)))
  {
  }
}
