/** The verification cascade of the verify handler, with its single flake retry. */
module VerifyCascade {
  import opened Options
  import opened Stages
  import opened Testing
  import opened Sorting

  const LEVELS: seq<Level> := [LevelSyntax, LevelCompile, LevelTargeted, LevelModule]

  datatype RunRequest = RunRequest(level: Level, changedFiles: seq<string>, retryPackages: seq<string>)

  datatype RunError = RunOk | RunCancelledError | RunBroken

  // What one run of the runner gives, and whether the caller had cancelled by the time it came back.
  datatype RunReply = RunReply(result: TestResult, error: RunError, cancelled: bool)

  datatype LevelResult = LevelResult(level: Level, result: TestResult)

  datatype FlakeRetry = FlakeRetry(packages: seq<string>, passed: bool)

  datatype VerifyOutcome = VerifyOutcome(
    results: seq<LevelResult>, passed: bool, category: Option<FailureCategory>, retry: Option<FlakeRetry>)

  // StageFault fails the stage; DurablyCancelled has already cancelled the run.
  datatype VerifyError = StageFault(category: FailureCategory) | DurablyCancelled

  // ---- attribution ----

  const GO_VET := "go vet"

  // Every failure, of which there are some, belongs to a concrete test package.
  predicate Attributed(res: TestResult) {
    res.failures != [] && forall f :: f in res.failures ==> f.package != "" && f.package != GO_VET
  }

  predicate Ascending(s: seq<string>) {
    forall i, j :: 0 <= i < j < |s| ==> StringLe(s[i], s[j]) && s[i] != s[j]
  }

  ghost function PackagesOf(failures: seq<TestFailure>): set<string> {
    set f | f in failures :: f.package
  }

  // Its packages, each once and in order.
  ghost predicate RetryList(res: TestResult, packages: seq<string>) {
    Ascending(packages) && forall p :: p in packages <==> p in PackagesOf(res.failures)
  }

  /** The list is determined by the failures: two lists of one result are equal. */
  lemma RetryListIsUnique(res: TestResult, a: seq<string>, b: seq<string>)
    requires RetryList(res, a) && RetryList(res, b)
    ensures a == b
  {
    AscendingIsUnique(a, b);
  }

  lemma FirstIsIn(s: seq<string>)
    ensures s != [] ==> s[0] in s
  {
  }

  lemma {:induction false} AscendingIsUnique(a: seq<string>, b: seq<string>)
    requires Ascending(a) && Ascending(b)
    requires forall x :: x in a <==> x in b
    ensures a == b
  {
    FirstIsIn(a);
    FirstIsIn(b);
    if a != [] && b != [] {
      var i :| 0 <= i < |b| && b[i] == a[0];
      var j :| 0 <= j < |a| && a[j] == b[0];
      StringsCompare(a[0], b[0]);
      forall x
        ensures x in a[1..] <==> x in b[1..]
      {
        assert x in a <==> x == a[0] || x in a[1..];
        assert x in b <==> x == b[0] || x in b[1..];
        assert a[0] !in a[1..] && b[0] !in b[1..];
      }
      AscendingIsUnique(a[1..], b[1..]);
    }
  }

  lemma SortedIsAscending(s: seq<string>, sorted: seq<string>)
    requires sorted == Sort(s, StringLe)
    requires forall i, j :: 0 <= i < j < |s| ==> s[i] != s[j]
    ensures Ascending(sorted) && forall x :: x in sorted <==> x in s
  {
    StringsAreOrdered();
    SortSorts(s, StringLe);
    forall x
      ensures x in sorted <==> x in s
    {
      SortMembers(s, StringLe, x);
    }
    forall i, j | 0 <= i < j < |sorted|
      ensures sorted[i] != sorted[j]
    {
      if sorted[i] == sorted[j] {
        TwiceCounts(sorted, i, j);
        DistinctOnce(s, sorted[i]);
      }
    }
    hide Sort, StringLe;
  }

  lemma TwiceCounts(s: seq<string>, i: nat, j: nat)
    requires i < j < |s| && s[i] == s[j]
    ensures multiset(s)[s[i]] >= 2
  {
    assert s == s[..j] + s[j..];
    assert s[i] in s[..j] && s[j] in s[j..];
    assert multiset(s[..j])[s[i]] >= 1 && multiset(s[j..])[s[i]] >= 1;
  }

  lemma {:induction false} DistinctOnce(s: seq<string>, x: string)
    requires forall i, j :: 0 <= i < j < |s| ==> s[i] != s[j]
    ensures multiset(s)[x] <= 1
  {
    if s != [] {
      assert s == [s[0]] + s[1..];
      DistinctOnce(s[1..], x);
      if s[0] == x {
        assert x !in s[1..] && x !in multiset(s[1..]);
      }
    }
  }

  method FlakeRetryPackages(res: TestResult) returns (packages: seq<string>)
    ensures packages != [] <==> Attributed(res)
    ensures Attributed(res) ==> RetryList(res, packages)
  {
    if |res.failures| == 0 {
      return [];
    }
    var seen: set<string> := {};
    packages := [];
    for i := 0 to |res.failures|
      invariant forall j :: 0 <= j < i ==> res.failures[j].package != "" && res.failures[j].package != GO_VET
      invariant seen == (set p | p in packages) == PackagesOf(res.failures[..i])
      invariant forall j, k :: 0 <= j < k < |packages| ==> packages[j] != packages[k]
    {
      var f := res.failures[i];
      if f.package == "" || f.package == GO_VET {
        return [];
      }
      assert res.failures[..i + 1] == res.failures[..i] + [f];
      if f.package !in seen {
        assert f.package !in packages;
        seen := seen + {f.package};
        packages := packages + [f.package];
      }
    }
    assert res.failures[..|res.failures|] == res.failures;
    assert res.failures[0].package in PackagesOf(res.failures);
    var unsorted := packages;
    packages := Sort(packages, StringLe);
    SortedIsAscending(unsorted, packages);
    assert (set p | p in packages) == (set p | p in unsorted);
  }

  // What a failed level is reported as.
  function CategoryForLevel(level: Level, res: TestResult): FailureCategory {
    match level
    case LevelSyntax => FailureStaticAnalysis
    case LevelCompile => FailureCompile
    case LevelTargeted => FailureTest
    case LevelModule => if exists f :: f in res.failures && f.package == GO_VET then FailureStaticAnalysis else FailureTest
  }

  // ---- the specification ----

  // The run came back with a result, and the caller still waits for it.
  predicate Clean(r: RunReply) {
    r.error == RunOk && !r.cancelled
  }

  predicate GetsPast(r: RunReply) {
    Clean(r) && r.result.status != StatusFailed
  }

  // The first of the levels the cascade does not get past, or their number.
  function StopsAt(runs: nat -> RunReply, k: nat): (stop: nat)
    requires k <= |LEVELS|
    ensures k <= stop <= |LEVELS|
    ensures forall i :: k <= i < stop ==> GetsPast(runs(i))
    ensures stop < |LEVELS| ==> !GetsPast(runs(stop))
    decreases |LEVELS| - k
  {
    if k < |LEVELS| && GetsPast(runs(k)) then StopsAt(runs, k + 1) else k
  }

  predicate Retries(runs: nat -> RunReply) {
    StopsAt(runs, 0) == 3 && Clean(runs(3)) && Attributed(runs(3).result)
  }

  // Cancellation is no verdict: an emergency stop parks the run, and otherwise it is cancelled durably.
  function Interrupted(stopOn: bool): VerifyError {
    if stopOn then StageFault(FailureInterrupted) else DurablyCancelled
  }

  function RunFault(r: RunReply, stopOn: bool): Option<VerifyError> {
    if r.error == RunCancelledError then Some(Interrupted(stopOn))
    else if r.error == RunBroken then Some(StageFault(FailureInvariantViolation))
    else if r.cancelled then Some(Interrupted(stopOn))
    else None
  }

  // The caller cancelled the run, which it reports, or which shows when it is back.
  predicate WasCancelled(r: RunReply) {
    r.error == RunCancelledError || (r.error == RunOk && r.cancelled)
  }

  // go vet is among the failures.
  predicate Vetoed(res: TestResult) {
    exists f :: f in res.failures && f.package == GO_VET
  }

  lemma RunFaultMeaning(r: RunReply, stopOn: bool)
    ensures var fault := RunFault(r, stopOn);
            && (fault.None? <==> r.error == RunOk && !r.cancelled)
            && (fault == Some(StageFault(FailureInterrupted)) <==> WasCancelled(r) && stopOn)
            && (fault == Some(DurablyCancelled) <==> WasCancelled(r) && !stopOn)
            && (fault == Some(StageFault(FailureInvariantViolation)) <==> r.error == RunBroken)
  {
  }

  lemma CategoryMeaning(k: nat, res: TestResult)
    requires k < |LEVELS|
    ensures CategoryForLevel(LEVELS[k], res)
         == match k
            case 0 => FailureStaticAnalysis
            case 1 => FailureCompile
            case 2 => FailureTest
            case _ => if Vetoed(res) then FailureStaticAnalysis else FailureTest
  {
  }

  // The error of the last run made.
  function Fault(runs: nat -> RunReply, stopOn: bool): Option<VerifyError> {
    if Retries(runs) then RunFault(runs(4), stopOn)
    else if StopsAt(runs, 0) == |LEVELS| then None
    else RunFault(runs(StopsAt(runs, 0)), stopOn)
  }

  // Four levels in order, and no failure save one that the retry took back.
  ghost predicate Verified(runs: nat -> RunReply) {
    || (forall k :: 0 <= k < 4 ==> GetsPast(runs(k)))
    || (&& (forall k :: 0 <= k < 3 ==> GetsPast(runs(k)))
        && Clean(runs(3)) && runs(3).result.status == StatusFailed && Attributed(runs(3).result)
        && Clean(runs(4)) && runs(4).result.status == StatusPassed)
  }

  ghost predicate LevelCalls(calls: seq<RunRequest>, n: nat, files: seq<string>) {
    n <= |calls| && n <= |LEVELS| && forall i :: 0 <= i < n ==> calls[i] == RunRequest(LEVELS[i], files, [])
  }

  // ---- the cascade ----

  // The two errors and the cancellation, told apart in this order.
  method CheckRun(reply: RunReply, stopOn: bool) returns (fault: Option<VerifyError>)
    ensures fault == RunFault(reply, stopOn)
    ensures fault.None? <==> Clean(reply)
  {
    if reply.error == RunCancelledError {
      return Some(Interrupted(stopOn));
    }
    if reply.error == RunBroken {
      return Some(StageFault(FailureInvariantViolation));
    }
    if reply.cancelled {
      return Some(Interrupted(stopOn));
    }
    return None;
  }

  // out is extended in place. k is the number of runs made so far.
  method Retry(runs: nat -> RunReply, k: nat, stopOn: bool, moduleRes: TestResult, before: VerifyOutcome)
    returns (retried: bool, out: VerifyOutcome, error: Option<VerifyError>, calls: seq<RunRequest>)
    ensures retried <==> Attributed(moduleRes)
    ensures !retried ==> out == before && error.None? && calls == []
    ensures retried ==>
              && error == RunFault(runs(k), stopOn)
              && |calls| == 1 && calls[0].level == LevelModule && calls[0].changedFiles == []
              && RetryList(moduleRes, calls[0].retryPackages)
              && (error.None? ==>
                    var passed := runs(k).result.status == StatusPassed;
                    && out.results == before.results + [LevelResult(LevelModule, runs(k).result)]
                    && out.retry == Some(FlakeRetry(calls[0].retryPackages, passed))
                    && out.passed == (before.passed || passed)
                    && out.category == if passed then before.category else Some(FailureTest))
  {
    out, error, calls := before, None, [];
    var packages := FlakeRetryPackages(moduleRes);
    if |packages| == 0 {
      return false, out, error, calls;
    }
    retried := true;
    out := out.(retry := Some(FlakeRetry(packages, false)));
    calls := [RunRequest(LevelModule, [], packages)];
    var reply := runs(k);
    error := CheckRun(reply, stopOn);
    if error.Some? {
      return;
    }
    out := out.(results := out.results + [LevelResult(LevelModule, reply.result)],
                retry := Some(FlakeRetry(packages, reply.result.status == StatusPassed)));
    if out.retry.value.passed {
      out := out.(passed := true);
      return;
    }
    out := out.(category := Some(CategoryForLevel(LevelModule, moduleRes)));
  }

  // Each level ran as asked, and its result is on record under that level.
  ghost predicate Recorded(results: seq<LevelResult>, calls: seq<RunRequest>, runs: nat -> RunReply) {
    |results| <= |calls| && forall i :: 0 <= i < |results| ==> results[i] == LevelResult(calls[i].level, runs(i).result)
  }

  // The levels in order, up to the first the cascade does not get past.
  method RunLevels(files: seq<string>, runs: nat -> RunReply, stopOn: bool)
    returns (k: nat, results: seq<LevelResult>, error: Option<VerifyError>, calls: seq<RunRequest>)
    ensures k == StopsAt(runs, 0)
    ensures error == if k == |LEVELS| then None else RunFault(runs(k), stopOn)
    ensures |calls| == (if k < |LEVELS| then k + 1 else k) && LevelCalls(calls, |calls|, files)
    ensures Recorded(results, calls, runs) && |results| == if error.Some? then k else |calls|
  {
    results, error, calls := [], None, [];
    k := 0;
    while k < |LEVELS|
      invariant 0 <= k <= |LEVELS|
      invariant forall i :: 0 <= i < k ==> GetsPast(runs(i))
      invariant |calls| == k && LevelCalls(calls, k, files)
      invariant |results| == k && Recorded(results, calls, runs)
      invariant error.None?
    {
      calls := calls + [RunRequest(LEVELS[k], files, [])];
      var reply := runs(k);
      error := CheckRun(reply, stopOn);
      if error.Some? {
        StopsHere(runs, k);
        return;
      }
      results := results + [LevelResult(LEVELS[k], reply.result)];
      if reply.result.status == StatusFailed {
        StopsHere(runs, k);
        return;
      }
      k := k + 1;
    }
    StopsHere(runs, k);
  }

  /** files is what inspecting the worktree gives, if that succeeds; runs(k) is the reply of the k-th run. */
  method VerifyWorktree(files: Option<seq<string>>, runs: nat -> RunReply, stopOn: bool)
    returns (out: VerifyOutcome, error: Option<VerifyError>, calls: seq<RunRequest>)
    ensures files.None? ==> error == Some(StageFault(FailureWorktree)) && calls == []
    ensures files.Some? ==>
              && error == Fault(runs, stopOn)
              && (out.passed && error.None? <==> Verified(runs))
    ensures files.Some? ==>
              && 1 <= |calls| && var last := runs(|calls| - 1);
              && (error.None? <==> last.error == RunOk && !last.cancelled)
              && (error == Some(StageFault(FailureInterrupted)) <==> WasCancelled(last) && stopOn)
              && (error == Some(DurablyCancelled) <==> WasCancelled(last) && !stopOn)
              && (error == Some(StageFault(FailureInvariantViolation)) <==> last.error == RunBroken)
    ensures files.Some? ==>
              var stop := StopsAt(runs, 0);
              var levels := if stop < |LEVELS| then stop + 1 else |LEVELS|;
              && LevelCalls(calls, levels, files.value)
              && |calls| == levels + (if Retries(runs) then 1 else 0) && |calls| <= 5
              && (Retries(runs) ==>
                    && calls[4].level == LevelModule && calls[4].changedFiles == []
                    && RetryList(runs(3).result, calls[4].retryPackages))
    ensures files.Some? && error.None? ==>
              && |out.results| == |calls| && Recorded(out.results, calls, runs)
              && (if out.passed then out.category.None?
                  else out.category == Some(match StopsAt(runs, 0)
                                            case 0 => FailureStaticAnalysis
                                            case 1 => FailureCompile
                                            case 2 => FailureTest
                                            case _ => if Vetoed(runs(3).result) then FailureStaticAnalysis else FailureTest))
              && (out.retry == if Retries(runs) then Some(FlakeRetry(calls[4].retryPackages, out.passed)) else None)
  {
    out, error, calls := VerifyOutcome([], false, None, None), None, [];
    if files.None? {
      error := Some(StageFault(FailureWorktree));
      return;
    }
    hide StopsAt, Attributed, RetryList, CategoryForLevel, RunFault, Interrupted, Verified, Fault, WasCancelled, Vetoed;
    VerifiedExactly(runs);
    FaultExactly(runs, stopOn);
    FaultMeaning(runs, stopOn);
    var k, results;
    k, results, error, calls := RunLevels(files.value, runs, stopOn);
    if k < |LEVELS| {
      CategoryMeaning(k, runs(k).result);
    }
    out := out.(results := results);
    if k == |LEVELS| {
      out := out.(passed := true);
      return;
    }
    FaultMeansUnclean(runs(k), stopOn);
    if error.Some? {
      return;
    }
    var failed := runs(k).result;
    if LEVELS[k] == LevelModule {
      var retried, retryError, more;
      FaultMeansUnclean(runs(k + 1), stopOn);
      retried, out, retryError, more := Retry(runs, k + 1, stopOn, failed, out);
      calls := calls + more;
      if retried || retryError.Some? {
        RetriedIsTest(failed);
        error := retryError;
        return;
      }
    }
    out := out.(category := Some(CategoryForLevel(LEVELS[k], failed)));
  }

  lemma FaultMeansUnclean(r: RunReply, stopOn: bool)
    ensures RunFault(r, stopOn).None? <==> Clean(r)
  {
  }

  lemma StopsHere(runs: nat -> RunReply, k: nat)
    requires k <= |LEVELS| && (forall i :: 0 <= i < k ==> GetsPast(runs(i)))
    requires k < |LEVELS| ==> !GetsPast(runs(k))
    ensures StopsAt(runs, 0) == k
  {
  }

  /** The first stop tells: no stop at all, or one at the last level that the retry takes back. */
  lemma VerifiedExactly(runs: nat -> RunReply)
    ensures Verified(runs)
            <==> || StopsAt(runs, 0) == |LEVELS|
                 || (Retries(runs) && Clean(runs(4)) && runs(4).result.status == StatusPassed)
  {
    if StopsAt(runs, 0) < |LEVELS| {
      assert !GetsPast(runs(StopsAt(runs, 0)));
    }
    if forall k :: 0 <= k < 3 ==> GetsPast(runs(k)) {
      assert StopsAt(runs, 0) >= 3;
    }
  }

  lemma FaultExactly(runs: nat -> RunReply, stopOn: bool)
    ensures Retries(runs) ==> Fault(runs, stopOn) == RunFault(runs(4), stopOn)
    ensures !Retries(runs) && StopsAt(runs, 0) < |LEVELS| ==> Fault(runs, stopOn) == RunFault(runs(StopsAt(runs, 0)), stopOn)
    ensures StopsAt(runs, 0) == |LEVELS| ==> Fault(runs, stopOn) == None
  {
  }

  // The last run made tells what went wrong, if anything.
  lemma FaultMeaning(runs: nat -> RunReply, stopOn: bool)
    ensures var fault, last := Fault(runs, stopOn), runs(if Retries(runs) then 4 else if StopsAt(runs, 0) < 3 then StopsAt(runs, 0) else 3);
            && (fault.None? <==> last.error == RunOk && !last.cancelled)
            && (fault == Some(StageFault(FailureInterrupted)) <==> WasCancelled(last) && stopOn)
            && (fault == Some(DurablyCancelled) <==> WasCancelled(last) && !stopOn)
            && (fault == Some(StageFault(FailureInvariantViolation)) <==> last.error == RunBroken)
  {
    hide RunFault;
    RunFaultMeaning(runs(4), stopOn);
    RunFaultMeaning(runs(if StopsAt(runs, 0) < 3 then StopsAt(runs, 0) else 3), stopOn);
  }

  lemma RetriedIsTest(res: TestResult)
    ensures Attributed(res) ==> CategoryForLevel(LevelModule, res) == FailureTest
  {
  }
}
