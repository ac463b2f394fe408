/** Verification levels, their results, and the evidence linked to acceptance criteria. */
module Testing {
  datatype Level = LevelSyntax | LevelCompile | LevelTargeted | LevelModule

  // StatusUnset is the zero value, which a runner returns beside an error.
  datatype Status = StatusPassed | StatusFailed | StatusSkipped | StatusNotRun | StatusUnset

  datatype TestFailure = TestFailure(testName: string, package: string)

  datatype TestResult = TestResult(status: Status, failures: seq<TestFailure>)

  datatype Summary = Summary(results: seq<TestResult>, testsWereRun: bool)

  // Ran neither at policy's nor at an earlier level's behest.
  predicate DidNotRun(s: Status) {
    s == StatusSkipped || s == StatusNotRun
  }

  // One failure decides; with nothing but skipped results there is no verdict to give.
  ghost function Overall(results: seq<TestResult>): Status {
    if exists r :: r in results && r.status == StatusFailed then StatusFailed
    else if forall r :: r in results ==> DidNotRun(r.status) then StatusSkipped
    else StatusPassed
  }

  method OverallStatus(s: Summary) returns (status: Status)
    ensures status == Overall(s.results)
    ensures status == StatusFailed <==> exists r :: r in s.results && r.status == StatusFailed
    ensures status == StatusSkipped <==> forall r :: r in s.results ==> r.status in {StatusSkipped, StatusNotRun}
    ensures status in {StatusFailed, StatusSkipped, StatusPassed}
  {
    if s.results == [] {
      return StatusSkipped;
    }
    for i := 0 to |s.results|
      invariant forall j :: 0 <= j < i ==> s.results[j].status != StatusFailed
    {
      if s.results[i].status == StatusFailed {
        return StatusFailed;
      }
    }
    var allSkipped, i := true, 0;
    while i < |s.results| && allSkipped
      invariant 0 <= i <= |s.results|
      invariant allSkipped <==> forall j :: 0 <= j < i ==> DidNotRun(s.results[j].status)
    {
      allSkipped := s.results[i].status == StatusSkipped || s.results[i].status == StatusNotRun;
      i := i + 1;
    }
    return if allSkipped then StatusSkipped else StatusPassed;
  }

  datatype Evidence = Evidence(criterion: string, passed: bool)

  // There is evidence, and every criterion it mentions has an item that passed.
  ghost predicate Complete(items: seq<Evidence>) {
    items != [] && forall e :: e in items ==> Evidence(e.criterion, true) in items
  }

  // The items of one criterion, as they come.
  function Of(items: seq<Evidence>, criterion: string): seq<Evidence> {
    if items == [] then []
    else
      var last := items[|items| - 1];
      Of(items[..|items| - 1], criterion) + if last.criterion == criterion then [last] else []
  }

  lemma {:induction false} OfMembers(items: seq<Evidence>, criterion: string, e: Evidence)
    ensures e in Of(items, criterion) <==> e in items && e.criterion == criterion
  {
    if items != [] {
      OfMembers(items[..|items| - 1], criterion, e);
      assert items == items[..|items| - 1] + [items[|items| - 1]];
    }
  }

  lemma OfOneMore(items: seq<Evidence>, e: Evidence, criterion: string)
    ensures Of(items + [e], criterion) == if criterion == e.criterion then Of(items, criterion) + [e] else Of(items, criterion)
  {
    assert (items + [e])[..|items|] == items;
  }

  lemma NoneOf(items: seq<Evidence>, criterion: string)
    requires criterion !in set e | e in items :: e.criterion
    ensures Of(items, criterion) == []
  {
    if Of(items, criterion) != [] {
      OfMembers(items, criterion, Of(items, criterion)[0]);
    }
  }

  method ByCriterion(items: seq<Evidence>) returns (groups: map<string, seq<Evidence>>)
    ensures groups.Keys == set e | e in items :: e.criterion
    ensures forall c :: c in groups ==> groups[c] == Of(items, c)
    ensures forall c, e :: c in groups ==> (e in groups[c] <==> e in items && e.criterion == c)
  {
    hide Of;
    groups := map[];
    for i := 0 to |items|
      invariant groups.Keys == set e | e in items[..i] :: e.criterion
      invariant forall c :: c in groups ==> groups[c] == Of(items[..i], c)
    {
      var e := items[i];
      assert items[..i + 1] == items[..i] + [e];
      forall c
        ensures Of(items[..i + 1], c) == if c == e.criterion then Of(items[..i], c) + [e] else Of(items[..i], c)
      {
        OfOneMore(items[..i], e, c);
      }
      if e.criterion !in groups {
        NoneOf(items[..i], e.criterion);
        groups := groups[e.criterion := []];
      }
      groups := groups[e.criterion := groups[e.criterion] + [e]];
    }
    assert items[..|items|] == items;
    forall c, e
      ensures e in Of(items, c) <==> e in items && e.criterion == c
    {
      OfMembers(items, c, e);
    }
  }

  method IsComplete(items: seq<Evidence>) returns (complete: bool)
    ensures complete == Complete(items)
    ensures complete <==> items != [] && forall e :: e in items ==> exists p :: p in items && p.criterion == e.criterion && p.passed
  {
    hide Of;
    if items == [] {
      return false;
    }
    var groups := ByCriterion(items);
    var left := groups.Keys;
    while left != {}
      invariant left <= groups.Keys
      invariant forall c :: c in groups && c !in left ==> Evidence(c, true) in items
      decreases left
    {
      var c :| c in left;
      left := left - {c};
      var hasPassed, i := false, 0;
      while i < |groups[c]| && !hasPassed
        invariant 0 <= i <= |groups[c]|
        invariant hasPassed <==> exists j :: 0 <= j < i && groups[c][j].passed
      {
        hasPassed := groups[c][i].passed;
        i := i + 1;
      }
      if !hasPassed {
        assert Evidence(c, true) !in groups[c];
        return false;
      }
    }
    return true;
  }
}
