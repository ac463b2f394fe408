/**
 What the global limits promise about all paid spend together.

 The check counts each provider type for itself. These theorems say exactly when the types together still stay within
 the global daily and monthly limit.
 */
module SharedBudgets {
  import opened Options
  import opened Budget

  // A history of a fresh controller that pays only for these provider types.
  ghost predicate Admitted(riskOf: string -> RiskLevel, types: set<ProviderType>, clock: Instant, ops: seq<Timed>) {
    && Timely(clock, ops)
    && forall i :: 0 <= i < |ops| ==> Proper(ops[i].op, riskOf) && PaysOnly(ops[i].op, types)
  }

  predicate PaysOnly(op: Op, types: set<ProviderType>) {
    op.Admit? ==> op.providerType in types
  }

  // All that was paid in a day, and in a month.
  function PaidOnDay(records: seq<Usage>, month: int, day: int): real {
    Paid(records, Query(None, OnDay(month, day), "", ""))
  }

  function PaidInMonth(records: seq<Usage>, month: int): real {
    Paid(records, Query(None, InMonth(month), "", ""))
  }

  // ---- one type alone ----

  ghost predicate PaidOnlyFor(records: seq<Usage>, types: set<ProviderType>) {
    forall r :: r in records && !r.included ==> r.providerType in types
  }

  lemma {:induction false} HistoriesPayOnlyFor(l: Limits, records: seq<Usage>, types: set<ProviderType>, ops: seq<Timed>)
    requires PaidOnlyFor(records, types) && forall i :: 0 <= i < |ops| ==> PaysOnly(ops[i].op, types)
    requires forall i :: 0 <= i < |ops| && ops[i].op.Include? ==> ops[i].op.usage.included
    ensures PaidOnlyFor(Run(l, records, ops), types)
    decreases |ops|
  {
    hide Affordable;
    if ops != [] {
      HistoriesPayOnlyFor(l, Step(l, records, ops[0]), types, ops[1..]);
    }
  }

  lemma OneTypePaysAll(records: seq<Usage>, types: set<ProviderType>, p: ProviderType, span: Span)
    requires PaidOnlyFor(records, types) && types <= {p}
    ensures Paid(records, Query(None, span, "", "")) == Paid(records, Query(Some(p), span, "", ""))
  {
    SameCounts(records, Query(None, span, "", ""), Query(Some(p), span, "", ""));
  }

  lemma NothingPaidForOthers(records: seq<Usage>, types: set<ProviderType>, p: ProviderType, span: Span)
    requires PaidOnlyFor(records, types) && p !in types
    ensures Paid(records, Query(Some(p), span, "", "")) == 0.0
  {
    var q := Query(Some(p), span, "", "");
    if records != [] {
      var front := records[..|records| - 1];
      assert forall r :: r in front ==> r in records;
      assert records[|records| - 1] in records;
      NothingPaidForOthers(front, types, p, span);
    }
  }

  lemma SameTypes(some: set<ProviderType>, types: set<ProviderType>)
    requires Coding in some <==> Coding in types
    requires Image in some <==> Image in types
    ensures some == types
  {
    forall p
      ensures p in some <==> p in types
    {
      assert p == Coding || p == Image;
    }
  }

  // At most one type is not both.
  lemma AtMostOneType(types: set<ProviderType>)
    ensures |types| <= 1 <==> types != {Coding, Image}
    ensures |types| <= 1 <==> !(Coding in types && Image in types)
    ensures |types| <= 1 ==> types <= {if Coding in types then Coding else Image}
  {
    SameTypes(types, (if Coding in types then {Coding} else {}) + if Image in types then {Image} else {});
  }

  // ---- one run of each type ----

  function NoRisk(task: string): RiskLevel {
    0
  }

  predicate Room(l: Limits, p: ProviderType, amount: real) {
    && (l.globalDaily > 0.0 ==> amount <= l.globalDaily)
    && (l.globalMonthly > 0.0 ==> amount <= l.globalMonthly)
    && (p == Image && l.imageDaily > 0.0 ==> amount <= l.imageDaily)
  }

  function AnyScope(p: ProviderType): Scope {
    Scope("", "", 0, Some(p))
  }

  lemma AdmittedAlone(l: Limits, p: ProviderType, amount: real, records: seq<Usage>, now: Instant)
    requires Room(l, p, amount)
    requires Paid(records, Today(AnyScope(p), now)) == 0.0 && Paid(records, ThisMonth(AnyScope(p), now)) == 0.0
    ensures Affordable(l, records, AnyScope(p), amount, now)
  {
    hide Paid, LookupTaskLimit;
  }

  function OneOfEach(a: real, b: real, now: Instant): seq<Timed> {
    [Timed(Admit(AnyScope(Coding), a, Coding), now), Timed(Admit(AnyScope(Image), b, Image), now)]
  }

  // A coding run and an image run that each fit alone are both admitted.
  lemma BothAreAdmitted(l: Limits, a: real, b: real, now: Instant)
    requires Room(l, Coding, a) && Room(l, Image, b)
    ensures PaidOnDay(Run(l, [], OneOfEach(a, b, now)), now.month, now.day) == a + b
    ensures PaidInMonth(Run(l, [], OneOfEach(a, b, now)), now.month) == a + b
    ensures Admitted(NoRisk, {Coding, Image}, now, OneOfEach(a, b, now))
  {
    var code, image := Recorded(AnyScope(Coding), a, Coding, now), Recorded(AnyScope(Image), b, Image, now);
    AdmittedAlone(l, Coding, a, [], now);
    assert [] + [code] == [code] && [code] + [image] == [code, image];
    PaidOneMore([], code, Today(AnyScope(Image), now));
    PaidOneMore([], code, ThisMonth(AnyScope(Image), now));
    AdmittedAlone(l, Image, b, [code], now);
    var ops := OneOfEach(a, b, now);
    hide Affordable;
    assert Timely(now, ops[1..][1..]) && Timely(now, ops[1..]) && Timely(now, ops);
    assert ops[1..][1..] == [];
    assert Run(l, [], ops) == Run(l, [code], ops[1..]) == Run(l, [code, image], ops[1..][1..]) == [code, image];
    BothCount(code, image, Query(None, OnDay(now.month, now.day), "", ""));
    BothCount(code, image, Query(None, InMonth(now.month), "", ""));
  }

  lemma BothCount(r: Usage, s: Usage, q: Query)
    requires Counts(r, q) && Counts(s, q)
    ensures Paid([r, s], q) == r.cost + s.cost
  {
    assert [r, s] == [] + [r] + [s];
    PaidOneMore([], r, q);
    PaidOneMore([] + [r], s, q);
  }

  // ---- which types the global limits bind ----

  ghost predicate DayWithin(
    l: Limits, riskOf: string -> RiskLevel, types: set<ProviderType>, clock: Instant, ops: seq<Timed>, month: int, day: int)
  {
    Admitted(riskOf, types, clock, ops) ==> PaidOnDay(Run(l, [], ops), month, day) <= l.globalDaily
  }

  ghost predicate MonthWithin(
    l: Limits, riskOf: string -> RiskLevel, types: set<ProviderType>, clock: Instant, ops: seq<Timed>, month: int)
  {
    Admitted(riskOf, types, clock, ops) ==> PaidInMonth(Run(l, [], ops), month) <= l.globalMonthly
  }

  // Under every positive global limit, every admitted history of these types stays within it.
  ghost predicate DailyLimitHolds(types: set<ProviderType>) {
    forall l: Limits, riskOf, clock, ops, month, day ::
      l.globalDaily > 0.0 ==> DayWithin(l, riskOf, types, clock, ops, month, day)
  }

  ghost predicate MonthlyLimitHolds(types: set<ProviderType>) {
    forall l: Limits, riskOf, clock, ops, month ::
      l.globalMonthly > 0.0 ==> MonthWithin(l, riskOf, types, clock, ops, month)
  }

  lemma OneTypeStaysWithin(
    l: Limits, riskOf: string -> RiskLevel, types: set<ProviderType>, p: ProviderType, clock: Instant, ops: seq<Timed>,
    month: int, day: int)
    requires types <= {p}
    ensures l.globalDaily > 0.0 ==> DayWithin(l, riskOf, types, clock, ops, month, day)
    ensures l.globalMonthly > 0.0 ==> MonthWithin(l, riskOf, types, clock, ops, month)
  {
    if Admitted(riskOf, types, clock, ops) {
      hide Run, Paid, Timely;
      HistoriesPayOnlyFor(l, [], types, ops);
      var records := Run(l, [], ops);
      OneTypePaysAll(records, types, p, OnDay(month, day));
      OneTypePaysAll(records, types, p, InMonth(month));
      FreshControllersStayWithin(l, riskOf, clock, ops);
      assert Cap(l, riskOf, Day(month, day), p) == l.globalDaily && Cap(l, riskOf, Month(month), p) == l.globalMonthly;
    }
  }

  /** The global daily limit binds all paid spend together exactly when at most one type is paid for. */
  lemma DailyLimitBindsOneType(types: set<ProviderType>)
    ensures DailyLimitHolds(types) <==> |types| <= 1
  {
    AtMostOneType(types);
    if |types| <= 1 {
      forall l: Limits, riskOf, clock, ops, month, day | l.globalDaily > 0.0
        ensures DayWithin(l, riskOf, types, clock, ops, month, day)
      {
        OneTypeStaysWithin(l, riskOf, types, if Coding in types then Coding else Image, clock, ops, month, day);
      }
    } else {
      var l, now := Limits(1.0, 0.0, map[], map[], map[], 0.0, 0.8), Instant(0, 1, 0);
      BothAreAdmitted(l, 1.0, 1.0, now);
      hide Run, Paid, Admitted;
      assert !DayWithin(l, NoRisk, types, now, OneOfEach(1.0, 1.0, now), 0, 1);
    }
  }

  /** And so does the global monthly limit. */
  lemma MonthlyLimitBindsOneType(types: set<ProviderType>)
    ensures MonthlyLimitHolds(types) <==> |types| <= 1
  {
    AtMostOneType(types);
    if |types| <= 1 {
      forall l: Limits, riskOf, clock, ops, month | l.globalMonthly > 0.0
        ensures MonthWithin(l, riskOf, types, clock, ops, month)
      {
        OneTypeStaysWithin(l, riskOf, types, if Coding in types then Coding else Image, clock, ops, month, 1);
      }
    } else {
      var l, now := Limits(0.0, 1.0, map[], map[], map[], 0.0, 0.8), Instant(0, 1, 0);
      BothAreAdmitted(l, 1.0, 1.0, now);
      hide Run, Paid, Admitted;
      assert !MonthWithin(l, NoRisk, types, now, OneOfEach(1.0, 1.0, now), 0);
    }
  }

  // ---- the daily limit under given limits ----

  // The most one type can spend in a day: the smallest positive limit it meets.
  function DayCap(l: Limits, p: ProviderType): real {
    var monthly := if 0.0 < l.globalMonthly < l.globalDaily then l.globalMonthly else l.globalDaily;
    if p == Image && 0.0 < l.imageDaily < monthly then l.imageDaily else monthly
  }

  function JointCap(l: Limits, types: set<ProviderType>): real {
    (if Coding in types then DayCap(l, Coding) else 0.0) + (if Image in types then DayCap(l, Image) else 0.0)
  }

  // No admitted amount is negative.
  predicate NoRefunds(ops: seq<Timed>) {
    forall i :: 0 <= i < |ops| && ops[i].op.Admit? ==> ops[i].op.amount >= 0.0
  }

  ghost predicate NoRefund(records: seq<Usage>) {
    forall r :: r in records && !r.included ==> r.cost >= 0.0
  }

  lemma {:induction false} HistoriesHoldNoRefund(l: Limits, records: seq<Usage>, ops: seq<Timed>)
    requires NoRefund(records) && NoRefunds(ops)
    requires forall i :: 0 <= i < |ops| && ops[i].op.Include? ==> ops[i].op.usage.included
    ensures NoRefund(Run(l, records, ops))
    decreases |ops|
  {
    hide Affordable;
    if ops != [] {
      HistoriesHoldNoRefund(l, Step(l, records, ops[0]), ops[1..]);
    }
  }

  lemma {:induction false} DayIsPartOfMonth(records: seq<Usage>, p: ProviderType, month: int, day: int)
    requires NoRefund(records)
    ensures Paid(records, Query(Some(p), OnDay(month, day), "", "")) <= Paid(records, Query(Some(p), InMonth(month), "", ""))
  {
    if records != [] {
      var front := records[..|records| - 1];
      assert forall r :: r in front ==> r in records;
      assert records[|records| - 1] in records;
      DayIsPartOfMonth(front, p, month, day);
    }
  }

  lemma TypeStaysWithinDayCap(
    l: Limits, riskOf: string -> RiskLevel, records: seq<Usage>, p: ProviderType, month: int, day: int)
    requires l.globalDaily > 0.0 && WithinLimits(l, riskOf, records) && NoRefund(records)
    ensures Paid(records, Query(Some(p), OnDay(month, day), "", "")) <= DayCap(l, p)
  {
    hide Paid;
    DayIsPartOfMonth(records, p, month, day);
    var d, m, i := Day(month, day), Month(month), ImageDay(month, day);
    assert Cap(l, riskOf, d, p) == l.globalDaily && Cap(l, riskOf, m, p) == l.globalMonthly;
    assert p == Image ==> Cap(l, riskOf, i, p) == l.imageDaily;
    assert QueryOf(d, p) == QueryOf(i, p) == Query(Some(p), OnDay(month, day), "", "");
    assert QueryOf(m, p) == Query(Some(p), InMonth(month), "", "");
  }

  lemma {:induction false} PaidByType(records: seq<Usage>, q: Query)
    requires q.providerType.None?
    ensures Paid(records, q)
         == Paid(records, q.(providerType := Some(Coding))) + Paid(records, q.(providerType := Some(Image)))
  {
    if records != [] {
      PaidByType(records[..|records| - 1], q);
    }
  }

  ghost predicate DaysWithinUnder(l: Limits, types: set<ProviderType>) {
    forall riskOf, clock, ops, month, day ::
      NoRefunds(ops) ==> DayWithin(l, riskOf, types, clock, ops, month, day)
  }

  lemma TypesStayWithinJointCap(
    l: Limits, riskOf: string -> RiskLevel, types: set<ProviderType>, clock: Instant, ops: seq<Timed>, month: int, day: int)
    requires l.globalDaily > 0.0 && Admitted(riskOf, types, clock, ops) && NoRefunds(ops)
    ensures PaidOnDay(Run(l, [], ops), month, day) <= JointCap(l, types)
  {
    hide Paid, Timely, DayCap, WithinLimits, Run;
    var records := Run(l, [], ops);
    FreshControllersStayWithin(l, riskOf, clock, ops);
    HistoriesPayOnlyFor(l, [], types, ops);
    HistoriesHoldNoRefund(l, [], ops);
    PaidByType(records, Query(None, OnDay(month, day), "", ""));
    hide PaidOnlyFor, NoRefund;
    if Coding in types {
      TypeStaysWithinDayCap(l, riskOf, records, Coding, month, day);
    } else {
      NothingPaidForOthers(records, types, Coding, OnDay(month, day));
    }
    if Image in types {
      TypeStaysWithinDayCap(l, riskOf, records, Image, month, day);
    } else {
      NothingPaidForOthers(records, types, Image, OnDay(month, day));
    }
  }

  /**
   Under given limits the admitted histories of some types, none of them with a refund, all stay within the global daily
   limit exactly when what these types may each spend in a day adds up to no more than it.
   */
  lemma DailyLimitHoldsExactly(l: Limits, types: set<ProviderType>)
    requires l.globalDaily > 0.0
    ensures DaysWithinUnder(l, types) <==> JointCap(l, types) <= l.globalDaily
  {
    if JointCap(l, types) <= l.globalDaily {
      forall riskOf, clock, ops, month, day | NoRefunds(ops)
        ensures DayWithin(l, riskOf, types, clock, ops, month, day)
      {
        if Admitted(riskOf, types, clock, ops) {
          TypesStayWithinJointCap(l, riskOf, types, clock, ops, month, day);
        }
      }
    } else {
      SameTypes(types, {Coding, Image});
      var now := Instant(0, 1, 0);
      var a, b := DayCap(l, Coding), DayCap(l, Image);
      BothAreAdmitted(l, a, b, now);
      hide Run, Paid, Admitted;
      assert !DayWithin(l, NoRisk, types, now, OneOfEach(a, b, now), 0, 1);
    }
  }
}
