/** Usage records, the spend they add up to, and the check that admits a paid run. */
module Budget {
  import opened Options

  // A UTC time: the months counted from some epoch, the day of the month, and the time within the day.
  datatype Instant = Instant(month: int, day: DayOfMonth, time: nat)

  type DayOfMonth = d: int | 1 <= d witness 1

  predicate Le(a: Instant, b: Instant) {
    || a.month < b.month
    || (a.month == b.month && (a.day < b.day || (a.day == b.day && a.time <= b.time)))
  }

  function StartOfDay(t: Instant): Instant {
    t.(time := 0)
  }

  function StartOfMonth(t: Instant): Instant {
    Instant(t.month, 1, 0)
  }

  datatype ProviderType = Coding | Image

  type RiskLevel = nat

  datatype Limits = Limits(
    globalDaily: real, globalMonthly: real, projectDaily: map<string, real>, taskDefault: map<RiskLevel, real>,
    task: map<string, real>, imageDaily: real, softFraction: real)

  datatype Usage = Usage(
    cost: real, included: bool, providerType: ProviderType, project: string, task: string, at: Instant)

  // What a caller hands to Record: the type and the time may be missing.
  datatype Reported = Reported(
    cost: real, included: bool, providerType: Option<ProviderType>, project: string, task: string, at: Option<Instant>)

  datatype Scope = Scope(project: string, task: string, taskRisk: RiskLevel, providerType: Option<ProviderType>)

  datatype LimitName = ImageDaily | GlobalDaily | GlobalMonthly | ProjectDaily | Task

  datatype Candidate = Candidate(name: LimitName, limit: real, spent: real)

  datatype Decision = Decision(
    allowed: bool, hardBlocked: bool, softSignal: bool, limit: real, remaining: real, includedPermitted: bool)

  // An explicit limit for the task comes before the default of its risk; zero is none.
  function LookupTaskLimit(l: Limits, task: string, risk: RiskLevel): (limit: real) {
    if task in l.task then l.task[task]
    else if risk in l.taskDefault then l.taskDefault[risk]
    else 0.0
  }

  /** A limit set for the task holds, zero for none included; without one it is the default of the risk, or none. */
  lemma TaskLimitMeaning(l: Limits, task: string, risk: RiskLevel, limit: real)
    ensures LookupTaskLimit(l.(task := l.task[task := limit]), task, risk) == limit
    ensures LookupTaskLimit(l.(task := l.task - {task}, taskDefault := l.taskDefault[risk := limit]), task, risk) == limit
    ensures LookupTaskLimit(l.(task := l.task - {task}, taskDefault := l.taskDefault - {risk}), task, risk) == 0.0
  {
  }

  function Normalised(l: Limits): (n: Limits)
    ensures 0.0 < n.softFraction < 1.0 && n == l.(softFraction := n.softFraction)
    ensures n.softFraction == if 0.0 < l.softFraction < 1.0 then l.softFraction else 0.8
  {
    if l.softFraction <= 0.0 || l.softFraction >= 1.0 then l.(softFraction := 0.8) else l
  }

  // ---- sums over records ----

  datatype Span = Anytime | Between(from: Instant, upto: Instant) | OnDay(month: int, day: int) | InMonth(month: int)

  // Empty project and task ask for any.
  datatype Query = Query(providerType: Option<ProviderType>, span: Span, project: string, task: string)

  predicate Within(t: Instant, span: Span) {
    match span
    case Anytime => true
    case Between(from, upto) => Le(from, t) && Le(t, upto)
    case OnDay(month, day) => t.month == month && t.day == day
    case InMonth(month) => t.month == month
  }

  // A paid record the query asks for.
  predicate Counts(r: Usage, q: Query) {
    && !r.included
    && (q.providerType.Some? ==> r.providerType == q.providerType.value)
    && Within(r.at, q.span)
    && (q.project != "" ==> r.project == q.project)
    && (q.task != "" ==> r.task == q.task)
  }

  function Paid(records: seq<Usage>, q: Query): real {
    if records == [] then 0.0
    else
      var last := records[|records| - 1];
      Paid(records[..|records| - 1], q) + if Counts(last, q) then last.cost else 0.0
  }

  lemma PaidOneMore(records: seq<Usage>, r: Usage, q: Query)
    ensures Paid(records + [r], q) == Paid(records, q) + if Counts(r, q) then r.cost else 0.0
  {
    assert (records + [r])[..|records|] == records;
  }

  lemma {:induction false} SameCounts(records: seq<Usage>, p: Query, q: Query)
    requires forall r :: r in records ==> Counts(r, p) == Counts(r, q)
    ensures Paid(records, p) == Paid(records, q)
  {
    if records != [] {
      SameCounts(records[..|records| - 1], p, q);
      assert records[|records| - 1] in records;
    }
  }

  function Today(scope: Scope, now: Instant): Query {
    Query(scope.providerType, Between(StartOfDay(now), now), "", "")
  }

  function ThisMonth(scope: Scope, now: Instant): Query {
    Query(scope.providerType, Between(StartOfMonth(now), now), "", "")
  }

  // ---- admission ----

  // Every limit that binds a prospective spend in this scope, beside what was already spent under it.
  function SpendLimits(l: Limits, records: seq<Usage>, scope: Scope, now: Instant): seq<Candidate> {
    (if l.globalDaily > 0.0 then [Candidate(GlobalDaily, l.globalDaily, Paid(records, Today(scope, now)))] else [])
    + (if l.globalMonthly > 0.0
       then [Candidate(GlobalMonthly, l.globalMonthly, Paid(records, ThisMonth(scope, now)))] else [])
    + (if scope.project != "" && scope.project in l.projectDaily && l.projectDaily[scope.project] > 0.0
       then [Candidate(ProjectDaily, l.projectDaily[scope.project],
                       Paid(records, Today(scope, now).(project := scope.project)))] else [])
    + (if scope.task != "" && LookupTaskLimit(l, scope.task, scope.taskRisk) > 0.0
       then [Candidate(Task, LookupTaskLimit(l, scope.task, scope.taskRisk),
                       Paid(records, Query(scope.providerType, Anytime, "", scope.task)))] else [])
  }

  function ImageLimit(l: Limits, records: seq<Usage>, scope: Scope, now: Instant): seq<Candidate> {
    if scope.providerType == Some(Image) && l.imageDaily > 0.0
    then [Candidate(ImageDaily, l.imageDaily, Paid(records, Today(scope, now)))] else []
  }

  // There is something left, and the amount fits into it.
  predicate Fits(c: Candidate, amount: real) {
    c.spent < c.limit && c.spent + amount <= c.limit
  }

  predicate Affordable(l: Limits, records: seq<Usage>, scope: Scope, amount: real, now: Instant) {
    forall c :: c in ImageLimit(l, records, scope, now) + SpendLimits(l, records, scope, now) ==> Fits(c, amount)
  }

  function DecideOne(limit: real, remaining: real, amount: real, paid: bool, hard: bool, softFraction: real): (d: Decision)
    ensures d.limit == limit && d.remaining == remaining - amount && d.includedPermitted
    ensures d.allowed <==> !paid || (remaining > 0.0 && remaining >= amount)
    ensures d.hardBlocked <==> !d.allowed && hard
    ensures d.softSignal <==> d.allowed && paid && limit - d.remaining >= limit * softFraction
  {
    var d := Decision(false, false, false, limit, remaining - amount, true);
    if !paid then d.(allowed := true)
    else if remaining <= 0.0 then d.(hardBlocked := hard)
    else if remaining - amount < 0.0 then d.(hardBlocked := hard)
    else d.(allowed := true, softSignal := limit - remaining + amount >= limit * softFraction)
  }

  // d is about a limit of which least is left.
  ghost predicate DecidedBy(d: Decision, limits: seq<Candidate>, amount: real) {
    exists c :: c in limits
                && (forall other :: other in limits ==> c.limit - c.spent <= other.limit - other.spent)
                && d.limit == c.limit && d.remaining == c.limit - c.spent - amount
  }

  lemma FitsExactly(c: Candidate, amount: real)
    ensures Fits(c, amount) <==> c.limit - c.spent > 0.0 && c.limit - c.spent >= amount
  {
  }

  /** Where the limit with least left has room, every limit has. */
  lemma LeastDecides(limits: seq<Candidate>, least: Candidate, amount: real)
    requires least in limits && forall c :: c in limits ==> least.limit - least.spent <= c.limit - c.spent
    ensures Fits(least, amount) <==> forall c :: c in limits ==> Fits(c, amount)
    ensures Fits(least, amount) <==> least.limit - least.spent > 0.0 && least.limit - least.spent >= amount
  {
  }

  class Controller {
    var limits: Limits
    var records: seq<Usage>

    constructor (l: Limits)
      ensures limits == Normalised(l) && records == []
    {
      limits := if l.softFraction <= 0.0 || l.softFraction >= 1.0 then l.(softFraction := 0.8) else l;
      records := [];
    }

    method SetLimits(l: Limits)
      modifies this`limits
      ensures limits == Normalised(l)
    {
      var next := l;
      if next.softFraction <= 0.0 || next.softFraction >= 1.0 {
        next := next.(softFraction := 0.8);
      }
      limits := next;
    }

    method Record(r: Reported, now: Instant)
      modifies this`records
      ensures records == old(records)
                         + [Usage(r.cost, r.included, if r.providerType.Some? then r.providerType.value else Coding,
                                  r.project, r.task, if r.at.Some? then r.at.value else now)]
    {
      var at := if r.at.None? then now else r.at.value;
      var providerType := if r.providerType.None? then Coding else r.providerType.value;
      records := records + [Usage(r.cost, r.included, providerType, r.project, r.task, at)];
    }

    method Spend(scope: Scope, now: Instant)
      returns (today: real, month: real, projectToday: real, task: real)
      ensures today == Paid(records, Today(scope, now))
      ensures month == Paid(records, ThisMonth(scope, now))
      ensures projectToday == if scope.project == "" then 0.0
                              else Paid(records, Today(scope, now).(project := scope.project))
      ensures task == if scope.task == "" then 0.0 else Paid(records, Query(scope.providerType, Anytime, "", scope.task))
    {
      today, month, projectToday, task := 0.0, 0.0, 0.0, 0.0;
      var dayStart, monthStart := StartOfDay(now), StartOfMonth(now);
      for i := 0 to |records|
        invariant today == Paid(records[..i], Today(scope, now))
        invariant month == Paid(records[..i], ThisMonth(scope, now))
        invariant projectToday == if scope.project == "" then 0.0
                                  else Paid(records[..i], Today(scope, now).(project := scope.project))
        invariant task == if scope.task == "" then 0.0
                          else Paid(records[..i], Query(scope.providerType, Anytime, "", scope.task))
      {
        var r := records[i];
        assert records[..i + 1] == records[..i] + [r];
        PaidOneMore(records[..i], r, Today(scope, now));
        PaidOneMore(records[..i], r, ThisMonth(scope, now));
        PaidOneMore(records[..i], r, Today(scope, now).(project := scope.project));
        PaidOneMore(records[..i], r, Query(scope.providerType, Anytime, "", scope.task));
        if r.included {
          continue;
        }
        if scope.providerType.Some? && r.providerType != scope.providerType.value {
          continue;
        }
        if Le(dayStart, r.at) && Le(r.at, now) {
          today := today + r.cost;
          if scope.project != "" && r.project == scope.project {
            projectToday := projectToday + r.cost;
          }
        }
        if Le(monthStart, r.at) && Le(r.at, now) {
          month := month + r.cost;
        }
        if scope.task != "" && r.task == scope.task {
          task := task + r.cost;
        }
      }
      assert records[..|records|] == records;
    }

    /** The limit with least left decides for all of them. */
    method CanAfford(scope: Scope, amount: real, paid: bool, hard: bool, now: Instant) returns (d: Decision)
      ensures d.allowed <==> !paid || Affordable(limits, records, scope, amount, now)
      ensures d.hardBlocked <==> !d.allowed && hard
      ensures d.includedPermitted <==> !d.allowed || SpendLimits(limits, records, scope, now) != []
      ensures d.includedPermitted ==>
                DecidedBy(d, if paid && exists c :: c in ImageLimit(limits, records, scope, now) && !Fits(c, amount)
                             then ImageLimit(limits, records, scope, now)
                             else SpendLimits(limits, records, scope, now), amount)
      ensures !d.includedPermitted ==> d.limit == 0.0 && d.remaining == 0.0
      ensures d.softSignal <==> d.allowed && paid && d.includedPermitted
                                && d.limit - d.remaining >= d.limit * limits.softFraction
    {
      hide SpendLimits, Fits, Paid, Today;
      var today, month, projectToday, task := Spend(scope, now);
      if scope.providerType == Some(Image) && limits.imageDaily > 0.0 {
        d := DecideOne(limits.imageDaily, limits.imageDaily - today, amount, paid, hard, limits.softFraction);
        FitsExactly(Candidate(ImageDaily, limits.imageDaily, today), amount);
        if !d.allowed {
          assert Candidate(ImageDaily, limits.imageDaily, today) in ImageLimit(limits, records, scope, now);
          return;
        }
      }
      var candidates := Gather(scope, now, today, month, projectToday, task);
      var worst := LeastLeft(candidates);
      if worst.None? {
        return Decision(true, false, false, 0.0, 0.0, false);
      }
      d := DecideOne(worst.value.limit, worst.value.limit - worst.value.spent, amount, paid, hard, limits.softFraction);
      LeastDecides(candidates, worst.value, amount);
    }

    method Gather(scope: Scope, now: Instant, today: real, month: real, projectToday: real, task: real)
      returns (candidates: seq<Candidate>)
      requires today == Paid(records, Today(scope, now)) && month == Paid(records, ThisMonth(scope, now))
      requires projectToday == if scope.project == "" then 0.0
                               else Paid(records, Today(scope, now).(project := scope.project))
      requires task == if scope.task == "" then 0.0 else Paid(records, Query(scope.providerType, Anytime, "", scope.task))
      ensures candidates == SpendLimits(limits, records, scope, now)
    {
      hide Paid, Today, ThisMonth, LookupTaskLimit;
      candidates := [];
      if limits.globalDaily > 0.0 {
        candidates := candidates + [Candidate(GlobalDaily, limits.globalDaily, today)];
      }
      if limits.globalMonthly > 0.0 {
        candidates := candidates + [Candidate(GlobalMonthly, limits.globalMonthly, month)];
      }
      if scope.project != "" {
        if scope.project in limits.projectDaily && limits.projectDaily[scope.project] > 0.0 {
          candidates := candidates + [Candidate(LimitName.ProjectDaily, limits.projectDaily[scope.project], projectToday)];
        }
      }
      var taskLimit := LookupTaskLimit(limits, scope.task, scope.taskRisk);
      if scope.task != "" && taskLimit > 0.0 {
        candidates := candidates + [Candidate(Task, taskLimit, task)];
      }
    }

    method LeastLeft(candidates: seq<Candidate>) returns (worst: Option<Candidate>)
      ensures worst.None? <==> candidates == []
      ensures worst.Some? ==>
                && worst.value in candidates
                && forall c :: c in candidates ==> worst.value.limit - worst.value.spent <= c.limit - c.spent
    {
      worst := None;
      for i := 0 to |candidates|
        invariant worst.None? <==> i == 0
        invariant worst.Some? ==>
                    && worst.value in candidates[..i]
                    && forall j :: 0 <= j < i ==>
                         worst.value.limit - worst.value.spent <= candidates[j].limit - candidates[j].spent
      {
        var c := candidates[i];
        if worst.None? || c.limit - c.spent < worst.value.limit - worst.value.spent {
          worst := Some(c);
        }
      }
    }
  }

  // ---- whole histories ----

  // The caller checks with paid and hard set and, when allowed, records the amount at once.
  datatype Op =
    | Admit(scope: Scope, amount: real, providerType: ProviderType)
    | Include(usage: Usage)

  datatype Timed = Timed(op: Op, now: Instant)

  function Recorded(scope: Scope, amount: real, providerType: ProviderType, now: Instant): Usage {
    Usage(amount, false, providerType, scope.project, scope.task, now)
  }

  // Paid records name their type in the check as in the record, and a task its one risk.
  predicate Proper(op: Op, riskOf: string -> RiskLevel) {
    match op
    case Admit(scope, _, providerType) => scope.providerType == Some(providerType) && scope.taskRisk == riskOf(scope.task)
    case Include(usage) => usage.included
  }

  function Step(l: Limits, records: seq<Usage>, t: Timed): seq<Usage> {
    match t.op
    case Admit(scope, amount, providerType) =>
      if Affordable(l, records, scope, amount, t.now) then records + [Recorded(scope, amount, providerType, t.now)]
      else records
    case Include(usage) => records + [usage]
  }

  function Run(l: Limits, records: seq<Usage>, ops: seq<Timed>): seq<Usage>
    decreases |ops|
  {
    if ops == [] then records else Run(l, Step(l, records, ops[0]), ops[1..])
  }

  // The clock never goes back.
  predicate Timely(clock: Instant, ops: seq<Timed>)
    decreases |ops|
  {
    ops == [] || (Le(clock, ops[0].now) && Timely(ops[0].now, ops[1..]))
  }

  datatype Window =
    | Day(month: int, day: int)
    | Month(month: int)
    | ProjectDay(project: string, month: int, day: int)
    | OfTask(task: string)
    | ImageDay(month: int, day: int)

  // The limit of a window for a provider type; zero is none.
  function Cap(l: Limits, riskOf: string -> RiskLevel, w: Window, providerType: ProviderType): real {
    match w
    case Day(_, _) => l.globalDaily
    case Month(_) => l.globalMonthly
    case ProjectDay(p, _, _) => if p != "" && p in l.projectDaily then l.projectDaily[p] else 0.0
    case OfTask(t) => if t != "" then LookupTaskLimit(l, t, riskOf(t)) else 0.0
    case ImageDay(_, _) => if providerType == Image then l.imageDaily else 0.0
  }

  function QueryOf(w: Window, providerType: ProviderType): Query {
    match w
    case Day(month, day) => Query(Some(providerType), OnDay(month, day), "", "")
    case Month(month) => Query(Some(providerType), InMonth(month), "", "")
    case ProjectDay(p, month, day) => Query(Some(providerType), OnDay(month, day), p, "")
    case OfTask(t) => Query(Some(providerType), Anytime, "", t)
    case ImageDay(month, day) => Query(Some(providerType), OnDay(month, day), "", "")
  }

  /** What a window counts: what was paid for that type in its day or month, for its project, or for its task. */
  lemma WindowMeaning(w: Window, p: ProviderType, r: Usage)
    requires w.ProjectDay? ==> w.project != ""
    requires w.OfTask? ==> w.task != ""
    ensures Counts(r, QueryOf(w, p))
            <==> !r.included && r.providerType == p
                 && match w
                    case Day(month, day) => r.at.month == month && r.at.day == day
                    case Month(month) => r.at.month == month
                    case ProjectDay(project, month, day) => r.project == project && r.at.month == month && r.at.day == day
                    case OfTask(task) => r.task == task
                    case ImageDay(month, day) => r.at.month == month && r.at.day == day
  {
  }

  ghost predicate WithinLimits(l: Limits, riskOf: string -> RiskLevel, records: seq<Usage>) {
    forall w, p :: Cap(l, riskOf, w, p) > 0.0 ==> Paid(records, QueryOf(w, p)) <= Cap(l, riskOf, w, p)
  }

  // No paid record is from the future.
  ghost predicate Stamped(records: seq<Usage>, clock: Instant) {
    forall r :: r in records && !r.included ==> Le(r.at, clock)
  }

  // The window has something left under its limit, and the amount fits.
  predicate HasRoom(l: Limits, riskOf: string -> RiskLevel, records: seq<Usage>, w: Window, p: ProviderType, amount: real) {
    && Paid(records, QueryOf(w, p)) < Cap(l, riskOf, w, p)
    && Paid(records, QueryOf(w, p)) + amount <= Cap(l, riskOf, w, p)
  }

  // The limit a window is checked against when a record falls into it, with what its whole window then holds.
  lemma WindowIsChecked(l: Limits, riskOf: string -> RiskLevel, records: seq<Usage>, t: Timed, w: Window, p: ProviderType)
    requires t.op.Admit? && Proper(t.op, riskOf) && Stamped(records, t.now)
    requires Cap(l, riskOf, w, p) > 0.0
    requires Counts(Recorded(t.op.scope, t.op.amount, t.op.providerType, t.now), QueryOf(w, p))
    requires Affordable(l, records, t.op.scope, t.op.amount, t.now)
    ensures HasRoom(l, riskOf, records, w, p, t.op.amount)
  {
    hide Paid, LookupTaskLimit;
    var scope, now := t.op.scope, t.now;
    var all := ImageLimit(l, records, scope, now) + SpendLimits(l, records, scope, now);
    var c :=
      match w
      case Day(_, _) => Candidate(GlobalDaily, l.globalDaily, Paid(records, Today(scope, now)))
      case Month(_) => Candidate(GlobalMonthly, l.globalMonthly, Paid(records, ThisMonth(scope, now)))
      case ProjectDay(_, _, _) =>
        Candidate(ProjectDaily, Cap(l, riskOf, w, p), Paid(records, Today(scope, now).(project := scope.project)))
      case OfTask(_) =>
        Candidate(Task, Cap(l, riskOf, w, p), Paid(records, Query(scope.providerType, Anytime, "", scope.task)))
      case ImageDay(_, _) => Candidate(ImageDaily, l.imageDaily, Paid(records, Today(scope, now)));
    assert c in all;
    assert Fits(c, t.op.amount);
    var asked :=
      match w
      case Month(_) => ThisMonth(scope, now)
      case ProjectDay(_, _, _) => Today(scope, now).(project := scope.project)
      case OfTask(_) => Query(scope.providerType, Anytime, "", scope.task)
      case _ => Today(scope, now);
    forall r | r in records
      ensures Counts(r, asked) == Counts(r, QueryOf(w, p))
    {
    }
    SameCounts(records, asked, QueryOf(w, p));
  }

  // Each limit of the check is that of a window the record falls into.
  lemma LimitIsOfAWindow(l: Limits, riskOf: string -> RiskLevel, records: seq<Usage>, t: Timed, c: Candidate)
    returns (w: Window)
    requires t.op.Admit? && Proper(t.op, riskOf) && Stamped(records, t.now)
    requires c in ImageLimit(l, records, t.op.scope, t.now) + SpendLimits(l, records, t.op.scope, t.now)
    ensures Cap(l, riskOf, w, t.op.providerType) == c.limit > 0.0
    ensures Counts(Recorded(t.op.scope, t.op.amount, t.op.providerType, t.now), QueryOf(w, t.op.providerType))
    ensures Paid(records, QueryOf(w, t.op.providerType)) == c.spent
  {
    hide Paid, LookupTaskLimit;
    var scope, now, p := t.op.scope, t.now, t.op.providerType;
    var asked;
    match c.name {
      case ImageDaily => w, asked := ImageDay(now.month, now.day), Today(scope, now);
      case GlobalDaily => w, asked := Day(now.month, now.day), Today(scope, now);
      case GlobalMonthly => w, asked := Month(now.month), ThisMonth(scope, now);
      case ProjectDaily =>
        w, asked := Window.ProjectDay(scope.project, now.month, now.day), Today(scope, now).(project := scope.project);
      case Task => w, asked := OfTask(scope.task), Query(scope.providerType, Anytime, "", scope.task);
    }
    forall r | r in records
      ensures Counts(r, asked) == Counts(r, QueryOf(w, p))
    {
    }
    SameCounts(records, asked, QueryOf(w, p));
  }

  /** A run is admitted exactly when every window with a limit that it falls into has room for it. */
  lemma AdmissionMeaning(l: Limits, riskOf: string -> RiskLevel, records: seq<Usage>, t: Timed)
    requires t.op.Admit? && Proper(t.op, riskOf) && Stamped(records, t.now)
    ensures var scope, p, amount := t.op.scope, t.op.providerType, t.op.amount;
            Affordable(l, records, scope, amount, t.now)
            <==> forall w :: Cap(l, riskOf, w, p) > 0.0 && Counts(Recorded(scope, amount, p, t.now), QueryOf(w, p))
                             ==> HasRoom(l, riskOf, records, w, p, amount)
  {
    hide Paid, Cap, QueryOf, Counts, SpendLimits, ImageLimit, Stamped;
    var scope, p, amount := t.op.scope, t.op.providerType, t.op.amount;
    if Affordable(l, records, scope, amount, t.now) {
      forall w | Cap(l, riskOf, w, p) > 0.0 && Counts(Recorded(scope, amount, p, t.now), QueryOf(w, p))
        ensures HasRoom(l, riskOf, records, w, p, amount)
      {
        WindowIsChecked(l, riskOf, records, t, w, p);
      }
    } else {
      var c :| c in ImageLimit(l, records, scope, t.now) + SpendLimits(l, records, scope, t.now) && !Fits(c, amount);
      var w := LimitIsOfAWindow(l, riskOf, records, t, c);
    }
  }

  /** Usage a subscription covers counts towards no limit, whenever it was. */
  lemma IncludedUsageIsFree(l: Limits, records: seq<Usage>, usage: Usage, scope: Scope, amount: real, now: Instant)
    requires usage.included
    ensures Affordable(l, records + [usage], scope, amount, now) == Affordable(l, records, scope, amount, now)
  {
    PaidOneMore(records, usage, Today(scope, now));
    PaidOneMore(records, usage, ThisMonth(scope, now));
    PaidOneMore(records, usage, Today(scope, now).(project := scope.project));
    PaidOneMore(records, usage, Query(scope.providerType, Anytime, "", scope.task));
    hide Paid, Today, ThisMonth;
    assert SpendLimits(l, records + [usage], scope, now) == SpendLimits(l, records, scope, now);
    assert ImageLimit(l, records + [usage], scope, now) == ImageLimit(l, records, scope, now);
  }

  lemma StepStaysWithin(l: Limits, riskOf: string -> RiskLevel, records: seq<Usage>, t: Timed)
    requires Proper(t.op, riskOf) && Stamped(records, t.now) && WithinLimits(l, riskOf, records)
    ensures Stamped(Step(l, records, t), t.now) && WithinLimits(l, riskOf, Step(l, records, t))
  {
    hide Paid, Affordable, Cap, QueryOf;
    var after := Step(l, records, t);
    if after != records {
      var r := after[|records|];
      assert after == records + [r];
      forall w, p | Cap(l, riskOf, w, p) > 0.0
        ensures Paid(after, QueryOf(w, p)) <= Cap(l, riskOf, w, p)
      {
        PaidOneMore(records, r, QueryOf(w, p));
        if Counts(r, QueryOf(w, p)) {
          WindowIsChecked(l, riskOf, records, t, w, p);
        }
      }
    }
  }

  lemma StampedLater(records: seq<Usage>, clock: Instant, later: Instant)
    requires Stamped(records, clock) && Le(clock, later)
    ensures Stamped(records, later)
  {
  }

  /**
   If every paid run is admitted first and stamped by a clock that never goes back, then for each provider type the
   paid spend of every day, month, project day and task, and of images every day, never exceeds its positive limit.
   */
  lemma {:induction false} SpendStaysWithinLimits(
    l: Limits, riskOf: string -> RiskLevel, records: seq<Usage>, clock: Instant, ops: seq<Timed>)
    requires Stamped(records, clock) && WithinLimits(l, riskOf, records)
    requires Timely(clock, ops) && forall i :: 0 <= i < |ops| ==> Proper(ops[i].op, riskOf)
    ensures WithinLimits(l, riskOf, Run(l, records, ops))
    decreases |ops|
  {
    hide Step, WithinLimits, Stamped, Proper, Le;
    if ops != [] {
      StampedLater(records, clock, ops[0].now);
      StepStaysWithin(l, riskOf, records, ops[0]);
      SpendStaysWithinLimits(l, riskOf, Step(l, records, ops[0]), ops[0].now, ops[1..]);
    }
  }

  lemma NothingSpent(l: Limits, riskOf: string -> RiskLevel, clock: Instant)
    ensures Stamped([], clock) && WithinLimits(l, riskOf, [])
  {
  }

  /** A fresh controller's histories stay within every limit. */
  lemma FreshControllersStayWithin(l: Limits, riskOf: string -> RiskLevel, clock: Instant, ops: seq<Timed>)
    requires Timely(clock, ops) && forall i :: 0 <= i < |ops| ==> Proper(ops[i].op, riskOf)
    ensures WithinLimits(l, riskOf, Run(l, [], ops))
  {
    NothingSpent(l, riskOf, clock);
    SpendStaysWithinLimits(l, riskOf, [], clock, ops);
  }
}
