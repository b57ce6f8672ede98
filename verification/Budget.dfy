/** A run's budget: the ledger, its verdict, the limits a call may ask for, and the one
    alert a run raises. Fractions are exact rationals. */
module Budget {
  import opened Wrappers
  import opened Json

  datatype Dimension = ChildCalls | EstTokens | ToolLatencyMs | WallMs

  datatype Verdict = Fine | Alert | Exceeded(dimension: Dimension)

  datatype Limits = Limits(calls: Option<int>, tokens: Option<int>, latency: Option<int>, wall: Option<int>,
                           alert: real)

  datatype Ledger = Ledger(startedMs: int, childCalls: int, estTokens: int, toolLatencyMs: int)

  predicate Sane(l: Ledger) {
    l.childCalls >= 0 && l.estTokens >= 0 && l.toolLatencyMs >= 0
  }

  function NotNegative(n: int): nat {
    if n < 0 then 0 else n
  }

  // ---- the verdict -----------------------------------------------------------------------

  function LimitOf(limits: Limits, d: Dimension): Option<int> {
    match d
    case ChildCalls => limits.calls
    case EstTokens => limits.tokens
    case ToolLatencyMs => limits.latency
    case WallMs => limits.wall
  }

  function Used(l: Ledger, d: Dimension, now: int): int {
    match d
    case ChildCalls => l.childCalls
    case EstTokens => l.estTokens
    case ToolLatencyMs => l.toolLatencyMs
    case WallMs => NotNegative(now - l.startedMs)
  }

  function Fraction(value: int, limit: int): real {
    if limit <= 0 then 1.0 else value as real / limit as real
  }

  const ORDER: seq<Dimension> := [ChildCalls, EstTokens, ToolLatencyMs, WallMs]

  /** The limited dimensions among `ds` with their fractions, in order. */
  function ActiveFractions(l: Ledger, limits: Limits, now: int, ds: seq<Dimension>): seq<(Dimension, real)> {
    if ds == [] then []
    else
      (match LimitOf(limits, ds[0])
       case None => []
       case Some(limit) => [(ds[0], Fraction(Used(l, ds[0], now), limit))])
      + ActiveFractions(l, limits, now, ds[1..])
  }

  function FirstFull(fs: seq<(Dimension, real)>): (r: Option<Dimension>)
    ensures r.Some? <==> exists i :: 0 <= i < |fs| && fs[i].1 >= 1.0
    ensures r.Some? ==> exists i | 0 <= i < |fs| ::
      fs[i].0 == r.value && fs[i].1 >= 1.0 && forall j | 0 <= j < i :: fs[j].1 < 1.0
  {
    if fs == [] then None
    else if fs[0].1 >= 1.0 then Some(fs[0].0)
    else
      var r := FirstFull(fs[1..]);
      assert forall i | 0 < i < |fs| :: fs[i] == fs[1..][i - 1];
      r
  }

  function Check(l: Ledger, limits: Limits, now: int): Verdict {
    var fs := ActiveFractions(l, limits, now, ORDER);
    var full := FirstFull(fs);
    if full.Some? then Exceeded(full.value)
    else if exists i :: 0 <= i < |fs| && fs[i].1 >= limits.alert then Alert
    else Fine
  }

  function Largest(fs: seq<(Dimension, real)>, from: real): (r: real)
    ensures r >= from && forall i | 0 <= i < |fs| :: r >= fs[i].1
    ensures r == from || exists i :: 0 <= i < |fs| && r == fs[i].1
  {
    if fs == [] then from
    else
      var r := Largest(fs[1..], if fs[0].1 > from then fs[0].1 else from);
      assert forall i | 0 < i < |fs| :: fs[i] == fs[1..][i - 1];
      r
  }

  function FractionUsed(l: Ledger, limits: Limits, now: int): real {
    Largest(ActiveFractions(l, limits, now, ORDER), 0.0)
  }

  // ---- fractions, dimension by dimension -----------------------------------------------------

  lemma {:induction false} ActiveSound(l: Ledger, limits: Limits, now: int, ds: seq<Dimension>, i: nat)
    requires i < |ActiveFractions(l, limits, now, ds)|
    ensures var f := ActiveFractions(l, limits, now, ds)[i];
      && f.0 in ds && LimitOf(limits, f.0).Some?
      && f.1 == Fraction(Used(l, f.0, now), LimitOf(limits, f.0).value)
    decreases |ds|
  {
    var rest := ActiveFractions(l, limits, now, ds[1..]);
    if LimitOf(limits, ds[0]).None? {
      assert ActiveFractions(l, limits, now, ds) == [] + rest == rest;
      ActiveSound(l, limits, now, ds[1..], i);
    } else if i > 0 {
      ActiveSound(l, limits, now, ds[1..], i - 1);
    }
  }

  lemma {:induction false} ActiveComplete(l: Ledger, limits: Limits, now: int, ds: seq<Dimension>,
        d: Dimension) returns (i: nat)
    requires d in ds && LimitOf(limits, d).Some?
    ensures i < |ActiveFractions(l, limits, now, ds)| && ActiveFractions(l, limits, now, ds)[i].0 == d
  {
    if ds[0] == d {
      i := 0;
    } else {
      i := ActiveComplete(l, limits, now, ds[1..], d);
      if LimitOf(limits, ds[0]).Some? {
        i := i + 1;
      }
    }
  }

  lemma AllInOrder(d: Dimension)
    ensures d in ORDER
  {
    assert ORDER[0] == ChildCalls && ORDER[1] == EstTokens && ORDER[2] == ToolLatencyMs && ORDER[3] == WallMs;
  }

  // ---- the verdict is where the fraction lies ------------------------------------------------

  ghost predicate VerdictSays(l: Ledger, limits: Limits, now: int) {
    var f := FractionUsed(l, limits, now);
    && (Check(l, limits, now).Exceeded? <==> f >= 1.0)
    && (Check(l, limits, now).Alert? <==> limits.alert <= f < 1.0)
    && (Check(l, limits, now).Fine? <==> f < limits.alert)
  }

  /** With an alert fraction in (0, 1], as every plan has, the verdict says exactly where the
      fraction lies. */
  lemma VerdictIsFraction(l: Ledger, limits: Limits, now: int)
    requires 0.0 < limits.alert <= 1.0
    ensures VerdictSays(l, limits, now)
  {
    var fs := ActiveFractions(l, limits, now, ORDER);
    var f := FractionUsed(l, limits, now);
    if f >= limits.alert {
      var i :| 0 <= i < |fs| && f == fs[i].1;
    }
  }

  predicate Limited(limits: Limits) {
    limits.calls.Some? || limits.tokens.Some? || limits.latency.Some? || limits.wall.Some?
  }

  lemma FractionBounds(used: int, limit: int)
    requires used >= 0
    ensures Fraction(used, limit) >= 0.0 && (used <= limit || used == 0 ==> Fraction(used, limit) <= 1.0)
  {
    if limit > 0 {
      var f := used as real / limit as real;
      assert f * limit as real == used as real;
    }
  }

  lemma {:induction false} Unlimited(l: Ledger, limits: Limits, now: int, ds: seq<Dimension>)
    requires !Limited(limits)
    ensures ActiveFractions(l, limits, now, ds) == []
  {
    if ds != [] {
      assert LimitOf(limits, ds[0]).None?;
      Unlimited(l, limits, now, ds[1..]);
    }
  }

  /** At zero or below, some limit makes the fraction an active one's. */
  lemma LowAlert(l: Ledger, limits: Limits, now: int)
    requires limits.alert <= 0.0 && Limited(limits) && Sane(l)
    ensures VerdictSays(l, limits, now)
  {
    var fs := ActiveFractions(l, limits, now, ORDER);
    var d: Dimension :| LimitOf(limits, d).Some?;
    AllInOrder(d);
    var k := ActiveComplete(l, limits, now, ORDER, d);
    forall i | 0 <= i < |fs| ensures fs[i].1 >= 0.0 {
      ActiveSound(l, limits, now, ORDER, i);
      FractionBounds(Used(l, fs[i].0, now), LimitOf(limits, fs[i].0).value);
    }
    assert fs[k].1 >= limits.alert;
  }

  /** The ledger that has used exactly the limit of `d` and nothing else. */
  function JustFull(d: Dimension, limit: int): Ledger {
    var used := NotNegative(limit);
    Ledger(0, if d == ChildCalls then used else 0, if d == EstTokens then used else 0,
           if d == ToolLatencyMs then used else 0)
  }

  function JustThen(d: Dimension, limit: int): int {
    if d == WallMs then NotNegative(limit) else 0
  }

  lemma Whole(x: real)
    requires x > 0.0
    ensures x / x == 1.0
  {
    var q := x / x;
    assert q * x == x;
    assert (q - 1.0) * x == 0.0;
  }

  lemma JustFullFraction(d: Dimension, limit: int, e: Dimension, other: int)
    requires e == d ==> other == limit
    ensures var f := Fraction(Used(JustFull(d, limit), e, JustThen(d, limit)), other); f <= 1.0 && (e == d ==> f == 1.0)
  {
    var used := Used(JustFull(d, limit), e, JustThen(d, limit));
    assert used == if e == d then NotNegative(limit) else 0;
    FractionBounds(used, other);
    if e == d && limit > 0 {
      Whole(limit as real);
    }
  }

  lemma OnlyOne(fs: seq<(Dimension, real)>, k: nat)
    requires k < |fs| && fs[k].1 == 1.0 && forall i | 0 <= i < |fs| :: fs[i].1 <= 1.0
    ensures Largest(fs, 0.0) == 1.0 && FirstFull(fs).Some?
  {
  }

  /** Above one, a limit just reached is exceeded at a fraction below the alert. */
  lemma HighAlert(limits: Limits, d: Dimension)
    requires limits.alert > 1.0 && LimitOf(limits, d).Some?
    ensures var limit := LimitOf(limits, d).value;
      Sane(JustFull(d, limit)) && !VerdictSays(JustFull(d, limit), limits, JustThen(d, limit))
  {
    var limit := LimitOf(limits, d).value;
    var l, now := JustFull(d, limit), JustThen(d, limit);
    var fs := ActiveFractions(l, limits, now, ORDER);
    AllInOrder(d);
    var k := ActiveComplete(l, limits, now, ORDER, d);
    ActiveSound(l, limits, now, ORDER, k);
    JustFullFraction(d, limit, d, limit);
    assert fs[k].1 == 1.0;
    forall i | 0 <= i < |fs| ensures fs[i].1 <= 1.0 {
      ActiveSound(l, limits, now, ORDER, i);
      JustFullFraction(d, limit, fs[i].0, LimitOf(limits, fs[i].0).value);
    }
    OnlyOne(fs, k);
  }

  /** The alert fractions at which the verdict of every ledger is where its fraction lies. */
  lemma VerdictIsFractionIff(limits: Limits)
    ensures (forall l, now | Sane(l) :: VerdictSays(l, limits, now)) <==>
      if limits.alert <= 0.0 then Limited(limits) else if limits.alert <= 1.0 then true else !Limited(limits)
  {
    if 0.0 < limits.alert <= 1.0 {
      forall l, now | Sane(l) ensures VerdictSays(l, limits, now) {
        VerdictIsFraction(l, limits, now);
      }
    } else if Limited(limits) {
      if limits.alert > 1.0 {
        var d: Dimension :| LimitOf(limits, d).Some?;
        HighAlert(limits, d);
      } else {
        forall l, now | Sane(l) ensures VerdictSays(l, limits, now) {
          LowAlert(l, limits, now);
        }
      }
    } else {
      forall l, now ensures FractionUsed(l, limits, now) == 0.0 && Check(l, limits, now).Fine? {
        Unlimited(l, limits, now, ORDER);
      }
      assert Sane(Ledger(0, 0, 0, 0)) && (VerdictSays(Ledger(0, 0, 0, 0), limits, 0) <==> 0.0 < limits.alert);
    }
  }

  /** How full one dimension is; nothing when it has no limit. */
  predicate FullTo(l: Ledger, limits: Limits, now: int, d: Dimension, level: real) {
    LimitOf(limits, d).Some? && Fraction(Used(l, d, now), LimitOf(limits, d).value) >= level
  }

  predicate Reaches(fs: seq<(Dimension, real)>, level: real) {
    exists i :: 0 <= i < |fs| && fs[i].1 >= level
  }

  lemma SomeFull(l: Ledger, limits: Limits, now: int, level: real)
    ensures Reaches(ActiveFractions(l, limits, now, ORDER), level)
      <==> exists d: Dimension :: FullTo(l, limits, now, d, level)
  {
    var fs := ActiveFractions(l, limits, now, ORDER);
    if i :| 0 <= i < |fs| && fs[i].1 >= level {
      ActiveSound(l, limits, now, ORDER, i);
      assert FullTo(l, limits, now, fs[i].0, level);
    }
    if d: Dimension :| FullTo(l, limits, now, d, level) {
      AllInOrder(d);
      var i := ActiveComplete(l, limits, now, ORDER, d);
      ActiveSound(l, limits, now, ORDER, i);
    }
  }

  function Rank(v: Verdict): nat {
    match v
    case Fine => 0
    case Alert => 1
    case Exceeded(_) => 2
  }

  lemma CheckReads(l: Ledger, limits: Limits, now: int)
    ensures var fs := ActiveFractions(l, limits, now, ORDER);
      Rank(Check(l, limits, now)) == if Reaches(fs, 1.0) then 2 else if Reaches(fs, limits.alert) then 1 else 0
  {
  }

  /** The verdict, read off the dimensions. */
  lemma CheckRank(l: Ledger, limits: Limits, now: int)
    ensures Rank(Check(l, limits, now)) ==
      if exists d: Dimension :: FullTo(l, limits, now, d, 1.0) then 2
      else if exists d: Dimension :: FullTo(l, limits, now, d, limits.alert) then 1
      else 0
  {
    CheckReads(l, limits, now);
    SomeFull(l, limits, now, 1.0);
    SomeFull(l, limits, now, limits.alert);
  }

  lemma FractionGrows(v: int, w: int, limit: int)
    requires v <= w
    ensures Fraction(v, limit) <= Fraction(w, limit)
  {
  }

  lemma Larger(q: real, p: real, b: real)
    requires q > p && b > 0.0
    ensures q * b > p * b
  {
    assert (q - p) * b > 0.0;
  }

  lemma NotSmaller(q: real, a: real, b: real)
    requires q >= 0.0 && a >= b
    ensures q * a >= q * b
  {
    assert q * (a - b) >= 0.0;
  }

  lemma FractionTighter(v: int, limit: int, tighter: int)
    requires 0 <= v && 0 < tighter <= limit
    ensures Fraction(v, limit) <= Fraction(v, tighter)
  {
    var a, b, x := limit as real, tighter as real, v as real;
    var q, p := x / a, x / b;
    assert q * a == x && p * b == x && a >= b > 0.0;
    if q > p {
      Larger(q, p, b);
      NotSmaller(q, a, b);
    }
  }

  /** `a` has used no less than `b`, in every dimension. */
  predicate AtLeast(a: Ledger, now: int, b: Ledger, before: int) {
    forall d: Dimension :: Used(b, d, before) <= Used(a, d, now)
  }

  lemma MoreUsedNotMilder(a: Ledger, now: int, b: Ledger, before: int, limits: Limits)
    requires AtLeast(a, now, b, before)
    ensures Rank(Check(b, limits, before)) <= Rank(Check(a, limits, now))
  {
    CheckRank(a, limits, now);
    CheckRank(b, limits, before);
    forall d: Dimension, level: real | FullTo(b, limits, before, d, level) ensures FullTo(a, limits, now, d, level) {
      FractionGrows(Used(b, d, before), Used(a, d, now), LimitOf(limits, d).value);
    }
  }

  /** Every limit of `a` is there and no higher in `b`. */
  predicate Tighter(b: Limits, a: Limits) {
    b.alert == a.alert &&
    forall d: Dimension | LimitOf(a, d).Some? ::
      LimitOf(b, d).Some? && (LimitOf(b, d) == LimitOf(a, d) || 0 < LimitOf(b, d).value <= LimitOf(a, d).value)
  }

  lemma TighterNotMilder(l: Ledger, a: Limits, b: Limits, now: int)
    requires Sane(l) && Tighter(b, a)
    ensures Rank(Check(l, a, now)) <= Rank(Check(l, b, now))
  {
    CheckRank(l, a, now);
    CheckRank(l, b, now);
    forall d: Dimension, level: real | FullTo(l, a, now, d, level) ensures FullTo(l, b, now, d, level) {
      if LimitOf(b, d) != LimitOf(a, d) {
        FractionTighter(Used(l, d, now), LimitOf(a, d).value, LimitOf(b, d).value);
      }
    }
  }

  lemma FullMeansReached(used: int, limit: int)
    requires used >= 0 && Fraction(used, limit) >= 1.0
    ensures limit <= used
  {
    if limit > 0 {
      var f := used as real / limit as real;
      assert f * limit as real == used as real;
      assert f * limit as real >= 1.0 * limit as real;
    }
  }

  /** What the refusal reports: a used amount that has reached the limit it names. */
  lemma ExceededReports(l: Ledger, limits: Limits, now: int)
    requires Sane(l) && Check(l, limits, now).Exceeded?
    ensures var d := Check(l, limits, now).dimension;
      LimitOf(limits, d).Some? && LimitOf(limits, d).value <= Used(l, d, now)
  {
    var fs := ActiveFractions(l, limits, now, ORDER);
    var d := Check(l, limits, now).dimension;
    var i :| 0 <= i < |fs| && fs[i].0 == d && fs[i].1 >= 1.0;
    ActiveSound(l, limits, now, ORDER, i);
    FullMeansReached(Used(l, d, now), LimitOf(limits, d).value);
  }

  // ---- limits a call asks for -----------------------------------------------------------------

  const I64_MAX := 9223372036854775807

  datatype Refusal = NotAnObject | NotPositive(key: string) | AboveCeiling(key: string, ceiling: int, requested: int)

  function PositiveInt(v: Json): Option<int> {
    if v.Num? && 0 < v.n <= I64_MAX then Some(v.n) else None
  }

  function Ceiling(limit: Option<int>): int {
    if limit.Some? then limit.value else I64_MAX
  }

  /** One member of the request, over the plan's own limit. */
  function Asked(request: map<string, Json>, key: string, plan: Option<int>): Result<Option<int>, Refusal> {
    if key !in request then Success(plan)
    else if PositiveInt(request[key]).None? then Failure(NotPositive(key))
    else if PositiveInt(request[key]).value > Ceiling(plan)
    then Failure(AboveCeiling(key, Ceiling(plan), PositiveInt(request[key]).value))
    else Success(PositiveInt(request[key]))
  }

  const CALLS := "max_child_calls"
  const TOKENS := "max_est_tokens"
  const LATENCY := "max_tool_latency_ms"
  const WALL := "max_wall_ms"

  function Resolved(defaults: Limits, requested: Option<Json>): Result<Limits, Refusal> {
    if requested.None? || requested.value == Null then Success(defaults)
    else if !requested.value.Obj? then Failure(NotAnObject)
    else
      var request := requested.value.members;
      match Asked(request, CALLS, defaults.calls)
      case Failure(e) => Failure(e)
      case Success(calls) =>
        match Asked(request, TOKENS, defaults.tokens)
        case Failure(e) => Failure(e)
        case Success(tokens) =>
          match Asked(request, LATENCY, defaults.latency)
          case Failure(e) => Failure(e)
          case Success(latency) =>
            match Asked(request, WALL, defaults.wall)
            case Failure(e) => Failure(e)
            case Success(wall) => Success(Limits(calls, tokens, latency, wall, defaults.alert))
  }

  /** `resolve_with`: the slots of a copy of the defaults overwritten one by one. */
  method ResolveWith(defaults: Limits, requested: Option<Json>) returns (r: Result<Limits, Refusal>)
    ensures r == Resolved(defaults, requested)
  {
    if requested.None? || requested.value == Null {
      return Success(defaults);
    }
    if !requested.value.Obj? {
      return Failure(NotAnObject);
    }
    var request, limits := requested.value.members, defaults;
    var calls := Asked(request, CALLS, defaults.calls);
    if calls.Failure? {
      return Failure(calls.error);
    }
    limits := limits.(calls := calls.value);
    var tokens := Asked(request, TOKENS, defaults.tokens);
    if tokens.Failure? {
      return Failure(tokens.error);
    }
    limits := limits.(tokens := tokens.value);
    var latency := Asked(request, LATENCY, defaults.latency);
    if latency.Failure? {
      return Failure(latency.error);
    }
    limits := limits.(latency := latency.value);
    var wall := Asked(request, WALL, defaults.wall);
    if wall.Failure? {
      return Failure(wall.error);
    }
    r := Success(limits.(wall := wall.value));
  }

  /** Limits that were accepted only tighten the plan's: whatever ledger they let pass, the
      plan's would have let pass. */
  lemma AcceptedOnlyTightens(defaults: Limits, requested: Option<Json>, l: Ledger, now: int)
    requires Resolved(defaults, requested).Success? && Sane(l)
    ensures Tighter(Resolved(defaults, requested).value, defaults)
    ensures !Check(l, Resolved(defaults, requested).value, now).Exceeded? ==> !Check(l, defaults, now).Exceeded?
  {
    var limits := Resolved(defaults, requested).value;
    forall d: Dimension | LimitOf(defaults, d).Some?
      ensures LimitOf(limits, d).Some?
        && (LimitOf(limits, d) == LimitOf(defaults, d) || 0 < LimitOf(limits, d).value <= LimitOf(defaults, d).value)
    {
    }
    TighterNotMilder(l, defaults, limits, now);
  }

  /** A request is refused exactly when some member of it is no positive integer or is
      above the plan's limit for it. */
  predicate Acceptable(request: map<string, Json>, key: string, plan: Option<int>) {
    key in request ==> PositiveInt(request[key]).Some? && PositiveInt(request[key]).value <= Ceiling(plan)
  }

  lemma RefusedIff(defaults: Limits, request: map<string, Json>)
    ensures Resolved(defaults, Some(Obj(request))).Success? <==>
      && Acceptable(request, CALLS, defaults.calls) && Acceptable(request, TOKENS, defaults.tokens)
      && Acceptable(request, LATENCY, defaults.latency) && Acceptable(request, WALL, defaults.wall)
  {
    assert Some(Obj(request)).value != Null;
  }

  /** Accepted limits are those asked for, and the plan's own where nothing was asked. */
  predicate IsAsked(request: map<string, Json>, key: string, plan: Option<int>, limit: Option<int>) {
    if key in request then request[key].Num? && limit == Some(request[key].n) else limit == plan
  }

  lemma AcceptedAreAsked(defaults: Limits, request: map<string, Json>)
    requires Resolved(defaults, Some(Obj(request))).Success?
    ensures
      var limits := Resolved(defaults, Some(Obj(request))).value;
      && IsAsked(request, "max_child_calls", defaults.calls, limits.calls)
      && IsAsked(request, "max_est_tokens", defaults.tokens, limits.tokens)
      && IsAsked(request, "max_tool_latency_ms", defaults.latency, limits.latency)
      && IsAsked(request, "max_wall_ms", defaults.wall, limits.wall)
      && limits.alert == defaults.alert
  {
  }

  /** What is wrong with one member of a request: no positive integer that fits 64 bits, or
      above the plan's own limit. */
  predicate MemberFault(request: map<string, Json>, key: string, plan: Option<int>, why: Refusal) {
    && key in request
    && match why
       case NotAnObject => false
       case NotPositive(k) => k == key && !(request[key].Num? && 0 < request[key].n <= 9223372036854775807)
       case AboveCeiling(k, ceiling, requested) =>
         && k == key && plan == Some(ceiling) && request[key] == Num(requested)
         && 0 < requested <= 9223372036854775807 && ceiling < requested
  }

  predicate Faultless(request: map<string, Json>, key: string, plan: Option<int>) {
    key in request ==>
      && request[key].Num? && 0 < request[key].n <= 9223372036854775807
      && (plan.Some? ==> request[key].n <= plan.value)
  }

  /** A request is refused for the first member at fault, in the order calls, tokens, latency,
      wall time; anything but an object is refused as such, and nothing or null never. */
  lemma RefusedFor(defaults: Limits, requested: Option<Json>, why: Refusal)
    ensures Resolved(defaults, requested) == Failure(why) <==>
      && requested.Some? && requested.value != Null
      && if !requested.value.Obj? then why == NotAnObject
         else
           var request := requested.value.members;
           var calls := Faultless(request, "max_child_calls", defaults.calls);
           var tokens := Faultless(request, "max_est_tokens", defaults.tokens);
           var latency := Faultless(request, "max_tool_latency_ms", defaults.latency);
           || MemberFault(request, "max_child_calls", defaults.calls, why)
           || (calls && MemberFault(request, "max_est_tokens", defaults.tokens, why))
           || (calls && tokens && MemberFault(request, "max_tool_latency_ms", defaults.latency, why))
           || (calls && tokens && latency && MemberFault(request, "max_wall_ms", defaults.wall, why))
  {
    if requested.Some? && requested.value.Obj? {
      AskedFault(requested.value.members, "max_child_calls", defaults.calls, why);
      AskedFault(requested.value.members, "max_est_tokens", defaults.tokens, why);
      AskedFault(requested.value.members, "max_tool_latency_ms", defaults.latency, why);
      AskedFault(requested.value.members, "max_wall_ms", defaults.wall, why);
    }
  }

  lemma AskedFault(request: map<string, Json>, key: string, plan: Option<int>, why: Refusal)
    ensures Asked(request, key, plan) == Failure(why) <==> MemberFault(request, key, plan, why)
    ensures Asked(request, key, plan).Success? <==> Faultless(request, key, plan)
  {
  }

  // ---- one run ------------------------------------------------------------------------------------

  datatype Tracker = Tracker(ledger: Ledger, now: int, alertedAt: int, alerts: nat)

  datatype Event =
    | Record(tokens: int, latencyMs: int)
    | Wait(ms: nat)
    | Persist(nowUnix: int)

  function Recorded(l: Ledger, tokens: int, latencyMs: int): Ledger {
    l.(childCalls := l.childCalls + 1, estTokens := l.estTokens + NotNegative(tokens),
       toolLatencyMs := l.toolLatencyMs + NotNegative(latencyMs))
  }

  function Do(t: Tracker, limits: Limits, e: Event): Tracker {
    match e
    case Record(tokens, latencyMs) => t.(ledger := Recorded(t.ledger, tokens, latencyMs))
    case Wait(ms) => t.(now := t.now + ms)
    case Persist(nowUnix) =>
      if Check(t.ledger, limits, t.now) != Fine && t.alertedAt == 0
      then t.(alertedAt := nowUnix, alerts := t.alerts + 1)
      else t
  }

  function Run(t: Tracker, limits: Limits, es: seq<Event>): Tracker
    decreases es
  {
    if es == [] then t else Run(Do(t, limits, es[0]), limits, es[1..])
  }

  /** The tracker: its ledger grows in place, and its stamp is set once. */
  class BudgetTracker {
    const limits: Limits
    var ledger: Ledger
    var alertedAt: int
    var alerts: nat

    constructor (limits: Limits, nowMs: int)
      ensures this.limits == limits && ledger == Ledger(nowMs, 0, 0, 0) && alertedAt == 0 && alerts == 0
    {
      this.limits := limits;
      ledger, alertedAt, alerts := Ledger(nowMs, 0, 0, 0), 0, 0;
    }

    ghost function At(now: int): Tracker
      reads this
    {
      Tracker(ledger, now, alertedAt, alerts)
    }

    method RecordCall(tokens: int, latencyMs: int, ghost now: int)
      modifies this
      ensures At(now) == Do(old(At(now)), limits, Record(tokens, latencyMs))
    {
      ledger := ledger.(childCalls := ledger.childCalls + 1);
      ledger := ledger.(estTokens := ledger.estTokens + NotNegative(tokens));
      ledger := ledger.(toolLatencyMs := ledger.toolLatencyMs + NotNegative(latencyMs));
    }

    method PersistRun(now: int, nowUnix: int)
      modifies this
      ensures At(now) == Do(old(At(now)), limits, Persist(nowUnix))
    {
      var verdict := Check(ledger, limits, now);
      var justAlerted := false;
      if verdict.Alert? || verdict.Exceeded? {
        if alertedAt == 0 {
          alertedAt := nowUnix;
          justAlerted := true;
        }
      }
      if justAlerted {
        alerts := alerts + 1;
      }
    }
  }

  predicate Clocked(es: seq<Event>) {
    forall i | 0 <= i < |es| && es[i].Persist? :: es[i].nowUnix > 0
  }

  /** The stamp and the count of alerts agree. */
  predicate Stamped(t: Tracker) {
    Sane(t.ledger) && t.alertedAt >= 0 && t.alerts == (if t.alertedAt > 0 then 1 else 0)
  }

  /** Over any run the verdict never gets milder. */
  lemma {:induction false} NeverMilder(t: Tracker, limits: Limits, es: seq<Event>)
    requires Sane(t.ledger)
    ensures Sane(Run(t, limits, es).ledger)
    ensures var u := Run(t, limits, es);
      AtLeast(u.ledger, u.now, t.ledger, t.now)
      && Rank(Check(t.ledger, limits, t.now)) <= Rank(Check(u.ledger, limits, u.now))
    decreases es
  {
    var u := Run(t, limits, es);
    if es != [] {
      var m := Do(t, limits, es[0]);
      assert AtLeast(m.ledger, m.now, t.ledger, t.now);
      NeverMilder(m, limits, es[1..]);
      assert forall d: Dimension :: Used(t.ledger, d, t.now) <= Used(m.ledger, d, m.now) <= Used(u.ledger, d, u.now);
    }
    MoreUsedNotMilder(u.ledger, u.now, t.ledger, t.now, limits);
  }

  /** What the records of some events come to: how many there are, and the positive parts of
      what each says. */
  function Calls(es: seq<Event>): nat {
    if es == [] then 0 else (if es[0].Record? then 1 else 0) + Calls(es[1..])
  }

  function Tokens(es: seq<Event>): nat {
    if es == [] then 0 else (if es[0].Record? && es[0].tokens > 0 then es[0].tokens else 0) + Tokens(es[1..])
  }

  function Latency(es: seq<Event>): nat {
    if es == [] then 0 else (if es[0].Record? && es[0].latencyMs > 0 then es[0].latencyMs else 0) + Latency(es[1..])
  }

  function Waited(es: seq<Event>): nat {
    if es == [] then 0 else (if es[0].Wait? then es[0].ms else 0) + Waited(es[1..])
  }

  /** Over any run each dimension has used what it had and what the run's events add to it. */
  lemma {:induction false} LedgerAddsUp(t: Tracker, limits: Limits, es: seq<Event>)
    ensures
      var u := Run(t, limits, es);
      && Used(u.ledger, ChildCalls, u.now) == Used(t.ledger, ChildCalls, t.now) + Calls(es)
      && Used(u.ledger, EstTokens, u.now) == Used(t.ledger, EstTokens, t.now) + Tokens(es)
      && Used(u.ledger, ToolLatencyMs, u.now) == Used(t.ledger, ToolLatencyMs, t.now) + Latency(es)
      && u.now == t.now + Waited(es) && u.ledger.startedMs == t.ledger.startedMs
    decreases es
  {
    if es != [] {
      LedgerAddsUp(Do(t, limits, es[0]), limits, es[1..]);
    }
  }

  /** Some persist of the run found the budget at its alert or beyond. */
  predicate SeenOver(t: Tracker, limits: Limits, es: seq<Event>)
    decreases es
  {
    es != [] &&
    ((es[0].Persist? && Check(t.ledger, limits, t.now) != Fine) || SeenOver(Do(t, limits, es[0]), limits, es[1..]))
  }

  /** A run raises its alert once if any persist saw it over, and otherwise never. */
  lemma {:induction false} OneAlert(t: Tracker, limits: Limits, es: seq<Event>)
    requires Stamped(t) && Clocked(es)
    ensures Stamped(Run(t, limits, es))
    ensures Run(t, limits, es).alerts == (if t.alerts == 1 || SeenOver(t, limits, es) then 1 else 0)
    decreases es
  {
    if es != [] {
      assert Stamped(Do(t, limits, es[0]));
      OneAlert(Do(t, limits, es[0]), limits, es[1..]);
    }
  }
}
