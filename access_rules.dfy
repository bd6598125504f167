/**
  The zero-trust policy rule engine (zero_trust_control/access_rules.py): an ordered list of
  named rules, each a condition over the request context with an action and a priority. The
  engine keeps its rules stably sorted by priority and answers with the first rule whose
  condition holds, or with default-deny.

  The source's predicate closures are modelled as a small variant of condition kinds, one per
  predicate builder, plus `Raises` for a predicate that throws. The UTC hour that
  `time_of_day_allowed` reads from the clock is a parameter.
*/
module AccessRules {
  import opened Common
  import opened StableSort

  datatype Action = Allow | Deny | Challenge | Quarantine

  datatype Condition =
    | ScoreAtLeast(threshold: real)             // trust_score_above(threshold)
    | ScoreBelow(threshold: real)               // the block_low_trust lambda
    | AdminOnInternal                           // always_allow_admin_network
    | HourWindow(startHour: int, endHour: int)  // time_of_day_allowed(start_h, end_h)
    | Raises                                    // a predicate that throws when called

  datatype PolicyRule = PolicyRule(name: string, condition: Condition, action: Action, priority: int)

  /**
    The keys of the request context the predicates read: `trust_score`, `score`,
    `user_assertion.user_role`, `geo.is_internal` and `time_zone_offset`. `evaluate_request`
    tells a missing `trust_score` or `score` key from one that holds None, so those two are
    `Slot`s: None when the key is missing, Some(None) when it holds None.
  */
  datatype PolicyContext = PolicyContext(
    trustScore: Slot<real>,
    score: Slot<real>,
    userRole: Option<string>,
    isInternal: bool,
    timeZoneOffset: int)

  /** What calling a predicate produces: a truth value, or an exception. */
  datatype Outcome = Value(holds: bool) | Raised

  datatype Decision = Decision(action: Action, rule: string)

  const DefaultDeny := Decision(Deny, "default-deny")

  /** The resource dictionary, passed through untouched. */
  type Resource = map<string, string>

  datatype RequestDecision = RequestDecision(action: Action, rule: string, contextScore: Option<real>, resource: Resource)

  /** Python truthiness of an optional number: missing and zero are both falsy. */
  predicate Truthy(x: Option<real>) {
    x.Some? && x.value != 0.0
  }

  /** A dictionary entry: missing (None), or present with a value that may itself be None. */
  type Slot<T> = Option<Option<T>>

  /** `d.get(key)`: None both for a missing key and for a key holding None. */
  function Get<T>(slot: Slot<T>): Option<T> {
    match slot
    case None => None
    case Some(v) => v
  }

  /** `context.get("trust_score") or context.get("score") or 0.0` */
  function EffectiveScore(c: PolicyContext): (s: real)
    ensures Truthy(Get(c.trustScore)) ==> s == Get(c.trustScore).value
    ensures !Truthy(Get(c.trustScore)) && Truthy(Get(c.score)) ==> s == Get(c.score).value
    ensures !Truthy(Get(c.trustScore)) && !Truthy(Get(c.score)) ==> s == 0.0
  {
    if Truthy(Get(c.trustScore)) then Get(c.trustScore).value
    else if Truthy(Get(c.score)) then Get(c.score).value
    else 0.0
  }

  /**
    `(utc_hour + offset) % 24`. Python's `%` floors, which for the positive divisor 24 agrees
    with Dafny's Euclidean `%`: the hour is always in [0, 24), even for negative offsets.
  */
  function LocalHour(c: PolicyContext, utcHour: int): (h: int)
    ensures 0 <= h < 24
    ensures (utcHour + c.timeZoneOffset - h) % 24 == 0
  {
    (utcHour + c.timeZoneOffset) % 24
  }

  /** Calls a rule's predicate. */
  function Eval(cond: Condition, c: PolicyContext, utcHour: int): Outcome {
    match cond
    case ScoreAtLeast(t) => Value(EffectiveScore(c) >= t)
    case ScoreBelow(t) => Value(EffectiveScore(c) < t)
    case AdminOnInternal => Value(c.userRole == Some("admin") && c.isInternal)
    case HourWindow(startHour, endHour) => Value(startHour <= LocalHour(c, utcHour) < endHour)
    case Raises => Raised
  }

  /** `Rule.applies`: the predicate's truth value, where an exception counts as "does not apply". */
  predicate Applies(r: PolicyRule, c: PolicyContext, utcHour: int)
    ensures Applies(r, c, utcHour) ==> !r.condition.Raises?
  {
    match Eval(r.condition, c, utcHour)
    case Value(b) => b
    case Raised => false
  }

  /** The index of the first rule, in list order, that applies; None when none does. */
  function FirstApplying(rules: seq<PolicyRule>, c: PolicyContext, utcHour: int): (r: Option<nat>)
    ensures r.Some? ==> r.value < |rules| && Applies(rules[r.value], c, utcHour)
    ensures r.Some? ==> forall j | 0 <= j < r.value :: !Applies(rules[j], c, utcHour)
    ensures r.None? ==> forall j | 0 <= j < |rules| :: !Applies(rules[j], c, utcHour)
  {
    if rules == [] then None
    else if Applies(rules[0], c, utcHour) then Some(0)
    else match FirstApplying(rules[1..], c, utcHour)
      case None => None
      case Some(i) => Some(i + 1)
  }

  /** The decision `evaluate` returns for a given first match. */
  function DecisionOf(rules: seq<PolicyRule>, first: Option<nat>): Decision
    requires first.Some? ==> first.value < |rules|
  {
    match first
    case None => DefaultDeny
    case Some(i) => Decision(rules[i].action, rules[i].name)
  }

  function Priority(r: PolicyRule): int {
    r.priority
  }

  class RuleEngine {
    var rules: seq<PolicyRule>

    /** The rules are always ordered by priority (lower number first). */
    ghost predicate Valid()
      reads this
    {
      SortedBy(rules, Priority)
    }

    constructor()
      ensures Valid() && rules == []
    {
      rules := [];
    }

    /**
      `add_rule`: append, then stable-sort by priority. The result is ordered by priority and,
      priority by priority, keeps the rules in insertion order with the new rule last; on the
      already-sorted list this places the new rule behind every rule of equal or lower number.
    */
    method AddRule(r: PolicyRule)
      requires Valid()
      modifies this
      ensures Valid()
      ensures multiset(rules) == multiset(old(rules)) + multiset{r}
      ensures forall k :: WithKey(rules, Priority, k) == WithKey(old(rules) + [r], Priority, k)
      ensures rules == Insert(old(rules), r, Priority)
    {
      var appended := rules + [r];
      SortSorted(appended, Priority);
      forall k {
        SortStable(appended, Priority, k);
      }
      SortOfSortedAppend(rules, r, Priority);
      rules := Sort(appended, Priority);
    }

    /** `evaluate`: the first applying rule's action and name, or default-deny. */
    method Evaluate(c: PolicyContext, utcHour: int) returns (d: Decision)
      ensures d == DecisionOf(rules, FirstApplying(rules, c, utcHour))
      ensures (forall j | 0 <= j < |rules| :: !Applies(rules[j], c, utcHour)) ==> d == DefaultDeny
    {
      var i := 0;
      while i < |rules|
        invariant 0 <= i <= |rules|
        invariant forall j | 0 <= j < i :: !Applies(rules[j], c, utcHour)
      {
        if Applies(rules[i], c, utcHour) {
          FirstApplyingIs(rules, c, utcHour, i);
          return Decision(rules[i].action, rules[i].name);
        }
        i := i + 1;
      }
      return DefaultDeny;
    }
  }

  /** FirstApplying is determined by its contract. */
  lemma {:induction false} FirstApplyingIs(rules: seq<PolicyRule>, c: PolicyContext, utcHour: int, i: nat)
    requires i < |rules| && Applies(rules[i], c, utcHour)
    requires forall j | 0 <= j < i :: !Applies(rules[j], c, utcHour)
    ensures FirstApplying(rules, c, utcHour) == Some(i)
  {
    if i > 0 {
      FirstApplyingIs(rules[1..], c, utcHour, i - 1);
    }
  }

  /**
    In a priority-sorted engine the rule that decides has the lowest priority number among all
    rules that apply: a matching rule with a lower number wins whatever the insertion order.
  */
  lemma {:induction false} FirstApplyingHasLowestPriority(rules: seq<PolicyRule>, c: PolicyContext, utcHour: int, j: nat)
    requires SortedBy(rules, Priority)
    requires j < |rules| && Applies(rules[j], c, utcHour)
    ensures FirstApplying(rules, c, utcHour).Some?
    ensures rules[FirstApplying(rules, c, utcHour).value].priority <= rules[j].priority
  {
  }

  /** A rule whose predicate raises never applies, so it can neither match nor abort evaluation. */
  lemma {:induction false} RaisingRuleSkipped(rules: seq<PolicyRule>, c: PolicyContext, utcHour: int, i: nat)
    requires i < |rules| && rules[i].condition == Raises
    ensures FirstApplying(rules, c, utcHour) != Some(i)
  {
  }

  // ---- the predicate builders and the default engine ----------------------

  /**
    `trust_score_above(t)` holds iff the effective score reaches `t`; a zero `trust_score` is
    falsy and falls through to `score`.
  */
  lemma {:induction false} ScoreAtLeastFallsThrough(c: PolicyContext, t: real, utcHour: int)
    requires c.trustScore == Some(Some(0.0)) && Get(c.score).Some?
    ensures Eval(ScoreAtLeast(t), c, utcHour) == Value(Get(c.score).value >= t)
  {
  }

  /** An hour window whose start is not before its end never holds; [0, 24) always holds. */
  lemma {:induction false} HourWindowBounds(c: PolicyContext, utcHour: int, startHour: int, endHour: int)
    ensures endHour <= startHour ==> Eval(HourWindow(startHour, endHour), c, utcHour) == Value(false)
    ensures Eval(HourWindow(0, 24), c, utcHour) == Value(true)
  {
  }

  const BlockLowTrust := PolicyRule("block_low_trust", ScoreBelow(0.3), Deny, 10)
  const AdminInternal := PolicyRule("admin_internal", AdminOnInternal, Allow, 15)
  const AllowHighTrust := PolicyRule("allow_high_trust", ScoreAtLeast(0.8), Allow, 20)
  const WorkingHoursAllow := PolicyRule("working_hours_allow", HourWindow(7, 20), Allow, 50)

  /** The rules of `default_rule_engine`, in the order the engine keeps them. */
  const DefaultRules := [BlockLowTrust, AdminInternal, AllowHighTrust, WorkingHoursAllow]

  /**
    `default_rule_engine`: the four example rules, added in the source's order
    (10, 20, 50, 15) and therefore kept as 10, 15, 20, 50.
  */
  method DefaultRuleEngine() returns (e: RuleEngine)
    ensures fresh(e) && e.Valid()
    ensures e.rules == DefaultRules
  {
    DefaultFirstThree();
    DefaultLast();
    e := new RuleEngine();
    e.AddRule(BlockLowTrust);
    e.AddRule(AllowHighTrust);
    e.AddRule(WorkingHoursAllow);
    e.AddRule(AdminInternal);
  }

  /** The first three rules arrive in priority order and are appended in turn. */
  lemma {:induction false} DefaultFirstThree()
    ensures Insert(Insert(Insert([], BlockLowTrust, Priority), AllowHighTrust, Priority), WorkingHoursAllow, Priority)
            == [BlockLowTrust, AllowHighTrust, WorkingHoursAllow]
  {
    var one := [BlockLowTrust];
    assert Insert([], BlockLowTrust, Priority) == one;
    var two := one + [AllowHighTrust];
    InsertLast(one, AllowHighTrust, Priority);
    InsertLast(two, WorkingHoursAllow, Priority);
    assert two + [WorkingHoursAllow] == [BlockLowTrust, AllowHighTrust, WorkingHoursAllow];
  }

  /** admin_internal (15) is inserted between block_low_trust (10) and allow_high_trust (20). */
  lemma {:induction false} DefaultLast()
    ensures Insert([BlockLowTrust, AllowHighTrust, WorkingHoursAllow], AdminInternal, Priority) == DefaultRules
  {
    var rest := [AllowHighTrust, WorkingHoursAllow];
    assert [BlockLowTrust, AllowHighTrust, WorkingHoursAllow] == [BlockLowTrust] + rest;
    InsertBehind(BlockLowTrust, rest, AdminInternal, Priority);
    assert Insert(rest, AdminInternal, Priority) == [AdminInternal] + rest;
    assert [BlockLowTrust] + ([AdminInternal] + rest) == DefaultRules;
  }

  /** Under the default rules any context scoring below 0.3 is denied by block_low_trust. */
  lemma {:induction false} LowTrustDeniedByDefault(c: PolicyContext, utcHour: int)
    requires EffectiveScore(c) < 0.3
    ensures DecisionOf(DefaultRules, FirstApplying(DefaultRules, c, utcHour)) == Decision(Deny, "block_low_trust")
  {
  }

  /** Under the default rules an admin on the internal network with a middling score is allowed by admin_internal. */
  lemma {:induction false} AdminInternalAllowedByDefault(c: PolicyContext, utcHour: int)
    requires 0.3 <= EffectiveScore(c) && c.userRole == Some("admin") && c.isInternal
    ensures DecisionOf(DefaultRules, FirstApplying(DefaultRules, c, utcHour)) == Decision(Allow, "admin_internal")
  {
  }

  // ---- evaluate_request ---------------------------------------------------

  /**
    Copies the `score` entry into `trust_score` when the `trust_score` key is missing and the
    `score` key is present, whatever they hold; a `trust_score` key holding None is kept.
  */
  function Normalize(c: PolicyContext): (n: PolicyContext)
    ensures n.trustScore == (if c.trustScore.None? then c.score else c.trustScore)
    ensures n.(trustScore := c.trustScore) == c
  {
    if c.trustScore.None? && c.score.Some? then c.(trustScore := c.score) else c
  }

  /** Normalizing never changes which rule applies. */
  lemma {:induction false} NormalizeKeepsFirstMatch(rules: seq<PolicyRule>, c: PolicyContext, utcHour: int)
    ensures FirstApplying(rules, Normalize(c), utcHour) == FirstApplying(rules, c, utcHour)
  {
    if rules != [] {
      NormalizeKeepsApplies(rules[0], c, utcHour);
      NormalizeKeepsFirstMatch(rules[1..], c, utcHour);
    }
  }

  /** Normalizing changes neither the effective score nor anything else a condition reads. */
  lemma {:induction false} NormalizeKeepsApplies(r: PolicyRule, c: PolicyContext, utcHour: int)
    ensures Applies(r, Normalize(c), utcHour) == Applies(r, c, utcHour)
  {
    var n := Normalize(c);
    assert EffectiveScore(n) == EffectiveScore(c);
    assert LocalHour(n, utcHour) == LocalHour(c, utcHour);
    assert n.userRole == c.userRole && n.isInternal == c.isInternal;
  }

  /** `context.get("trust_score", 0.0)`: 0.0 only for a missing key; a key holding None gives None. */
  function ContextScore(c: PolicyContext): Option<real> {
    match c.trustScore
    case None => Some(0.0)
    case Some(v) => v
  }

  /**
    The reported score in terms of the caller's context: its `trust_score` entry if that key is
    present (even when it holds None), else its `score` entry if present, else 0.0.
  */
  lemma {:induction false} ReportedScore(c: PolicyContext)
    ensures c.trustScore.Some? ==> ContextScore(Normalize(c)) == c.trustScore.value
    ensures c.trustScore.None? && c.score.Some? ==> ContextScore(Normalize(c)) == c.score.value
    ensures c.trustScore.None? && c.score.None? ==> ContextScore(Normalize(c)) == Some(0.0)
  {
  }

  /** A `trust_score` key holding None is reported as None even when `score` holds a number. */
  lemma {:induction false} NoneTrustScoreReported(c: PolicyContext)
    requires c.trustScore == Some(None)
    ensures Normalize(c) == c && ContextScore(Normalize(c)).None?
  {
  }

  /**
    `evaluate_request`: normalizes the context in place (returned here as `normalized`),
    evaluates it on the given engine or on a fresh default engine, and attaches the
    context score (`trust_score`, default 0.0) and the resource.
  */
  method EvaluateRequest(c: PolicyContext, resource: Resource, engine: RuleEngine?, utcHour: int)
    returns (d: RequestDecision, normalized: PolicyContext)
    ensures normalized == Normalize(c)
    ensures var rules := if engine != null then engine.rules else DefaultRules;
            Decision(d.action, d.rule) == DecisionOf(rules, FirstApplying(rules, c, utcHour))
    ensures d.contextScore == ContextScore(normalized)
    ensures d.resource == resource
  {
    var e := engine;
    if e == null {
      e := DefaultRuleEngine();
    }
    normalized := Normalize(c);
    var decision := e.Evaluate(normalized, utcHour);
    NormalizeKeepsFirstMatch(e.rules, c, utcHour);
    d := RequestDecision(decision.action, decision.rule, ContextScore(normalized), resource);
  }
}
