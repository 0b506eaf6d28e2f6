/**
 Error categories and the retry decision table of internal/producer/errors.go, with the types
 and severities of internal/models/error.go. Regular expressions are left uninterpreted: an
 engine says which patterns compile and which messages a pattern matches.
 */
module ErrorCategories {

  datatype ErrorType =
    | Network | Timeout | Broker | Authentication | Authorization | Validation
    | Configuration | Serialization | Unknown | Custom | OtherType(name: string)

  datatype Severity = Low | Medium | High | Critical | OtherSeverity(name: string)

  datatype Strategy = NoStrategy | Immediate | Fixed | Linear | Exponential | OtherStrategy(name: string)

  datatype Rule = Rule(pattern: string, errorType: ErrorType, severity: Severity, retryable: bool)

  datatype Info = Info(errorType: ErrorType, severity: Severity, retryable: bool)

  datatype Engine = Engine(compiles: string -> bool, matches: (string, string) -> bool)

  // ---------- the decision table ----------

  predicate IsRetryable(errorType: ErrorType, severity: Severity) {
    match errorType
    case Authentication | Authorization | Validation | Configuration | Serialization => false
    case Network | Timeout | Broker => true
    case _ => severity != Critical
  }

  function GetRetryStrategy(errorType: ErrorType, severity: Severity): Strategy {
    if !IsRetryable(errorType, severity) then NoStrategy
    else
      match errorType
      case Network => if severity == Low then Immediate else Linear
      case Timeout => Exponential
      case Broker => if severity == High then Exponential else Linear
      case _ => Linear
  }

  // Faults of the message, the configuration or the credentials are never retried, those of the
  // network, the broker and time always, and all others unless they are critical.
  lemma RetryableIff(errorType: ErrorType, severity: Severity)
    ensures IsRetryable(errorType, severity) <==>
            && errorType !in {Authentication, Authorization, Validation, Configuration, Serialization}
            && (errorType in {Network, Timeout, Broker} || severity != Critical)
  {
  }

  // The table names no strategy exactly for what it does not retry, so the coordinator's
  // fallback to the policy's strategy never decides a wait. It never names a fixed one.
  lemma StrategyFollowsTable(errorType: ErrorType, severity: Severity)
    ensures
      var strategy := GetRetryStrategy(errorType, severity);
      && (strategy == NoStrategy <==> !IsRetryable(errorType, severity))
      && (strategy == Immediate <==> errorType == Network && severity == Low)
      && (strategy == Exponential <==> errorType == Timeout || (errorType == Broker && severity == High))
      && strategy in {NoStrategy, Immediate, Exponential, Linear}
  {
  }

  // ---------- first match ----------

  function Default(): Info { Info(Unknown, Medium, true) }

  function InfoOf(r: Rule): Info { Info(r.errorType, r.severity, r.retryable) }

  // The rules that match, in order.
  function Matching(engine: Engine, rules: seq<Rule>, message: string): seq<Rule> {
    if rules == [] then []
    else
      var last := rules[|rules| - 1];
      Matching(engine, rules[..|rules| - 1], message) + (if engine.matches(last.pattern, message) then [last] else [])
  }

  lemma MatchingOne(engine: Engine, rule: Rule, message: string)
    ensures Matching(engine, [rule], message) == if engine.matches(rule.pattern, message) then [rule] else []
  {
    assert [rule][..0] == [];
  }

  // Matching is decided rule by rule and keeps the order.
  lemma {:induction false} MatchingConcat(engine: Engine, rules: seq<Rule>, more: seq<Rule>, message: string)
    ensures Matching(engine, rules + more, message) ==
            Matching(engine, rules, message) + Matching(engine, more, message)
  {
    if more == [] {
      assert rules + more == rules;
    } else {
      var init, last := more[..|more| - 1], more[|more| - 1];
      MatchingConcat(engine, rules, init, message);
      assert (rules + more)[..|rules + more| - 1] == rules + init;
    }
  }

  // Rule i is the first to match.
  predicate FirstMatch(engine: Engine, rules: seq<Rule>, message: string, i: nat) {
    && i < |rules| && engine.matches(rules[i].pattern, message)
    && forall j | 0 <= j < i :: !engine.matches(rules[j].pattern, message)
  }

  lemma {:induction false} MatchingKeeps(engine: Engine, rules: seq<Rule>, message: string, i: nat)
    requires i <= |rules|
    ensures Matching(engine, rules[..i], message) <= Matching(engine, rules, message)
    decreases |rules|
  {
    if i == |rules| {
      assert rules[..i] == rules;
    } else {
      var init := rules[..|rules| - 1];
      MatchingKeeps(engine, init, message, i);
      assert init[..i] == rules[..i];
    }
  }

  class ErrorCategorizer {
    const engine: Engine
    var rules: seq<Rule>
    var compiledRules: seq<Rule>

    ghost predicate Valid()
      reads this
    {
      compiledRules == rules && forall r | r in rules :: engine.compiles(r.pattern)
    }

    constructor (engine: Engine)
      ensures Valid() && this.engine == engine && rules == []
    {
      this.engine, rules, compiledRules := engine, [], [];
    }

    // A rule whose pattern does not compile is skipped silently.
    method AddRule(rule: Rule)
      requires Valid()
      modifies this
      ensures Valid()
      ensures rules == if engine.compiles(rule.pattern) then old(rules) + [rule] else old(rules)
    {
      if !engine.compiles(rule.pattern) {
        return;
      }
      rules := rules + [rule];
      compiledRules := compiledRules + [rule];
    }

    method ClearRules()
      modifies this
      ensures Valid() && rules == []
    {
      rules, compiledRules := [], [];
    }

    // The earliest matching rule decides, and an error no rule matches is Unknown.
    method CategorizeError(message: string) returns (info: Info)
      requires Valid()
      ensures info == var ms := Matching(engine, rules, message); if ms == [] then Default() else InfoOf(ms[0])
      ensures (forall r | r in rules :: !engine.matches(r.pattern, message)) ==> info == Info(Unknown, Medium, true)
      ensures (exists r | r in rules :: engine.matches(r.pattern, message)) ==>
                exists i: nat :: FirstMatch(engine, rules, message, i) &&
                                 info == Info(rules[i].errorType, rules[i].severity, rules[i].retryable)
    {
      for i := 0 to |compiledRules|
        invariant Matching(engine, compiledRules[..i], message) == []
        invariant forall j | 0 <= j < i :: !engine.matches(rules[j].pattern, message)
      {
        assert compiledRules[..i + 1][..i] == compiledRules[..i];
        if engine.matches(compiledRules[i].pattern, message) {
          MatchingKeeps(engine, rules, message, i + 1);
          assert FirstMatch(engine, rules, message, i);
          return InfoOf(compiledRules[i]);
        }
      }
      assert compiledRules[..|compiledRules|] == rules;
      info := Default();
    }

    method MatchingRules(message: string) returns (matches: seq<Rule>)
      requires Valid()
      ensures matches == Matching(engine, rules, message)
    {
      matches := [];
      for i := 0 to |compiledRules|
        invariant matches == Matching(engine, compiledRules[..i], message)
      {
        assert compiledRules[..i + 1][..i] == compiledRules[..i];
        if engine.matches(compiledRules[i].pattern, message) {
          matches := matches + [compiledRules[i]];
        }
      }
      assert compiledRules[..|compiledRules|] == rules;
    }
  }

  // A rule's own retryable flag is only reported; the coordinator asks the table. Whatever the
  // messages and the order of the rules, the two never disagree if each rule is consistent.
  lemma {:induction false} FlagAgreesWithTable(engine: Engine, rules: seq<Rule>, message: string)
    requires forall r | r in rules :: r.retryable == IsRetryable(r.errorType, r.severity)
    ensures
      var ms := Matching(engine, rules, message);
      var info := if ms == [] then Default() else InfoOf(ms[0]);
      info.retryable == IsRetryable(info.errorType, info.severity)
  {
    MatchingSubset(engine, rules, message);
  }

  lemma {:induction false} MatchingSubset(engine: Engine, rules: seq<Rule>, message: string)
    ensures forall r | r in Matching(engine, rules, message) :: r in rules && engine.matches(r.pattern, message)
  {
    if rules != [] {
      MatchingSubset(engine, rules[..|rules| - 1], message);
    }
  }
}
