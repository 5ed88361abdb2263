/** The scheduler: a table of rules, each with a schedule and the targets it
    fires, behind the five operations the handlers call. */
module CloudwatchEvents {
  import opened Wrappers
  import opened Json
  import opened Errors

  const RulePrefix := "invoiceless-recurring-"
  const EnabledState := "ENABLED"
  const RuleDescription := "Recurring Invoices for Client"

  /** rule_name_formatter. */
  function RuleName(name: string): (r: string)
    ensures RulePrefix <= r && |r| == |RulePrefix| + |name|
  {
    RulePrefix + name
  }

  /** Different clients get different rule names. */
  lemma RuleNameInjective(a: string, b: string)
    ensures RuleName(a) == RuleName(b) ==> a == b
  {
    if RuleName(a) == RuleName(b) {
      assert a == RuleName(a)[|RulePrefix|..];
      assert b == RuleName(b)[|RulePrefix|..];
    }
  }

  /** A rule: its schedule expression, state, description, and its targets
      as target id to the input text the target is fired with. */
  datatype Rule = Rule(schedule: string, state: string, description: string, targets: map<string, string>)

  type Rules = map<string, Rule>

  /** The scheduler operations, in the order they are issued. */
  datatype Call =
    | ListRules(namePrefix: string)
    | PutRule(name: string, schedule: string)
    | PutTargets(rule: string, id: string)
    | RemoveTargets(rule: string, id: string)
    | DeleteRule(name: string)

  /** list_rules(NamePrefix=prefix): the names of the rules that start with
      the prefix. */
  function MatchingRules(rules: Rules, prefix: string): (names: set<string>)
    ensures forall n :: n in names <==> n in rules && prefix <= n
  {
    set n | n in rules && prefix <= n
  }

  class EventsClient {
    var rules: Rules
    var calls: seq<Call>

    constructor()
      ensures rules == map[] && calls == []
    {
      rules := map[];
      calls := [];
    }

    method ListRules(namePrefix: string) returns (names: set<string>)
      modifies this
      ensures names == MatchingRules(old(rules), namePrefix)
      ensures rules == old(rules) && calls == old(calls) + [Call.ListRules(namePrefix)]
    {
      names := MatchingRules(rules, namePrefix);
      calls := calls + [Call.ListRules(namePrefix)];
    }

    /** Creates the rule, or updates an existing one and keeps its targets. */
    method PutRule(name: string, schedule: string, state: string, description: string)
      modifies this
      ensures rules == old(rules)[name := Rule(schedule, state, description,
                                               if name in old(rules) then old(rules)[name].targets else map[])]
      ensures calls == old(calls) + [Call.PutRule(name, schedule)]
    {
      var targets := if name in rules then rules[name].targets else map[];
      rules := rules[name := Rule(schedule, state, description, targets)];
      calls := calls + [Call.PutRule(name, schedule)];
    }

    /** Adds the target, or replaces the one with the same id; the rule must exist. */
    method PutTargets(rule: string, id: string, input: string) returns (o: Outcome<AwsError>)
      modifies this
      ensures rule !in old(rules) ==> o == Fail(ResourceNotFound(rule)) && rules == old(rules)
      ensures rule in old(rules) ==>
        o == Pass && rules == old(rules)[rule := old(rules)[rule].(targets := old(rules)[rule].targets[id := input])]
      ensures calls == old(calls) + [Call.PutTargets(rule, id)]
    {
      calls := calls + [Call.PutTargets(rule, id)];
      if rule !in rules {
        return Fail(ResourceNotFound(rule));
      }
      rules := rules[rule := rules[rule].(targets := rules[rule].targets[id := input])];
      return Pass;
    }

    /** Removes the target; the rule and the target must exist. */
    method RemoveTargets(rule: string, id: string) returns (o: Outcome<AwsError>)
      modifies this
      ensures rule !in old(rules) ==> o == Fail(ResourceNotFound(rule)) && rules == old(rules)
      ensures rule in old(rules) && id !in old(rules)[rule].targets ==>
        o == Fail(ResourceNotFound(id)) && rules == old(rules)
      ensures rule in old(rules) && id in old(rules)[rule].targets ==>
        o == Pass && rules == old(rules)[rule := old(rules)[rule].(targets := old(rules)[rule].targets - {id})]
      ensures calls == old(calls) + [Call.RemoveTargets(rule, id)]
    {
      calls := calls + [Call.RemoveTargets(rule, id)];
      if rule !in rules {
        return Fail(ResourceNotFound(rule));
      }
      if id !in rules[rule].targets {
        return Fail(ResourceNotFound(id));
      }
      rules := rules[rule := rules[rule].(targets := rules[rule].targets - {id})];
      return Pass;
    }

    /** Deletes the rule; it must exist and have no targets left. */
    method DeleteRule(name: string) returns (o: Outcome<AwsError>)
      modifies this
      ensures name !in old(rules) ==> o == Fail(ResourceNotFound(name)) && rules == old(rules)
      ensures name in old(rules) && old(rules)[name].targets != map[] ==>
        o == Fail(RuleHasTargets(name)) && rules == old(rules)
      ensures name in old(rules) && old(rules)[name].targets == map[] ==>
        o == Pass && rules == old(rules) - {name}
      ensures calls == old(calls) + [Call.DeleteRule(name)]
    {
      calls := calls + [Call.DeleteRule(name)];
      if name !in rules {
        return Fail(ResourceNotFound(name));
      }
      if rules[name].targets != map[] {
        return Fail(RuleHasTargets(name));
      }
      rules := rules - {name};
      return Pass;
    }
  }

  // ---------------------------------------------------------------------
  // What each of the four functions does to the table
  // ---------------------------------------------------------------------

  /** The outcome of one function, the table after it, and the calls it
      issued. */
  datatype Step = Step(outcome: Outcome<Error>, rules: Rules, calls: seq<Call>)

  predicate HasRuleWithPrefix(rules: Rules, prefix: string)
  {
    exists n :: n in rules && prefix <= n
  }

  /** put_cloudwatch_rule: refuses when any rule name starts with the
      client's rule name; otherwise adds exactly that rule, enabled and
      without targets, and changes no other. */
  function PutRuleStep(rules: Rules, name: string, schedule: string): (s: Step)
    ensures s.outcome.Pass? <==> !HasRuleWithPrefix(rules, RuleName(name))
    ensures s.outcome.Fail? ==>
      s.outcome.error == DuplicateSchedule && s.rules == rules && s.calls == [ListRules(RuleName(name))]
    ensures s.outcome.Pass? ==>
      && RuleName(name) !in rules
      && s.rules.Keys == rules.Keys + {RuleName(name)}
      && s.rules[RuleName(name)] == Rule(schedule, EnabledState, RuleDescription, map[])
      && (forall n :: n in rules ==> s.rules[n] == rules[n])
      && s.calls == [ListRules(RuleName(name)), PutRule(RuleName(name), schedule)]
  {
    var ruleName := RuleName(name);
    if MatchingRules(rules, ruleName) != {} then
      Step(Fail(DuplicateSchedule), rules, [ListRules(ruleName)])
    else
      Step(Pass, rules[ruleName := Rule(schedule, EnabledState, RuleDescription, map[])],
           [ListRules(ruleName), PutRule(ruleName, schedule)])
  }

  /** The input object of the target: a POST to /invoices with the body. */
  function TargetInput(body: string): (r: Json)
    ensures r.Object? && "pathParameters" !in r.fields
    ensures Get(r.fields, "body") == Str(body)
    ensures Get(r.fields, "path") == Str("/invoices") && Get(r.fields, "httpMethod") == Str("POST")
  {
    Object(map["path" := Str("/invoices"), "httpMethod" := Str("POST"), "body" := Str(body)])
  }

  /** put_cloudwatch_target: one target, whose id is the rule name, fired
      with the serialised input object. */
  function PutTargetStep(rules: Rules, codec: Codec, name: string, body: string): (s: Step)
    ensures s.calls == [PutTargets(RuleName(name), RuleName(name))]
    ensures s.outcome.Pass? <==> RuleName(name) in rules
    ensures s.outcome.Fail? ==> s.outcome.error == Aws(ResourceNotFound(RuleName(name))) && s.rules == rules
    ensures s.outcome.Pass? ==>
      && s.rules.Keys == rules.Keys
      && (forall n :: n in rules && n != RuleName(name) ==> s.rules[n] == rules[n])
      && var old_, new_ := rules[RuleName(name)], s.rules[RuleName(name)];
         && new_.targets == old_.targets[RuleName(name) := codec.dumps(TargetInput(body))]
         && new_.(targets := old_.targets) == old_
  {
    var ruleName := RuleName(name);
    var input := codec.dumps(TargetInput(body));
    if ruleName !in rules then
      Step(Fail(Aws(ResourceNotFound(ruleName))), rules, [PutTargets(ruleName, ruleName)])
    else
      Step(Pass, rules[ruleName := rules[ruleName].(targets := rules[ruleName].targets[ruleName := input])],
           [PutTargets(ruleName, ruleName)])
  }

  /** delete_cloudwatch_target: removes the target with the rule's name
      from that rule and nothing else. */
  function DeleteTargetStep(rules: Rules, name: string): (s: Step)
    ensures s.calls == [RemoveTargets(RuleName(name), RuleName(name))]
    ensures s.outcome.Pass? <==> RuleName(name) in rules && RuleName(name) in rules[RuleName(name)].targets
    ensures s.outcome.Fail? ==> s.outcome.error.Aws? && s.rules == rules
    ensures s.outcome.Pass? ==>
      && s.rules.Keys == rules.Keys
      && (forall n :: n in rules && n != RuleName(name) ==> s.rules[n] == rules[n])
      && var old_, new_ := rules[RuleName(name)], s.rules[RuleName(name)];
         && new_.targets.Keys == old_.targets.Keys - {RuleName(name)}
         && (forall id :: id in new_.targets ==> new_.targets[id] == old_.targets[id])
         && new_.(targets := old_.targets) == old_
  {
    var ruleName := RuleName(name);
    if ruleName !in rules then
      Step(Fail(Aws(ResourceNotFound(ruleName))), rules, [RemoveTargets(ruleName, ruleName)])
    else if ruleName !in rules[ruleName].targets then
      Step(Fail(Aws(ResourceNotFound(ruleName))), rules, [RemoveTargets(ruleName, ruleName)])
    else
      Step(Pass, rules[ruleName := rules[ruleName].(targets := rules[ruleName].targets - {ruleName})],
           [RemoveTargets(ruleName, ruleName)])
  }

  /** delete_cloudwatch_rule: removes the client's rule and nothing else,
      and only once it has no targets. */
  function DeleteRuleStep(rules: Rules, name: string): (s: Step)
    ensures s.calls == [DeleteRule(RuleName(name))]
    ensures s.outcome.Pass? <==> RuleName(name) in rules && rules[RuleName(name)].targets == map[]
    ensures s.outcome.Fail? ==> s.outcome.error.Aws? && s.rules == rules
    ensures RuleName(name) in rules && rules[RuleName(name)].targets != map[] ==>
      s.outcome == Fail(Aws(RuleHasTargets(RuleName(name))))
    ensures s.outcome.Pass? ==>
      && s.rules.Keys == rules.Keys - {RuleName(name)}
      && (forall n :: n in s.rules ==> s.rules[n] == rules[n])
  {
    var ruleName := RuleName(name);
    if ruleName !in rules then
      Step(Fail(Aws(ResourceNotFound(ruleName))), rules, [DeleteRule(ruleName)])
    else if rules[ruleName].targets != map[] then
      Step(Fail(Aws(RuleHasTargets(ruleName))), rules, [DeleteRule(ruleName)])
    else
      Step(Pass, rules - {ruleName}, [DeleteRule(ruleName)])
  }

  /** The duplicate guard matches on prefixes: client "ab" is refused
      while client "abc" has a rule. */
  lemma PrefixMatchRefusesExtendedId(rules: Rules, name: string, suffix: string, schedule: string)
    requires RuleName(name + suffix) in rules
    ensures PutRuleStep(rules, name, schedule).outcome == Fail(DuplicateSchedule)
  {
    assert RuleName(name + suffix) == RuleName(name) + suffix;
  }

  /** Deleting a rule before its target is refused. */
  lemma RuleBeforeTargetRefused(rules: Rules, name: string, codec: Codec, body: string)
    requires RuleName(name) in rules
    ensures var r := PutTargetStep(rules, codec, name, body).rules;
      DeleteRuleStep(r, name).outcome == Fail(Aws(RuleHasTargets(RuleName(name))))
  {
    var r := PutTargetStep(rules, codec, name, body).rules;
    assert RuleName(name) in r[RuleName(name)].targets;
  }

  // ---------------------------------------------------------------------
  // The four functions over the client
  // ---------------------------------------------------------------------

  method PutCloudwatchRule(events: EventsClient, name: string, schedule: string) returns (o: Outcome<Error>)
    modifies events
    ensures var s := PutRuleStep(old(events.rules), name, schedule);
      o == s.outcome && events.rules == s.rules && events.calls == old(events.calls) + s.calls
  {
    var matching := events.ListRules(RuleName(name));
    if matching != {} {
      return Fail(DuplicateSchedule);
    }
    events.PutRule(RuleName(name), schedule, EnabledState, RuleDescription);
    return Pass;
  }

  method PutCloudwatchTarget(events: EventsClient, codec: Codec, name: string, inputBody: string)
    returns (o: Outcome<Error>)
    modifies events
    ensures var s := PutTargetStep(old(events.rules), codec, name, inputBody);
      o == s.outcome && events.rules == s.rules && events.calls == old(events.calls) + s.calls
  {
    var input := codec.dumps(TargetInput(inputBody));
    var r := events.PutTargets(RuleName(name), RuleName(name), input);
    if r.Fail? {
      return Fail(Aws(r.error));
    }
    return Pass;
  }

  method DeleteCloudwatchTarget(events: EventsClient, name: string) returns (o: Outcome<Error>)
    modifies events
    ensures var s := DeleteTargetStep(old(events.rules), name);
      o == s.outcome && events.rules == s.rules && events.calls == old(events.calls) + s.calls
  {
    var r := events.RemoveTargets(RuleName(name), RuleName(name));
    if r.Fail? {
      return Fail(Aws(r.error));
    }
    return Pass;
  }

  method DeleteCloudwatchRule(events: EventsClient, name: string) returns (o: Outcome<Error>)
    modifies events
    ensures var s := DeleteRuleStep(old(events.rules), name);
      o == s.outcome && events.rules == s.rules && events.calls == old(events.calls) + s.calls
  {
    var r := events.DeleteRule(RuleName(name));
    if r.Fail? {
      return Fail(Aws(r.error));
    }
    return Pass;
  }
}
