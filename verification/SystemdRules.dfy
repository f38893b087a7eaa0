/** How one systemd unit becomes an item: the rule scan of the collector. */
module SystemdRules {
  import opened Items
  import opened Sequences

  datatype Unit = Unit(name: string, state: string, subState: string)

  /** A recovery policy: the states that count and how long they must last. */
  datatype Resolve = Resolve(after: nat, states: seq<string>)

  datatype Condition = Condition(
    state: string, subState: string, subStateContains: string, resolve: Option<Resolve>, result: ItemState)

  datatype Rule = Rule(names: seq<string>, unitType: string, conditions: seq<Condition>)

  /** The two texts built with Go's formatting verbs are parameters. */
  datatype Format = Format(pending: (string, Resolve) -> string, unresolved: (string, string, Resolve) -> string)

  datatype Config = Config(id: string, rules: seq<Rule>, format: Format)

  datatype Reading = Reading(item: Item, resolve: Option<Resolve>)

  const NOT_SENT := "not-sent-by-systemd"

  predicate Applies(rule: Rule, unit: Unit) {
    && (|rule.names| > 0 ==> unit.name in rule.names)
    && (rule.unitType != "" ==> HasSuffix(unit.name, "." + rule.unitType))
  }

  predicate Matches(c: Condition, unit: Unit) {
    && (c.state != "" ==> c.state == unit.state)
    && (c.subState != "" ==> c.subState == unit.subState)
    && (c.subStateContains != "" ==> Contains(unit.subState, c.subStateContains))
  }

  function UnitDetails(unit: Unit): string {
    if unit.state == NOT_SENT then "Unit " + unit.name + " was not reported by systemd"
    else if unit.subState != "" && unit.subState != unit.state then
      "Unit " + unit.name + " is " + unit.state + " (" + unit.subState + ")"
    else "Unit " + unit.name + " is " + unit.state
  }

  function KeyOf(config: Config, name: string): string {
    config.id + "." + name
  }

  /** The first condition that matches, or an error without a policy. */
  function Judge(conditions: seq<Condition>, unit: Unit): (ItemState, Option<Resolve>) {
    if conditions == [] then (Error, None)
    else if Matches(conditions[0], unit) then (conditions[0].result, conditions[0].resolve)
    else Judge(conditions[1..], unit)
  }

  /** The item of a unit under the first rule that applies; none if no rule does. */
  function ItemFromUnit(config: Config, rules: seq<Rule>, unit: Unit): Option<Reading> {
    if rules == [] then None
    else if !Applies(rules[0], unit) then ItemFromUnit(config, rules[1..], unit)
    else
      var (state, resolve) := Judge(rules[0].conditions, unit);
      Some(Reading(Item(KeyOf(config, unit.name), state, UnitDetails(unit)), resolve))
  }

  function Read(config: Config, unit: Unit): Option<Reading> {
    ItemFromUnit(config, config.rules, unit)
  }

  ghost predicate FirstApplicable(rules: seq<Rule>, unit: Unit, r: int) {
    0 <= r < |rules| && Applies(rules[r], unit) && forall i :: 0 <= i < r ==> !Applies(rules[i], unit)
  }

  ghost predicate FirstMatch(conditions: seq<Condition>, unit: Unit, c: int) {
    0 <= c < |conditions| && Matches(conditions[c], unit) && forall i :: 0 <= i < c ==> !Matches(conditions[i], unit)
  }

  lemma {:induction false} JudgeIsFirstMatch(conditions: seq<Condition>, unit: Unit)
    ensures (forall i :: 0 <= i < |conditions| ==> !Matches(conditions[i], unit)) ==>
               Judge(conditions, unit) == (Error, None)
    ensures forall c :: FirstMatch(conditions, unit, c) ==>
              Judge(conditions, unit) == (conditions[c].result, conditions[c].resolve)
  {
    if conditions != [] && !Matches(conditions[0], unit) {
      JudgeIsFirstMatch(conditions[1..], unit);
      forall c | FirstMatch(conditions, unit, c)
        ensures Judge(conditions, unit) == (conditions[c].result, conditions[c].resolve) {
        assert conditions[c] == conditions[1..][c - 1];
        assert FirstMatch(conditions[1..], unit, c - 1);
      }
    }
  }

  /** A unit is of interest exactly when some rule applies; its severity and policy
      are those of the first matching condition of the first applicable rule. */
  lemma {:induction false} ItemIsFirstRule(config: Config, rules: seq<Rule>, unit: Unit)
    ensures ItemFromUnit(config, rules, unit).None? <==> forall i :: 0 <= i < |rules| ==> !Applies(rules[i], unit)
    ensures forall r :: FirstApplicable(rules, unit, r) ==>
              var reading := ItemFromUnit(config, rules, unit);
              && reading.Some? && reading.value.item.key == KeyOf(config, unit.name)
              && (reading.value.item.state, reading.value.resolve) == Judge(rules[r].conditions, unit)
  {
    if rules != [] && !Applies(rules[0], unit) {
      ItemIsFirstRule(config, rules[1..], unit);
      forall r | FirstApplicable(rules, unit, r)
        ensures var reading := ItemFromUnit(config, rules, unit);
                && reading.Some? && reading.value.item.key == KeyOf(config, unit.name)
                && (reading.value.item.state, reading.value.resolve) == Judge(rules[r].conditions, unit) {
        assert rules[r] == rules[1..][r - 1];
        assert FirstApplicable(rules[1..], unit, r - 1);
      }
      if forall i :: 0 <= i < |rules| ==> !Applies(rules[i], unit) {
        assert forall i :: 0 <= i < |rules[1..]| ==> rules[1..][i] == rules[i + 1];
      }
    }
  }
}
