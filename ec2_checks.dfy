/**
 * Security-group checks: the VPC's default security group must carry no
 * ingress and no egress rules, and neither a security group's inline ingress
 * rules nor a stand-alone security-group rule may open SSH (port 22) to
 * every IPv4 address.
 */
module Ec2Checks {
  import opened PyValue
  import opened Messages
  import opened Outcomes

  const DefaultSecurityGroupType := "aws:ec2/defaultSecurityGroup:DefaultSecurityGroup"
  const SecurityGroupType := "aws:ec2/securityGroup:SecurityGroup"
  const SecurityGroupRuleType := "aws:ec2/securityGroupRule:SecurityGroupRule"
  const SshPort := 22
  const AnyAddress := "0.0.0.0/0"

  /** A string, list or dict with at least one element. */
  predicate NonEmptyCollection(v: Value)
  {
    (v.VStr? || v.VList? || v.VMap?) && v !in FalsyValues
  }

  /** `key in props and props[key] != None and len(props[key]) > 0`, evaluated left to right. */
  function HoldsRules(props: Props, key: string): (r: Result<bool>)
    ensures r == Ok(true) <==> key in props && NonEmptyCollection(props[key])
    ensures r.Err? <==> key in props && (props[key].VBool? || props[key].VInt?)
    ensures r.Err? ==> r.error == TypeError
  {
    if key !in props || PyEq(props[key], VNull) then Ok(false)
    else
      var n :- Len(props[key]);
      Ok(n > 0)
  }

  /** The default security group may have no ingress rules. */
  function SecgrpDefaultNoIngress(rtype: string, name: string, props: Props): (o: Outcome)
    ensures rtype != DefaultSecurityGroupType ==> o == Clean
    ensures o == Report(DefaultGroupIngress(name)) <==>
      rtype == DefaultSecurityGroupType && "ingress" in props && NonEmptyCollection(props["ingress"])
    ensures o.Raised? <==>
      rtype == DefaultSecurityGroupType && "ingress" in props && (props["ingress"].VBool? || props["ingress"].VInt?)
    ensures o.Raised? ==> o.error == TypeError
    ensures ReportsAtMost(o, DefaultGroupIngress(name))
  {
    if rtype != DefaultSecurityGroupType then Clean
    else match HoldsRules(props, "ingress")
      case Err(e) => Raised(e)
      case Ok(found) => if found then Report(DefaultGroupIngress(name)) else Clean
  }

  /** The default security group may have no egress rules: the mirror image of the ingress check. */
  function SecgrpDefaultNoEgress(rtype: string, name: string, props: Props): (o: Outcome)
    ensures rtype != DefaultSecurityGroupType ==> o == Clean
    ensures o == Report(DefaultGroupEgress(name)) <==>
      rtype == DefaultSecurityGroupType && "egress" in props && NonEmptyCollection(props["egress"])
    ensures o.Raised? <==>
      rtype == DefaultSecurityGroupType && "egress" in props && (props["egress"].VBool? || props["egress"].VInt?)
    ensures o.Raised? ==> o.error == TypeError
    ensures ReportsAtMost(o, DefaultGroupEgress(name))
  {
    if rtype != DefaultSecurityGroupType then Clean
    else match HoldsRules(props, "egress")
      case Err(e) => Raised(e)
      case Ok(found) => if found then Report(DefaultGroupEgress(name)) else Clean
  }

  /** `int(fields[key]) == 22` holds without raising. */
  predicate IsSshPort(fields: map<string, Value>, key: string)
  {
    key in fields && ToInt(fields[key]) == Ok(SshPort)
  }

  /** `fields["cidrBlocks"]` is a list whose first element is exactly "0.0.0.0/0". */
  predicate FirstBlockIsAnyAddress(fields: map<string, Value>)
  {
    && "cidrBlocks" in fields
    && fields["cidrBlocks"].VList?
    && |fields["cidrBlocks"].items| > 0
    && fields["cidrBlocks"].items[0] == VStr(AnyAddress)
  }

  /** `fields[key]` is present and `int()` converts it. */
  predicate PortConverts(fields: map<string, Value>, key: string)
  {
    key in fields && ToInt(fields[key]).Ok?
  }

  /**
   * Every subscription and conversion the short-circuit condition reaches
   * succeeds: `fromPort` always, `toPort` once `fromPort` is 22, and
   * `cidrBlocks[0]` once both are.
   */
  predicate RuleEvaluates(fields: map<string, Value>)
  {
    && PortConverts(fields, "fromPort")
    && (IsSshPort(fields, "fromPort") ==> PortConverts(fields, "toPort"))
    && (IsSshPort(fields, "fromPort") && IsSshPort(fields, "toPort") ==>
          "cidrBlocks" in fields && ItemAt(fields["cidrBlocks"], 0).Ok?)
  }

  /**
   * `int(rule["fromPort"]) == 22 and int(rule["toPort"]) == 22 and
   * rule["cidrBlocks"][0] == "0.0.0.0/0"`, evaluated left to right with
   * short-circuit: `toPort` is read only when `fromPort` is 22, and
   * `cidrBlocks` only when both are.
   */
  function OpensSshToWorld(rule: Value): (r: Result<bool>)
    ensures r == Ok(true) <==>
      rule.VMap? && IsSshPort(rule.fields, "fromPort") && IsSshPort(rule.fields, "toPort")
      && FirstBlockIsAnyAddress(rule.fields)
    ensures !rule.VMap? ==> r == Err(TypeError)
    ensures r.Err? <==> !rule.VMap? || !RuleEvaluates(rule.fields)
    ensures rule.VMap? && "fromPort" !in rule.fields ==> r == Err(KeyError)
    ensures rule.VMap? && "fromPort" in rule.fields && ToInt(rule.fields["fromPort"]).Err? ==>
      r == Err(ToInt(rule.fields["fromPort"]).error)
    ensures rule.VMap? && IsSshPort(rule.fields, "fromPort") && "toPort" !in rule.fields ==> r == Err(KeyError)
    ensures rule.VMap? && IsSshPort(rule.fields, "fromPort") && "toPort" in rule.fields
            && ToInt(rule.fields["toPort"]).Err? ==>
      r == Err(ToInt(rule.fields["toPort"]).error)
    ensures rule.VMap? && IsSshPort(rule.fields, "fromPort") && IsSshPort(rule.fields, "toPort")
            && "cidrBlocks" !in rule.fields ==>
      r == Err(KeyError)
    ensures rule.VMap? && IsSshPort(rule.fields, "fromPort") && IsSshPort(rule.fields, "toPort")
            && "cidrBlocks" in rule.fields && ItemAt(rule.fields["cidrBlocks"], 0).Err? ==>
      r == Err(ItemAt(rule.fields["cidrBlocks"], 0).error)
  {
    var fromValue :- GetKey(rule, "fromPort");
    var fromPort :- ToInt(fromValue);
    if fromPort != SshPort then Ok(false)
    else
      var toValue :- GetKey(rule, "toPort");
      var toPort :- ToInt(toValue);
      if toPort != SshPort then Ok(false)
      else
        var blocks :- GetKey(rule, "cidrBlocks");
        var first :- ItemAt(blocks, 0);
        Ok(PyEq(first, VStr(AnyAddress)))
  }

  /** A dict's key, visited as if it were an ingress rule, raises: a string cannot be subscripted by a string. */
  lemma KeyIsNotARule(key: string)
    ensures OpensSshToWorld(VStr(key)) == Err(TypeError)
  {
  }

  /** What a search for an open-SSH rule leads to: report `msg` on a match, re-raise an exception. */
  function SshOutcome(found: Result<bool>, msg: Message): (o: Outcome)
    ensures ReportsAtMost(o, msg)
    ensures o == Report(msg) <==> found == Ok(true)
    ensures o == Clean <==> found == Ok(false)
    ensures found.Err? ==> o == Raised(found.error)
  {
    match found
    case Err(e) => Raised(e)
    case Ok(hit) => if hit then Report(msg) else Clean
  }

  /**
   * A security group's inline ingress rules may not open SSH to the world.
   * The loop stops at the first matching rule, so at most one violation is
   * reported, and rules after it are never examined.
   */
  function SecurityGroupSsh(rtype: string, name: string, props: Props): (o: Outcome)
    ensures rtype != SecurityGroupType || "ingress" !in props ==> o == Clean
    ensures ReportsAtMost(o, GroupOpensSsh(name))
  {
    if rtype != SecurityGroupType || "ingress" !in props then Clean
    else match Iterate(props["ingress"])
      case Err(e) => Raised(e)
      case Ok(InOrder(rules)) => SshOutcome(AnyMatch(OpensSshToWorld, rules), GroupOpensSsh(name))
      // The first key visited raises, whichever it is (KeyIsNotARule).
      case Ok(AnyOrder(keys)) => if keys == {} then Clean else Raised(TypeError)
  }

  /** The `for` loop over the ingress rules, with its `break` after the first report. */
  method SecurityGroupSshValidator(rtype: string, name: string, props: Props) returns (o: Outcome)
    ensures o == SecurityGroupSsh(rtype, name, props)
  {
    o := Clean;
    if rtype != SecurityGroupType || "ingress" !in props {
      return;
    }
    var walk := Iterate(props["ingress"]);
    if walk.Err? {
      o := Raised(walk.error);
      return;
    }
    var rules := IterationOrder(walk.value);
    if walk.value.AnyOrder? && rules != [] {
      forall key: string ensures OpensSshToWorld(VStr(key)) == Err(TypeError) {
        KeyIsNotARule(key);
      }
      KeysRaiseFirst(OpensSshToWorld, rules, TypeError);
    }
    var i := 0;
    while i < |rules|
      invariant 0 <= i <= |rules|
      invariant AnyMatch(OpensSshToWorld, rules[i..]) == AnyMatch(OpensSshToWorld, rules)
    {
      var hit := OpensSshToWorld(rules[i]);
      if hit.Err? {
        o := Raised(hit.error);
        return;
      }
      if hit.value {
        o := Report(GroupOpensSsh(name));
        break;
      }
      assert rules[i..][1..] == rules[i + 1..];
      i := i + 1;
    }
  }

  /**
   * For a list of ingress rules: a violation is reported exactly when some
   * rule opens SSH to the world and every rule before it was examined without
   * raising; an exception escapes exactly when a rule raises before any match.
   */
  lemma SshReportIff(rtype: string, name: string, props: Props)
    requires rtype == SecurityGroupType && "ingress" in props && props["ingress"].VList?
    ensures var rules := props["ingress"].items;
      SecurityGroupSsh(rtype, name, props) == Report(GroupOpensSsh(name)) <==>
        exists i :: 0 <= i < |rules| && ClearBefore(OpensSshToWorld, rules, i)
                    && OpensSshToWorld(rules[i]) == Ok(true)
    ensures var rules := props["ingress"].items;
      SecurityGroupSsh(rtype, name, props) == Clean <==> ClearBefore(OpensSshToWorld, rules, |rules|)
    ensures var rules := props["ingress"].items;
      forall e :: SecurityGroupSsh(rtype, name, props) == Raised(e) <==>
        exists i :: 0 <= i < |rules| && ClearBefore(OpensSshToWorld, rules, i)
                    && OpensSshToWorld(rules[i]) == Err(e)
  {
    var rules := props["ingress"].items;
    var found := AnyMatch(OpensSshToWorld, rules);
    AnyMatchFalseIff(OpensSshToWorld, rules);
    if found != Ok(false) {
      AnyMatchWitness(OpensSshToWorld, rules);
    }
    forall i | 0 <= i < |rules| && ClearBefore(OpensSshToWorld, rules, i)
                && OpensSshToWorld(rules[i]) != Ok(false)
      ensures found == OpensSshToWorld(rules[i])
    {
      AnyMatchDecidedAt(OpensSshToWorld, rules, i);
    }
  }

  /** Once a rule matches, the rules after it cannot change the outcome, even ones that would raise. */
  lemma SshStopsAtFirstMatch(name: string, props: Props, first: Value, rest: seq<Value>)
    requires "ingress" in props && props["ingress"] == VList([first] + rest)
    requires OpensSshToWorld(first) == Ok(true)
    ensures SecurityGroupSsh(SecurityGroupType, name, props) == Report(GroupOpensSsh(name))
  {
    AnyMatchDecidedAt(OpensSshToWorld, [first] + rest, 0);
  }

  /** `ingress` present but `None` is not iterable, so the loop raises. */
  lemma SshNullIngressRaises(name: string, props: Props)
    requires "ingress" in props && props["ingress"] == VNull
    ensures SecurityGroupSsh(SecurityGroupType, name, props) == Raised(TypeError)
  {
  }

  /** A rule dict for ports `from`..`to` and the given CIDR blocks. */
  function RuleOf(from: int, to: int, blocks: seq<string>): Value
  {
    VMap(map["fromPort" := VInt(from), "toPort" := VInt(to),
             "cidrBlocks" := VList(seq(|blocks|, k requires 0 <= k < |blocks| => VStr(blocks[k])))])
  }

  /** Only the first CIDR block is compared: "0.0.0.0/0" in second place is not flagged. */
  lemma SshOnlyFirstBlockCounts()
    ensures OpensSshToWorld(RuleOf(22, 22, ["10.0.0.0/8", AnyAddress])) == Ok(false)
    ensures OpensSshToWorld(RuleOf(22, 22, [AnyAddress, "10.0.0.0/8"])) == Ok(true)
  {
    var r := RuleOf(22, 22, ["10.0.0.0/8", AnyAddress]);
    assert r.fields["cidrBlocks"].items[0] == VStr("10.0.0.0/8");
  }

  /** A group whose one ingress rule opens port 22 to "0.0.0.0/0" is reported; with "10.0.0.0/8" it passes. */
  lemma SshGroupScenario(name: string)
    ensures SecurityGroupSsh(SecurityGroupType, name, map["ingress" := VList([RuleOf(22, 22, [AnyAddress])])])
      == Report(GroupOpensSsh(name))
    ensures SecurityGroupSsh(SecurityGroupType, name, map["ingress" := VList([RuleOf(22, 22, ["10.0.0.0/8"])])])
      == Clean
  {
    var open := RuleOf(22, 22, [AnyAddress]);
    var closed := RuleOf(22, 22, ["10.0.0.0/8"]);
    assert open.fields["cidrBlocks"].items[0] == VStr(AnyAddress);
    assert closed.fields["cidrBlocks"].items[0] == VStr("10.0.0.0/8");
    assert AnyMatch(OpensSshToWorld, [open]) == Ok(true);
    assert AnyMatch(OpensSshToWorld, [closed]) == Ok(false);
  }

  /** Only the exact port pair 22-22 counts: a range that merely contains 22 is not flagged. */
  lemma SshOnlyExactPortPair(blocks: seq<string>)
    ensures OpensSshToWorld(RuleOf(0, 65535, blocks)) == Ok(false)
    ensures OpensSshToWorld(RuleOf(22, 23, blocks)) == Ok(false)
  {
  }

  /** An empty `cidrBlocks` list raises `IndexError`, but only when both ports are 22. */
  lemma SshEmptyBlocksRaiseOnlyOnPort22(from: int, to: int)
    ensures OpensSshToWorld(RuleOf(from, to, [])).Err? <==> from == SshPort && to == SshPort
    ensures from == SshPort && to == SshPort ==> OpensSshToWorld(RuleOf(from, to, [])) == Err(IndexError)
  {
  }

  /** Only `int()` of a port matters: two port values that convert alike give the same verdict. */
  lemma PortsCompareAsIntegers(fields: map<string, Value>, key: string, v: Value)
    requires key == "fromPort" || key == "toPort"
    requires key in fields && ToInt(v) == ToInt(fields[key])
    ensures OpensSshToWorld(VMap(fields[key := v])) == OpensSshToWorld(VMap(fields))
  {
    var updated := VMap(fields[key := v]);
    assert ToInt(GetKey(updated, key).value) == ToInt(GetKey(VMap(fields), key).value);
    assert GetKey(updated, "cidrBlocks") == GetKey(VMap(fields), "cidrBlocks");
    var other := if key == "fromPort" then "toPort" else "fromPort";
    assert GetKey(updated, other) == GetKey(VMap(fields), other);
  }

  /** The string "22" counts as port 22. */
  lemma SshPortFromString(fields: map<string, Value>)
    requires "fromPort" in fields && fields["fromPort"] == VInt(SshPort)
    ensures OpensSshToWorld(VMap(fields["fromPort" := VStr("22")])) == OpensSshToWorld(VMap(fields))
  {
    ParseIntDecimal(22);
    assert Decimal(22) == "22";
    PortsCompareAsIntegers(fields, "fromPort", VStr("22"));
  }

  /** A port that `int()` cannot convert raises: `ValueError` for a non-numeric string, `TypeError` for `None`. */
  lemma SshPortNotConvertible(blocks: seq<string>)
    ensures OpensSshToWorld(VMap(RuleOf(22, 22, blocks).fields["fromPort" := VStr("ssh")])) == Err(ValueError)
    ensures OpensSshToWorld(VMap(RuleOf(22, 22, blocks).fields["fromPort" := VNull])) == Err(TypeError)
  {
    assert ParseInt("ssh") == None by {
      assert TrimLeft("ssh") == "ssh";
      assert TrimRight("ssh") == "ssh";
    }
  }

  /**
   * A stand-alone security-group rule may not open SSH to the world. Rules
   * whose `type` is absent or anything but "ingress" (egress rules) are never
   * examined further.
   */
  function SecurityGroupRuleSsh(rtype: string, name: string, props: Props): (o: Outcome)
    ensures rtype != SecurityGroupRuleType ==> o == Clean
    ensures !("type" in props && props["type"] == VStr("ingress")) ==> o == Clean
    ensures o == Report(RuleOpensSsh(name)) <==>
      && rtype == SecurityGroupRuleType
      && "type" in props && props["type"] == VStr("ingress")
      && IsSshPort(props, "fromPort") && IsSshPort(props, "toPort") && FirstBlockIsAnyAddress(props)
    ensures o.Raised? <==>
      && rtype == SecurityGroupRuleType
      && "type" in props && props["type"] == VStr("ingress")
      && !RuleEvaluates(props)
    ensures ReportsAtMost(o, RuleOpensSsh(name))
  {
    if rtype != SecurityGroupRuleType then Clean
    else if !("type" in props && PyEq(props["type"], VStr("ingress"))) then Clean
    else SshOutcome(OpensSshToWorld(VMap(props)), RuleOpensSsh(name))
  }

  /**
   * An ingress rule without `fromPort` raises `KeyError`; without `toPort` it
   * raises only when `fromPort` is 22, because the `and` stops at the first
   * false comparison.
   */
  lemma SshRuleMissingPortRaises(name: string, props: Props)
    requires "type" in props && props["type"] == VStr("ingress")
    ensures "fromPort" !in props ==> SecurityGroupRuleSsh(SecurityGroupRuleType, name, props) == Raised(KeyError)
    ensures "fromPort" in props && "toPort" !in props && props["fromPort"] == VInt(SshPort) ==>
      SecurityGroupRuleSsh(SecurityGroupRuleType, name, props) == Raised(KeyError)
    ensures "fromPort" in props && "toPort" !in props && props["fromPort"] == VInt(443) ==>
      SecurityGroupRuleSsh(SecurityGroupRuleType, name, props) == Clean
  {
  }
}
