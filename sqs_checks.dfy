/** Queue check: the first statement of a queue policy must not grant access to every principal. */
module SqsChecks {
  import opened PyValue
  import opened Messages
  import opened Outcomes

  const QueuePolicyType := "aws:sqs/queuePolicy:QueuePolicy"

  /**
   * `json.loads(props["policy"])`, then `"Principal" in
   * policy["Statement"][0] and policy["Statement"][0]["Principal"] == "*"`.
   * The second subscription of `policy["Statement"][0]` yields the value the
   * first one did, so only its `["Principal"]` can raise.
   */
  function FirstStatementPublic(props: Props, decode: Decoder): Result<bool>
  {
    var policyText :- GetKey(VMap(props), "policy");
    var policy :- JsonLoads(policyText, decode);
    var statements :- GetKey(policy, "Statement");
    var first :- ItemAt(statements, 0);
    var hasPrincipal :- Contains("Principal", first);
    if !hasPrincipal then Ok(false)
    else
      var principal :- GetKey(first, "Principal");
      Ok(PyEq(principal, VStr("*")))
  }

  /** The decoded policy's `Statement` is a non-empty list whose first entry has `Principal` exactly "*". */
  predicate PublicFirstStatement(policy: Value)
  {
    && Lookup(policy, ["Statement"]).Some?
    && Lookup(policy, ["Statement"]).value.VList?
    && |Lookup(policy, ["Statement"]).value.items| > 0
    && Lookup(Lookup(policy, ["Statement"]).value.items[0], ["Principal"]) == Some(VStr("*"))
  }

  /**
   * `"Principal" in first` and, when it holds, `first["Principal"]` succeed:
   * a dict always; a string or list only when it does not contain "Principal".
   */
  predicate PrincipalReadable(first: Value)
  {
    || first.VMap?
    || (first.VStr? && !IsSubstring("Principal", first.s))
    || (first.VList? && VStr("Principal") !in first.items)
  }

  /**
   * Every step of the condition succeeds: the policy is present and decodes
   * to a dict with a `Statement` that is a non-empty string, or a non-empty
   * list whose first entry can be searched for `Principal`.
   */
  predicate PolicyReadable(props: Props, decode: Decoder)
  {
    && DecodedAt(props, "policy", decode).Some?
    && Lookup(DecodedAt(props, "policy", decode).value, ["Statement"]).Some?
    && var statements := Lookup(DecodedAt(props, "policy", decode).value, ["Statement"]).value;
       || (statements.VStr? && |statements.s| > 0)
       || (statements.VList? && |statements.items| > 0 && PrincipalReadable(statements.items[0]))
  }

  /**
   * Reports when the first statement's `Principal` is the string "*". Later
   * statements are never read, and a principal such as `{"AWS": "*"}` is not
   * equal to "*".
   */
  function SqsNoPublicAccess(rtype: string, name: string, props: Props, decode: Decoder): (o: Outcome)
    ensures rtype != QueuePolicyType ==> o == Clean
    ensures o == Report(QueuePrincipalPublic(name)) <==>
      rtype == QueuePolicyType && DecodedAt(props, "policy", decode).Some?
      && PublicFirstStatement(DecodedAt(props, "policy", decode).value)
    ensures o.Raised? <==> rtype == QueuePolicyType && !PolicyReadable(props, decode)
    ensures ReportsAtMost(o, QueuePrincipalPublic(name))
  {
    FirstStatementPublicMeaning(props, decode);
    if rtype != QueuePolicyType then Clean
    else match FirstStatementPublic(props, decode)
      case Err(e) => Raised(e)
      case Ok(public) => if public then Report(QueuePrincipalPublic(name)) else Clean
  }

  /** The subscriptions find "*" exactly when the decoded policy's first statement is public. */
  lemma FirstStatementPublicMeaning(props: Props, decode: Decoder)
    ensures FirstStatementPublic(props, decode) == Ok(true) <==>
      DecodedAt(props, "policy", decode).Some? && PublicFirstStatement(DecodedAt(props, "policy", decode).value)
    ensures FirstStatementPublic(props, decode).Ok? <==> PolicyReadable(props, decode)
  {
    var policy := DecodedAt(props, "policy", decode);
    if policy.Some? {
      LookupSteps(policy.value, "Statement", "", "");
      var statements := Lookup(policy.value, ["Statement"]);
      if statements.Some? && statements.value.VList? && |statements.value.items| > 0 {
        LookupSteps(statements.value.items[0], "Principal", "", "");
      }
    }
  }

  /**
   * The check raises instead of reporting when the policy is missing, does
   * not decode, has no `Statement`, or has an empty statement list.
   */
  lemma SqsRaises(name: string, props: Props, decode: Decoder)
    ensures "policy" !in props ==> SqsNoPublicAccess(QueuePolicyType, name, props, decode) == Raised(KeyError)
    ensures "policy" in props && props["policy"].VStr? && decode(props["policy"].s).None? ==>
      SqsNoPublicAccess(QueuePolicyType, name, props, decode) == Raised(JSONDecodeError)
    ensures DecodedAt(props, "policy", decode).Some? && DecodedAt(props, "policy", decode).value.VMap?
            && "Statement" !in DecodedAt(props, "policy", decode).value.fields ==>
      SqsNoPublicAccess(QueuePolicyType, name, props, decode) == Raised(KeyError)
    ensures DecodedAt(props, "policy", decode).Some?
            && Lookup(DecodedAt(props, "policy", decode).value, ["Statement"]) == Some(VList([])) ==>
      SqsNoPublicAccess(QueuePolicyType, name, props, decode) == Raised(IndexError)
  {
    var policy := DecodedAt(props, "policy", decode);
    if policy.Some? {
      LookupSteps(policy.value, "Statement", "", "");
    }
  }

  /** Only `Statement[0]` is inspected, and only the plain string "*" counts. */
  lemma SqsFirstStatementOnly(name: string, props: Props, decode: Decoder, rest: seq<Value>)
    ensures var allowAws := VMap(map["Principal" := VMap(map["AWS" := VStr("*")])]);
      var open := VMap(map["Principal" := VStr("*")]);
      DecodedAt(props, "policy", decode) == Some(VMap(map["Statement" := VList([allowAws, open] + rest)])) ==>
        SqsNoPublicAccess(QueuePolicyType, name, props, decode) == Clean
    ensures var open := VMap(map["Principal" := VStr("*")]);
      DecodedAt(props, "policy", decode) == Some(VMap(map["Statement" := VList([open] + rest)])) ==>
        SqsNoPublicAccess(QueuePolicyType, name, props, decode) == Report(QueuePrincipalPublic(name))
  {
  }
}
