/**
 * Cluster checks: an EKS cluster must enable the api, audit and
 * authenticator control-plane logs, must carry `Name` and `env` tags, and
 * must name a KMS key for encrypting secrets. The messages are fixed strings
 * that do not mention the resource's name.
 */
module EksChecks {
  import opened PyValue
  import opened Messages
  import opened Outcomes

  const ClusterType := "aws:eks/cluster:Cluster"

  /** The key the log-types check tests for presence ... */
  const LogTypesPresenceKey := "enabled_cluster_log_types"
  /** ... and the key it then reads the list from. */
  const LogTypesKey := "enabledClusterLogTypes"
  const KmsKeyArnKey := "encryption_config_key_arn"

  /**
   * `len(logTypes) >= 3` and then `"api"`, `"audit"` and `"authenticator"`
   * all `in logTypes`. Once `len` succeeds, `logTypes` is a string, list or
   * dict, on which `in` cannot raise.
   */
  function LogTypesEnabled(logTypes: Value): Result<bool>
  {
    var n :- Len(logTypes);
    if n < 3 then Ok(false)
    else
      Ok(Contains("api", logTypes).value && Contains("audit", logTypes).value
         && Contains("authenticator", logTypes).value)
  }

  /**
   * All three log types must be enabled. Presence is tested under the
   * snake_case key but the list is read from the camelCase key, so a cluster
   * whose properties use only one spelling is reported or raises.
   */
  function DefaultLogTypes(rtype: string, name: string, props: Props): (o: Outcome)
    ensures rtype != ClusterType ==> o == Clean
    ensures rtype == ClusterType && (LogTypesPresenceKey !in props || props[LogTypesPresenceKey] == VNull) ==>
      o == Report(ClusterLogTypesMissing)
    ensures o.Raised? <==>
      && rtype == ClusterType
      && LogTypesPresenceKey in props && props[LogTypesPresenceKey] != VNull
      && (LogTypesKey !in props || props[LogTypesKey].VNull? || props[LogTypesKey].VBool? || props[LogTypesKey].VInt?)
    ensures o.Raised? ==> o.error == (if LogTypesKey in props then TypeError else KeyError)
    ensures rtype == ClusterType && LogTypesPresenceKey in props && props[LogTypesPresenceKey] != VNull
            && LogTypesKey in props && props[LogTypesKey].VList? ==>
      var logTypes := props[LogTypesKey].items;
      (o == Clean <==>
         |logTypes| >= 3 && VStr("api") in logTypes && VStr("audit") in logTypes
         && VStr("authenticator") in logTypes)
    ensures rtype == ClusterType && LogTypesPresenceKey in props && props[LogTypesPresenceKey] != VNull
            && LogTypesKey in props && props[LogTypesKey].VStr? ==>
      var joined := props[LogTypesKey].s;
      (o == Clean <==>
         |joined| >= 3 && IsSubstring("api", joined) && IsSubstring("audit", joined)
         && IsSubstring("authenticator", joined))
    ensures rtype == ClusterType && LogTypesPresenceKey in props && props[LogTypesPresenceKey] != VNull
            && LogTypesKey in props && props[LogTypesKey].VMap? ==>
      var fields := props[LogTypesKey].fields;
      (o == Clean <==>
         |fields| >= 3 && "api" in fields && "audit" in fields && "authenticator" in fields)
    ensures ReportsAtMost(o, ClusterLogTypesMissing)
  {
    if rtype != ClusterType then Clean
    else if LogTypesPresenceKey !in props || props[LogTypesPresenceKey] == VNull then Report(ClusterLogTypesMissing)
    else if LogTypesKey !in props then Raised(KeyError)
    else match LogTypesEnabled(props[LogTypesKey])
      case Err(e) => Raised(e)
      case Ok(enabled) => if enabled then Clean else Report(ClusterLogTypesMissing)
  }

  /**
   * Properties as a Pulumi program declares them use camelCase only: the
   * check reports them whatever the list holds. With the snake_case key
   * alone, the check raises.
   */
  lemma LogTypesKeyMismatch(props: Props)
    ensures LogTypesPresenceKey !in props ==> DefaultLogTypes(ClusterType, "", props) == Report(ClusterLogTypesMissing)
    ensures LogTypesPresenceKey in props && props[LogTypesPresenceKey] != VNull && LogTypesKey !in props ==>
      DefaultLogTypes(ClusterType, "", props) == Raised(KeyError)
  {
  }

  /**
   * Fewer than three entries are reported even when they are all required
   * ones, and three entries are reported when one of the required ones is
   * missing.
   */
  lemma LogTypesListRejected()
    ensures var base := map[LogTypesPresenceKey := VBool(true)];
      && DefaultLogTypes(ClusterType, "", base[LogTypesKey := VList([VStr("api"), VStr("audit")])])
         == Report(ClusterLogTypesMissing)
      && DefaultLogTypes(ClusterType, "", base[LogTypesKey := VList([VStr("api"), VStr("audit"), VStr("scheduler")])])
         == Report(ClusterLogTypesMissing)
  {
    var noAuth := VList([VStr("api"), VStr("audit"), VStr("scheduler")]);
    assert VStr("authenticator") !in noAuth.items;
  }

  /** The three required entries pass in any order. */
  lemma LogTypesListAccepted(logTypes: seq<Value>)
    requires multiset(logTypes) == multiset{VStr("api"), VStr("audit"), VStr("authenticator")}
    ensures DefaultLogTypes(ClusterType, "", map[LogTypesPresenceKey := VBool(true),
              LogTypesKey := VList(logTypes)]) == Clean
  {
    assert VStr("api") in multiset(logTypes);
    assert VStr("audit") in multiset(logTypes);
    assert VStr("authenticator") in multiset(logTypes);
    assert |logTypes| == |multiset(logTypes)| == 3;
  }

  /** A string passes when it merely contains the three names. */
  lemma LogTypesStringAccepted()
    ensures DefaultLogTypes(ClusterType, "", map[LogTypesPresenceKey := VBool(true),
              LogTypesKey := VStr("api,audit,authenticator")]) == Clean
  {
    var joined := "api,audit,authenticator";
    assert OccursAt("api", joined, 0);
    assert OccursAt("audit", joined, 4);
    assert OccursAt("authenticator", joined, 10);
  }

  /**
   * Negation of `"Name" not in tags or "env" not in tags or tags["Name"] is
   * None or tags["env"] is None`. After the first `in` succeeds the second
   * cannot raise; once `tags["Name"]` succeeds, `tags` is a dict holding
   * `env`, so `tags["env"]` cannot raise either.
   */
  function TagsPresent(tags: Value): Result<bool>
  {
    var hasName :- Contains("Name", tags);
    if !hasName then Ok(false)
    else if !Contains("env", tags).value then Ok(false)
    else
      var nameTag :- GetKey(tags, "Name");
      if nameTag == VNull then Ok(false)
      else Ok(GetKey(tags, "env").value != VNull)
  }

  /** The tags `Name` and `env` are present with non-`None` values; other tags never matter. */
  predicate HasDefaultTags(props: Props)
  {
    && Lookup(VMap(props), ["tags", "Name"]) != None && Lookup(VMap(props), ["tags", "Name"]) != Some(VNull)
    && Lookup(VMap(props), ["tags", "env"]) != None && Lookup(VMap(props), ["tags", "env"]) != Some(VNull)
  }

  /** A cluster must carry `Name` and `env` tags. */
  function Tags(rtype: string, name: string, props: Props): (o: Outcome)
    ensures o == Clean <==> rtype != ClusterType || HasDefaultTags(props)
    ensures o.Raised? <==>
      && rtype == ClusterType && "tags" in props
      && (|| props["tags"].VBool? || props["tags"].VInt?
          || ((props["tags"].VList? || props["tags"].VStr?)
              && Contains("Name", props["tags"]) == Ok(true) && Contains("env", props["tags"]) == Ok(true)))
    ensures o.Raised? ==> o.error == TypeError
    ensures ReportsAtMost(o, ClusterTagsMissing)
  {
    LookupSteps(VMap(props), "tags", "Name", "");
    LookupSteps(VMap(props), "tags", "env", "");
    var tags := if "tags" in props then props["tags"] else VNull;
    LookupSteps(tags, "Name", "", "");
    LookupSteps(tags, "env", "", "");
    if rtype != ClusterType then Clean
    else if "tags" !in props || props["tags"] == VNull then Report(ClusterTagsMissing)
    else match TagsPresent(props["tags"])
      case Err(e) => Raised(e)
      case Ok(present) => if present then Clean else Report(ClusterTagsMissing)
  }

  /**
   * Tags that are not a dict: a number raises at the first `in`; a list or a
   * string that contains both names raises at `tags["Name"]`.
   */
  lemma TagsNotADict(props: Props)
    requires "tags" in props
    ensures props["tags"].VInt? || props["tags"].VBool? ==> Tags(ClusterType, "", props) == Raised(TypeError)
    ensures props["tags"] == VList([VStr("Name"), VStr("env")]) ==> Tags(ClusterType, "", props) == Raised(TypeError)
    ensures props["tags"] == VList([VStr("Name")]) ==> Tags(ClusterType, "", props) == Report(ClusterTagsMissing)
  {
  }

  /** A cluster must name a KMS key for secrets encryption; any non-`None` value, even "", passes. */
  function KmsKeyForEncryption(rtype: string, name: string, props: Props): (o: Outcome)
    ensures o.Reported?
    ensures o == Report(ClusterKmsKeyMissing) <==>
      rtype == ClusterType && (KmsKeyArnKey !in props || props[KmsKeyArnKey] == VNull)
    ensures ReportsAtMost(o, ClusterKmsKeyMissing)
  {
    if rtype == ClusterType && (KmsKeyArnKey !in props || props[KmsKeyArnKey] == VNull)
    then Report(ClusterKmsKeyMissing)
    else Clean
  }

  /** None of the three cluster checks depends on the resource's name. */
  lemma EksIgnoresName(rtype: string, name1: string, name2: string, props: Props)
    ensures DefaultLogTypes(rtype, name1, props) == DefaultLogTypes(rtype, name2, props)
    ensures Tags(rtype, name1, props) == Tags(rtype, name2, props)
    ensures KmsKeyForEncryption(rtype, name1, props) == KmsKeyForEncryption(rtype, name2, props)
  {
  }
}
