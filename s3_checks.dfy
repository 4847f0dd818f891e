/**
 * Bucket checks: a public-access block must set all four of its flags, a
 * bucket policy must carry a statement conditioned on insecure transport
 * (`aws:SecureTransport` = "false", the usual deny-non-TLS statement), and a
 * bucket must have a default server-side encryption configuration.
 */
module S3Checks {
  import opened PyValue
  import opened Messages
  import opened Outcomes

  const PublicAccessBlockType := "aws:s3/bucketPublicAccessBlock:BucketPublicAccessBlock"
  const BucketPolicyType := "aws:s3/bucketPolicy:BucketPolicy"
  const BucketType := "aws:s3/bucket:Bucket"

  /** The four flags of a public-access block, in the order the check reads them. */
  const BlockFlags: set<string> := {"blockPublicAcls", "blockPublicPolicy", "ignorePublicAcls", "restrictPublicBuckets"}

  const SecureTransportKey := "aws:SecureTransport"

  /**
   * Reads the four flags unconditionally (a missing one raises `KeyError`),
   * then `not a or not b or not c or not d`, negated: all four truthy.
   */
  function AllFlagsSet(props: Props): Result<bool>
  {
    var blockPublicAcls :- GetKey(VMap(props), "blockPublicAcls");
    var blockPublicPolicy :- GetKey(VMap(props), "blockPublicPolicy");
    var ignorePublicAcls :- GetKey(VMap(props), "ignorePublicAcls");
    var restrictPublicBuckets :- GetKey(VMap(props), "restrictPublicBuckets");
    Ok(Truthy(blockPublicAcls) && Truthy(blockPublicPolicy) && Truthy(ignorePublicAcls)
       && Truthy(restrictPublicBuckets))
  }

  /** A public-access block must set every flag to a truthy value. */
  function S3PublicAccessBlock(rtype: string, name: string, props: Props): (o: Outcome)
    ensures rtype != PublicAccessBlockType ==> o == Clean
    ensures o.Raised? <==> rtype == PublicAccessBlockType && !(BlockFlags <= props.Keys)
    ensures o.Raised? ==> o.error == KeyError
    ensures o == Report(PublicAccessNotBlocked(name)) <==>
      rtype == PublicAccessBlockType && BlockFlags <= props.Keys
      && exists flag :: flag in BlockFlags && props[flag] in FalsyValues
    ensures ReportsAtMost(o, PublicAccessNotBlocked(name))
  {
    if rtype != PublicAccessBlockType then Clean
    else match AllFlagsSet(props)
      case Err(e) => Raised(e)
      case Ok(blocked) => if blocked then Clean else Report(PublicAccessNotBlocked(name))
  }

  /** Falsy includes `None`, 0 and the empty string, not only `False`; four `True` flags pass. */
  lemma PublicAccessFlagValues(name: string)
    ensures var ok := map["blockPublicAcls" := VBool(true), "blockPublicPolicy" := VBool(true),
                           "ignorePublicAcls" := VBool(true), "restrictPublicBuckets" := VBool(true)];
      && S3PublicAccessBlock(PublicAccessBlockType, name, ok) == Clean
      && S3PublicAccessBlock(PublicAccessBlockType, name, ok["ignorePublicAcls" := VNull])
         == Report(PublicAccessNotBlocked(name))
      && S3PublicAccessBlock(PublicAccessBlockType, name, ok["blockPublicAcls" := VInt(0)])
         == Report(PublicAccessNotBlocked(name))
      && S3PublicAccessBlock(PublicAccessBlockType, name, ok["restrictPublicBuckets" := VStr("")])
         == Report(PublicAccessNotBlocked(name))
      && S3PublicAccessBlock(PublicAccessBlockType, name, ok - {"blockPublicPolicy"}) == Raised(KeyError)
  {
    var ok := map["blockPublicAcls" := VBool(true), "blockPublicPolicy" := VBool(true),
                  "ignorePublicAcls" := VBool(true), "restrictPublicBuckets" := VBool(true)];
    assert "blockPublicPolicy" in BlockFlags && "blockPublicPolicy" !in (ok - {"blockPublicPolicy"}).Keys;
  }

  /**
   * `SecureTransportKey in block` and, when it holds, `block[SecureTransportKey]`
   * succeed: a dict always; a string or list only when it does not contain the key.
   */
  predicate BoolBlockReadable(block: Value)
  {
    || block.VMap?
    || (block.VStr? && !IsSubstring(SecureTransportKey, block.s))
    || (block.VList? && VStr(SecureTransportKey) !in block.items)
  }

  /** Every step of the loop body succeeds on `stmt`: the prints, and the guard's tests and subscripts. */
  predicate StatementReadable(stmt: Value)
  {
    Lookup(stmt, ["Condition", "Bool"]).Some? && BoolBlockReadable(Lookup(stmt, ["Condition", "Bool"]).value)
  }

  /**
   * One pass of the loop body: the two debug prints subscript
   * `stmt["Condition"]` and `stmt["Condition"]["Bool"]` before the guard
   * `"Condition" in stmt and "Bool" in stmt["Condition"] and
   * "aws:SecureTransport" in stmt["Condition"]["Bool"] and
   * stmt["Condition"]["Bool"]["aws:SecureTransport"] == "false"` runs.
   */
  function SecureTransportDenied(stmt: Value): (r: Result<bool>)
    ensures r == Ok(true) <==> Lookup(stmt, ["Condition", "Bool", SecureTransportKey]) == Some(VStr("false"))
    ensures Lookup(stmt, ["Condition", "Bool"]).None? ==> r.Err?
    ensures !stmt.VMap? ==> r == Err(TypeError)
    ensures stmt.VMap? && "Condition" !in stmt.fields ==> r == Err(KeyError)
    ensures r.Err? <==> !StatementReadable(stmt)
  {
    LookupSteps(stmt, "Condition", "Bool", SecureTransportKey);
    var condition :- GetKey(stmt, "Condition");
    var boolBlock :- GetKey(condition, "Bool");
    LookupSteps(condition, "Bool", SecureTransportKey, "");
    LookupSteps(boolBlock, SecureTransportKey, "", "");
    // The prints succeeded, so `stmt` and `stmt["Condition"]` are dicts holding
    // these keys: the guard's first two membership tests hold and cannot raise.
    assert Contains("Condition", stmt) == Ok(true) && Contains("Bool", condition) == Ok(true);
    var hasKey :- Contains(SecureTransportKey, boolBlock);
    if !hasKey then Ok(false)
    else
      var flag :- GetKey(boolBlock, SecureTransportKey);
      Ok(PyEq(flag, VStr("false")))
  }

  /** A dict's key, visited as if it were a statement, raises: a string cannot be subscripted by a string. */
  lemma KeyIsNotAStatement(key: string)
    ensures SecureTransportDenied(VStr(key)) == Err(TypeError)
  {
  }

  /**
   * `json.loads(policy)`, then `"Statement" in policy` and, when it holds, the
   * walk `for stmt in policy["Statement"]` will take; `None` when the decoded
   * policy has no statements.
   */
  function PolicyStatements(policyText: Value, decode: Decoder): Result<Option<Walk>>
  {
    var doc :- JsonLoads(policyText, decode);
    var hasStatements :- Contains("Statement", doc);
    if !hasStatements then Ok(None)
    else
      var statements :- GetKey(doc, "Statement");
      var walk :- Iterate(statements);
      Ok(Some(walk))
  }

  /** The report once the search over the statements is done: none when a statement matched. */
  function SecureTransportOutcome(found: Result<bool>, name: string): (o: Outcome)
    ensures o == Clean <==> found == Ok(true)
    ensures o == Report(SecureTransportNotSet(name)) <==> found == Ok(false)
  {
    match found
    case Err(e) => Raised(e)
    case Ok(hit) => if hit then Clean else Report(SecureTransportNotSet(name))
  }

  /**
   * A bucket policy must deny requests that do not use TLS. Exactly one of
   * three messages is reported when it does not: no policy at all, no
   * statements, or no statement conditioned on `aws:SecureTransport` = "false".
   */
  function S3SslRequests(rtype: string, name: string, props: Props, decode: Decoder): (o: Outcome)
    ensures rtype != BucketPolicyType ==> o == Clean
    ensures rtype == BucketPolicyType && "policy" !in props ==> o == Report(NoBucketPolicy(name))
    ensures o.Reported? ==>
      (o.messages == [] || o.messages == [NoBucketPolicy(name)]
       || o.messages == [NoPolicyStatements(name)] || o.messages == [SecureTransportNotSet(name)])
  {
    if rtype != BucketPolicyType then Clean
    else if "policy" !in props then Report(NoBucketPolicy(name))
    else match PolicyStatements(props["policy"], decode)
      case Err(e) => Raised(e)
      case Ok(None) => Report(NoPolicyStatements(name))
      case Ok(Some(InOrder(statements))) =>
        SecureTransportOutcome(AnyMatch(SecureTransportDenied, statements), name)
      // The first key visited raises, whichever it is (KeyIsNotAStatement).
      case Ok(Some(AnyOrder(keys))) =>
        if keys == {} then Report(SecureTransportNotSet(name)) else Raised(TypeError)
  }

  /** The validator with its loop: `flag` goes from 0 to 1 at the first matching statement. */
  method S3SslRequestsValidator(rtype: string, name: string, props: Props, decode: Decoder)
    returns (o: Outcome)
    ensures o == S3SslRequests(rtype, name, props, decode)
  {
    o := Clean;
    if rtype != BucketPolicyType {
      return;
    }
    if "policy" !in props {
      o := Report(NoBucketPolicy(name));
      return;
    }
    var walk := PolicyStatements(props["policy"], decode);
    if walk.Err? {
      o := Raised(walk.error);
      return;
    }
    if walk.value.None? {
      o := Report(NoPolicyStatements(name));
      return;
    }
    var statements := IterationOrder(walk.value.value);
    if walk.value.value.AnyOrder? && statements != [] {
      forall key: string ensures SecureTransportDenied(VStr(key)) == Err(TypeError) {
        KeyIsNotAStatement(key);
      }
      KeysRaiseFirst(SecureTransportDenied, statements, TypeError);
    }
    var flag := 0;
    var i := 0;
    while i < |statements|
      invariant 0 <= i <= |statements|
      invariant flag == 0
      invariant AnyMatch(SecureTransportDenied, statements[i..]) == AnyMatch(SecureTransportDenied, statements)
    {
      var hit := SecureTransportDenied(statements[i]);
      if hit.Err? {
        o := Raised(hit.error);
        return;
      }
      if hit.value {
        flag := 1;
        break;
      }
      assert statements[i..][1..] == statements[i + 1..];
      i := i + 1;
    }
    if flag == 0 {
      o := Report(SecureTransportNotSet(name));
    }
  }

  /** A decoded policy that is a dict without `Statement` draws the "no statements" message. */
  lemma SslNoStatements(name: string, props: Props, decode: Decoder)
    requires "policy" in props && DecodedAt(props, "policy", decode).Some?
    requires DecodedAt(props, "policy", decode).value.VMap? && "Statement" !in DecodedAt(props, "policy", decode).value.fields
    ensures S3SslRequests(BucketPolicyType, name, props, decode) == Report(NoPolicyStatements(name))
  {
  }

  /**
   * For a policy whose `Statement` is a list: the secure-transport violation
   * is reported exactly when every statement is examined without raising and
   * none matches; the check passes exactly when a statement matches before
   * any statement raises; otherwise the first exception escapes.
   */
  lemma SslReportIff(name: string, props: Props, decode: Decoder, statements: seq<Value>)
    requires "policy" in props && DecodedAt(props, "policy", decode).Some?
    requires Lookup(DecodedAt(props, "policy", decode).value, ["Statement"]) == Some(VList(statements))
    ensures S3SslRequests(BucketPolicyType, name, props, decode) == Report(SecureTransportNotSet(name))
      <==> ClearBefore(SecureTransportDenied, statements, |statements|)
    ensures S3SslRequests(BucketPolicyType, name, props, decode) == Clean <==>
      exists i :: 0 <= i < |statements| && ClearBefore(SecureTransportDenied, statements, i)
                  && Lookup(statements[i], ["Condition", "Bool", SecureTransportKey]) == Some(VStr("false"))
    ensures forall e :: S3SslRequests(BucketPolicyType, name, props, decode) == Raised(e) <==>
      exists i :: 0 <= i < |statements| && ClearBefore(SecureTransportDenied, statements, i)
                  && SecureTransportDenied(statements[i]) == Err(e)
  {
    var doc := DecodedAt(props, "policy", decode).value;
    assert PolicyStatements(props["policy"], decode) == Ok(Some(InOrder(statements)));
    var found := AnyMatch(SecureTransportDenied, statements);
    AnyMatchFalseIff(SecureTransportDenied, statements);
    if found != Ok(false) {
      AnyMatchWitness(SecureTransportDenied, statements);
    }
    forall i | 0 <= i < |statements| && ClearBefore(SecureTransportDenied, statements, i)
                && SecureTransportDenied(statements[i]) != Ok(false)
      ensures found == SecureTransportDenied(statements[i])
    {
      AnyMatchDecidedAt(SecureTransportDenied, statements, i);
    }
  }

  /**
   * For a list of statements on which the loop body cannot raise, the
   * secure-transport violation is reported exactly when no statement has
   * `Condition.Bool["aws:SecureTransport"]` equal to the string "false", and
   * the check passes exactly when one has.
   */
  lemma SslReportsWithoutDeny(name: string, props: Props, decode: Decoder, statements: seq<Value>)
    requires "policy" in props && DecodedAt(props, "policy", decode).Some?
    requires Lookup(DecodedAt(props, "policy", decode).value, ["Statement"]) == Some(VList(statements))
    requires forall i :: 0 <= i < |statements| ==> StatementReadable(statements[i])
    ensures S3SslRequests(BucketPolicyType, name, props, decode) == Report(SecureTransportNotSet(name)) <==>
      forall i :: 0 <= i < |statements| ==>
        Lookup(statements[i], ["Condition", "Bool", SecureTransportKey]) != Some(VStr("false"))
    ensures S3SslRequests(BucketPolicyType, name, props, decode) == Clean <==>
      exists i :: 0 <= i < |statements| &&
        Lookup(statements[i], ["Condition", "Bool", SecureTransportKey]) == Some(VStr("false"))
  {
    assert PolicyStatements(props["policy"], decode) == Ok(Some(InOrder(statements)));
    var found := AnyMatch(SecureTransportDenied, statements);
    AnyMatchFalseIff(SecureTransportDenied, statements);
    if found.Err? {
      AnyMatchWitness(SecureTransportDenied, statements);
      assert false;
    }
    if found == Ok(true) {
      AnyMatchWitness(SecureTransportDenied, statements);
    }
  }

  /** Only the string "false" matches: a JSON boolean `false` under `aws:SecureTransport` does not. */
  lemma SslBooleanFalseDoesNotMatch()
    ensures var cond := VMap(map["Bool" := VMap(map[SecureTransportKey := VBool(false)])]);
      SecureTransportDenied(VMap(map["Effect" := VStr("Deny"), "Condition" := cond])) == Ok(false)
    ensures var cond := VMap(map["Bool" := VMap(map[SecureTransportKey := VStr("false")])]);
      SecureTransportDenied(VMap(map["Effect" := VStr("Deny"), "Condition" := cond])) == Ok(true)
  {
    var cond := VMap(map["Bool" := VMap(map[SecureTransportKey := VStr("false")])]);
    var stmt := VMap(map["Effect" := VStr("Deny"), "Condition" := cond]);
    LookupSteps(stmt, "Condition", "Bool", SecureTransportKey);
    LookupSteps(cond, "Bool", SecureTransportKey, "");
    LookupSteps(cond.fields["Bool"], SecureTransportKey, "", "");
  }

  /**
   * A statement without `Condition`, or whose `Condition` has no `Bool`,
   * raises in the debug prints, before a later statement that would match is
   * ever reached.
   */
  lemma SslMissingConditionRaisesFirst(name: string, props: Props, decode: Decoder, first: Value, later: Value)
    requires "policy" in props && DecodedAt(props, "policy", decode).Some?
    requires Lookup(DecodedAt(props, "policy", decode).value, ["Statement"]) == Some(VList([first, later]))
    requires Lookup(first, ["Condition", "Bool"]).None?
    ensures S3SslRequests(BucketPolicyType, name, props, decode).Raised?
  {
    assert PolicyStatements(props["policy"], decode) == Ok(Some(InOrder([first, later])));
    assert SecureTransportDenied(first).Err?;
  }

  /** A bucket must have a default server-side encryption configuration; any value other than `None` passes. */
  function S3Encryption(rtype: string, name: string, props: Props): (o: Outcome)
    ensures o.Reported?
    ensures o == Report(BucketNotEncrypted(name)) <==>
      rtype == BucketType
      && ("serverSideEncryptionConfiguration" !in props || props["serverSideEncryptionConfiguration"] == VNull)
    ensures ReportsAtMost(o, BucketNotEncrypted(name))
  {
    if rtype == BucketType
       && ("serverSideEncryptionConfiguration" !in props
           || PyEq(props["serverSideEncryptionConfiguration"], VNull))
    then Report(BucketNotEncrypted(name))
    else Clean
  }
}
