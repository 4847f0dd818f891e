/** Key check: a KMS key must have automatic key rotation turned on. */
module KmsChecks {
  import opened PyValue
  import opened Messages
  import opened Outcomes

  const KeyType := "aws:kms/key:Key"

  /**
   * Reports when `enableKeyRotation` is absent or `== False`. Only values
   * equal to `False` count -- `False` itself and the integer 0 -- so `None`,
   * a string such as "false", or any other value passes.
   */
  function KmsNoAutomaticRotation(rtype: string, name: string, props: Props): (o: Outcome)
    ensures o.Reported?
    ensures o == Report(KeyRotationOff(name)) <==>
      rtype == KeyType
      && ("enableKeyRotation" !in props || props["enableKeyRotation"] in {VBool(false), VInt(0)})
    ensures ReportsAtMost(o, KeyRotationOff(name))
  {
    if rtype != KeyType then Clean
    else if "enableKeyRotation" in props then
      if PyEq(props["enableKeyRotation"], VBool(false)) then Report(KeyRotationOff(name)) else Clean
    else Report(KeyRotationOff(name))
  }

  /** `None`, `True` and the string "false" all pass; `False` and 0 do not. */
  lemma RotationValues(name: string)
    ensures KmsNoAutomaticRotation(KeyType, name, map["enableKeyRotation" := VNull]) == Clean
    ensures KmsNoAutomaticRotation(KeyType, name, map["enableKeyRotation" := VBool(true)]) == Clean
    ensures KmsNoAutomaticRotation(KeyType, name, map["enableKeyRotation" := VStr("false")]) == Clean
    ensures KmsNoAutomaticRotation(KeyType, name, map["enableKeyRotation" := VInt(0)]) == Report(KeyRotationOff(name))
    ensures KmsNoAutomaticRotation(KeyType, name, map[]) == Report(KeyRotationOff(name))
  {
  }
}
