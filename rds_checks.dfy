/** Database check: an RDS instance must have deletion protection enabled. */
module RdsChecks {
  import opened PyValue
  import opened Messages
  import opened Outcomes

  const InstanceType := "aws:rds/instance:Instance"

  /**
   * Reports when `deletionProtection` is absent or equal to the string
   * "None". Boolean `false`, `true` and `None` itself all pass: only the
   * string sentinel counts. The `or` tests presence first, so the
   * subscription never raises.
   */
  function RdsDeletionProtection(rtype: string, name: string, props: Props): (o: Outcome)
    ensures o.Reported?
    ensures o == Report(DeletionProtectionOff(name)) <==>
      rtype == InstanceType
      && ("deletionProtection" !in props || props["deletionProtection"] == VStr("None"))
    ensures ReportsAtMost(o, DeletionProtectionOff(name))
  {
    if rtype == InstanceType
       && ("deletionProtection" !in props || PyEq(props["deletionProtection"], VStr("None")))
    then Report(DeletionProtectionOff(name))
    else Clean
  }

  /** An instance declared with deletion protection switched off (`False`) passes the check. */
  lemma DeletionProtectionValues(name: string)
    ensures RdsDeletionProtection(InstanceType, name, map["deletionProtection" := VBool(false)]) == Clean
    ensures RdsDeletionProtection(InstanceType, name, map["deletionProtection" := VBool(true)]) == Clean
    ensures RdsDeletionProtection(InstanceType, name, map["deletionProtection" := VNull]) == Clean
    ensures RdsDeletionProtection(InstanceType, name, map["deletionProtection" := VStr("None")])
      == Report(DeletionProtectionOff(name))
    ensures RdsDeletionProtection(InstanceType, name, map[]) == Report(DeletionProtectionOff(name))
  {
  }
}
