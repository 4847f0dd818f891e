/** Network check: a VPC flow log must capture all traffic. */
module VpcChecks {
  import opened PyValue
  import opened Messages
  import opened Outcomes

  const FlowLogType := "aws:ec2/flowLog:FlowLog"

  /**
   * Reports when `trafficType` is absent or anything but the exact string
   * "ALL": "ACCEPT", "REJECT" and "all" are reported. The `or` tests presence
   * first, so the subscription never raises.
   */
  function VpcFlowLogs(rtype: string, name: string, props: Props): (o: Outcome)
    ensures o.Reported?
    ensures o == Report(FlowLogsMisconfigured(name)) <==>
      rtype == FlowLogType && ("trafficType" !in props || props["trafficType"] != VStr("ALL"))
    ensures ReportsAtMost(o, FlowLogsMisconfigured(name))
  {
    if rtype == FlowLogType && ("trafficType" !in props || !PyEq(props["trafficType"], VStr("ALL")))
    then Report(FlowLogsMisconfigured(name))
    else Clean
  }

  /** Only the exact string "ALL" passes; lower case, other traffic types and absence are reported. */
  lemma TrafficTypeValues(name: string)
    ensures VpcFlowLogs(FlowLogType, name, map["trafficType" := VStr("ALL")]) == Clean
    ensures VpcFlowLogs(FlowLogType, name, map["trafficType" := VStr("all")]) == Report(FlowLogsMisconfigured(name))
    ensures VpcFlowLogs(FlowLogType, name, map["trafficType" := VStr("ACCEPT")]) == Report(FlowLogsMisconfigured(name))
    ensures VpcFlowLogs(FlowLogType, name, map["trafficType" := VStr("REJECT")]) == Report(FlowLogsMisconfigured(name))
    ensures VpcFlowLogs(FlowLogType, name, map[]) == Report(FlowLogsMisconfigured(name))
  {
  }
}
