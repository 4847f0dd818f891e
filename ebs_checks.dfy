/** Volume check: an EBS volume must be encrypted. */
module EbsChecks {
  import opened PyValue
  import opened Messages
  import opened Outcomes

  const VolumeType := "aws:ebs/volume:Volume"

  /**
   * Reports when `encrypted` is absent or `!= True`. The values equal to
   * `True` are `True` itself and the integer 1; `None`, `False` and the
   * string "true" are reported. Both branches report the same message.
   */
  function EbsEncryption(rtype: string, name: string, props: Props): (o: Outcome)
    ensures o.Reported?
    ensures o == Report(VolumeNotEncrypted(name)) <==>
      rtype == VolumeType && ("encrypted" !in props || props["encrypted"] !in {VBool(true), VInt(1)})
    ensures ReportsAtMost(o, VolumeNotEncrypted(name))
  {
    if rtype != VolumeType then Clean
    else if "encrypted" !in props then Report(VolumeNotEncrypted(name))
    else if !PyEq(props["encrypted"], VBool(true)) then Report(VolumeNotEncrypted(name))
    else Clean
  }

  /** `True` and 1 pass; `None`, `False` and "true" are reported, as is a volume without the property. */
  lemma EncryptedValues(name: string)
    ensures EbsEncryption(VolumeType, name, map["encrypted" := VBool(true)]) == Clean
    ensures EbsEncryption(VolumeType, name, map["encrypted" := VInt(1)]) == Clean
    ensures EbsEncryption(VolumeType, name, map["encrypted" := VNull]) == Report(VolumeNotEncrypted(name))
    ensures EbsEncryption(VolumeType, name, map["encrypted" := VBool(false)]) == Report(VolumeNotEncrypted(name))
    ensures EbsEncryption(VolumeType, name, map["encrypted" := VStr("true")]) == Report(VolumeNotEncrypted(name))
    ensures EbsEncryption(VolumeType, name, map[]) == Report(VolumeNotEncrypted(name))
  {
  }
}
