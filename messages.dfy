/**
 * The violations the pack reports. A validator hands `report_violation` a
 * string; the model reports a `Message` and `Text` spells out that string,
 * so that which violation is reported can be stated without comparing texts.
 */
module Messages {
  import opened PyValue

  datatype Message =
    | PublicAccessNotBlocked(name: string)
    | NoBucketPolicy(name: string)
    | NoPolicyStatements(name: string)
    | SecureTransportNotSet(name: string)
    | BucketNotEncrypted(name: string)
    | QueuePrincipalPublic(name: string)
    | KeyRotationOff(name: string)
    | FlowLogsMisconfigured(name: string)
    | VolumeNotEncrypted(name: string)
    | DeletionProtectionOff(name: string)
    | DefaultGroupIngress(name: string)
    | DefaultGroupEgress(name: string)
    | GroupOpensSsh(name: string)
    | RuleOpensSsh(name: string)
    | ClusterLogTypesMissing
    | ClusterTagsMissing
    | ClusterKmsKeyMissing

  /** Every message names its resource except the three cluster messages. */
  predicate Named(m: Message)
  {
    !(m.ClusterLogTypesMissing? || m.ClusterTagsMissing? || m.ClusterKmsKeyMissing?)
  }

  /** The text before the resource's name in a message that names its resource. */
  function Prefix(m: Message): string
    requires Named(m)
  {
    match m
    case PublicAccessNotBlocked(_) => "Public access is not blocked for the bucket "
    case NoBucketPolicy(_) => "No policy found in "
    case NoPolicyStatements(_) => "No statements found in policy "
    case SecureTransportNotSet(_) => "S3 Secure transport flag is not set in bucket policy for "
    case BucketNotEncrypted(_) => "Default encryption is not enabled for the S3 bucket "
    case QueuePrincipalPublic(_) => "Principal in SQS policy cannot be * for queue "
    case KeyRotationOff(_) => "KMS key automatic rotation should be turned on for key "
    case FlowLogsMisconfigured(_) => "VPC flow logs not enabled in the expected configuration for the VPC "
    case VolumeNotEncrypted(_) => "Encryption is not enabled for the EBS Volume "
    case DeletionProtectionOff(_) => "Deletion protection is not enabled for the RDS Instance "
    case DefaultGroupIngress(_) => "There should be no Ingress rules in the VPC's Default security group "
    case DefaultGroupEgress(_) => "There should be no Egress rules in the VPC's Default security group "
    case GroupOpensSsh(_) => "This Security group "
    case RuleOpensSsh(_) => "This Security group "
  }

  /** The text after the resource's name: only the SSH messages have one, and the two differ. */
  function Suffix(m: Message): string
    requires Named(m)
  {
    match m
    case GroupOpensSsh(_) => " has allowed SSH access from all addresses."
    case RuleOpensSsh(_) => " has allowed SSH access from all addresses "
    case _ => ""
  }

  /**
   * The string the validator passes to `report_violation`. A message about
   * a named resource starts with its prefix, holds the name verbatim right
   * after it, and ends with its suffix.
   */
  function Text(m: Message): (t: string)
    ensures Named(m) ==> Spells(t, Prefix(m), m.name, Suffix(m))
  {
    if Named(m) then NamedText(m) else ClusterText(m)
  }

  /** The fixed texts of the three cluster messages, which name no resource. */
  function ClusterText(m: Message): string
  {
    match m
    case ClusterLogTypesMissing =>
      "EKS Cluster should have all three log types (api, audit, authenticator) enabled by default"
    case ClusterTagsMissing => "EKS Cluster should have default tags"
    case _ => "Kubernetes Services should have AWS KMS key configured for encryption of secrets"
  }

  /** The text of a message about a named resource: its prefix, the name, its suffix. */
  function NamedText(m: Message): (t: string)
    requires Named(m)
    ensures Spells(t, Prefix(m), m.name, Suffix(m))
  {
    Between(Prefix(m), m.name, Suffix(m))
  }

  /**
   * `t` consists of `prefix`, `name` and `suffix` and nothing else, each
   * starting where the previous one ends.
   */
  predicate Spells(t: string, prefix: string, name: string, suffix: string)
  {
    && |t| == |prefix| + |name| + |suffix|
    && OccursAt(prefix, t, 0)
    && OccursAt(name, t, |prefix|)
    && OccursAt(suffix, t, |prefix| + |name|)
  }

  /** `prefix + name + suffix`, laid out as `Spells` says. */
  function Between(prefix: string, name: string, suffix: string): (t: string)
    ensures Spells(t, prefix, name, suffix)
  {
    var t := prefix + name + suffix;
    assert t[..|prefix|] == prefix;
    assert t[|prefix|..|prefix| + |name|] == name;
    assert t[|prefix| + |name|..|t|] == suffix;
    t
  }

  /**
   * The group-level and rule-level SSH messages for one resource differ only
   * in their last character: a full stop on the group, a space on the rule.
   */
  lemma SshTextsDiffer(name: string)
    ensures var g := Text(GroupOpensSsh(name)); var r := Text(RuleOpensSsh(name));
      && |g| == |r|
      && g[..|g| - 1] == r[..|r| - 1]
      && g[|g| - 1] == '.' && r[|r| - 1] == ' '
  {
    var prefix := Prefix(GroupOpensSsh(name));
    assert prefix == Prefix(RuleOpensSsh(name));
    var stem := " has allowed SSH access from all addresses";
    assert Suffix(GroupOpensSsh(name)) == stem + ".";
    assert Suffix(RuleOpensSsh(name)) == stem + " ";
    var body := prefix + name + stem;
    assert Text(GroupOpensSsh(name)) == body + ".";
    assert Text(RuleOpensSsh(name)) == body + " ";
  }
}
