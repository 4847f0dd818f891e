/**
 * The pack "aws-python": the fifteen policies in the order the pack lists
 * them, each applied to one resource. How the policy host schedules the
 * policies, and what it does with an exception, is not part of this model.
 */
module GuardPack {
  import opened PyValue
  import opened Messages
  import opened Outcomes
  import Ec2Checks
  import S3Checks
  import EksChecks
  import KmsChecks
  import SqsChecks
  import EbsChecks
  import RdsChecks
  import VpcChecks

  /** The pack's policies, one per validator. */
  datatype Policy =
    | S3PublicAccessBlockPolicy | SqsNoPublicAccessPolicy | KmsNoAutomaticRotationPolicy | VpcFlowLogsPolicy
    | S3EncryptionPolicy | EbsEncryptionPolicy | RdsDeletionProtectionPolicy
    | SecgrpDefaultNoIngressPolicy | SecgrpDefaultNoEgressPolicy
    | SecurityGroupSshPolicy | SecurityGroupRuleSshPolicy | S3SslRequestsPolicy
    | EksDefaultLogsPolicy | EksTagsPolicy | EksKmsKeyPolicy

  /** The policies in the order the pack lists them. */
  const Pack: seq<Policy> := [
    S3PublicAccessBlockPolicy, SqsNoPublicAccessPolicy, KmsNoAutomaticRotationPolicy, VpcFlowLogsPolicy,
    S3EncryptionPolicy, EbsEncryptionPolicy, RdsDeletionProtectionPolicy,
    SecgrpDefaultNoIngressPolicy, SecgrpDefaultNoEgressPolicy,
    SecurityGroupSshPolicy, SecurityGroupRuleSshPolicy, S3SslRequestsPolicy,
    EksDefaultLogsPolicy, EksTagsPolicy, EksKmsKeyPolicy
  ]

  /** The policy's name as the pack registers it; both SSH policies share one. */
  function Name(p: Policy): string
  {
    match p
    case S3PublicAccessBlockPolicy => "s3_public_access_block"
    case SqsNoPublicAccessPolicy => "sqs-no-public-access"
    case KmsNoAutomaticRotationPolicy => "kms-no-automatic-rotation"
    case VpcFlowLogsPolicy => "vpc-flow-logs-policy"
    case S3EncryptionPolicy => "s3_encryption_policy"
    case EbsEncryptionPolicy => "ebs_encryption_policy"
    case RdsDeletionProtectionPolicy => "rds_deletion_protection_policy"
    case SecgrpDefaultNoIngressPolicy => "secgrp-default-no-ingress"
    case SecgrpDefaultNoEgressPolicy => "secgrp-default-no-egress"
    case SecurityGroupSshPolicy => "security-group-ssh-policy"
    case SecurityGroupRuleSshPolicy => "security-group-ssh-policy"
    case S3SslRequestsPolicy => "s3-ssl-requests-policy"
    case EksDefaultLogsPolicy => "eks-cluster-default-logs"
    case EksTagsPolicy => "eks-cluster-tags_policy"
    case EksKmsKeyPolicy => "eks-cluster-kms-key"
  }

  /** The one resource type the policy's validator acts on. */
  function ResourceType(p: Policy): string
  {
    match p
    case S3PublicAccessBlockPolicy => S3Checks.PublicAccessBlockType
    case SqsNoPublicAccessPolicy => SqsChecks.QueuePolicyType
    case KmsNoAutomaticRotationPolicy => KmsChecks.KeyType
    case VpcFlowLogsPolicy => VpcChecks.FlowLogType
    case S3EncryptionPolicy => S3Checks.BucketType
    case EbsEncryptionPolicy => EbsChecks.VolumeType
    case RdsDeletionProtectionPolicy => RdsChecks.InstanceType
    case SecgrpDefaultNoIngressPolicy => Ec2Checks.DefaultSecurityGroupType
    case SecgrpDefaultNoEgressPolicy => Ec2Checks.DefaultSecurityGroupType
    case SecurityGroupSshPolicy => Ec2Checks.SecurityGroupType
    case SecurityGroupRuleSshPolicy => Ec2Checks.SecurityGroupRuleType
    case S3SslRequestsPolicy => S3Checks.BucketPolicyType
    case EksDefaultLogsPolicy => EksChecks.ClusterType
    case EksTagsPolicy => EksChecks.ClusterType
    case EksKmsKeyPolicy => EksChecks.ClusterType
  }

  /**
   * Runs one policy's validator on one resource. It reports at most one
   * violation, and a resource of another type is left alone.
   */
  function Apply(p: Policy, rtype: string, name: string, props: Props, decode: Decoder): (o: Outcome)
    ensures AtMostOne(o)
    ensures rtype != ResourceType(p) ==> o == Clean
  {
    match p
    case S3PublicAccessBlockPolicy | S3EncryptionPolicy | S3SslRequestsPolicy => ApplyS3(p, rtype, name, props, decode)
    case SecgrpDefaultNoIngressPolicy | SecgrpDefaultNoEgressPolicy => ApplyDefaultGroup(p, rtype, name, props)
    case SecurityGroupSshPolicy | SecurityGroupRuleSshPolicy => ApplySsh(p, rtype, name, props)
    case EksDefaultLogsPolicy | EksTagsPolicy | EksKmsKeyPolicy => ApplyEks(p, rtype, name, props)
    case _ => ApplySingle(p, rtype, name, props, decode)
  }

  /** The bucket policies. */
  function ApplyS3(p: Policy, rtype: string, name: string, props: Props, decode: Decoder): (o: Outcome)
    requires p.S3PublicAccessBlockPolicy? || p.S3EncryptionPolicy? || p.S3SslRequestsPolicy?
    ensures AtMostOne(o)
    ensures rtype != ResourceType(p) ==> o == Clean
  {
    match p
    case S3PublicAccessBlockPolicy => S3Checks.S3PublicAccessBlock(rtype, name, props)
    case S3EncryptionPolicy => S3Checks.S3Encryption(rtype, name, props)
    case S3SslRequestsPolicy => S3Checks.S3SslRequests(rtype, name, props, decode)
  }

  /** The default-security-group policies. */
  function ApplyDefaultGroup(p: Policy, rtype: string, name: string, props: Props): (o: Outcome)
    requires p.SecgrpDefaultNoIngressPolicy? || p.SecgrpDefaultNoEgressPolicy?
    ensures AtMostOne(o)
    ensures rtype != ResourceType(p) ==> o == Clean
  {
    match p
    case SecgrpDefaultNoIngressPolicy => Ec2Checks.SecgrpDefaultNoIngress(rtype, name, props)
    case SecgrpDefaultNoEgressPolicy => Ec2Checks.SecgrpDefaultNoEgress(rtype, name, props)
  }

  /** The two SSH policies, on security groups and on single rules. */
  function ApplySsh(p: Policy, rtype: string, name: string, props: Props): (o: Outcome)
    requires p.SecurityGroupSshPolicy? || p.SecurityGroupRuleSshPolicy?
    ensures AtMostOne(o)
    ensures rtype != ResourceType(p) ==> o == Clean
  {
    match p
    case SecurityGroupSshPolicy => Ec2Checks.SecurityGroupSsh(rtype, name, props)
    case SecurityGroupRuleSshPolicy => Ec2Checks.SecurityGroupRuleSsh(rtype, name, props)
  }

  /** The cluster policies. */
  function ApplyEks(p: Policy, rtype: string, name: string, props: Props): (o: Outcome)
    requires p.EksDefaultLogsPolicy? || p.EksTagsPolicy? || p.EksKmsKeyPolicy?
    ensures AtMostOne(o)
    ensures rtype != ResourceType(p) ==> o == Clean
  {
    match p
    case EksDefaultLogsPolicy => EksChecks.DefaultLogTypes(rtype, name, props)
    case EksTagsPolicy => EksChecks.Tags(rtype, name, props)
    case EksKmsKeyPolicy => EksChecks.KmsKeyForEncryption(rtype, name, props)
  }

  /** The policies that are alone in their source file. */
  function ApplySingle(p: Policy, rtype: string, name: string, props: Props, decode: Decoder): (o: Outcome)
    requires p.SqsNoPublicAccessPolicy? || p.KmsNoAutomaticRotationPolicy? || p.VpcFlowLogsPolicy?
             || p.EbsEncryptionPolicy? || p.RdsDeletionProtectionPolicy?
    ensures AtMostOne(o)
    ensures rtype != ResourceType(p) ==> o == Clean
  {
    match p
    case SqsNoPublicAccessPolicy => SqsChecks.SqsNoPublicAccess(rtype, name, props, decode)
    case KmsNoAutomaticRotationPolicy => KmsChecks.KmsNoAutomaticRotation(rtype, name, props)
    case VpcFlowLogsPolicy => VpcChecks.VpcFlowLogs(rtype, name, props)
    case EbsEncryptionPolicy => EbsChecks.EbsEncryption(rtype, name, props)
    case RdsDeletionProtectionPolicy => RdsChecks.RdsDeletionProtection(rtype, name, props)
  }

  /** One policy's name, the resource type its validator acts on, and what it did with the resource. */
  datatype PolicyResult = PolicyResult(policy: string, resourceType: string, outcome: Outcome)

  /** Every resource type some policy of the pack acts on. */
  function PolicyTypes(): (types: set<string>)
    ensures forall p: Policy :: ResourceType(p) in types
  {
    set p: Policy | p in Pack :: ResourceType(p)
  }

  /** Runs `policies` one after the other on one resource. */
  function RunAll(policies: seq<Policy>, rtype: string, name: string, props: Props, decode: Decoder)
    : (results: seq<PolicyResult>)
    ensures |results| == |policies|
    ensures forall i :: 0 <= i < |policies| ==>
      results[i] == PolicyResult(Name(policies[i]), ResourceType(policies[i]), Apply(policies[i], rtype, name, props, decode))
  {
    if policies == [] then []
    else
      [PolicyResult(Name(policies[0]), ResourceType(policies[0]), Apply(policies[0], rtype, name, props, decode))]
      + RunAll(policies[1..], rtype, name, props, decode)
  }

  /**
   * Runs every policy of the pack on one resource, in the pack's order. Each
   * reports at most one violation, and a policy whose resource type is not the
   * resource's reports nothing and never raises; so a resource of a type no
   * policy names draws no violation at all.
   */
  function RunPack(rtype: string, name: string, props: Props, decode: Decoder): (results: seq<PolicyResult>)
    ensures |results| == |Pack| == 15
    ensures forall i :: 0 <= i < |results| ==>
      results[i] == PolicyResult(Name(Pack[i]), ResourceType(Pack[i]), Apply(Pack[i], rtype, name, props, decode))
    ensures forall i :: 0 <= i < |results| ==> AtMostOne(results[i].outcome)
    ensures forall i :: 0 <= i < |results| && results[i].resourceType != rtype ==> results[i].outcome == Clean
    ensures rtype !in PolicyTypes() ==> forall i :: 0 <= i < |results| ==> results[i].outcome == Clean
  {
    RunAll(Pack, rtype, name, props, decode)
  }

  /**
   * An EBS volume with no `encrypted` property draws the EBS policy's
   * violation, and nothing from the policies for other types.
   */
  lemma UnencryptedVolumeScenario(name: string, decode: Decoder)
    ensures var results := RunPack(EbsChecks.VolumeType, name, map[], decode);
      && results[5] == PolicyResult("ebs_encryption_policy", EbsChecks.VolumeType, Report(VolumeNotEncrypted(name)))
      && forall i :: 0 <= i < |results| && results[i].resourceType != EbsChecks.VolumeType ==> results[i].outcome == Clean
  {
    assert Pack[5] == EbsEncryptionPolicy;
    assert EbsChecks.EbsEncryption(EbsChecks.VolumeType, name, map[]) == Report(VolumeNotEncrypted(name));
  }
}
