# pyawsguard policy checks, modelled in Dafny

pyawsguard is a Pulumi CrossGuard policy pack ("aws-python"). Its fifteen
validators each look at one declared AWS resource — a resource-type string,
the resource's name and its property dictionary — and call
`report_violation` with a message when the resource breaks a rule. The rules
cover the following resources:

- default security groups (no ingress, no egress);
- security groups and security-group rules (no SSH from `0.0.0.0/0`);
- S3 public-access blocks, bucket policies (TLS only) and buckets (default encryption);
- EKS clusters (log types, tags, KMS key);
- KMS keys (rotation);
- SQS queue policies (no public principal);
- EBS volumes (encryption);
- RDS instances (deletion protection);
- VPC flow logs (traffic type).

The model keeps the validators' Python semantics, quirks included:

- direct `dict[...]` subscription raises on a missing key;
- `True == 1` and `False == 0`;
- truthiness;
- comparison against the string sentinel `"None"`;
- the EKS snake_case/camelCase key mismatch;
- the debug `print`s in the bucket-policy check, whose subscriptions raise before the guard runs.

Project layout:

- `python_value.dfy` (`PyValue`): the property values (`None`, `bool`, `int`, `str`, `list`, `dict`). It defines the Python operations the checks use, each with the exception Python raises: `==`, truthiness, `len`, `in`, subscription, `int()`, `for` iteration and `json.loads`. It also defines the helpers the checks are built from: `ParseInt`, the string parser behind `int()`; `AnyMatch`, the first-match loop, with its lemmas; and `Lookup`, a nested dict lookup that states conditions independently of the checks' subscription chains. `S3Checks.PolicyStatements` is the bucket-policy check's decoding step.
- `messages.dfy` (`Messages`): the violation messages, and `Text`, which gives the exact string each one reports.
- `outcome.dfy` (`Outcomes`): what a validator does with a resource. It either reports a sequence of messages (`Reported`) or raises (`Raised`). This replaces the `report_violation` callback.
- One module per source file: `ec2_checks.dfy`, `s3_checks.dfy`, `eks_checks.dfy`, `kms_checks.dfy`, `sqs_checks.dfy`, `ebs_checks.dfy`, `rds_checks.dfy` and `vpc_checks.dfy`.
  - Each validator is a function from `(rtype, name, props)` to an `Outcome`. Its contract gives the exact condition under which it reports and the exact condition under which it raises. For the two looping validators, these conditions are given for a list of rules or statements by `Ec2Checks.SshReportIff` and `S3Checks.SslReportIff`.
  - The two validators that loop are also methods with a `while` loop, proved equal to their function: `security_grp_ssh_validator` (stop at the first match) and `s3_ssl_requests_validator` (a `flag` that goes from 0 to 1).
- `policy_pack.dfy` (`GuardPack`): the fifteen policies in the order the pack lists them. Every policy reports at most one violation, and a policy meant for another resource type neither reports nor raises.

Two parts of the source's behaviour are taken as parameters or left open:

- `json.loads` is a parameter of type `Decoder`: a partial function from text to a value.
- Python dicts iterate in insertion order, which a Dafny `map` does not keep. A `for` loop over a dict therefore visits its keys in an order the model leaves open (`Walk.AnyOrder`). Every loop in the checks subscripts each visited item with a string, which raises on a string key, so the result does not depend on that order (`PyValue.KeysRaiseFirst`).

Where the code and the prose description of the rules differ, the model follows the code:

- Public-access block: a flag fails when it is falsy (`None`, `False`, `0`, `""`, an empty list or dict), not only when it is "not true". A missing flag raises `KeyError` and is not reported.
- Cluster log types: the check reports when any one of `api`/`audit`/`authenticator` is missing, or when there are fewer than three entries. It tests for presence under `enabled_cluster_log_types` but reads the list from `enabledClusterLogTypes`. So properties in either spelling alone are reported or raise.
- Open SSH on a security group: rules are examined in order up to the first match. A malformed rule before a matching one raises instead of reporting.
- Volume encryption: `1` passes, because it equals `True`. Key rotation: `0` is reported, because it equals `False`.
- Queue policy: a missing `policy`, an undecodable policy, a missing `Statement` or an empty statement list raises instead of reporting.

## Model

| member | source | states |
|---|---|---|
| PyValue.PyEq | custom-policy-crossguard-pkg/pyawsguard/src/pyawsguard/ebs_checks.py:43 | Python `==` against a literal: only `None` equals `None`; strings compare exactly; `True` equals `1` and `False` equals `0` in both directions |
| PyValue.PyEqReflexive | custom-policy-crossguard-pkg/pyawsguard/src/pyawsguard/vpc_checks.py:39 | every value is `==` to itself, lists and dicts included |
| PyValue.PyEqSymmetric | custom-policy-crossguard-pkg/pyawsguard/src/pyawsguard/vpc_checks.py:39 | `a == b` exactly when `b == a`, for all values |
| PyValue.Truthy | custom-policy-crossguard-pkg/pyawsguard/src/pyawsguard/s3_checks.py:43 | a value is truthy exactly when it is not `None`, `False`, `0`, `""`, `[]` or `{}` |
| PyValue.Len | custom-policy-crossguard-pkg/pyawsguard/src/pyawsguard/eks_checks.py:38 | `len` gives the string's, list's or dict's size; it raises `TypeError` exactly on `None`, booleans and integers; it is 0 exactly for an empty string, list or dict |
| PyValue.Contains | custom-policy-crossguard-pkg/pyawsguard/src/pyawsguard/eks_checks.py:41 | `x in c`: element membership in a list, key membership in a dict, substring containment in a string; `TypeError` exactly on `None`, booleans and integers |
| PyValue.GetKey | custom-policy-crossguard-pkg/pyawsguard/src/pyawsguard/s3_checks.py:39-42 | `v[key]` succeeds exactly on a dict holding `key`, with that entry; otherwise `KeyError` on a dict, `TypeError` on anything else |
| PyValue.ItemAt | custom-policy-crossguard-pkg/pyawsguard/src/pyawsguard/sqs_checks.py:40 | `v[0]` succeeds exactly on a non-empty list or string, giving its first element or first character; otherwise `IndexError` on a list or string, `KeyError` on a dict, `TypeError` on anything else |
| PyValue.ToInt | custom-policy-crossguard-pkg/pyawsguard/src/pyawsguard/ec2_checks.py:70 | `int(v)`: an integer is itself, `True`/`False` are 1/0, a string converts exactly when it parses as a decimal integer and gives that integer, otherwise `ValueError`; `None`/lists/dicts raise `TypeError` |
| PyValue.ParseIntDecimal | custom-policy-crossguard-pkg/pyawsguard/src/pyawsguard/ec2_checks.py:70 | `int(str(n)) == n` for every integer `n`, negative ones included |
| PyValue.Iterate | custom-policy-crossguard-pkg/pyawsguard/src/pyawsguard/ec2_checks.py:69 | `for x in v` visits a list's elements in order, a string's one-character substrings in order, or a dict's keys; `None`, booleans and integers raise `TypeError` |
| PyValue.IterationOrder | custom-policy-crossguard-pkg/pyawsguard/src/pyawsguard/ec2_checks.py:69 | the items the loop visits: a list's elements unchanged, or the dict's keys as strings, each key present and none repeated |
| PyValue.AnyMatchDecidedAt | custom-policy-crossguard-pkg/pyawsguard/src/pyawsguard/ec2_checks.py:69-74 | the first item on which the loop body does not return `False` decides the loop's result, whatever follows it |
| PyValue.AnyMatchFalseIff | custom-policy-crossguard-pkg/pyawsguard/src/pyawsguard/s3_checks.py:62-68 | a first-match loop runs to its end exactly when the body returned `False` on every item |
| PyValue.AnyMatchWitness | custom-policy-crossguard-pkg/pyawsguard/src/pyawsguard/ec2_checks.py:69-74 | a match or an exception comes from one particular item, with every earlier item returning `False` |
| PyValue.KeysRaiseFirst | custom-policy-crossguard-pkg/pyawsguard/src/pyawsguard/s3_checks.py:62-63 | a loop over dict keys whose body raises on every string raises that exception, whichever key comes first |
| PyValue.JsonLoads | custom-policy-crossguard-pkg/pyawsguard/src/pyawsguard/s3_checks.py:60 | `json.loads`: a string that decodes gives its value, one that does not raises `JSONDecodeError`, and a non-string raises `TypeError` |
| Messages.Text | custom-policy-crossguard-pkg/pyawsguard/src/pyawsguard/kms_checks.py:42-47 | every message except the three cluster ones is exactly its fixed prefix, then the resource's name verbatim, then its fixed suffix (empty except on the two SSH messages) |
| Messages.SshTextsDiffer | custom-policy-crossguard-pkg/pyawsguard/src/pyawsguard/ec2_checks.py:71-88 | the group-level and rule-level SSH messages for one name have the same length and differ only in the last character: `.` versus a space |
| Ec2Checks.HoldsRules | custom-policy-crossguard-pkg/pyawsguard/src/pyawsguard/ec2_checks.py:42 | `key in props and props[key] != None and len(props[key]) > 0` holds exactly for a non-empty string, list or dict; it raises `TypeError` exactly on a boolean or integer |
| Ec2Checks.SecgrpDefaultNoIngress | custom-policy-crossguard-pkg/pyawsguard/src/pyawsguard/ec2_checks.py:40-44 | on a default security group, reports once exactly when `ingress` is a non-empty collection, and raises `TypeError` exactly when it is a boolean or integer; inert on other types |
| Ec2Checks.SecgrpDefaultNoEgress | custom-policy-crossguard-pkg/pyawsguard/src/pyawsguard/ec2_checks.py:53-57 | the same for `egress` |
| Ec2Checks.OpensSshToWorld | custom-policy-crossguard-pkg/pyawsguard/src/pyawsguard/ec2_checks.py:70 | a rule matches exactly when it is a dict, `int(fromPort)` and `int(toPort)` are 22, and `cidrBlocks[0]` is `"0.0.0.0/0"`; it raises exactly when a subscription or conversion the short-circuit reaches fails, with that step's exception (`TypeError` on a non-dict, `KeyError` on a missing key, `int()`'s own error on a port, the error of `[0]` on `cidrBlocks`) |
| Ec2Checks.KeyIsNotARule | custom-policy-crossguard-pkg/pyawsguard/src/pyawsguard/ec2_checks.py:69-70 | a dict key visited as a rule raises `TypeError` |
| Ec2Checks.SshOutcome | custom-policy-crossguard-pkg/pyawsguard/src/pyawsguard/ec2_checks.py:70-74 | a match reports the message once, no match reports nothing, and an exception is re-raised unchanged |
| Ec2Checks.SecurityGroupSsh | custom-policy-crossguard-pkg/pyawsguard/src/pyawsguard/ec2_checks.py:66-74 | inert on other types and when `ingress` is absent; never reports more than the one SSH message, even when several rules match |
| Ec2Checks.SecurityGroupSshValidator | custom-policy-crossguard-pkg/pyawsguard/src/pyawsguard/ec2_checks.py:66-74 | the loop with report-then-`break` computes exactly `SecurityGroupSsh` |
| Ec2Checks.SshReportIff | custom-policy-crossguard-pkg/pyawsguard/src/pyawsguard/ec2_checks.py:69-74 | for a list of rules: reported exactly when some rule matches and every earlier one does not; clean exactly when no rule matches and none raises; raises `e` exactly when the first rule that does not evaluate to "no match" raises `e` |
| Ec2Checks.SshStopsAtFirstMatch | custom-policy-crossguard-pkg/pyawsguard/src/pyawsguard/ec2_checks.py:69-74 | a matching first rule is reported, whatever the later rules hold |
| Ec2Checks.SshNullIngressRaises | custom-policy-crossguard-pkg/pyawsguard/src/pyawsguard/ec2_checks.py:68-69 | `ingress` present but `None` raises `TypeError` |
| Ec2Checks.SshGroupScenario | custom-policy-crossguard-pkg/pyawsguard/src/pyawsguard/ec2_checks.py:66-74 | one rule 22–22 from `0.0.0.0/0` is reported; the same rule from `10.0.0.0/8` passes |
| Ec2Checks.SshOnlyFirstBlockCounts | custom-policy-crossguard-pkg/pyawsguard/src/pyawsguard/ec2_checks.py:70 | `["10.0.0.0/8", "0.0.0.0/0"]` does not match; `["0.0.0.0/0", "10.0.0.0/8"]` does |
| Ec2Checks.SshOnlyExactPortPair | custom-policy-crossguard-pkg/pyawsguard/src/pyawsguard/ec2_checks.py:70 | the ranges 0–65535 and 22–23 never match, whatever the blocks |
| Ec2Checks.SshEmptyBlocksRaiseOnlyOnPort22 | custom-policy-crossguard-pkg/pyawsguard/src/pyawsguard/ec2_checks.py:70 | an empty `cidrBlocks` raises exactly when both ports are 22, with `IndexError` |
| Ec2Checks.PortsCompareAsIntegers | custom-policy-crossguard-pkg/pyawsguard/src/pyawsguard/ec2_checks.py:70 | replacing a port by any value with the same `int()` leaves the verdict unchanged |
| Ec2Checks.SshPortFromString | custom-policy-crossguard-pkg/pyawsguard/src/pyawsguard/ec2_checks.py:70 | the string `"22"` as `fromPort` counts like the integer 22 |
| Ec2Checks.SshPortNotConvertible | custom-policy-crossguard-pkg/pyawsguard/src/pyawsguard/ec2_checks.py:70 | a non-numeric `fromPort` raises `ValueError`; `None` raises `TypeError` |
| Ec2Checks.SecurityGroupRuleSsh | custom-policy-crossguard-pkg/pyawsguard/src/pyawsguard/ec2_checks.py:83-89 | inert on other types and unless `type` is exactly `"ingress"`; for an ingress rule it reports exactly when the rule opens SSH to the world, and raises exactly when a port, `toPort` or `cidrBlocks[0]` that the condition reaches is missing or does not convert |
| Ec2Checks.SshRuleMissingPortRaises | custom-policy-crossguard-pkg/pyawsguard/src/pyawsguard/ec2_checks.py:86 | on an ingress rule, a missing `fromPort` raises `KeyError`, and a missing `toPort` raises only once `fromPort` is 22 |
| S3Checks.S3PublicAccessBlock | custom-policy-crossguard-pkg/pyawsguard/src/pyawsguard/s3_checks.py:37-45 | raises `KeyError` exactly when one of the four flags is missing; otherwise reports once exactly when some flag is falsy; inert on other types |
| S3Checks.PublicAccessFlagValues | custom-policy-crossguard-pkg/pyawsguard/src/pyawsguard/s3_checks.py:39-43 | four `True` flags pass; a `None`, `0` or `""` flag is reported; a missing flag raises |
| S3Checks.SecureTransportDenied | custom-policy-crossguard-pkg/pyawsguard/src/pyawsguard/s3_checks.py:63-65 | a statement matches exactly when `Condition.Bool["aws:SecureTransport"]` is the string `"false"`; it raises exactly when a step fails: `Condition.Bool` is missing (the prints raise), or the `Bool` block is `None`, a boolean, an integer, or a string or list containing `"aws:SecureTransport"` |
| S3Checks.KeyIsNotAStatement | custom-policy-crossguard-pkg/pyawsguard/src/pyawsguard/s3_checks.py:62-63 | a dict key visited as a statement raises `TypeError` |
| S3Checks.SecureTransportOutcome | custom-policy-crossguard-pkg/pyawsguard/src/pyawsguard/s3_checks.py:66-69 | a match leaves the policy clean; no match reports the secure-transport message |
| S3Checks.S3SslRequests | custom-policy-crossguard-pkg/pyawsguard/src/pyawsguard/s3_checks.py:55-73 | inert on other types; a missing `policy` reports "No policy found"; any report is exactly one of the three messages |
| S3Checks.S3SslRequestsValidator | custom-policy-crossguard-pkg/pyawsguard/src/pyawsguard/s3_checks.py:55-73 | the loop with `flag` and `break` computes exactly `S3SslRequests` |
| S3Checks.SslNoStatements | custom-policy-crossguard-pkg/pyawsguard/src/pyawsguard/s3_checks.py:61-71 | a decoded dict policy without `Statement` reports "No statements found" |
| S3Checks.SslReportIff | custom-policy-crossguard-pkg/pyawsguard/src/pyawsguard/s3_checks.py:61-69 | for a list of statements: reported exactly when every statement is examined without a match; clean exactly when one matches before any raises; otherwise the first exception escapes |
| S3Checks.SslReportsWithoutDeny | custom-policy-crossguard-pkg/pyawsguard/src/pyawsguard/s3_checks.py:62-69 | for statements on which the loop body cannot raise: reported exactly when no statement has `Condition.Bool["aws:SecureTransport"]` equal to `"false"`; passes exactly when one has |
| S3Checks.SslBooleanFalseDoesNotMatch | custom-policy-crossguard-pkg/pyawsguard/src/pyawsguard/s3_checks.py:65 | a JSON boolean `false` under `aws:SecureTransport` does not match; the string `"false"` does |
| S3Checks.SslMissingConditionRaisesFirst | custom-policy-crossguard-pkg/pyawsguard/src/pyawsguard/s3_checks.py:62-65 | a first statement without `Condition.Bool` raises before a later matching statement is reached |
| S3Checks.S3Encryption | custom-policy-crossguard-pkg/pyawsguard/src/pyawsguard/s3_checks.py:83-87 | never raises; reports once exactly when `serverSideEncryptionConfiguration` is absent or `None` on a bucket |
| EksChecks.DefaultLogTypes | custom-policy-crossguard-pkg/pyawsguard/src/pyawsguard/eks_checks.py:31-43 | inert on other types. Reports when `enabled_cluster_log_types` is absent or `None`. Otherwise it raises exactly when `enabledClusterLogTypes` is absent (`KeyError`) or is `None`, a boolean or an integer (`TypeError`). A list passes exactly when it has at least three entries including `api`, `audit` and `authenticator`; a string exactly when it has at least three characters and contains each name as a substring; a dict exactly when it has at least three keys including the three names |
| EksChecks.LogTypesKeyMismatch | custom-policy-crossguard-pkg/pyawsguard/src/pyawsguard/eks_checks.py:33-37 | without the snake_case key the cluster is reported; with only the snake_case key it raises `KeyError` |
| EksChecks.LogTypesListRejected | custom-policy-crossguard-pkg/pyawsguard/src/pyawsguard/eks_checks.py:38-43 | two required entries are reported, as are three entries lacking `authenticator` |
| EksChecks.LogTypesListAccepted | custom-policy-crossguard-pkg/pyawsguard/src/pyawsguard/eks_checks.py:41 | any list that holds exactly `api`, `audit` and `authenticator`, in any order, passes |
| EksChecks.LogTypesStringAccepted | custom-policy-crossguard-pkg/pyawsguard/src/pyawsguard/eks_checks.py:38-41 | a string merely containing the three names passes |
| EksChecks.Tags | custom-policy-crossguard-pkg/pyawsguard/src/pyawsguard/eks_checks.py:51-58 | passes exactly on other types or when `tags.Name` and `tags.env` are present and not `None`; raises `TypeError` exactly when the tags are a boolean or integer, or a list or string containing both names; so absent, `None` or dict tags lacking either name are reported |
| EksChecks.TagsNotADict | custom-policy-crossguard-pkg/pyawsguard/src/pyawsguard/eks_checks.py:56-57 | numeric tags raise; a list holding both names raises at `tags["Name"]`; a list lacking `env` is reported |
| EksChecks.KmsKeyForEncryption | custom-policy-crossguard-pkg/pyawsguard/src/pyawsguard/eks_checks.py:66-70 | never raises; reports once exactly when `encryption_config_key_arn` is absent or `None` on a cluster |
| EksChecks.EksIgnoresName | custom-policy-crossguard-pkg/pyawsguard/src/pyawsguard/eks_checks.py:31-70 | none of the three cluster checks depends on the resource's name |
| KmsChecks.KmsNoAutomaticRotation | custom-policy-crossguard-pkg/pyawsguard/src/pyawsguard/kms_checks.py:37-47 | never raises; reports once exactly when `enableKeyRotation` is absent or equal to `False` (so `False` or `0`) on a key |
| KmsChecks.RotationValues | custom-policy-crossguard-pkg/pyawsguard/src/pyawsguard/kms_checks.py:39-47 | `None`, `True` and `"false"` pass; `0` and absence are reported |
| SqsChecks.SqsNoPublicAccess | custom-policy-crossguard-pkg/pyawsguard/src/pyawsguard/sqs_checks.py:37-42 | inert on other types; reports exactly when the decoded policy's `Statement` is a non-empty list whose first entry's `Principal` is the string `"*"`; raises exactly when some step fails: the policy is missing, not a string or undecodable, decodes to a non-dict or a dict without `Statement`, `Statement` is an empty string or list or is not a string or list, or its first entry is `None`, a boolean, an integer, or a string or list containing `"Principal"` |
| SqsChecks.FirstStatementPublicMeaning | custom-policy-crossguard-pkg/pyawsguard/src/pyawsguard/sqs_checks.py:39-40 | the chain of subscriptions finds `"*"` exactly when the decoded policy's first statement is public |
| SqsChecks.SqsRaises | custom-policy-crossguard-pkg/pyawsguard/src/pyawsguard/sqs_checks.py:39-40 | a missing `policy` (`KeyError`), an undecodable one (`JSONDecodeError`), a decoded dict without `Statement` (`KeyError`) or with an empty statement list (`IndexError`) raises |
| SqsChecks.SqsFirstStatementOnly | custom-policy-crossguard-pkg/pyawsguard/src/pyawsguard/sqs_checks.py:40 | a public second statement behind `{"AWS": "*"}` is not reported; a public first statement is |
| EbsChecks.EbsEncryption | custom-policy-crossguard-pkg/pyawsguard/src/pyawsguard/ebs_checks.py:37-46 | never raises; reports once exactly when `encrypted` is absent or not equal to `True` (neither `True` nor `1`) on a volume |
| EbsChecks.EncryptedValues | custom-policy-crossguard-pkg/pyawsguard/src/pyawsguard/ebs_checks.py:39-46 | `True` and `1` pass; `None`, `False`, `"true"` and absence are reported |
| RdsChecks.RdsDeletionProtection | custom-policy-crossguard-pkg/pyawsguard/src/pyawsguard/rds_checks.py:37-41 | never raises; reports once exactly when `deletionProtection` is absent or the string `"None"` on an instance |
| RdsChecks.DeletionProtectionValues | custom-policy-crossguard-pkg/pyawsguard/src/pyawsguard/rds_checks.py:39 | `False`, `True` and `None` pass; `"None"` and absence are reported |
| VpcChecks.VpcFlowLogs | custom-policy-crossguard-pkg/pyawsguard/src/pyawsguard/vpc_checks.py:37-42 | never raises; reports once exactly when `trafficType` is absent or not the string `"ALL"` on a flow log |
| VpcChecks.TrafficTypeValues | custom-policy-crossguard-pkg/pyawsguard/src/pyawsguard/vpc_checks.py:39 | `"ALL"` passes; `"all"`, `"ACCEPT"`, `"REJECT"` and absence are reported |
| GuardPack.Apply | custom-policy-crossguard-pkg/pyawsguard/src/pyawsguard/__main__.py:52-68 | each policy of the pack reports at most one violation and leaves a resource of another type alone |
| GuardPack.RunAll | custom-policy-crossguard-pkg/pyawsguard/src/pyawsguard/__main__.py:52-68 | running a list of policies gives one result per policy, in order, each the policy's own outcome |
| GuardPack.RunPack | custom-policy-crossguard-pkg/pyawsguard/src/pyawsguard/__main__.py:49-69 | fifteen results, result `i` being the name, type and outcome of the pack's `i`-th policy; each reports at most once; a resource of a type no policy names draws no violation and no exception |
| GuardPack.UnencryptedVolumeScenario | custom-policy-crossguard-pkg/pyawsguard/src/pyawsguard/__main__.py:58 | a volume with no `encrypted` property draws the EBS violation and nothing from the policies for other types |

## Left out

- The Pulumi policy host is not modelled. This covers `PolicyPack`, `ResourceValidationPolicy`, the `MANDATORY` enforcement level, how the host schedules policies, and what it does when a validator raises. `GuardPack.RunPack` only lists each policy's outcome in the pack's order.
- `log.error` in the volume check (`ebs_checks.py` lines 40 and 44) is a logging side effect and is not modelled.
- `open('data.txt', 'w')` in the bucket-policy check (`s3_checks.py` line 57) is not modelled. It is file I/O, and its own failures (permissions, disk) are outside the checks' logic.
- The output of the debug `print`s (`s3_checks.py` lines 63-64) is not modelled. The subscriptions they perform are modelled, because they decide when the check raises.
- JSON decoding is the parameter `decode` and is not specified further. The model has no floating-point values, so a JSON number with a fraction or exponent has no representation.
- `PyValue.ToInt` strips only the ASCII whitespace `int()` skips (space, `\t`, `\n`, `\v`, `\f`, `\r`), and accepts only ASCII digits in strings. Python's `int()` also strips Unicode whitespace and accepts other Unicode decimal digits. Floats, which `int()` would truncate, are not representable.
- ParseIntDecimal: the round trip `int(str(n)) == n` is stated for every integer. From CPython 3.11, `int()` of a string with more than 4300 digits raises `ValueError`, as does `str()` of such an integer. `PyValue.ToInt` has no such digit limit.
- Values of other Python types (tuples, sets, bytes, floats, Pulumi `Output` objects) are not representable. Properties are taken as JSON-like data.
- A dict's insertion order is not kept. Iterating a dict visits its keys in an order left open. No result of the checks depends on it, because every visited key raises (`PyValue.KeysRaiseFirst`).
- `pyawsguard.metric_object`, imported by `ec2_checks.py`, is not part of this model. It is never used by the checks.
- The sample Pulumi programs and `parser.py` under `sample-code/` are not modelled. They declare resources and post-process results, and hold none of the checks' logic.
- Ec2Checks.SecurityGroupSsh: its own contract states only the type gate, absent `ingress`, and at most one message. The full characterization for a list of rules is `Ec2Checks.SshReportIff`. For a dict or a string `ingress`, the function itself fixes the result: `TypeError` once non-empty, because every key or character is subscripted by a string.
- S3Checks.S3SslRequests: its own contract states only the type gate, the missing-policy message, and which messages can occur. The full characterization for a list of statements is `S3Checks.SslReportIff`.
