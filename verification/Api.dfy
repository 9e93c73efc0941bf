/** The vocabulary of the operator's custom resource: members, sync types, phases and
    the parts of specification and status that the reconcile protocol reads or writes. */
module Api {

  datatype Option<+T> = None | Some(value: T)

  /** The two local components of a cluster. */
  datatype Member = Master | Executor

  /** A sync type is a Go integer; codes outside the named range can be stored too. */
  datatype SyncName =
    | CreateType | UpgradeType | ScaleOutType | ScaleInType
    | ScaleUpType | ScaleDownType | DeleteType
    | OutOfRange(code: int)

  /** The four sync types that the operator itself records. */
  const OPERATOR_NAMES: set<SyncName> := {CreateType, UpgradeType, ScaleOutType, ScaleInType}

  datatype SyncStatus = Failed | Ongoing | Completed | Unknown

  datatype Phase =
    | NoPhase | Running | Starting | Creating | Upgrading | ScalingOut | ScalingIn
    | ScalingUp | ScalingDown | Deleting | FailedPhase | UnknownPhase

  datatype ClusterPhase =
    | ClusterUnset | ClusterStarting | ClusterReconciling | ClusterRunning
    | ClusterUnknown | ClusterFailed

  /** The phase shown while a sync type is ongoing. */
  function PhaseOf(name: SyncName): (p: Phase)
    ensures p != Running && p != NoPhase
    ensures p == Upgrading <==> name == UpgradeType
  {
    match name
    case CreateType => Creating
    case UpgradeType => Upgrading
    case ScaleOutType => ScalingOut
    case ScaleInType => ScalingIn
    case ScaleUpType => ScalingUp
    case ScaleDownType => ScalingDown
    case DeleteType => Deleting
    case OutOfRange(_) => UnknownPhase
  }

  /** The status block of a StatefulSet, as the operator copies it into its own status. */
  datatype StsStatus = StsStatus(
    replicas: nat, readyReplicas: nat, currentReplicas: nat, updatedReplicas: nat,
    currentRevision: string, updateRevision: string)

  const NEW_STS_STATUS: StsStatus := StsStatus(0, 0, 0, 0, "", "")

  /** What one call of the reconcile logic ends with. `Panic` is a Go nil dereference or
      index error: the reconcile dies and writes no status. */
  datatype Outcome = Done | NotReadyErr | SyncStatusErr | OtherErr | Panic

  /** A member as tiflow-master reports it. */
  datatype MemberInfo = MemberInfo(id: string, name: string, address: string)

  datatype MemberSpec = MemberSpec(replicas: nat, stateful: bool, onDelete: bool)

  datatype Spec = Spec(
    name: string, namespace: string, heterogeneous: bool,
    master: Option<MemberSpec>, executor: Option<MemberSpec>, forceUpgrade: bool)
  {
    function Of(m: Member): Option<MemberSpec> {
      if m.Master? then master else executor
    }
  }
}
