/** The custom resources of api/v1 as values, the RPCs the operator sends and the
    outcomes a NETCONF client call can have. */
module Api {

  datatype Option<+T> = None | Some(value: T)

  /** The kinds of custom resource this model covers. */
  datatype Kind = MountPoint | Lock | EditConfig | Commit | Unlock | EstablishSubscription

  /** A namespaced name. Its string form is the key of the session cache. */
  datatype NsName = NsName(ns: string, name: string) {
    function Key(): string {
      ns + "/" + name
    }
  }

  datatype DependsOn = DependsOn(kind: string, name: string) {
    predicate IsNil() {
      |kind| == 0 || |name| == 0
    }
  }

  const NO_DEPENDENCY := DependsOn("", "")

  datatype Spec =
    | MountPointSpec(target: string, additionalCapabilities: seq<string>)
    | LockSpec(mountPoint: string, datastore: string)
    | EditConfigSpec(mountPoint: string, datastore: string, operation: string, xml: string,
                     dependsOn: DependsOn, lock: bool, commit: bool, unlock: bool)
    | CommitSpec(mountPoint: string, dependsOn: DependsOn)
    | UnlockSpec(mountPoint: string, datastore: string, dependsOn: DependsOn)
    | EstablishSubscriptionSpec(mountPoint: string, xml: string)
  {
    function Kind(): Kind {
      match this
      case MountPointSpec(_, _) => MountPoint
      case LockSpec(_, _) => Lock
      case EditConfigSpec(_, _, _, _, _, _, _, _) => EditConfig
      case CommitSpec(_, _) => Commit
      case UnlockSpec(_, _, _) => Unlock
      case EstablishSubscriptionSpec(_, _) => EstablishSubscription
    }

    /** The dependency named by the resource; kinds without the field have none. */
    function Dependency(): DependsOn {
      if EditConfigSpec? || CommitSpec? || UnlockSpec? then dependsOn else NO_DEPENDENCY
    }

    /** The session the resource works on: a MountPoint's own, otherwise the one it names. */
    function MountPointOf(nn: NsName): NsName {
      if MountPointSpec? then nn else NsName(nn.ns, mountPoint)
    }

    /** The RPCs the operator logic of the kind sends, in order, when nothing stops it. */
    function Script(): seq<Rpc> {
      match this
      case MountPointSpec(_, _) => []
      case LockSpec(_, ds) => [LockRpc(ds)]
      case EditConfigSpec(_, ds, op, x, _, l, c, u) =>
        (if l then [LockRpc(ds)] else []) + [EditConfigRpc(ds, op, x)]
        + (if c then [CommitRpc] else []) + (if u then [UnlockRpc(ds)] else [])
      case CommitSpec(_, _) => [CommitRpc]
      case UnlockSpec(_, ds, _) => [UnlockRpc(ds)]
      case EstablishSubscriptionSpec(_, x) => [EstablishSubscriptionRpc(x)]
    }
  }

  datatype Rpc =
    | LockRpc(datastore: string)
    | EditConfigRpc(datastore: string, operation: string, xml: string)
    | CommitRpc
    | UnlockRpc(datastore: string)
    | EstablishSubscriptionRpc(xml: string)
    | DeleteSubscriptionRpc(id: string)
    | CloseSessionRpc
    | KillSessionRpc
  {
    /** The message constructors panic on an unknown datastore, an unknown default operation
        or an edit whose payload is not XML. */
    predicate Buildable(xmlOk: bool) {
      && ((LockRpc? || EditConfigRpc? || UnlockRpc?) ==> datastore == "running" || datastore == "candidate")
      && (EditConfigRpc? ==> (operation == "merge" || operation == "replace" || operation == "none") && xmlOk)
    }
  }

  /** What a synchronous RPC hands back: no reply (and an error), or a reply that may come with an
      error, may carry rpc-errors, or may be clean. */
  datatype Outcome =
    | NoReply
    | Reply(err: bool, errors: bool, data: string, raw: string, subscriptionID: string)
  {
    predicate Clean() {
      Reply? && !err && !errors
    }

    predicate Err() {
      NoReply? || err
    }
  }

  datatype Status = Status(status: string, rpcReply: string, capabilities: seq<string>, subscriptionID: string)

  const NEW_STATUS := Status("", "", [], "")

  /** A stored resource. `uid` tells apart two objects that had the same name at different times. */
  datatype Obj = Obj(uid: nat, finalizers: set<string>, deleting: bool, spec: Spec, status: Status)

  datatype ObjKey = ObjKey(kind: Kind, nn: NsName)

  const MOUNTPOINT_FINALIZER := "io.openshift-telco.netconf.mountpoint.finalizer"
  const SUBSCRIPTION_FINALIZER := "io.openshift-telco.netconf.establishsubscription.finalizer"

  function OwnFinalizer(kind: Kind): Option<string> {
    match kind
    case MountPoint => Some(MOUNTPOINT_FINALIZER)
    case EstablishSubscription => Some(SUBSCRIPTION_FINALIZER)
    case _ => None
  }

  predicate Finalized(kind: Kind, obj: Obj) {
    OwnFinalizer(kind).Some? && OwnFinalizer(kind).value in obj.finalizers
  }

  /** The status a completed reconcile leaves, by kind and outcome. */
  function StatusName(kind: Kind, ok: bool): string {
    if !ok then "failed"
    else match kind
      case MountPoint => "connected"
      case EstablishSubscription => "subscribed"
      case _ => "success"
  }

  predicate NoSlash(s: string) {
    '/' !in s
  }

  /** The namespace of a key ends at its first slash. */
  lemma FirstSlash(n: NsName, i: nat)
    requires NoSlash(n.ns) && i <= |n.ns|
    ensures n.Key()[i] == '/' <==> i == |n.ns|
  {
    if i < |n.ns| {
      assert n.Key()[i] == n.ns[i];
    }
  }

  /** `namespace/name` is injective as soon as the namespaces hold no slash, whatever the names hold. */
  lemma KeyInjective(a: NsName, b: NsName)
    requires NoSlash(a.ns) && NoSlash(b.ns)
    requires a.Key() == b.Key()
    ensures a == b
  {
    var n := if |a.ns| < |b.ns| then |a.ns| else |b.ns|;
    FirstSlash(a, n);
    FirstSlash(b, n);
    assert a.ns == a.Key()[..n] == b.ns;
    assert a.name == a.Key()[n + 1..] == b.name;
  }
}
