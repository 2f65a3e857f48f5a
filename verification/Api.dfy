/** The API objects the operator works on, as values: the DeviceConfig custom resource
    (api/v1alpha1/deviceconfig_types.go) and the four children it owns. */
module Api {
  import opened Json

  datatype Option<+T> = None | Some(value: T)

  /** Namespace and name of a DeviceConfig, the key of the work queue. */
  datatype Key = Key(ns: string, name: string)

  datatype ConfigSpec = ConfigSpec(
    useInTreeDrivers: bool,
    driversImage: string,
    devicePluginImage: string,
    customSchedulerImage: string,
    schedulerExtensionImage: string,
    imageRepoSecret: Option<string>,
    selector: Option<LabelMap>)

  /** A DeviceConfig; terminating means that its deletion timestamp is set. */
  datatype Config = Config(uid: nat, finalizers: seq<string>, terminating: bool, spec: ConfigSpec)

  /** The children in the order in which a reconcile pass creates them. */
  datatype Role = Module | Scheduler | Extension | Metrics

  function Order(r: Role): nat {
    match r
    case Module => 0
    case Scheduler => 1
    case Extension => 2
    case Metrics => 3
  }

  function Next(r: Role): (n: Role)
    requires r != Metrics
    ensures Order(n) == Order(r) + 1
  {
    match r
    case Module => Scheduler
    case Scheduler => Extension
    case Extension => Metrics
  }

  /** A child is found by the DeviceConfig it was named after and its role (see module Names). */
  datatype ChildKey = ChildKey(owner: Key, role: Role)

  datatype OwnerRef = OwnerRef(kind: OwnerKind, name: string, uid: nat, controller: bool)

  /** The group and kind an owner reference names: only the DeviceConfig kind matters here. */
  datatype OwnerKind = DeviceConfigKind | OtherKind(gk: string)

  datatype Child = Child(finalizers: seq<string>, terminating: bool, owners: seq<OwnerRef>, spec: Fields)

  /** What the API server fills in when it stores a child's spec. */
  type Defaulting = (Role, Fields) -> Fields

  /** What a pass depends on besides the cluster: the server's defaulting, and the three injected
      handlers, which between them turn a child's spec into the desired one. */
  datatype Site = Site(defaults: Defaulting, desire: (Key, ConfigSpec, Role, Fields) -> Fields)

  /** Defaulting an already defaulted spec changes nothing. */
  ghost predicate Idempotent(d: Defaulting) {
    forall r, f :: d(r, d(r, f)) == d(r, f)
  }
}
