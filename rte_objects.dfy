/**
 * The three object lists of a manifest set (package manifests/rte): every object for
 * rendering, the creation plan and the deletion plan. Each list is specified as the set's
 * objects of some kinds, in one fixed order of kinds per list.
 */
module RteObjects {
  import opened Platform
  import opened Objects
  import opened Rte


  datatype Kind = NamespaceKind | ServiceAccountKind | RoleKind | RoleBindingKind | ConfigMapKind | DaemonSetKind

  /** An entry of an object list: one of the set's objects, which may be nil where the source lists a nil pointer. */
  datatype Obj =
    | NamespaceObj(ns: Namespace?)
    | ServiceAccountObj(sa: ServiceAccount?)
    | RoleObj(role: Role)
    | RoleBindingObj(roleBinding: RoleBinding)
    | ConfigMapObj(cm: ConfigMap?)
    | DaemonSetObj(ds: DaemonSet)
  {
    function Kind(): Kind
    {
      match this
      case NamespaceObj(_) => NamespaceKind
      case ServiceAccountObj(_) => ServiceAccountKind
      case RoleObj(_) => RoleKind
      case RoleBindingObj(_) => RoleBindingKind
      case ConfigMapObj(_) => ConfigMapKind
      case DaemonSetObj(_) => DaemonSetKind
    }
  }

  /** The set's own object of kind `k`. */
  function Member(mf: Manifests, k: Kind): Obj
  {
    match k
    case NamespaceKind => NamespaceObj(mf.namespaceObj)
    case ServiceAccountKind => ServiceAccountObj(mf.serviceAccountObj)
    case RoleKind => RoleObj(mf.role)
    case RoleBindingKind => RoleBindingObj(mf.roleBinding)
    case ConfigMapKind => ConfigMapObj(mf.configMap)
    case DaemonSetKind => DaemonSetObj(mf.daemonSet)
  }

  /**
   * A wait step attached to an entry. It holds the object it watches and, like the closure
   * of the source, reads that object's namespace and name only when it runs: pods matching
   * the DaemonSet's name running (or gone) in its namespace, or the Namespace gone.
   */
  datatype Wait =
    | NoWait
    | PodsRunningByRegex(ds: DaemonSet)
    | PodsGoneByRegex(ds: DaemonSet)
    | NamespaceGone(ns: Namespace?)

  datatype WaitableObject = WaitableObject(obj: Obj, wait: Wait)

  function ObjectsOf(ws: seq<WaitableObject>): (objs: seq<Obj>)
    ensures |objs| == |ws|
    ensures forall i | 0 <= i < |ws| :: objs[i] == ws[i].obj
  {
    seq(|ws|, i requires 0 <= i < |ws| => ws[i].obj)
  }

  /** The three orders in which the set's objects are listed. */
  datatype Listing = Rendering | Creation | Deletion

  /**
   * Every kind, in the order of a listing: rendering puts the ServiceAccount before the
   * Namespace; creation puts the ConfigMap before the Role; deletion starts with the
   * DaemonSet (the Namespace and ServiceAccount are never deleted one by one, and only
   * close the order).
   */
  function Order(l: Listing): (o: seq<Kind>)
    ensures |o| == 6
  {
    match l
    case Rendering => [ServiceAccountKind, NamespaceKind, RoleKind, RoleBindingKind, ConfigMapKind, DaemonSetKind]
    case Creation => [NamespaceKind, ServiceAccountKind, ConfigMapKind, RoleKind, RoleBindingKind, DaemonSetKind]
    case Deletion => [DaemonSetKind, RoleKind, RoleBindingKind, ConfigMapKind, NamespaceKind, ServiceAccountKind]
  }

  /** The set's object of kind `k` if `k` is listed, nothing otherwise. */
  function Pick(mf: Manifests, k: Kind, kinds: set<Kind>): seq<Obj>
  {
    if k in kinds then [Member(mf, k)] else []
  }

  /** The set's objects of the kinds in `kinds`, in the order of listing `l`. */
  function Listed(mf: Manifests, l: Listing, kinds: set<Kind>): seq<Obj>
  {
    var o := Order(l);
    Pick(mf, o[0], kinds) + Pick(mf, o[1], kinds) + Pick(mf, o[2], kinds)
    + Pick(mf, o[3], kinds) + Pick(mf, o[4], kinds) + Pick(mf, o[5], kinds)
  }

  /** The rendered list holds the ServiceAccount on Kubernetes, and the Namespace and ConfigMap when present. */
  function RenderedKinds(mf: Manifests): set<Kind>
  {
    {RoleKind, RoleBindingKind, DaemonSetKind}
    + (if mf.plat == Kubernetes then {ServiceAccountKind} else {})
    + (if mf.namespaceObj != null then {NamespaceKind} else {})
    + (if mf.configMap != null then {ConfigMapKind} else {})
  }

  /** Creation lists the Namespace and the ServiceAccount on Kubernetes, and the ConfigMap when present. */
  function CreatedKinds(mf: Manifests): set<Kind>
  {
    {RoleKind, RoleBindingKind, DaemonSetKind}
    + (if mf.plat == Kubernetes then {NamespaceKind, ServiceAccountKind} else {})
    + (if mf.configMap != null then {ConfigMapKind} else {})
  }

  /** Off Kubernetes, deletion lists the DaemonSet, Role, RoleBinding and the ConfigMap when present. */
  function DeletedKinds(mf: Manifests): set<Kind>
  {
    {DaemonSetKind, RoleKind, RoleBindingKind}
    + (if mf.configMap != null then {ConfigMapKind} else {})
  }

  /** Every object of the set, for rendering: ServiceAccount (Kubernetes), Namespace, Role, RoleBinding, ConfigMap, DaemonSet. */
  function ToObjects(mf: Manifests): (objs: seq<Obj>)
    ensures objs == Listed(mf, Rendering, RenderedKinds(mf))
  {
    var base := [RoleObj(mf.role), RoleBindingObj(mf.roleBinding)];
    var withConfig := if mf.configMap != null then base + [ConfigMapObj(mf.configMap)] else base;
    var withDaemonSet := withConfig + [DaemonSetObj(mf.daemonSet)];
    var withNamespace := if mf.namespaceObj != null then [NamespaceObj(mf.namespaceObj)] + withDaemonSet else withDaemonSet;
    if mf.plat == Kubernetes then [ServiceAccountObj(mf.serviceAccountObj)] + withNamespace else withNamespace
  }

  /**
   * The creation plan: Namespace and ServiceAccount (Kubernetes), ConfigMap, Role,
   * RoleBinding, DaemonSet; only the DaemonSet waits, for its pods to run.
   */
  function ToCreatableObjects(mf: Manifests): (ws: seq<WaitableObject>)
    ensures ObjectsOf(ws) == Listed(mf, Creation, CreatedKinds(mf))
    ensures forall i | 0 <= i < |ws| ::
              ws[i].wait == if ws[i].obj.DaemonSetObj? then PodsRunningByRegex(mf.daemonSet) else NoWait
  {
    var objs := [WaitableObject(RoleObj(mf.role), NoWait),
                 WaitableObject(RoleBindingObj(mf.roleBinding), NoWait),
                 WaitableObject(DaemonSetObj(mf.daemonSet), PodsRunningByRegex(mf.daemonSet))];
    var withConfig := if mf.configMap != null then [WaitableObject(ConfigMapObj(mf.configMap), NoWait)] + objs else objs;
    if mf.plat == Kubernetes then
      [WaitableObject(NamespaceObj(mf.namespaceObj), NoWait),
       WaitableObject(ServiceAccountObj(mf.serviceAccountObj), NoWait)] + withConfig
    else withConfig
  }

  /**
   * The deletion plan: on Kubernetes the Namespace alone, waiting for it to be gone;
   * elsewhere DaemonSet, Role, RoleBinding, ConfigMap, where only the DaemonSet waits, for
   * its pods to be gone.
   */
  function ToDeletableObjects(mf: Manifests): (ws: seq<WaitableObject>)
    ensures mf.plat == Kubernetes ==>
              |ws| == 1 && ws[0].obj == Member(mf, NamespaceKind) && ws[0].wait == NamespaceGone(mf.namespaceObj)
    ensures mf.plat != Kubernetes ==> ObjectsOf(ws) == Listed(mf, Deletion, DeletedKinds(mf))
    ensures mf.plat != Kubernetes ==> forall i | 0 <= i < |ws| ::
              ws[i].wait == if ws[i].obj.DaemonSetObj? then PodsGoneByRegex(mf.daemonSet) else NoWait
  {
    if mf.plat == Kubernetes then
      [WaitableObject(NamespaceObj(mf.namespaceObj), NamespaceGone(mf.namespaceObj))]
    else
      var objs := [WaitableObject(DaemonSetObj(mf.daemonSet), PodsGoneByRegex(mf.daemonSet)),
                   WaitableObject(RoleObj(mf.role), NoWait),
                   WaitableObject(RoleBindingObj(mf.roleBinding), NoWait)];
      if mf.configMap != null then objs + [WaitableObject(ConfigMapObj(mf.configMap), NoWait)] else objs
  }

}
