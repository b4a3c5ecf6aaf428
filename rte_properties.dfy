/**
 * What the manifest set promises beyond the contracts of its operations: which objects
 * each list holds and where, how the creation and deletion plans relate, and what an
 * update does to a set and to a set it already updated.
 */
module RteProperties {
  import opened Wrappers
  import opened Platform
  import opened Objects
  import opened Rte
  import opened RteObjects
  import opened Sequencing

  // ---------------------------------------------------------------------------------------
  // The listing specification

  lemma MemberKind(mf: Manifests, k: Kind)
    ensures Member(mf, k).Kind() == k
  {
  }

  lemma PickHolds(mf: Manifests, k: Kind, k': Kind, kinds: set<Kind>)
    ensures Member(mf, k) in Pick(mf, k', kinds) <==> k == k' && k in kinds
  {
    MemberKind(mf, k);
    MemberKind(mf, k');
  }

  lemma PickOnly(mf: Manifests, k: Kind, kinds: set<Kind>, x: Obj)
    ensures x in Pick(mf, k, kinds) ==> x == Member(mf, k) && k in kinds && x.Kind() == k
  {
    MemberKind(mf, k);
  }

  /** A listing holds the set's object of a kind exactly when that kind is listed. */
  lemma ListedHolds(mf: Manifests, l: Listing, kinds: set<Kind>, k: Kind)
    ensures Member(mf, k) in Listed(mf, l, kinds) <==> k in kinds
  {
    var o := Order(l);
    PickHolds(mf, k, o[0], kinds);
    PickHolds(mf, k, o[1], kinds);
    PickHolds(mf, k, o[2], kinds);
    PickHolds(mf, k, o[3], kinds);
    PickHolds(mf, k, o[4], kinds);
    PickHolds(mf, k, o[5], kinds);
  }

  /** A listing holds nothing but the set's own objects, of listed kinds. */
  lemma ListedMembers(mf: Manifests, l: Listing, kinds: set<Kind>)
    ensures forall x | x in Listed(mf, l, kinds) :: x == Member(mf, x.Kind()) && x.Kind() in kinds
  {
    var o := Order(l);
    forall x | x in Listed(mf, l, kinds)
      ensures x == Member(mf, x.Kind()) && x.Kind() in kinds
    {
      PickOnly(mf, o[0], kinds, x);
      PickOnly(mf, o[1], kinds, x);
      PickOnly(mf, o[2], kinds, x);
      PickOnly(mf, o[3], kinds, x);
      PickOnly(mf, o[4], kinds, x);
      PickOnly(mf, o[5], kinds, x);
    }
  }

  // ---------------------------------------------------------------------------------------
  // Rendering

  /** An entry that stands for a nil pointer. */
  predicate NilEntry(x: Obj)
  {
    (x.NamespaceObj? && x.ns == null) ||
    (x.ServiceAccountObj? && x.sa == null) ||
    (x.ConfigMapObj? && x.cm == null)
  }

  /**
   * The rendered list holds the set's object of a kind exactly when that kind is rendered:
   * the ServiceAccount exactly on Kubernetes, the Namespace and the ConfigMap exactly when
   * the set has them, and always the Role, RoleBinding and DaemonSet.
   */
  lemma RenderedObjects(mf: Manifests, k: Kind)
    ensures Member(mf, k) in ToObjects(mf) <==> k in RenderedKinds(mf)
  {
    ListedHolds(mf, Rendering, RenderedKinds(mf), k);
  }

  /** The rendered list of a set the constructors built holds no nil entry. */
  lemma RenderedOwnedHasNoNil(mf: Manifests)
    requires Owned(View(mf))
    ensures forall x | x in ToObjects(mf) :: !NilEntry(x)
  {
    ListedMembers(mf, Rendering, RenderedKinds(mf));
  }

  /**
   * On Kubernetes the rendered list opens with the ServiceAccount, then the Namespace when
   * the set has one; elsewhere it opens with the Namespace when there is one. It always
   * closes with the DaemonSet.
   */
  lemma RenderingOrder(mf: Manifests)
    ensures var objs := ToObjects(mf);
      |objs| >= 3 && objs[|objs| - 1] == DaemonSetObj(mf.daemonSet) &&
      (mf.plat == Kubernetes ==> objs[0] == ServiceAccountObj(mf.serviceAccountObj)) &&
      (mf.plat == Kubernetes && mf.namespaceObj != null ==> objs[1] == NamespaceObj(mf.namespaceObj)) &&
      (mf.plat != Kubernetes && mf.namespaceObj != null ==> objs[0] == NamespaceObj(mf.namespaceObj))
  {
  }

  // ---------------------------------------------------------------------------------------
  // Creation and deletion

  /**
   * Creation opens, on Kubernetes, with the Namespace and then the ServiceAccount, creates
   * the ConfigMap before the DaemonSet that mounts it, and closes with the DaemonSet.
   */
  lemma CreationOrder(mf: Manifests)
    ensures var objs := ObjectsOf(ToCreatableObjects(mf));
      |objs| >= 3 && objs[|objs| - 1] == DaemonSetObj(mf.daemonSet) &&
      (mf.plat == Kubernetes ==>
         objs[0] == NamespaceObj(mf.namespaceObj) && objs[1] == ServiceAccountObj(mf.serviceAccountObj)) &&
      (mf.configMap != null ==> ConfigMapObj(mf.configMap) in objs[..|objs| - 1])
  {
    var tail := [RoleObj(mf.role), RoleBindingObj(mf.roleBinding), DaemonSetObj(mf.daemonSet)];
    var withConfig := if mf.configMap != null then [ConfigMapObj(mf.configMap)] + tail else tail;
    var objs := if mf.plat == Kubernetes
                then [NamespaceObj(mf.namespaceObj), ServiceAccountObj(mf.serviceAccountObj)] + withConfig
                else withConfig;
    assert ObjectsOf(ToCreatableObjects(mf)) == objs;
  }

  /**
   * For a set whose Namespace is present exactly on Kubernetes (every set `GetManifests`
   * builds), creation and rendering hold the same objects, in different orders.
   */
  lemma CreationMatchesRendering(mf: Manifests, k: Kind)
    requires mf.namespaceObj != null <==> mf.plat == Kubernetes
    ensures Member(mf, k) in ObjectsOf(ToCreatableObjects(mf)) <==> Member(mf, k) in ToObjects(mf)
  {
    ListedHolds(mf, Creation, CreatedKinds(mf), k);
    ListedHolds(mf, Rendering, RenderedKinds(mf), k);
  }

  /**
   * A set built for a given namespace on Kubernetes has no Namespace object, yet creation
   * still lists its nil Namespace first, and deletion lists only that nil Namespace.
   */
  lemma NamespacedSetListsNilNamespace(mf: Manifests)
    requires mf.plat == Kubernetes && mf.namespaceObj == null
    ensures NilEntry(ObjectsOf(ToCreatableObjects(mf))[0])
    ensures ToDeletableObjects(mf) == [WaitableObject(NamespaceObj(null), NamespaceGone(null))]
  {
    CreationOrder(mf);
  }

  /**
   * Off Kubernetes, deletion removes exactly the objects creation made, and in the opposite
   * position for the DaemonSet: created last, deleted first. On Kubernetes, deletion removes
   * only the object created first, the Namespace, and waits for it to be gone.
   */
  lemma DeletionUndoesCreation(mf: Manifests, k: Kind)
    ensures mf.plat != Kubernetes ==>
              (Member(mf, k) in ObjectsOf(ToDeletableObjects(mf)) <==> Member(mf, k) in ObjectsOf(ToCreatableObjects(mf)))
    ensures mf.plat != Kubernetes ==> ToDeletableObjects(mf)[0].obj == DaemonSetObj(mf.daemonSet)
    ensures mf.plat == Kubernetes ==>
              |ToDeletableObjects(mf)| == 1 &&
              ToDeletableObjects(mf)[0].obj == ObjectsOf(ToCreatableObjects(mf))[0] &&
              ToDeletableObjects(mf)[0].wait == NamespaceGone(mf.namespaceObj)
  {
    CreationOrder(mf);
    if mf.plat != Kubernetes {
      ListedHolds(mf, Deletion, DeletedKinds(mf), k);
      ListedHolds(mf, Creation, CreatedKinds(mf), k);
    }
  }

  // ---------------------------------------------------------------------------------------
  // Clone and Update

  /** A set the constructors built loses only its ConfigMap when cloned. */
  lemma CloneKeepsOwnedSet(v: SetView)
    requires Owned(v)
    ensures ClonedView(v) == v.(configMap := None)
  {
  }

  /**
   * Off Kubernetes the clone never has a ServiceAccount, so the unconditional write in
   * `Update` has nothing to write to there; on Kubernetes a set the constructors built has one.
   */
  lemma CloneServiceAccountOnlyOnKubernetes(v: SetView)
    ensures v.plat != Kubernetes ==> ClonedView(v).serviceAccountObj.None?
    ensures Owned(v) ==> (ClonedView(v).serviceAccountObj.Some? <==> v.plat == Kubernetes)
  {
  }

  /**
   * Every set `GetManifests` builds for OpenShift, from any templates, lies outside the
   * domain of `Update`: it has no ServiceAccount, nor does its clone, so the unconditional
   * write in `Update` has nothing to write to. Such a set is built whenever the OpenShift
   * loaders succeed.
   */
  method UpdateUndefinedOffKubernetes(tpl: Templates) returns (r: Result<Manifests>)
    ensures FirstError(ManifestLoads(OpenShift, tpl)).None? ==> r.Success?
    ensures r.Success? ==> r.value.plat == OpenShift && r.value.serviceAccountObj == null
    ensures r.Success? ==> !(r.value.plat == Kubernetes && r.value.serviceAccountObj != null)
    ensures r.Success? ==> ClonedView(View(r.value)).serviceAccountObj.None?
  {
    r := GetManifests(OpenShift, tpl);
  }

  /**
   * The update carries a ConfigMap exactly when a payload is given: named `rte-config`, in
   * the set's namespace, holding the payload as `config.yaml` and nothing else. Whatever
   * ConfigMap the input set had is dropped.
   */
  lemma UpdateConfigMap(v: SetView, options: UpdateOptions)
    ensures UpdatedView(v, options).configMap.Some? <==> |options.configData| > 0
    ensures |options.configData| > 0 ==>
              var cm := UpdatedView(v, options).configMap.value;
              cm.kind == "ConfigMap" && cm.apiVersion == "v1" &&
              cm.meta == Meta("rte-config", v.namespace) &&
              cm.data.Keys == {"config.yaml"} && cm.data["config.yaml"] == options.configData
    ensures forall c :: UpdatedView(v.(configMap := c), options) == UpdatedView(v, options)
  {
  }

  /**
   * The update moves the Role, the DaemonSet and the ServiceAccount into the set's namespace
   * and makes the DaemonSet run as the set's service account; it keeps every name, the
   * Namespace and the internal fields. The RoleBinding is kept because the RoleBinding and
   * DaemonSet patchers the update also calls are modelled as doing nothing.
   */
  lemma UpdateRetargets(v: SetView, options: UpdateOptions)
    ensures var u := UpdatedView(v, options);
      u.role == Meta(v.role.name, v.namespace) &&
      u.daemonSet.meta == Meta(v.daemonSet.meta.name, v.namespace) &&
      u.daemonSet.serviceAccountName == v.serviceAccount &&
      (u.serviceAccountObj.Some? <==> v.plat == Kubernetes && v.serviceAccountObj.Some?) &&
      (u.serviceAccountObj.Some? ==> u.serviceAccountObj.value == Meta(v.serviceAccountObj.value.name, v.namespace)) &&
      u.roleBinding == v.roleBinding && u.namespaceObj == v.namespaceObj &&
      u.plat == v.plat && u.namespace == v.namespace && u.serviceAccount == v.serviceAccount
  {
  }

  /** Updating keeps a set the constructors built in that shape. */
  lemma UpdateKeepsOwned(v: SetView, options: UpdateOptions)
    requires Owned(v)
    ensures Owned(UpdatedView(v, options))
  {
  }

  /**
   * Updating an updated set with the same options changes none of the modelled fields (the
   * patchers, modelled as doing nothing, are left out of this claim).
   */
  lemma UpdateIdempotent(v: SetView, options: UpdateOptions)
    ensures UpdatedView(UpdatedView(v, options), options) == UpdatedView(v, options)
  {
  }

  /** The two sets hold no object in common, field by field. */
  predicate SharesNoObject(a: Manifests, b: Manifests)
  {
    a.role != b.role && a.roleBinding != b.roleBinding && a.daemonSet != b.daemonSet &&
    (a.namespaceObj != null ==> a.namespaceObj != b.namespaceObj) &&
    (a.serviceAccountObj != null ==> a.serviceAccountObj != b.serviceAccountObj) &&
    (a.configMap != null ==> a.configMap != b.configMap)
  }

  /**
   * Updating the same set twice with the corrected update gives two sets of equal value
   * that share no object with each other or with the input, whose own value is left as it was.
   */
  method UpdateRepeatable(mf: Manifests, options: UpdateOptions) returns (a: Manifests, b: Manifests)
    ensures View(a) == View(b) == UpdatedView(View(mf), options)
    ensures SharesNoObject(a, b) && SharesNoObject(a, mf) && SharesNoObject(b, mf)
  {
    a := UpdateGuarded(mf, options);
    b := UpdateGuarded(mf, options);
  }

  /** The same for `Update` as written, on the sets it is defined for. */
  method UpdateRepeatableAsWritten(mf: Manifests, options: UpdateOptions) returns (a: Manifests, b: Manifests)
    requires mf.plat == Kubernetes && mf.serviceAccountObj != null
    ensures View(a) == View(b) == UpdatedView(View(mf), options)
    ensures SharesNoObject(a, b) && SharesNoObject(a, mf) && SharesNoObject(b, mf)
  {
    a := Update(mf, options);
    b := Update(mf, options);
  }
}
