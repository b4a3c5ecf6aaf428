/**
 * The manifest set of the resource-topology-exporter (package manifests/rte): the objects
 * the exporter needs, how the set is built from templates, cloned and patched, and how it
 * is turned into the ordered lists that are rendered, created and deleted.
 *
 * A set is a value (`Manifests`, like the Go struct) whose object fields are references to
 * heap objects. `View` reads those objects and gives the value of the whole set; `Clone`,
 * `Update` and the two constructors are methods because they allocate objects, and each is
 * specified by the view of what it returns.
 */
module Rte {
  import opened Wrappers
  import opened Platform
  import opened Objects
  import opened Sequencing

  /** The namespace and service account the exporter reuses on a platform other than Kubernetes. */
  const NamespaceOCP: string := "openshift-monitoring"
  const ServiceAccountOCP: string := "node-exporter"

  /** Name of the ConfigMap that carries the exporter's configuration, and the file it holds. */
  const ConfigMapName: string := "rte-config"
  const ConfigFileName: string := "config.yaml"

  datatype Manifests = Manifests(
    namespaceObj: Namespace?,
    serviceAccountObj: ServiceAccount?,
    role: Role,
    roleBinding: RoleBinding,
    configMap: ConfigMap?,
    daemonSet: DaemonSet,
    // internal fields
    plat: Platform,
    namespace: string,
    serviceAccount: string)

  /** The value of a set at one moment: absent objects are `None`, present ones their view. */
  datatype SetView = SetView(
    namespaceObj: Option<string>,
    serviceAccountObj: Option<Meta>,
    role: Meta,
    roleBinding: Meta,
    configMap: Option<ConfigMapView>,
    daemonSet: DaemonSetView,
    plat: Platform,
    namespace: string,
    serviceAccount: string)

  function View(mf: Manifests): (v: SetView)
    reads mf.namespaceObj, mf.serviceAccountObj, mf.role, mf.roleBinding, mf.configMap, mf.daemonSet
    ensures v.namespaceObj.Some? <==> mf.namespaceObj != null
    ensures v.serviceAccountObj.Some? <==> mf.serviceAccountObj != null
    ensures v.configMap.Some? <==> mf.configMap != null
    ensures v.plat == mf.plat && v.namespace == mf.namespace && v.serviceAccount == mf.serviceAccount
  {
    SetView(
      if mf.namespaceObj != null then Some(mf.namespaceObj.name) else None,
      if mf.serviceAccountObj != null then Some(mf.serviceAccountObj.View()) else None,
      mf.role.View(),
      mf.roleBinding.View(),
      if mf.configMap != null then Some(mf.configMap.View()) else None,
      mf.daemonSet.View(),
      mf.plat, mf.namespace, mf.serviceAccount)
  }

  /**
   * Which objects a set owns for its platform: a ServiceAccount exactly on Kubernetes, and a
   * Namespace only there. Every set the constructors build has this shape.
   */
  predicate Owned(v: SetView)
  {
    (v.serviceAccountObj.Some? <==> v.plat == Kubernetes) &&
    (v.namespaceObj.Some? ==> v.plat == Kubernetes)
  }

  // ---------------------------------------------------------------------------------------
  // Clone and Update

  /**
   * What a clone holds: every object of the set except the ConfigMap, which is never copied,
   * and the ServiceAccount, which is copied on Kubernetes only.
   */
  function ClonedView(v: SetView): SetView
  {
    v.(serviceAccountObj := if v.plat == Kubernetes then v.serviceAccountObj else None,
       configMap := None)
  }

  method Clone(mf: Manifests) returns (ret: Manifests)
    ensures View(ret) == ClonedView(old(View(mf)))
    ensures fresh(ret.role) && fresh(ret.roleBinding) && fresh(ret.daemonSet)
    ensures ret.namespaceObj != null ==> fresh(ret.namespaceObj)
    ensures ret.serviceAccountObj != null ==> fresh(ret.serviceAccountObj)
  {
    var role := mf.role.DeepCopy();
    var roleBinding := mf.roleBinding.DeepCopy();
    var daemonSet := mf.daemonSet.DeepCopy();
    // DeepCopy of a nil object is nil
    var serviceAccountObj: ServiceAccount? := null;
    if mf.plat == Kubernetes && mf.serviceAccountObj != null {
      serviceAccountObj := mf.serviceAccountObj.DeepCopy();
    }
    var namespaceObj: Namespace? := null;
    if mf.namespaceObj != null {
      namespaceObj := mf.namespaceObj.DeepCopy();
    }
    ret := Manifests(namespaceObj, serviceAccountObj, role, roleBinding, null, daemonSet,
                     mf.plat, mf.namespace, mf.serviceAccount);
  }

  datatype UpdateOptions = UpdateOptions(configData: string, pullIfNotPresent: bool)

  /** The ConfigMap built for a configuration payload. */
  function RteConfigMap(namespace: string, configData: string): ConfigMapView
  {
    ConfigMapView("ConfigMap", "v1", Meta(ConfigMapName, namespace), map[ConfigFileName := configData])
  }

  method CreateConfigMap(namespace: string, configData: string) returns (cm: ConfigMap)
    ensures fresh(cm) && cm.View() == RteConfigMap(namespace, configData)
  {
    cm := new ConfigMap(RteConfigMap(namespace, configData));
  }

  /**
   * What an update of a set with view `v` holds: its clone, with the internal namespace
   * written into the ServiceAccount (when the clone has one), the Role and the DaemonSet,
   * the internal service account into the DaemonSet's pod template, and a fresh ConfigMap
   * exactly when a configuration payload is given.
   */
  function UpdatedView(v: SetView, options: UpdateOptions): SetView
  {
    var c := ClonedView(v);
    c.(serviceAccountObj := if c.serviceAccountObj.Some?
                            then Some(c.serviceAccountObj.value.(namespace := v.namespace))
                            else None,
       configMap := if |options.configData| > 0
                    then Some(RteConfigMap(v.namespace, options.configData))
                    else None,
       daemonSet := DaemonSetView(v.daemonSet.meta.(namespace := v.namespace), v.serviceAccount),
       role := v.role.(namespace := v.namespace))
  }

  /**
   * Update as the source writes it: it stores the namespace into the clone's ServiceAccount
   * unconditionally, so it needs that clone to have one, which it has on Kubernetes only.
   * The RoleBinding and DaemonSet patchers it calls next are not part of this model.
   */
  method Update(mf: Manifests, options: UpdateOptions) returns (ret: Manifests)
    requires mf.plat == Kubernetes && mf.serviceAccountObj != null
    ensures View(ret) == UpdatedView(old(View(mf)), options)
    ensures fresh(ret.role) && fresh(ret.roleBinding) && fresh(ret.daemonSet)
    ensures ret.namespaceObj != null ==> fresh(ret.namespaceObj)
    ensures ret.serviceAccountObj != null ==> fresh(ret.serviceAccountObj)
    ensures ret.configMap != null ==> fresh(ret.configMap)
  {
    ret := Clone(mf);
    ret.serviceAccountObj.namespace := mf.namespace;
    if |options.configData| > 0 {
      var cm := CreateConfigMap(mf.namespace, options.configData);
      ret := ret.(configMap := cm);
    }
    ret.daemonSet.namespace := mf.namespace;
    ret.daemonSet.serviceAccountName := mf.serviceAccount;
    ret.role.namespace := mf.namespace;
  }

  /**
   * Update with the ServiceAccount write guarded, so that it is defined for a set of every
   * platform: the same result as `Update` wherever `Update` is defined.
   */
  method UpdateGuarded(mf: Manifests, options: UpdateOptions) returns (ret: Manifests)
    ensures View(ret) == UpdatedView(old(View(mf)), options)
    ensures fresh(ret.role) && fresh(ret.roleBinding) && fresh(ret.daemonSet)
    ensures ret.namespaceObj != null ==> fresh(ret.namespaceObj)
    ensures ret.serviceAccountObj != null ==> fresh(ret.serviceAccountObj)
    ensures ret.configMap != null ==> fresh(ret.configMap)
  {
    ret := Clone(mf);
    if ret.serviceAccountObj != null {
      ret.serviceAccountObj.namespace := mf.namespace;
    }
    if |options.configData| > 0 {
      var cm := CreateConfigMap(mf.namespace, options.configData);
      ret := ret.(configMap := cm);
    }
    ret.daemonSet.namespace := mf.namespace;
    ret.daemonSet.serviceAccountName := mf.serviceAccount;
    ret.role.namespace := mf.namespace;
  }

  // ---------------------------------------------------------------------------------------
  // Construction from templates

  /**
   * What each template loader returns: the template object's value, or the error it fails
   * with. The loaders only read embedded templates, so each always gives the same answer.
   */
  datatype Templates = Templates(
    namespace: Result<string>,
    serviceAccount: Result<Meta>,
    role: Result<Meta>,
    roleBinding: Result<Meta>,
    daemonSet: Result<DaemonSetView>)

  /** Outcomes of the loaders `GetManifests` calls, in the order it calls them. */
  function ManifestLoads(plat: Platform, tpl: Templates): seq<Option<Error>>
  {
    (if plat == Kubernetes then [tpl.namespace.Err(), tpl.serviceAccount.Err()] else [])
    + [tpl.role.Err(), tpl.roleBinding.Err(), tpl.daemonSet.Err()]
  }

  /** Outcomes of the loaders `GetManifestsForNamespace` calls, in the order it calls them. */
  function NamespacedLoads(plat: Platform, tpl: Templates): seq<Option<Error>>
  {
    (if plat == Kubernetes then [tpl.serviceAccount.Err()] else [])
    + [tpl.role.Err(), tpl.roleBinding.Err(), tpl.daemonSet.Err()]
  }

  /** Both constructors call the Role, RoleBinding and DaemonSet loaders last, in that order. */
  lemma WorkloadLoads(plat: Platform, tpl: Templates)
    ensures var w := [tpl.role.Err(), tpl.roleBinding.Err(), tpl.daemonSet.Err()];
      FirstError(w) == (if tpl.role.Failure? then tpl.role.Err()
                        else if tpl.roleBinding.Failure? then tpl.roleBinding.Err()
                        else tpl.daemonSet.Err()) &&
      FirstError(ManifestLoads(plat, tpl))
        == (if plat == Kubernetes && tpl.namespace.Failure? then tpl.namespace.Err()
            else if plat == Kubernetes && tpl.serviceAccount.Failure? then tpl.serviceAccount.Err()
            else FirstError(w)) &&
      FirstError(NamespacedLoads(plat, tpl))
        == (if plat == Kubernetes && tpl.serviceAccount.Failure? then tpl.serviceAccount.Err()
            else FirstError(w))
  {
    var w := [tpl.role.Err(), tpl.roleBinding.Err(), tpl.daemonSet.Err()];
    OutcomesOfThree(tpl.role.Err(), tpl.roleBinding.Err(), tpl.daemonSet.Err());
    var p := if plat == Kubernetes then [tpl.namespace.Err(), tpl.serviceAccount.Err()] else [];
    var q := if plat == Kubernetes then [tpl.serviceAccount.Err()] else [];
    FirstErrorAppend(p, w);
    FirstErrorAppend(q, w);
    if plat == Kubernetes {
      assert p[1..] == [tpl.serviceAccount.Err()];
    }
  }

  /**
   * Builds the set from templates, returning the first loader error. On Kubernetes the set
   * owns the Namespace and ServiceAccount of the templates and takes its internal namespace
   * and service account from their names; elsewhere it owns neither and uses the fixed
   * well-known names.
   */
  method GetManifests(plat: Platform, tpl: Templates) returns (r: Result<Manifests>)
    ensures r.Failure? <==> FirstError(ManifestLoads(plat, tpl)).Some?
    ensures r.Failure? ==> r.error == FirstError(ManifestLoads(plat, tpl)).value
    ensures r.Success? ==> tpl.role.Success? && tpl.roleBinding.Success? && tpl.daemonSet.Success?
    ensures r.Success? && plat == Kubernetes ==> tpl.namespace.Success? && tpl.serviceAccount.Success?
    ensures r.Success? ==> Owned(View(r.value)) && View(r.value).plat == plat && View(r.value).configMap.None?
    ensures r.Success? ==> var v := View(r.value);
              v.role == tpl.role.value && v.roleBinding == tpl.roleBinding.value && v.daemonSet == tpl.daemonSet.value
    ensures r.Success? && plat == Kubernetes ==> var v := View(r.value);
              v.namespaceObj == Some(tpl.namespace.value) && v.namespace == tpl.namespace.value &&
              v.serviceAccountObj == Some(tpl.serviceAccount.value) && v.serviceAccount == tpl.serviceAccount.value.name
    ensures r.Success? && plat != Kubernetes ==> var v := View(r.value);
              v.namespaceObj.None? && v.serviceAccountObj.None? &&
              v.namespace == NamespaceOCP && v.serviceAccount == ServiceAccountOCP
    ensures r.Success? ==> fresh(r.value.role) && fresh(r.value.roleBinding) && fresh(r.value.daemonSet)
    ensures r.Success? && r.value.namespaceObj != null ==> fresh(r.value.namespaceObj)
    ensures r.Success? && r.value.serviceAccountObj != null ==> fresh(r.value.serviceAccountObj)
  {
    WorkloadLoads(plat, tpl);
    var namespaceObj: Namespace? := null;
    var serviceAccountObj: ServiceAccount? := null;
    var namespace, serviceAccount;
    if plat == Kubernetes {
      if tpl.namespace.Failure? {
        return Failure(tpl.namespace.error);
      }
      namespaceObj := new Namespace(tpl.namespace.value);
      namespace := namespaceObj.name;
      if tpl.serviceAccount.Failure? {
        return Failure(tpl.serviceAccount.error);
      }
      serviceAccountObj := new ServiceAccount(tpl.serviceAccount.value);
      serviceAccount := serviceAccountObj.name;
    } else {
      namespace := NamespaceOCP;
      serviceAccount := ServiceAccountOCP;
    }
    if tpl.role.Failure? {
      return Failure(tpl.role.error);
    }
    var role := new Role(tpl.role.value);
    if tpl.roleBinding.Failure? {
      return Failure(tpl.roleBinding.error);
    }
    var roleBinding := new RoleBinding(tpl.roleBinding.value);
    if tpl.daemonSet.Failure? {
      return Failure(tpl.daemonSet.error);
    }
    var daemonSet := new DaemonSet(tpl.daemonSet.value);
    r := Success(Manifests(namespaceObj, serviceAccountObj, role, roleBinding, null, daemonSet,
                           plat, namespace, serviceAccount));
  }

  /**
   * Builds the set for a namespace the caller chose, returning the first loader error. It
   * never owns a Namespace; on Kubernetes it owns the template's ServiceAccount and takes
   * the internal service account from its name, elsewhere it uses the well-known one.
   */
  method GetManifestsForNamespace(plat: Platform, namespace: string, tpl: Templates) returns (r: Result<Manifests>)
    ensures r.Failure? <==> FirstError(NamespacedLoads(plat, tpl)).Some?
    ensures r.Failure? ==> r.error == FirstError(NamespacedLoads(plat, tpl)).value
    ensures r.Success? ==> tpl.role.Success? && tpl.roleBinding.Success? && tpl.daemonSet.Success?
    ensures r.Success? && plat == Kubernetes ==> tpl.serviceAccount.Success?
    ensures r.Success? ==> Owned(View(r.value)) && View(r.value).plat == plat && View(r.value).configMap.None?
    ensures r.Success? ==> var v := View(r.value);
              v.namespaceObj.None? && v.namespace == namespace &&
              v.role == tpl.role.value && v.roleBinding == tpl.roleBinding.value && v.daemonSet == tpl.daemonSet.value
    ensures r.Success? && plat == Kubernetes ==> var v := View(r.value);
              v.serviceAccountObj == Some(tpl.serviceAccount.value) && v.serviceAccount == tpl.serviceAccount.value.name
    ensures r.Success? && plat != Kubernetes ==> View(r.value).serviceAccount == ServiceAccountOCP
    ensures r.Success? ==> fresh(r.value.role) && fresh(r.value.roleBinding) && fresh(r.value.daemonSet)
    ensures r.Success? && r.value.namespaceObj != null ==> fresh(r.value.namespaceObj)
    ensures r.Success? && r.value.serviceAccountObj != null ==> fresh(r.value.serviceAccountObj)
  {
    WorkloadLoads(plat, tpl);
    var serviceAccountObj: ServiceAccount? := null;
    var serviceAccount;
    if plat == Kubernetes {
      if tpl.serviceAccount.Failure? {
        return Failure(tpl.serviceAccount.error);
      }
      serviceAccountObj := new ServiceAccount(tpl.serviceAccount.value);
      serviceAccount := serviceAccountObj.name;
    } else {
      serviceAccount := ServiceAccountOCP;
    }
    if tpl.role.Failure? {
      return Failure(tpl.role.error);
    }
    var role := new Role(tpl.role.value);
    if tpl.roleBinding.Failure? {
      return Failure(tpl.roleBinding.error);
    }
    var roleBinding := new RoleBinding(tpl.roleBinding.value);
    if tpl.daemonSet.Failure? {
      return Failure(tpl.daemonSet.error);
    }
    var daemonSet := new DaemonSet(tpl.daemonSet.value);
    r := Success(Manifests(null, serviceAccountObj, role, roleBinding, null, daemonSet,
                           plat, namespace, serviceAccount));
  }
}
