/**
 * The Kubernetes objects the resource-topology-exporter manifest set owns. Each is a
 * heap object, as the `*corev1.Namespace`, `*rbacv1.Role`, ... pointers of the source are,
 * reduced to the fields the manifest set reads or writes. `View()` is the value of an
 * object at one moment, and `DeepCopy` allocates a new object with the same value.
 */
module Objects {

  /** Name and namespace of a namespaced object. */
  datatype Meta = Meta(name: string, namespace: string)

  datatype ConfigMapView = ConfigMapView(kind: string, apiVersion: string, meta: Meta, data: map<string, string>)

  datatype DaemonSetView = DaemonSetView(meta: Meta, serviceAccountName: string)

  /** A cluster-scoped Namespace object: only its name matters here. */
  class Namespace {
    var name: string

    constructor (name: string)
      ensures this.name == name
    {
      this.name := name;
    }

    method DeepCopy() returns (c: Namespace)
      ensures fresh(c) && c.name == name
    {
      c := new Namespace(name);
    }
  }

  class ServiceAccount {
    var name: string
    var namespace: string

    function View(): Meta
      reads this
    {
      Meta(name, namespace)
    }

    constructor (meta: Meta)
      ensures View() == meta
    {
      name, namespace := meta.name, meta.namespace;
    }

    method DeepCopy() returns (c: ServiceAccount)
      ensures fresh(c) && c.View() == View()
    {
      c := new ServiceAccount(View());
    }
  }

  /** A Role; its policy rules are copied along but never inspected, so they are left out. */
  class Role {
    var name: string
    var namespace: string

    function View(): Meta
      reads this
    {
      Meta(name, namespace)
    }

    constructor (meta: Meta)
      ensures View() == meta
    {
      name, namespace := meta.name, meta.namespace;
    }

    method DeepCopy() returns (c: Role)
      ensures fresh(c) && c.View() == View()
    {
      c := new Role(View());
    }
  }

  /** A RoleBinding; its subjects and role reference are patched by code this model does not hold. */
  class RoleBinding {
    var name: string
    var namespace: string

    function View(): Meta
      reads this
    {
      Meta(name, namespace)
    }

    constructor (meta: Meta)
      ensures View() == meta
    {
      name, namespace := meta.name, meta.namespace;
    }

    method DeepCopy() returns (c: RoleBinding)
      ensures fresh(c) && c.View() == View()
    {
      c := new RoleBinding(View());
    }
  }

  class ConfigMap {
    var kind: string
    var apiVersion: string
    var name: string
    var namespace: string
    var data: map<string, string>

    function View(): ConfigMapView
      reads this
    {
      ConfigMapView(kind, apiVersion, Meta(name, namespace), data)
    }

    constructor (v: ConfigMapView)
      ensures View() == v
    {
      kind, apiVersion := v.kind, v.apiVersion;
      name, namespace := v.meta.name, v.meta.namespace;
      data := v.data;
    }
  }

  /** A DaemonSet, reduced to its metadata and the service account its pod template runs as. */
  class DaemonSet {
    var name: string
    var namespace: string
    var serviceAccountName: string

    function View(): DaemonSetView
      reads this
    {
      DaemonSetView(Meta(name, namespace), serviceAccountName)
    }

    constructor (v: DaemonSetView)
      ensures View() == v
    {
      name, namespace := v.meta.name, v.meta.namespace;
      serviceAccountName := v.serviceAccountName;
    }

    method DeepCopy() returns (c: DaemonSet)
      ensures fresh(c) && c.View() == View()
    {
      c := new DaemonSet(View());
    }
  }
}
