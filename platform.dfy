/** The platform the tool runs against (package deployer/platform). */
module Platform {

  /**
   * `Unknown` is what auto-detection yields when it fails and no platform was forced;
   * every command refuses to go on with it. On `Kubernetes` the tool owns its own
   * namespace and service account; on `OpenShift` it reuses fixed well-known ones.
   */
  datatype Platform = Unknown | Kubernetes | OpenShift
}
