// The custom resource: its spec as an administrator writes it.

module CustomResource {

  datatype Option<+T> = None | Some(value: T)

  datatype AccessMode = ReadWriteOnce | ReadOnlyMany | ReadWriteMany | ReadWriteOncePod

  /** A claim template; body stands for everything else in the claim spec. */
  datatype ClaimTemplate = ClaimTemplate(accessModes: seq<AccessMode>, block: bool, body: string)

  datatype StoragePool = StoragePool(
    name: string,
    template: Option<ClaimTemplate>,
    path: string,
    snapshotProvider: Option<string>,
    overlayClassName: string)

  datatype PathConfig = PathConfig(path: string, useNamingPrefix: bool)

  /** workload stands for the node placement. */
  datatype Spec = Spec(
    pathConfig: Option<PathConfig>,
    storagePools: seq<StoragePool>,
    featureGates: seq<string>,
    workload: string)

  predicate IsShared(template: ClaimTemplate) {
    ReadWriteMany in template.accessModes
  }

  predicate IsLegacy(spec: Spec) {
    spec.pathConfig.Some?
  }

  predicate Snapshotting(spec: Spec) {
    "Snapshotting" in spec.featureGates
  }
}
