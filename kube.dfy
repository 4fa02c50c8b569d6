/**
 * The slice of the cluster API that the getenv plugin reads: a pod's
 * containers and their declared environment, and the data of secrets and
 * config maps. The three `Get` calls of the client become lookups in the
 * maps of a `Namespace`; a name that is absent stands for a call that
 * returns an error (not found, forbidden, or unreachable).
 */
module Kube {

  datatype Option<+T> = None | Some(value: T)

  /** The data section of a secret or a config map. */
  type Data = map<string, string>

  /** `ConfigMapKeySelector` / `SecretKeySelector`: a resource name and one key in it. */
  datatype KeySelector = KeySelector(name: string, key: string)

  /**
   * `EnvVarSource`, with the three selectors the plugin looks at. The API
   * allows at most one source to be set, but the plugin does not rely on
   * that: it checks them in a fixed order. `fieldRef` holds the selector's
   * field path. The API's fourth source, `resourceFieldRef`, has no case
   * in the plugin; a source that sets only it is the one here with all
   * three `None`.
   */
  datatype EnvVarSource = EnvVarSource(
    configMapKeyRef: Option<KeySelector>,
    secretKeyRef: Option<KeySelector>,
    fieldRef: Option<string>)

  /** One declared environment entry of a container. */
  datatype EnvVar = EnvVar(name: string, value: string, valueFrom: Option<EnvVarSource>)

  datatype Container = Container(name: string, env: seq<EnvVar>)

  datatype Pod = Pod(containers: seq<Container>)

  /** What the client can read in one namespace. */
  datatype Namespace = Namespace(
    pods: map<string, Pod>,
    secrets: map<string, Data>,
    configMaps: map<string, Data>)

  /** The cluster as the client sees it: namespaces by name. */
  type Cluster = map<string, Namespace>

  /** The namespace `ns`; a namespace that does not exist holds nothing. */
  function InNamespace(c: Cluster, ns: string): Namespace
  {
    if ns in c then c[ns] else Namespace(map[], map[], map[])
  }

  /**
   * Reading a key out of a resource's data: a missing key yields the
   * zero value, the empty string (for a secret, `string(nil)`).
   */
  function DataAt(d: Data, key: string): string
  {
    if key in d then d[key] else ""
  }

  /** The two kinds of resource an environment entry can refer to. */
  datatype Kind = SecretKind | ConfigMapKind

  /** The errors the command can return. */
  datatype Error =
    | MissingPodName
    | ConfigLoadFailed(reason: string)
    | ClientBuildFailed(reason: string)
    | PodLookupFailed(pod: string)
    | LookupFailed(kind: Kind, name: string)
}
