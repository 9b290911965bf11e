/** The custom resource's spec, field by field.

    A Go struct is a value whose maps and slices are references.  The struct
    layouts are therefore generic in their reference types: M for a
    map[string]string, S for a []string, E for a []EnvVars and T for a
    []IngressTLS.  `Spec` instantiates them with plain values (what a reader of
    the struct sees); module DeepCopy instantiates them with heap references. */
module Types {

  /** A Go map or slice as a value: nil and empty are different. */
  datatype Opt<+A> = Nil | Val(value: A)

  datatype EnvVar = EnvVar(name: string, value: string)
  datatype Image = Image(repository: string, tag: string)
  datatype Volume = Volume(storageClass: string, size: string)
  datatype ResourcesOf<M, S> = Resources(limits: M, requests: M, claims: S)
  datatype TlsOf<S> = Tls(hosts: S, secretName: string)

  datatype IngressOf<M, S, T> = IngressSpec(
    enabled: bool, apiVersion: string, annotations: M, labels: M, className: string,
    hosts: S, tls: T, path: string, pathType: string, serviceName: string)

  datatype CassandraOf<M, S, E> = CassandraSpec(
    image: Image, replicas: int, clusterName: string, dc: string, volume: Volume,
    javaOpts: string, heapSize: string, annotations: M, labels: M, env: E,
    resources: ResourcesOf<M, S>, pullPolicy: string)

  datatype DashboardOf<M, S, E, T> = DashboardSpec(
    image: Image, replicas: int, ingress: IngressOf<M, S, T>, annotations: M, labels: M,
    env: E, resources: ResourcesOf<M, S>, pullPolicy: string)

  datatype ServerOf<M, S, E> = ServerSpec(
    image: Image, annotations: M, labels: M, env: E, resources: ResourcesOf<M, S>,
    pullPolicy: string, metricsEnabled: bool, metricsCluster: CassandraOf<M, S, E>)

  datatype ElasticOf<M, S, E> = ElasticSpec(
    image: Image, volume: Volume, javaOpts: string, clusterName: string, env: E,
    resources: ResourcesOf<M, S>, pullPolicy: string)

  datatype AxonOpsOf<M, S, E, T> = AxonOpsSpec(
    dashboard: DashboardOf<M, S, E, T>, server: ServerOf<M, S, E>, elastic: ElasticOf<M, S, E>)

  datatype SpecOf<M, S, E, T> = Spec(cassandra: CassandraOf<M, S, E>, axonops: AxonOpsOf<M, S, E, T>)

  // The instances whose maps and slices are values.
  type Dict = Opt<map<string, string>>
  type Strings = Opt<seq<string>>
  type Env = Opt<seq<EnvVar>>
  type Resources = ResourcesOf<Dict, Strings>
  type Tls = TlsOf<Strings>
  type IngressSpec = IngressOf<Dict, Strings, Opt<seq<Tls>>>
  type CassandraSpec = CassandraOf<Dict, Strings, Env>
  type DashboardSpec = DashboardOf<Dict, Strings, Env, Opt<seq<Tls>>>
  type ServerSpec = ServerOf<Dict, Strings, Env>
  type ElasticSpec = ElasticOf<Dict, Strings, Env>
  type AxonOpsSpec = AxonOpsOf<Dict, Strings, Env, Opt<seq<Tls>>>
  type Spec = SpecOf<Dict, Strings, Env, Opt<seq<Tls>>>

  /** Ranging over a nil slice visits nothing. */
  function Items<A>(xs: Opt<seq<A>>): seq<A> {
    match xs
    case Nil => []
    case Val(s) => s
  }
}
