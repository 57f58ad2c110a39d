/** What the naming stages hand to one another, and how they fail. */
module Nodes {
  import opened Wrappers

  type Metadata = Option<map<string, string>>

  datatype Instance = Instance(
    service: string,
    host: string,
    port: nat,
    protocol: string,
    weight: int,
    metadata: Metadata,
    breaker: Option<bool>     // the breaker status, if any, and whether it lets calls through
  )

  // The SDK's answer to a discovery request.
  datatype ServiceInstances = ServiceInstances(instances: seq<Instance>)

  // A pointer to an SDK cluster, possibly nil.
  type Cluster = Option<nat>

  // Node metadata is untyped; each stage asserts the type it expects.
  datatype Value = TheInstances(all: ServiceInstances) | TheCluster(cluster: Cluster) | TheInstance(instance: Instance)

  datatype Address = NoAddress | HostPort(host: string, port: nat)

  datatype Node = Node(
    serviceName: string,
    address: Address,
    protocol: string,
    weight: int,
    envKey: string,
    setName: string,
    containerName: string,
    metadata: map<string, Value>
  )

  const BLANK_NODE := Node("", NoAddress, "", 0, "", "", "", map[])

  // An answer of the SDK.
  datatype Reply<+T> = Done(value: T) | Failed(cause: string)

  datatype Error =
    | ServiceOrNamespaceEmpty
    | GetInstancesFailed(cause: string)
    | NoNodeAvailable
    | ServiceInstancesInvalid
    | RouteRuleFailed(namespace: string, service: string, cause: string)
    | FilterWithEnvFailed(cause: string)
    | FilterByRulesFailed(cause: string)
    | EnvHasNoInstances(env: string, key: string)
    | FilterFailed(cause: string)
    | NoInstancesAvailable
    | NoServerAvailable
    | ChooseFailed(cause: string)

  // Panic: a type assertion without a second result failed.
  datatype Result<+T> = Ok(value: T) | Err(error: Error) | Panic

  const SET_ENABLE_KEY := "internal-enable-set"
  const SET_NAME_KEY := "internal-set-name"
  const SET_ENABLE_VALUE := "Y"
  const CONTAINER_KEY := "container_name"
}
