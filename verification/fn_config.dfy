/** The resources configuration of the function-runtime-oci spark command. */
module FnConfig {

  /** NetworkPolicy is a string type in the source; the flag parser limits it
      to "Runner" and "Isolated", but any string is representable. */
  type NetworkPolicy = string

  /** Shares the runner's network. */
  const NetworkPolicyRunner: NetworkPolicy := "Runner"

  /** No network access: the default. */
  const NetworkPolicyIsolated: NetworkPolicy := "Isolated"

  /** ResourcesConfig: Kubernetes-style quantities, empty when unset. */
  datatype ResourcesConfig = ResourcesConfig(
    memoryLimit: string,
    cpuLimit: string,
    networkPolicy: NetworkPolicy)
}
