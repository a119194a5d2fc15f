/**
  The vendor's per-container descriptor, as it stands after JSON parsing:
  one `SynoContainerConfig` per `*.syno.json` file.
 */
module SynoContainer {
  import opened Ints

  /** One container: its name, its image and four ordered lists. */
  datatype SynoContainerConfig = SynoContainerConfig(
    name: string,
    image: string,
    links: seq<SynoContainerLink>,
    portBindings: seq<SynoContainerPortBinding>,
    volumeBindings: seq<SynoContainerVolumeBinding>,
    envVariables: seq<SynoContainerEnvVariable>)

  /** A link names another container; the descriptor's alias is not read. */
  datatype SynoContainerLink = SynoContainerLink(linkContainer: string)

  /** `portType` is the JSON field `type` (for instance "tcp"). */
  datatype SynoContainerPortBinding = SynoContainerPortBinding(
    containerPort: Int32,
    hostPort: Int32,
    portType: string)

  /** `volumeType` is the JSON field `type` (for instance "rw"). */
  datatype SynoContainerVolumeBinding = SynoContainerVolumeBinding(
    hostVolumeFile: string,
    mountPoint: string,
    volumeType: string)

  datatype SynoContainerEnvVariable = SynoContainerEnvVariable(key: string, value: string)
}
