/**
  The compose document the tool writes: a version string and the services keyed by
  name. The source keeps the services in a `BTreeMap`; here that is a `map` (so at most
  one service per name) together with the ascending-key view the map is traversed and
  serialised in.
 */
module Docker {
  import opened Ints
  import opened StringOrder

  datatype DockerCompose = DockerCompose(version: string, services: map<string, DockerService>)

  /** One service; each list keeps the order of the descriptor it came from. */
  datatype DockerService = DockerService(
    image: string,
    dependsOn: seq<string>,
    ports: seq<DockerPort>,
    volumes: seq<string>,
    environment: seq<string>)

  datatype DockerPort = DockerPort(target: Int32, published: Int32, protocol: string, mode: string)

  /** The service names in the order a `BTreeMap` yields them: ascending, each once. */
  ghost function ServiceNamesInOrder(c: DockerCompose): (r: seq<string>)
    ensures StrictlySorted(r)
    ensures forall k :: k in r <==> k in c.services
    ensures |r| == |c.services|
  {
    SortedKeys(c.services.Keys)
  }

  /**
    The traversal order is canonical: any ascending listing of exactly the service
    names is the one the map produces, whatever order the services were inserted in.
   */
  lemma ServiceOrderIsCanonical(c: DockerCompose, names: seq<string>)
    requires StrictlySorted(names)
    requires forall k :: k in names <==> k in c.services
    ensures names == ServiceNamesInOrder(c)
  {
    StrictlySortedUnique(names, ServiceNamesInOrder(c));
  }
}
