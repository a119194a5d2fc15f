/**
  The schema mapping from vendor descriptors to the compose document. Each record type
  has its own conversion; lists are converted element by element, and a sequence of
  descriptors is folded into the name-keyed services map, later descriptors replacing
  earlier ones of the same name.
 */
module ToDocker {
  import opened Wrappers
  import opened SynoContainer
  import opened Docker
  import opened StringOrder

  /** The compose file format version every document carries. */
  const ComposeVersion: string := "3.9"

  /** The publishing mode every port gets, whatever the descriptor says. */
  const PortMode: string := "host"

  /** A configuration keyed by its service name, as the fold consumes it. */
  type NamedService = (string, DockerService)

  // ---------------------------------------------------------------------------
  // Lists

  /** Converting a list: the same length, element i converted from element i. */
  function MapSeq<T, U>(s: seq<T>, f: T -> U): (r: seq<U>)
    ensures |r| == |s|
    ensures forall i :: 0 <= i < |s| ==> r[i] == f(s[i])
    decreases |s|
  {
    if |s| == 0 then [] else [f(s[0])] + MapSeq(s[1..], f)
  }

  lemma MapSeqAppend<T, U>(a: seq<T>, b: seq<T>, f: T -> U)
    ensures MapSeq(a + b, f) == MapSeq(a, f) + MapSeq(b, f)
  {
  }

  // ---------------------------------------------------------------------------
  // One record at a time

  function LinkToDocker(l: SynoContainerLink): string {
    l.linkContainer
  }

  function PortToDocker(p: SynoContainerPortBinding): DockerPort {
    DockerPort(p.containerPort, p.hostPort, p.portType, PortMode)
  }

  function VolumeToDocker(v: SynoContainerVolumeBinding): string {
    v.mountPoint + ":" + v.hostVolumeFile + ":" + v.volumeType
  }

  function EnvToDocker(e: SynoContainerEnvVariable): string {
    e.key + "=" + e.value
  }

  /**
    A volume string is `mount_point:host_volume_file:type`, in that order and with
    nothing escaped: each field at its own offset, separated by exactly two colons,
    empty fields included.
   */
  lemma VolumeLayout(v: SynoContainerVolumeBinding)
    ensures var r, m, h := VolumeToDocker(v), |v.mountPoint|, |v.hostVolumeFile|;
      && |r| == m + h + |v.volumeType| + 2
      && r[..m] == v.mountPoint && r[m] == ':'
      && r[m + 1..m + 1 + h] == v.hostVolumeFile && r[m + 1 + h] == ':'
      && r[m + h + 2..] == v.volumeType
  {
  }

  /** An environment string is the key, one `=`, then the value, nothing escaped. */
  lemma EnvLayout(e: SynoContainerEnvVariable)
    ensures var r := EnvToDocker(e);
      && |r| == |e.key| + 1 + |e.value|
      && r[..|e.key|] == e.key && r[|e.key|] == '=' && r[|e.key| + 1..] == e.value
  {
  }

  /** One descriptor becomes its name and a service. */
  function ConfigToDocker(c: SynoContainerConfig): NamedService {
    var service := DockerService(
      c.image,
      MapSeq(c.links, LinkToDocker),
      MapSeq(c.portBindings, PortToDocker),
      MapSeq(c.volumeBindings, VolumeToDocker),
      MapSeq(c.envVariables, EnvToDocker));
    (c.name, service)
  }

  /**
    The name is kept unchanged as the key; the service has the descriptor's image and
    its four lists converted element by element, in order.
   */
  lemma ConfigToDockerSpec(c: SynoContainerConfig)
    ensures ConfigToDocker(c).0 == c.name && ConfigToDocker(c).1.image == c.image
    ensures var s := ConfigToDocker(c).1;
      && |s.dependsOn| == |c.links|
      && (forall i :: 0 <= i < |c.links| ==> s.dependsOn[i] == c.links[i].linkContainer)
      && |s.ports| == |c.portBindings|
      && (forall i :: 0 <= i < |c.portBindings| ==> s.ports[i] == PortToDocker(c.portBindings[i]))
      && |s.volumes| == |c.volumeBindings|
      && (forall i :: 0 <= i < |c.volumeBindings| ==> s.volumes[i] == VolumeToDocker(c.volumeBindings[i]))
      && |s.environment| == |c.envVariables|
      && (forall i :: 0 <= i < |c.envVariables| ==> s.environment[i] == EnvToDocker(c.envVariables[i]))
  {
  }

  // ---------------------------------------------------------------------------
  // The whole document

  /** Collecting (name, service) pairs into a map, one insertion after the other. */
  function CollectServices(entries: seq<NamedService>): map<string, DockerService>
    decreases |entries|
  {
    if |entries| == 0 then map[]
    else
      var n := |entries| - 1;
      CollectServices(entries[..n])[entries[n].0 := entries[n].1]
  }

  /** The names that occur in a list of pairs. */
  ghost function Names(entries: seq<NamedService>): set<string> {
    set i | 0 <= i < |entries| :: entries[i].0
  }

  /** No pair after position i has the name of the pair at i. */
  ghost predicate LastWithName(entries: seq<NamedService>, i: int)
    requires 0 <= i < |entries|
  {
    forall j :: i < j < |entries| ==> entries[j].0 != entries[i].0
  }

  /** The collected map's keys are exactly the names that occur. */
  lemma {:induction false} CollectedKeys(entries: seq<NamedService>)
    ensures CollectServices(entries).Keys == Names(entries)
    decreases |entries|
  {
    if |entries| > 0 {
      var n := |entries| - 1;
      var prefix := entries[..n];
      CollectedKeys(prefix);
      assert Names(entries) == Names(prefix) + {entries[n].0} by {
        forall k | k in Names(entries) ensures k in Names(prefix) + {entries[n].0} {
          var i :| 0 <= i < |entries| && entries[i].0 == k;
          if i < n { assert prefix[i].0 == k; }
        }
        forall k | k in Names(prefix) ensures k in Names(entries) {
          var i :| 0 <= i < |prefix| && prefix[i].0 == k;
          assert entries[i].0 == k;
        }
      }
    }
  }

  /** Each name holds the service of its last occurrence: the last write wins. */
  lemma {:induction false} CollectedValues(entries: seq<NamedService>)
    ensures forall i :: 0 <= i < |entries| && LastWithName(entries, i) ==>
      entries[i].0 in CollectServices(entries) && CollectServices(entries)[entries[i].0] == entries[i].1
    decreases |entries|
  {
    if |entries| > 0 {
      var n := |entries| - 1;
      var prefix := entries[..n];
      CollectedValues(prefix);
      forall i | 0 <= i < |entries| && LastWithName(entries, i)
        ensures CollectServices(entries)[entries[i].0] == entries[i].1
      {
        if i < n {
          assert entries[n].0 != entries[i].0;
          assert prefix[i] == entries[i];
          assert LastWithName(prefix, i);
        }
      }
    }
  }

  function ServicesToCompose(services: map<string, DockerService>): DockerCompose {
    DockerCompose(ComposeVersion, services)
  }

  /** A sequence of descriptors becomes one document. */
  function IterToCompose(configs: seq<SynoContainerConfig>): DockerCompose {
    ServicesToCompose(CollectServices(MapSeq(configs, ConfigToDocker)))
  }

  /**
    The document has version 3.9; its services are keyed by exactly the descriptors'
    names, and each name holds the conversion of the last descriptor with that name.
   */
  lemma ComposeSpec(configs: seq<SynoContainerConfig>)
    ensures IterToCompose(configs).version == "3.9"
    ensures IterToCompose(configs).services.Keys == set i | 0 <= i < |configs| :: configs[i].name
    ensures forall i ::
      0 <= i < |configs| && (forall j :: i < j < |configs| ==> configs[j].name != configs[i].name)
      ==> IterToCompose(configs).services[configs[i].name] == ConfigToDocker(configs[i]).1
  {
    var entries := MapSeq(configs, ConfigToDocker);
    ConfigEntries(configs, entries);
    CollectedKeys(entries);
    CollectedValues(entries);
  }

  /** The pairs converted from the descriptors carry the descriptors' names. */
  lemma ConfigEntries(configs: seq<SynoContainerConfig>, entries: seq<NamedService>)
    requires entries == MapSeq(configs, ConfigToDocker)
    ensures Names(entries) == set i | 0 <= i < |configs| :: configs[i].name
    ensures forall i ::
      0 <= i < |configs| && (forall j :: i < j < |configs| ==> configs[j].name != configs[i].name)
      ==> LastWithName(entries, i) && entries[i] == ConfigToDocker(configs[i])
  {
    assert forall c :: ConfigToDocker(c).0 == c.name;
  }

  // ---------------------------------------------------------------------------
  // Properties of the document

  /** No descriptors give a document of version 3.9 with no services. */
  lemma ComposeOfNothing()
    ensures IterToCompose([]) == DockerCompose("3.9", map[])
  {
    ComposeSpec([]);
  }

  /**
    Appending a descriptor inserts its service under its name, replacing any earlier
    service of that name and leaving every other name as it was.
   */
  lemma ComposeAppend(configs: seq<SynoContainerConfig>, c: SynoContainerConfig)
    ensures IterToCompose(configs + [c]).version == IterToCompose(configs).version
    ensures IterToCompose(configs + [c]).services
         == IterToCompose(configs).services[c.name := ConfigToDocker(c).1]
  {
    var entries := MapSeq(configs + [c], ConfigToDocker);
    MapSeqAppend(configs, [c], ConfigToDocker);
    assert entries[..|entries| - 1] == MapSeq(configs, ConfigToDocker);
  }

  /** Names are pairwise distinct. */
  predicate DistinctNames(configs: seq<SynoContainerConfig>) {
    forall i, j :: 0 <= i < j < |configs| ==> configs[i].name != configs[j].name
  }

  /**
    When every descriptor has its own name, the scan order does not matter: any
    reordering of the descriptors gives the same document.
   */
  lemma {:induction false} ComposeIgnoresScanOrder(a: seq<SynoContainerConfig>, b: seq<SynoContainerConfig>)
    requires multiset(a) == multiset(b)
    requires DistinctNames(a) && DistinctNames(b)
    ensures IterToCompose(a) == IterToCompose(b)
  {
    var ma, mb := IterToCompose(a).services, IterToCompose(b).services;
    forall k | k in ma
      ensures k in mb && ma[k] == mb[k]
    {
      SameServiceUnderName(a, b, k);
    }
    forall k | k in mb
      ensures k in ma
    {
      SameServiceUnderName(b, a, k);
    }
    assert ma == mb;
    assert IterToCompose(a) == DockerCompose(ComposeVersion, ma);
    assert IterToCompose(b) == DockerCompose(ComposeVersion, mb);
  }

  /** A name present after one scan order is present, with the same service, after another. */
  lemma SameServiceUnderName(a: seq<SynoContainerConfig>, b: seq<SynoContainerConfig>, k: string)
    requires multiset(a) == multiset(b)
    requires DistinctNames(a) && DistinctNames(b)
    requires k in IterToCompose(a).services
    ensures k in IterToCompose(b).services
    ensures IterToCompose(a).services[k] == IterToCompose(b).services[k]
  {
    KeyIsName(a, k);
    var i :| 0 <= i < |a| && a[i].name == k;
    assert a[i] in multiset(b);
    var j :| 0 <= j < |b| && b[j] == a[i];
    ServiceOfDistinct(a, i);
    ServiceOfDistinct(b, j);
  }

  /** Every service name is the name of some descriptor. */
  lemma KeyIsName(configs: seq<SynoContainerConfig>, k: string)
    requires k in IterToCompose(configs).services
    ensures exists i :: 0 <= i < |configs| && configs[i].name == k
  {
    ComposeSpec(configs);
  }

  /** With distinct names, each descriptor's own service is the one stored under its name. */
  lemma ServiceOfDistinct(configs: seq<SynoContainerConfig>, i: int)
    requires DistinctNames(configs) && 0 <= i < |configs|
    ensures configs[i].name in IterToCompose(configs).services
    ensures IterToCompose(configs).services[configs[i].name] == ConfigToDocker(configs[i]).1
  {
    ComposeSpec(configs);
    assert forall j :: i < j < |configs| ==> configs[j].name != configs[i].name;
  }

  /**
    The services come out in ascending name order, each descriptor's name exactly once,
    whatever order the descriptors were scanned in.
   */
  lemma ComposeServiceOrder(configs: seq<SynoContainerConfig>, names: seq<string>)
    requires StrictlySorted(names)
    requires forall k :: k in names <==> exists i :: 0 <= i < |configs| && configs[i].name == k
    ensures names == ServiceNamesInOrder(IterToCompose(configs))
  {
    ComposeSpec(configs);
    ServiceOrderIsCanonical(IterToCompose(configs), names);
  }
}
