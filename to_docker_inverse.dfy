/**
  Reading the converted values back. A link and a port are plain copies and always come
  back; the volume and environment strings come back exactly when their fields do not
  contain the separator, since the conversion escapes nothing. Together these say which
  parts of a descriptor the compose document preserves.
 */
module ToDockerInverse {
  import opened Wrappers
  import opened SynoContainer
  import opened Docker
  import opened ToDocker

  /** The position of the first `c` in `s`, if there is one. */
  function FirstIndexOf(s: string, c: char): (r: Option<nat>)
    ensures r.None? <==> c !in s
    ensures r.Some? ==> r.value < |s| && s[r.value] == c && c !in s[..r.value]
    decreases |s|
  {
    if |s| == 0 then None
    else if s[0] == c then Some(0)
    else
      match FirstIndexOf(s[1..], c)
      case None => None
      case Some(k) =>
        assert s[..k + 1] == [s[0]] + s[1..][..k];
        Some(k + 1)
  }

  lemma FirstIndexOfAt(s: string, c: char, k: nat)
    requires k < |s| && s[k] == c && c !in s[..k]
    ensures FirstIndexOf(s, c) == Some(k)
  {
    assert forall t :: 0 <= t < k ==> s[..k][t] == s[t];
  }

  /** A string is what comes before position i, the character there, and what follows. */
  lemma JoinAt(s: string, i: nat, c: char)
    requires i < |s| && s[i] == c
    ensures s == s[..i] + [c] + s[i + 1..]
  {
  }

  /** A string split at position i and again at position j of the remainder. */
  lemma JoinAtTwo(s: string, i: nat, j: nat, c: char)
    requires i < |s| && s[i] == c
    requires j < |s[i + 1..]| && s[i + 1..][j] == c
    ensures s[..i] + [c] + s[i + 1..][..j] + [c] + s[i + 1..][j + 1..] == s
  {
    JoinAt(s[i + 1..], j, c);
    JoinAt(s, i, c);
  }

  function LinkFromDocker(d: string): SynoContainerLink {
    SynoContainerLink(d)
  }

  function PortFromDocker(d: DockerPort): SynoContainerPortBinding {
    SynoContainerPortBinding(d.target, d.published, d.protocol)
  }

  /** Splits `mount:host:type` at its two colons; any other number of colons is refused. */
  function ParseVolume(s: string): Option<SynoContainerVolumeBinding> {
    match FirstIndexOf(s, ':')
    case None => None
    case Some(i) =>
      var rest := s[i + 1..];
      match FirstIndexOf(rest, ':')
      case None => None
      case Some(j) =>
        var kind := rest[j + 1..];
        if ':' in kind then None
        else Some(SynoContainerVolumeBinding(rest[..j], s[..i], kind))
  }

  /** Splits `key=value` at its first `=`. */
  function ParseEnvVariable(s: string): Option<SynoContainerEnvVariable> {
    match FirstIndexOf(s, '=')
    case None => None
    case Some(i) => Some(SynoContainerEnvVariable(s[..i], s[i + 1..]))
  }

  /** A link converts to its container name and back, and every name is a link's. */
  lemma LinkRoundTrip(l: SynoContainerLink, d: string)
    ensures LinkFromDocker(LinkToDocker(l)) == l
    ensures LinkToDocker(LinkFromDocker(d)) == d
  {
  }

  /** A port loses nothing but gains the constant mode "host". */
  lemma PortRoundTrip(p: SynoContainerPortBinding)
    ensures PortFromDocker(PortToDocker(p)) == p
    ensures PortToDocker(p).mode == "host"
  {
  }

  /** The ports the conversion produces are exactly those whose mode is "host". */
  lemma PortImage(d: DockerPort)
    ensures (exists p :: PortToDocker(p) == d) <==> d.mode == "host"
  {
    if d.mode == "host" {
      assert PortToDocker(PortFromDocker(d)) == d;
    }
  }

  ghost predicate VolumeFieldsWithoutColon(v: SynoContainerVolumeBinding) {
    ':' !in v.mountPoint && ':' !in v.hostVolumeFile && ':' !in v.volumeType
  }

  /** A volume string reads back as its binding when no field holds a colon. */
  lemma VolumeRoundTrip(v: SynoContainerVolumeBinding)
    requires VolumeFieldsWithoutColon(v)
    ensures ParseVolume(VolumeToDocker(v)) == Some(v)
  {
    var s := VolumeToDocker(v);
    var m, h := |v.mountPoint|, |v.hostVolumeFile|;
    VolumeLayout(v);
    FirstIndexOfAt(s, ':', m);
    var rest := s[m + 1..];
    assert rest[..h] == v.hostVolumeFile;
    assert rest[h + 1..] == v.volumeType;
    FirstIndexOfAt(rest, ':', h);
  }

  /** Whatever reads as a binding is that binding's volume string, colon-free fields. */
  lemma VolumeParseSound(s: string)
    requires ParseVolume(s).Some?
    ensures VolumeFieldsWithoutColon(ParseVolume(s).value)
    ensures VolumeToDocker(ParseVolume(s).value) == s
  {
    var i := FirstIndexOf(s, ':').value;
    var rest := s[i + 1..];
    var j := FirstIndexOf(rest, ':').value;
    var mount, host, kind := s[..i], rest[..j], rest[j + 1..];
    assert ParseVolume(s).value == SynoContainerVolumeBinding(host, mount, kind);
    JoinAtTwo(s, i, j, ':');
  }

  /** Colons in the fields are not escaped: two different bindings, one volume string. */
  lemma VolumeColonsNotEscaped()
    ensures var v1 := SynoContainerVolumeBinding("b:c", "a", "d");
            var v2 := SynoContainerVolumeBinding("c", "a:b", "d");
            v1 != v2 && VolumeToDocker(v1) == VolumeToDocker(v2) == "a:b:c:d"
  {
  }

  /** An environment string reads back as its variable when the key holds no `=`. */
  lemma EnvRoundTrip(e: SynoContainerEnvVariable)
    requires '=' !in e.key
    ensures ParseEnvVariable(EnvToDocker(e)) == Some(e)
  {
    EnvLayout(e);
    FirstIndexOfAt(EnvToDocker(e), '=', |e.key|);
  }

  /** Whatever reads as a variable is that variable's string, with an `=`-free key. */
  lemma EnvParseSound(s: string)
    requires ParseEnvVariable(s).Some?
    ensures '=' !in ParseEnvVariable(s).value.key
    ensures EnvToDocker(ParseEnvVariable(s).value) == s
  {
    var i := FirstIndexOf(s, '=').value;
    assert s == s[..i] + "=" + s[i + 1..];
  }

  /** `=` in a key is not escaped: two different variables, one environment string. */
  lemma EnvEqualsNotEscaped()
    ensures var e1 := SynoContainerEnvVariable("A=B", "C");
            var e2 := SynoContainerEnvVariable("A", "B=C");
            e1 != e2 && EnvToDocker(e1) == EnvToDocker(e2) == "A=B=C"
  {
  }

  // ---------------------------------------------------------------------------
  // Whole descriptors

  /** Reads every string of a list, in order; fails when any one does not read. */
  function ParseAll<U>(ss: seq<string>, parse: string -> Option<U>): Option<seq<U>>
    decreases |ss|
  {
    if |ss| == 0 then Some([])
    else
      match (parse(ss[0]), ParseAll(ss[1..], parse))
      case (Some(u), Some(us)) => Some([u] + us)
      case _ => None
  }

  /** Reading back a converted list gives the list, when each element reads back. */
  lemma {:induction false} ParseAllMapSeq<T>(xs: seq<T>, show: T -> string, parse: string -> Option<T>)
    requires forall i :: 0 <= i < |xs| ==> parse(show(xs[i])) == Some(xs[i])
    ensures ParseAll(MapSeq(xs, show), parse) == Some(xs)
    decreases |xs|
  {
    if |xs| > 0 {
      ParseAllMapSeq(xs[1..], show, parse);
      assert MapSeq(xs, show)[1..] == MapSeq(xs[1..], show);
      assert xs == [xs[0]] + xs[1..];
    }
  }

  lemma MapSeqRoundTrip<T, U>(xs: seq<T>, f: T -> U, g: U -> T)
    requires forall i :: 0 <= i < |xs| ==> g(f(xs[i])) == xs[i]
    ensures MapSeq(MapSeq(xs, f), g) == xs
  {
  }

  /** Rebuilds a descriptor from a (name, service) pair, reading the formatted strings. */
  function ConfigFromDocker(entry: NamedService): Option<SynoContainerConfig> {
    var s := entry.1;
    match (ParseAll(s.volumes, ParseVolume), ParseAll(s.environment, ParseEnvVariable))
    case (Some(vs), Some(es)) =>
      Some(SynoContainerConfig(
        entry.0, s.image, MapSeq(s.dependsOn, LinkFromDocker), MapSeq(s.ports, PortFromDocker), vs, es))
    case _ => None
  }

  /** No volume field holds a colon and no environment key holds an `=`. */
  ghost predicate SeparatorFree(c: SynoContainerConfig) {
    && (forall i :: 0 <= i < |c.volumeBindings| ==> VolumeFieldsWithoutColon(c.volumeBindings[i]))
    && (forall i :: 0 <= i < |c.envVariables| ==> '=' !in c.envVariables[i].key)
  }

  /**
    The conversion of a descriptor loses nothing but the separators' ambiguity: when the
    formatted fields are separator-free, the descriptor is recovered from its service.
   */
  lemma ConfigRoundTrip(c: SynoContainerConfig)
    requires SeparatorFree(c)
    ensures ConfigFromDocker(ConfigToDocker(c)) == Some(c)
  {
    forall i | 0 <= i < |c.volumeBindings|
      ensures ParseVolume(VolumeToDocker(c.volumeBindings[i])) == Some(c.volumeBindings[i])
    {
      VolumeRoundTrip(c.volumeBindings[i]);
    }
    forall i | 0 <= i < |c.envVariables|
      ensures ParseEnvVariable(EnvToDocker(c.envVariables[i])) == Some(c.envVariables[i])
    {
      EnvRoundTrip(c.envVariables[i]);
    }
    ParseAllMapSeq(c.volumeBindings, VolumeToDocker, ParseVolume);
    ParseAllMapSeq(c.envVariables, EnvToDocker, ParseEnvVariable);
    MapSeqRoundTrip(c.links, LinkToDocker, LinkFromDocker);
    MapSeqRoundTrip(c.portBindings, PortToDocker, PortFromDocker);
  }
}
