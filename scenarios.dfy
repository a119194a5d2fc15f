/** Concrete inputs and the documents they give. */
module Scenarios {
  import opened SynoContainer
  import opened Docker
  import opened ToDocker

  /** A web server with one port, one volume and one variable, and no links. */
  lemma WebServerDocument()
    ensures var web := SynoContainerConfig(
              "web", "nginx:latest", [],
              [SynoContainerPortBinding(80, 8080, "tcp")],
              [SynoContainerVolumeBinding("/data", "/var/www", "rw")],
              [SynoContainerEnvVariable("ENV", "prod")]);
            IterToCompose([web]) == DockerCompose("3.9", map[
              "web" := DockerService(
                "nginx:latest", [],
                [DockerPort(80, 8080, "tcp", "host")],
                ["/var/www:/data:rw"],
                ["ENV=prod"])])
  {
    var web := SynoContainerConfig(
      "web", "nginx:latest", [],
      [SynoContainerPortBinding(80, 8080, "tcp")],
      [SynoContainerVolumeBinding("/data", "/var/www", "rw")],
      [SynoContainerEnvVariable("ENV", "prod")]);
    var service := DockerService(
      "nginx:latest", [], [DockerPort(80, 8080, "tcp", "host")], ["/var/www:/data:rw"], ["ENV=prod"]);
    ConfigToDockerSpec(web);
    assert VolumeToDocker(web.volumeBindings[0]) == "/var/www:/data:rw";
    assert EnvToDocker(web.envVariables[0]) == "ENV=prod";
    assert PortToDocker(web.portBindings[0]) == DockerPort(80, 8080, "tcp", "host");
    assert ConfigToDocker(web).1.volumes == ["/var/www:/data:rw"];
    assert ConfigToDocker(web).1.environment == ["ENV=prod"];
    assert ConfigToDocker(web).1.ports == [DockerPort(80, 8080, "tcp", "host")];
    assert ConfigToDocker(web) == ("web", service);
    assert MapSeq([web], ConfigToDocker) == [("web", service)];
    assert CollectServices([("web", service)]) == map["web" := service] by {
      assert [("web", service)][..0] == [];
    }
  }

  /** Two descriptors named "db": the one scanned last supplies the service. */
  lemma LaterDescriptorWins(first: SynoContainerConfig, second: SynoContainerConfig)
    requires first.name == "db" && second.name == "db"
    ensures IterToCompose([first, second]).services == map["db" := ConfigToDocker(second).1]
  {
    ComposeSpec([first, second]);
  }
}
