/**
 * The container spawner's `start`: reuse the user's container when the
 * Docker daemon already has one, otherwise build the keyword arguments of
 * `create_container` and its host config by successive dictionary
 * updates, create one volume per bind and then the container; in both
 * cases start the container and record where it listens.
 */
module ContainerSpawner {
  import opened Wrappers

  /** The values of the keyword-argument dictionaries handed to docker-py. */
  datatype Val =
    | Text(s: string)
    | Int(n: int)
    | List(items: seq<Val>)
    | Dict(entries: map<string, Val>)
    /** `{container_port: (container_ip,)}`, the one dictionary keyed by an integer */
    | PortBindings(port: int, ips: seq<string>)

  type Kwargs = map<string, Val>

  /** The requests sent to the Docker daemon, with the replies they got. */
  datatype DockerCall =
    | Lookup(name: string, found: Option<string>)
    | CreateVolume(name: string, driver: string)
    | CreateContainer(kwargs: Kwargs, id: string)
    | StartContainer(id: string, kwargs: Kwargs)
    | Address(ip: string, port: int)

  /** The driver of every volume `start` creates. */
  const VolumeDriver := "convoy"

  /** `a.update(b)`: the keys of `b` win. */
  function Update(a: Kwargs, b: Kwargs): Kwargs
  {
    a + b
  }

  /** `if extra: d.update(extra)` with a per-call argument that may be None or empty. */
  function UpdateIf(a: Kwargs, extra: Option<Kwargs>): Kwargs
  {
    if extra.Some? && extra.value != map[] then Update(a, extra.value) else a
  }

  /** The spawner's configuration as `start` reads it. */
  datatype Config = Config(
    containerImage: string,
    containerName: string,
    env: map<string, string>,
    volumeMountPoints: seq<string>,
    volumeBinds: Kwargs,
    /** the keys of `volume_binds` in the dictionary's iteration order */
    volumeNames: seq<string>,
    links: Val,
    useInternalIp: bool,
    containerPort: int,
    containerIp: string,
    extraCreateKwargs: Kwargs,
    extraHostConfig: Kwargs,
    extraStartKwargs: Kwargs)

  /** A dictionary iterates over each of its keys exactly once. */
  predicate WellFormed(c: Config)
  {
    && (forall i, j :: 0 <= i < j < |c.volumeNames| ==> c.volumeNames[i] != c.volumeNames[j])
    && c.volumeBinds.Keys == set n | n in c.volumeNames
  }

  /** `image or self.container_image` */
  function ImageOf(c: Config, image: Option<string>): (img: string)
    ensures image.Some? && image.value != "" ==> img == image.value
    ensures image.None? || image.value == "" ==> img == c.containerImage
  {
    if image.Some? && image.value != "" then image.value else c.containerImage
  }

  /** The four keyword arguments `start` always passes to `create_container`. */
  function BaseCreateKwargs(c: Config, img: string): Kwargs
  {
    map["image" := Text(img), "environment" := Dict(map k | k in c.env :: Text(c.env[k])),
        "volumes" := List(seq(|c.volumeMountPoints|, i requires 0 <= i < |c.volumeMountPoints| => Text(c.volumeMountPoints[i]))),
        "name" := Text(c.containerName)]
  }

  /** The create arguments before the host config is added: base, then global extras, then per-call extras. */
  function CreateKwargs(c: Config, image: Option<string>, extra: Option<Kwargs>): Kwargs
  {
    UpdateIf(Update(BaseCreateKwargs(c, ImageOf(c, image)), c.extraCreateKwargs), extra)
  }

  /** The host config before docker-py formats it. */
  function HostConfig(c: Config, extra: Option<Kwargs>): Kwargs
  {
    var own := map["binds" := Dict(c.volumeBinds), "links" := c.links];
    var withPorts := if !c.useInternalIp then own["port_bindings" := PortBindings(c.containerPort, [c.containerIp])] else own;
    UpdateIf(Update(withPorts, c.extraHostConfig), extra)
  }

  /** The start arguments: global extras, then per-call extras. */
  function StartKwargs(c: Config, extra: Option<Kwargs>): Kwargs
  {
    UpdateIf(c.extraStartKwargs, extra)
  }

  /**
   * `create_kwargs.setdefault('host_config', {}).update(hc)`: `hc` is merged
   * into a host config the create arguments already hold, and its keys win;
   * a host config that is not a dictionary has no `update`.
   */
  function WithHostConfig(ck: Kwargs, hc: Kwargs): Option<Kwargs>
  {
    if "host_config" !in ck then Some(ck["host_config" := Dict(hc)])
    else if ck["host_config"].Dict? then Some(ck["host_config" := Dict(Update(ck["host_config"].entries, hc))])
    else None
  }

  /** One `create_volume` call per bind, in iteration order. */
  function VolumeCalls(names: seq<string>): (calls: seq<DockerCall>)
    ensures |calls| == |names|
    ensures forall i :: 0 <= i < |names| ==> calls[i] == CreateVolume(names[i], VolumeDriver)
  {
    if names == [] then [] else VolumeCalls(names[..|names| - 1]) + [CreateVolume(names[|names| - 1], VolumeDriver)]
  }

  // ----- what the specification functions promise -----

  /** Per-call create arguments win over the global ones, which win over the base four. */
  lemma CreateKwargsPrecedence(c: Config, image: Option<string>, extra: Option<Kwargs>, k: string)
    ensures var ck := CreateKwargs(c, image, extra);
            && (k in ck <==> k in {"image", "environment", "volumes", "name"} || k in c.extraCreateKwargs || (extra.Some? && k in extra.value))
            && (extra.Some? && k in extra.value ==> ck[k] == extra.value[k])
            && ((extra.None? || k !in extra.value) && k in c.extraCreateKwargs ==> ck[k] == c.extraCreateKwargs[k])
            && ((extra.None? || k !in extra.value) && k !in c.extraCreateKwargs && k == "image" ==> ck[k] == Text(ImageOf(c, image)))
            && ((extra.None? || k !in extra.value) && k !in c.extraCreateKwargs && k == "name" ==> ck[k] == Text(c.containerName))
  {
  }

  /**
   * The host config holds binds and links, and port bindings exactly when
   * the internal IP is not used or an extra supplies them; per-call extras
   * win over global ones.
   */
  lemma HostConfigPrecedence(c: Config, extra: Option<Kwargs>, k: string)
    ensures var hc := HostConfig(c, extra);
            && ("binds" in hc && "links" in hc)
            && ("port_bindings" in hc <==>
                  !c.useInternalIp || "port_bindings" in c.extraHostConfig || (extra.Some? && "port_bindings" in extra.value))
            && (extra.Some? && k in extra.value ==> hc[k] == extra.value[k])
            && ((extra.None? || k !in extra.value) && k in c.extraHostConfig ==> hc[k] == c.extraHostConfig[k])
            && ((extra.None? || "binds" !in extra.value) && "binds" !in c.extraHostConfig ==> hc["binds"] == Dict(c.volumeBinds))
            && ((extra.None? || "port_bindings" !in extra.value) && "port_bindings" !in c.extraHostConfig && !c.useInternalIp ==>
                  hc["port_bindings"] == PortBindings(c.containerPort, [c.containerIp]))
  {
  }

  /** Merging the formatted host config keeps every create argument and lets the host config's keys win. */
  lemma WithHostConfigKeeps(ck: Kwargs, hc: Kwargs)
    ensures WithHostConfig(ck, hc).None? <==> "host_config" in ck && !ck["host_config"].Dict?
    ensures WithHostConfig(ck, hc).Some? ==>
              var r := WithHostConfig(ck, hc).value;
              && r.Keys == ck.Keys + {"host_config"}
              && (forall k :: k in ck && k != "host_config" ==> r[k] == ck[k])
              && r["host_config"].Dict?
              && (forall k :: k in hc ==> k in r["host_config"].entries && r["host_config"].entries[k] == hc[k])
              && ("host_config" in ck ==>
                    forall k :: k in ck["host_config"].entries && k !in hc ==>
                      k in r["host_config"].entries && r["host_config"].entries[k] == ck["host_config"].entries[k])
  {
  }

  /** Every volume of the binds is created once, and nothing else is. */
  lemma {:induction false} VolumeCallsCreateEachBind(c: Config)
    requires WellFormed(c)
    ensures forall v :: v in c.volumeBinds <==> CreateVolume(v, VolumeDriver) in VolumeCalls(c.volumeNames)
    ensures forall i, j :: 0 <= i < j < |c.volumeNames| ==> VolumeCalls(c.volumeNames)[i] != VolumeCalls(c.volumeNames)[j]
  {
    var calls := VolumeCalls(c.volumeNames);
    forall v
      ensures v in c.volumeBinds <==> CreateVolume(v, VolumeDriver) in calls
    {
      if v in c.volumeBinds {
        var i :| 0 <= i < |c.volumeNames| && c.volumeNames[i] == v;
        assert calls[i] == CreateVolume(v, VolumeDriver);
      }
      if CreateVolume(v, VolumeDriver) in calls {
        var i :| 0 <= i < |calls| && calls[i] == CreateVolume(v, VolumeDriver);
        assert c.volumeNames[i] == v;
      }
    }
  }

  /**
   * The Docker daemon: the containers it knows by name, and every request
   * it was sent.  The id of a new container and the address of a started
   * one come from oracle functions of the requests so far.
   */
  class Docker {
    var containers: map<string, string>
    var calls: seq<DockerCall>
    const newId: seq<DockerCall> -> string
    const address: seq<DockerCall> -> (string, int)
    /** `client.create_host_config(**host_config)` */
    const formatHostConfig: Kwargs -> Kwargs

    constructor (containers: map<string, string>, newId: seq<DockerCall> -> string,
                 address: seq<DockerCall> -> (string, int), formatHostConfig: Kwargs -> Kwargs)
      ensures this.containers == containers && calls == []
      ensures this.newId == newId && this.address == address && this.formatHostConfig == formatHostConfig
    {
      this.containers, calls := containers, [];
      this.newId, this.address, this.formatHostConfig := newId, address, formatHostConfig;
    }

    /** `get_container`: the id of the container of that name, if there is one */
    method GetContainer(name: string) returns (found: Option<string>)
      modifies this
      ensures found == (if name in containers then Some(containers[name]) else None)
      ensures containers == old(containers) && calls == old(calls) + [Lookup(name, found)]
    {
      found := if name in containers then Some(containers[name]) else None;
      calls := calls + [Lookup(name, found)];
    }

    method CreateVolumeCall(name: string, driver: string)
      modifies this
      ensures containers == old(containers) && calls == old(calls) + [CreateVolume(name, driver)]
    {
      calls := calls + [CreateVolume(name, driver)];
    }

    /** `create_container(**kwargs)`: the response's 'Id', registered under the 'name' argument */
    method CreateContainerCall(kwargs: Kwargs) returns (id: string)
      modifies this
      ensures id == newId(old(calls))
      ensures calls == old(calls) + [CreateContainer(kwargs, id)]
      ensures containers == if "name" in kwargs && kwargs["name"].Text? then old(containers)[kwargs["name"].s := id]
                            else old(containers)
    {
      id := newId(calls);
      calls := calls + [CreateContainer(kwargs, id)];
      if "name" in kwargs && kwargs["name"].Text? {
        containers := containers[kwargs["name"].s := id];
      }
    }

    method StartCall(id: string, kwargs: Kwargs)
      modifies this
      ensures containers == old(containers) && calls == old(calls) + [StartContainer(id, kwargs)]
    {
      calls := calls + [StartContainer(id, kwargs)];
    }

    /** `get_ip_and_port` */
    method AddressCall() returns (ip: string, port: int)
      modifies this
      ensures (ip, port) == address(old(calls))
      ensures containers == old(containers) && calls == old(calls) + [Address(ip, port)]
    {
      ip, port := address(calls).0, address(calls).1;
      calls := calls + [Address(ip, port)];
    }
  }

  lemma AppendThree(a: seq<DockerCall>, x: DockerCall, y: DockerCall, z: DockerCall)
    ensures a + [x] + [y] + [z] == a + [x, y, z]
  {
  }

  /** Why `start` gave up. */
  datatype StartError = HostConfigNotADict

  class Spawner {
    const docker: Docker
    const config: Config
    var containerId: string
    /** `user.server.ip` and `user.server.port` */
    var serverIp: string
    var serverPort: int

    constructor (docker: Docker, config: Config)
      ensures this.docker == docker && this.config == config
      ensures containerId == "" && serverIp == "" && serverPort == 0
    {
      this.docker, this.config := docker, config;
      containerId, serverIp, serverPort := "", "", 0;
    }

    /** `for volume in self.volume_binds.keys(): create_volume(name=volume, driver='convoy')` */
    method CreateVolumes()
      modifies docker
      ensures docker.containers == old(docker.containers)
      ensures docker.calls == old(docker.calls) + VolumeCalls(config.volumeNames)
    {
      var i := 0;
      while i < |config.volumeNames|
        invariant 0 <= i <= |config.volumeNames|
        invariant docker.containers == old(docker.containers)
        invariant docker.calls == old(docker.calls) + VolumeCalls(config.volumeNames[..i])
      {
        docker.CreateVolumeCall(config.volumeNames[i], VolumeDriver);
        assert config.volumeNames[..i + 1][..i] == config.volumeNames[..i];
        i := i + 1;
      }
      assert config.volumeNames[..i] == config.volumeNames;
    }

    /** `create_kwargs` as `start` builds it: the base four, then the global extras, then the per-call ones. */
    method BuildCreateKwargs(image: Option<string>, extraCreate: Option<Kwargs>) returns (createKwargs: Kwargs)
      ensures createKwargs == CreateKwargs(config, image, extraCreate)
    {
      var img := if image.Some? && image.value != "" then image.value else config.containerImage;
      createKwargs := BaseCreateKwargs(config, img);
      createKwargs := Update(createKwargs, config.extraCreateKwargs);
      if extraCreate.Some? && extraCreate.value != map[] {
        createKwargs := Update(createKwargs, extraCreate.value);
      }
    }

    /** `host_config` as `start` builds it: binds, links, maybe port bindings, then the extras. */
    method BuildHostConfig(extraHost: Option<Kwargs>) returns (hostConfig: Kwargs)
      ensures hostConfig == HostConfig(config, extraHost)
    {
      hostConfig := map["binds" := Dict(config.volumeBinds), "links" := config.links];
      if !config.useInternalIp {
        hostConfig := hostConfig["port_bindings" := PortBindings(config.containerPort, [config.containerIp])];
      }
      hostConfig := Update(hostConfig, config.extraHostConfig);
      if extraHost.Some? && extraHost.value != map[] {
        hostConfig := Update(hostConfig, extraHost.value);
      }
    }

    /**
     * The branch of `start` with no container yet: merge the create
     * arguments and the host config, create the volumes, then the
     * container, and remember its id.
     */
    method CreateNew(image: Option<string>, extraCreate: Option<Kwargs>, extraHost: Option<Kwargs>)
      returns (r: Result<(), StartError>)
      modifies this`containerId, docker
      ensures var ck := WithHostConfig(CreateKwargs(config, image, extraCreate),
                                       docker.formatHostConfig(HostConfig(config, extraHost)));
              var before := old(docker.calls) + VolumeCalls(config.volumeNames);
              && (r.Err? <==> ck.None?)
              && (r.Err? ==> docker.calls == before && containerId == old(containerId) &&
                             docker.containers == old(docker.containers))
              && (r.Ok? ==>
                    containerId == docker.newId(before) &&
                    docker.calls == before + [CreateContainer(ck.value, containerId)] &&
                    docker.containers == (if "name" in ck.value && ck.value["name"].Text?
                                          then old(docker.containers)[ck.value["name"].s := containerId]
                                          else old(docker.containers)))
    {
      var createKwargs := BuildCreateKwargs(image, extraCreate);
      var hostConfig := BuildHostConfig(extraHost);
      CreateVolumes();
      var formatted := docker.formatHostConfig(hostConfig);
      if "host_config" !in createKwargs {
        createKwargs := createKwargs["host_config" := Dict(formatted)];
      } else if createKwargs["host_config"].Dict? {
        createKwargs := createKwargs["host_config" := Dict(Update(createKwargs["host_config"].entries, formatted))];
      } else {
        return Err(HostConfigNotADict);
      }
      containerId := docker.CreateContainerCall(createKwargs);
      r := Ok(());
    }

    /**
     * `start`: an existing container is started as it is; otherwise the
     * volumes and then the container are created from the merged
     * arguments.  The address is stored on the user's server and returned.
     */
    method Start(image: Option<string>, extraCreate: Option<Kwargs>, extraStart: Option<Kwargs>, extraHost: Option<Kwargs>)
      returns (r: Result<(string, int), StartError>)
      modifies this, docker
      ensures config.containerName in old(docker.containers) ==>
                r.Ok? && containerId == old(docker.containers)[config.containerName] &&
                docker.containers == old(docker.containers) &&
                docker.calls == old(docker.calls) + [Lookup(config.containerName, Some(containerId)),
                                                     StartContainer(containerId, StartKwargs(config, extraStart)),
                                                     Address(r.value.0, r.value.1)]
      ensures config.containerName !in old(docker.containers) ==>
                var ck := WithHostConfig(CreateKwargs(config, image, extraCreate),
                                         docker.formatHostConfig(HostConfig(config, extraHost)));
                var before := old(docker.calls) + [Lookup(config.containerName, None)] + VolumeCalls(config.volumeNames);
                && (r.Err? <==> ck.None?)
                && (r.Err? ==> docker.calls == before && containerId == old(containerId))
                && (r.Ok? ==>
                      containerId == docker.newId(before) &&
                      docker.calls == before + [CreateContainer(ck.value, containerId),
                                                StartContainer(containerId, StartKwargs(config, extraStart)),
                                                Address(r.value.0, r.value.1)])
      ensures r.Ok? ==> (serverIp, serverPort) == r.value
      ensures r.Err? ==> serverIp == old(serverIp) && serverPort == old(serverPort)
    {
      var found := docker.GetContainer(config.containerName);
      if found.Some? {
        containerId := found.value;
      } else {
        var created := CreateNew(image, extraCreate, extraHost);
        if created.Err? {
          return Err(created.error);
        }
      }

      ghost var made := docker.calls;
      var startKwargs := config.extraStartKwargs;
      if extraStart.Some? && extraStart.value != map[] {
        startKwargs := Update(startKwargs, extraStart.value);
      }
      assert startKwargs == StartKwargs(config, extraStart);
      docker.StartCall(containerId, startKwargs);

      var ip, port := docker.AddressCall();
      serverIp, serverPort := ip, port;
      r := Ok((ip, port));
      if found.Some? {
        AppendThree(old(docker.calls), Lookup(config.containerName, found), StartContainer(containerId, startKwargs), Address(ip, port));
      } else {
        AppendThree(old(docker.calls) + [Lookup(config.containerName, None)] + VolumeCalls(config.volumeNames),
                    made[|made| - 1], StartContainer(containerId, startKwargs), Address(ip, port));
      }
    }
  }

  /**
   * In the requests of a `start` that created a container, every volume
   * creation comes before the container creation, and the container is
   * created once.
   */
  lemma VolumesBeforeContainer(c: Config, ck: Kwargs, id: string, sk: Kwargs, ip: string, port: int)
    ensures var t := [Lookup(c.containerName, None)] + VolumeCalls(c.volumeNames)
                     + [CreateContainer(ck, id), StartContainer(id, sk), Address(ip, port)];
            && (forall i, j :: 0 <= i < j < |t| && t[j].CreateVolume? ==> !t[i].CreateContainer?)
            && (forall i :: 0 <= i < |t| && t[i].CreateContainer? <==> i == |c.volumeNames| + 1)
  {
  }
}
