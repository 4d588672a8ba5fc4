/**
 * MultiCameraRTSPServer of camera_rtsp_server.py: several independent camera
 * streams, each with its own pipeline, grouped into one RTSP server per port.
 * add_stream fills in defaults; start keeps the enabled streams, groups them
 * by port in first-seen order and mounts every stream whose pipeline builds.
 */
module MultiCamera {
  import opened Wrappers
  import opened Sequences
  import opened Resolutions
  import opened Stages
  import opened CameraServer

  /** The dict given to add_stream: every key may be missing. */
  datatype StreamOptions = StreamOptions(
    name: Option<string>,
    enable: Option<bool>,
    mount: Option<string>,
    port: Option<int>,
    source: Option<string>,
    device: Option<string>,
    url: Option<string>,
    inputFormat: Option<string>,
    inputCodec: Option<string>,
    codec: Option<string>,
    bitrate: Option<int>,
    inputWidth: Option<int>,
    inputHeight: Option<int>,
    outputWidth: Option<int>,
    outputHeight: Option<int>,
    framerate: Option<real>,
    flip: Option<int>)

  /** The stream dict add_stream stores. `url` and the input size stay optional; `bitrate` is in kbit/s. */
  datatype StreamConfig = StreamConfig(
    name: string,
    enable: bool,
    mount: string,
    port: int,
    source: string,
    device: string,
    url: Option<string>,
    inputFormat: string,
    inputCodec: string,
    codec: string,
    bitrate: int,
    inputWidth: Option<int>,
    inputHeight: Option<int>,
    outputWidth: int,
    outputHeight: int,
    framerate: real,
    flip: int)

  /** The options dict with no key present. */
  const NoOptions := StreamOptions(None, None, None, None, None, None, None, None, None, None, None,
                                   None, None, None, None, None, None)

  /** The defaults of add_stream; `n` is `len(self.streams) + 1` and `serverPort` the server's own port. */
  function WithDefaults(o: StreamOptions, n: nat, serverPort: int): StreamConfig {
    StreamConfig(
      o.name.GetOr("Stream " + NatToString(n)),
      o.enable.GetOr(true),
      o.mount.GetOr("/stream" + NatToString(n)),
      o.port.GetOr(serverPort),
      o.source.GetOr("test"),
      o.device.GetOr("/dev/video0"),
      o.url,
      o.inputFormat.GetOr("mjpeg"),
      o.inputCodec.GetOr("h264"),
      o.codec.GetOr("h265"),
      o.bitrate.GetOr(4000),
      o.inputWidth,
      o.inputHeight,
      o.outputWidth.GetOr(1920),
      o.outputHeight.GetOr(1080),
      o.framerate.GetOr(30.0),
      o.flip.GetOr(0))
  }

  /** Two streams added at different positions without a mount get different default mounts (and names). */
  lemma DefaultMountsDistinct(o1: StreamOptions, o2: StreamOptions, m: nat, n: nat, p1: int, p2: int)
    requires o1.mount.None? && o2.mount.None? && m != n
    ensures WithDefaults(o1, m, p1).mount != WithDefaults(o2, n, p2).mount
    ensures o1.name.None? && o2.name.None? ==> WithDefaults(o1, m, p1).name != WithDefaults(o2, n, p2).name
  {
    var sm, sn := NatToString(m), NatToString(n);
    if sm == sn {
      NatToStringInjective(m, n);
    }
    assert ("/stream" + sm)[7..] == sm && ("/stream" + sn)[7..] == sn;
    assert ("Stream " + sm)[7..] == sm && ("Stream " + sn)[7..] == sn;
  }

  /** What a stream with no options at all becomes. */
  lemma AllDefaults(n: nat, serverPort: int)
    ensures WithDefaults(NoOptions, n, serverPort)
      == StreamConfig("Stream " + NatToString(n), true, "/stream" + NatToString(n), serverPort, "test",
                      "/dev/video0", None, "mjpeg", "h264", "h265", 4000, None, None, 1920, 1080, 30.0, 0)
  {
  }

  // ---------------------------------------------------------------------------
  // start, lines 716-771
  // ---------------------------------------------------------------------------

  /** The streams whose `enable` is true, in their original order. */
  function Enabled(streams: seq<StreamConfig>): (r: seq<StreamConfig>)
    ensures |r| <= |streams|
    ensures forall k :: 0 <= k < |r| ==> r[k].enable && r[k] in streams
    ensures forall i :: 0 <= i < |streams| && streams[i].enable ==> streams[i] in r
  {
    if streams == [] then []
    else
      var n := |streams| - 1;
      assert streams == streams[..n] + [streams[n]];
      Enabled(streams[..n]) + (if streams[n].enable then [streams[n]] else [])
  }

  /** Filtering keeps order: the filter of a concatenation is the concatenation of the filters. */
  lemma {:induction false} EnabledKeepsOrder(a: seq<StreamConfig>, b: seq<StreamConfig>)
    ensures Enabled(a + b) == Enabled(a) + Enabled(b)
    decreases |b|
  {
    if b != [] {
      var n := |b| - 1;
      assert (a + b)[..|a + b| - 1] == a + b[..n];
      EnabledKeepsOrder(a, b[..n]);
    } else {
      assert a + b == a;
    }
  }

  function Ports(cs: seq<StreamConfig>): (r: seq<int>)
    ensures |r| == |cs|
  {
    seq(|cs|, i requires 0 <= i < |cs| => cs[i].port)
  }

  /** `streams_by_port[port]`: the streams with that port, in their original order. */
  function StreamsOnPort(cs: seq<StreamConfig>, port: int): seq<StreamConfig> {
    if cs == [] then []
    else
      var n := |cs| - 1;
      StreamsOnPort(cs[..n], port) + (if cs[n].port == port then [cs[n]] else [])
  }

  /** A port is met in `cs` exactly when it is one of the dict's keys in first-seen order. */
  lemma PortMet(cs: seq<StreamConfig>, p: int)
    ensures (exists i :: 0 <= i < |cs| && cs[i].port == p) <==> p in FirstSeen(Ports(cs))
  {
    var ports := Ports(cs);
    if p in FirstSeen(ports) {
      var i :| 0 <= i < |ports| && ports[i] == p;
      assert cs[i].port == p;
    }
    if exists i :: 0 <= i < |cs| && cs[i].port == p {
      var i :| 0 <= i < |cs| && cs[i].port == p;
      assert ports[i] in FirstSeen(ports);
    }
  }

  /** The dict `streams_by_port` filled by reading `cs` in order. */
  function ByPort(cs: seq<StreamConfig>): (m: map<int, seq<StreamConfig>>)
    ensures forall p :: p in m <==> exists i :: 0 <= i < |cs| && cs[i].port == p
  {
    if cs == [] then map[]
    else
      var n := |cs| - 1;
      var m := ByPort(cs[..n]);
      var p := cs[n].port;
      assert forall i :: 0 <= i < n ==> cs[..n][i] == cs[i];
      m[p := (if p in m then m[p] else []) + [cs[n]]]
  }

  /** Reading one more stream in the port-grouping loop. */
  lemma ByPortStep(cs: seq<StreamConfig>, i: nat)
    requires i < |cs|
    ensures var p, m := cs[i].port, ByPort(cs[..i]);
      && (p in m <==> p in FirstSeen(Ports(cs)[..i]))
      && ByPort(cs[..i + 1]) == m[p := (if p in m then m[p] else []) + [cs[i]]]
  {
    assert cs[..i + 1][..i] == cs[..i];
    assert Ports(cs)[..i] == Ports(cs[..i]);
    PortMet(cs[..i], cs[i].port);
  }

  /** Each entry of the dict holds exactly the streams with that port, in order. */
  lemma {:induction false} ByPortIsStreamsOnPort(cs: seq<StreamConfig>)
    ensures forall p :: p in ByPort(cs) ==> ByPort(cs)[p] == StreamsOnPort(cs, p)
  {
    if cs != [] {
      var n := |cs| - 1;
      ByPortIsStreamsOnPort(cs[..n]);
      var p := cs[n].port;
      if p !in ByPort(cs[..n]) {
        StreamsOnPortAbsent(cs[..n], p);
      }
    }
  }

  lemma {:induction false} StreamsOnPortAbsent(cs: seq<StreamConfig>, p: int)
    requires forall i :: 0 <= i < |cs| ==> cs[i].port != p
    ensures StreamsOnPort(cs, p) == []
  {
    if cs != [] {
      StreamsOnPortAbsent(cs[..|cs| - 1], p);
    }
  }

  /** What a stream's camera server is created with (_create_camera_server): the bitrate turns into bit/s. */
  function ConfigSettings(c: StreamConfig): CameraSettings {
    CameraSettings(c.source, c.device, c.url, Lower(c.codec), Lower(c.inputFormat), Lower(c.inputCodec),
                   c.bitrate * 1000, c.inputWidth, c.inputHeight, c.outputWidth, c.outputHeight, c.framerate, c.flip)
  }

  /** What probing a device reports; a device that cannot be queried reports nothing. */
  function ProbeOf(probes: map<string, seq<Mode>>, device: string): seq<Mode> {
    if device in probes then probes[device] else []
  }

  /** The pipeline a stream's own camera server builds (after its auto-detection), or the error it raises. */
  function PipelineFor(c: StreamConfig, probes: map<string, seq<Mode>>): Result<seq<Stage>, PipelineError> {
    PipelineStages(DetectedSettings(ConfigSettings(c), ProbeOf(probes, c.device)))
  }

  /** The mount a stream's factory adds (at the stream's path), or nothing when its pipeline fails to build. */
  function MountOf(c: StreamConfig, probes: map<string, seq<Mode>>): (r: Option<Mount>)
    ensures r.Some? <==> PipelineFor(c, probes).Success?
    ensures r.Some? ==> r.value == Mount(c.mount, PipelineFor(c, probes).value)
  {
    match PipelineFor(c, probes)
    case Success(p) => Some(Mount(c.mount, p))
    case Failure(_) => None
  }

  /** The mounts of one port's server: every stream whose pipeline builds; a failing stream is skipped. */
  function MountsFor(cs: seq<StreamConfig>, probes: map<string, seq<Mode>>): (r: seq<Mount>) {
    FilterMap(cs, c => MountOf(c, probes))
  }

  /** A mount is present exactly for each stream whose pipeline builds, with that pipeline at the stream's path. */
  lemma MountsForExactly(cs: seq<StreamConfig>, probes: map<string, seq<Mode>>, m: Mount)
    ensures m in MountsFor(cs, probes) <==>
      exists c :: c in cs && PipelineFor(c, probes) == Success(m.launch) && c.mount == m.path
  {
    FilterMapExactly(cs, c => MountOf(c, probes), m);
  }

  /** One RTSP server: the port it serves and its mounts. */
  datatype PortServer = PortServer(port: int, mounts: seq<Mount>)

  /** The two configurations that make start exit with status 1. */
  datatype StartError = NoStreams | NoEnabledStreams

  /** The servers start creates for the enabled streams: one per port, in first-seen port order. */
  function ServerPlan(enabled: seq<StreamConfig>, probes: map<string, seq<Mode>>): seq<PortServer> {
    var order := FirstSeen(Ports(enabled));
    seq(|order|, k requires 0 <= k < |order| =>
      PortServer(order[k], MountsFor(StreamsOnPort(enabled, order[k]), probes)))
  }

  /** start's outcome for the configured streams. */
  function StartOutcome(streams: seq<StreamConfig>, probes: map<string, seq<Mode>>): (r: Result<seq<PortServer>, StartError>)
    ensures r == Failure(NoStreams) <==> streams == []
    ensures r == Failure(NoEnabledStreams) <==> streams != [] && forall i :: 0 <= i < |streams| ==> !streams[i].enable
    ensures r.Success? ==> |r.value| > 0 && r.value == ServerPlan(Enabled(streams), probes)
  {
    if streams == [] then Failure(NoStreams)
    else if Enabled(streams) == [] then Failure(NoEnabledStreams)
    else
      assert Ports(Enabled(streams))[0] in FirstSeen(Ports(Enabled(streams)));
      Success(ServerPlan(Enabled(streams), probes))
  }

  /** The plan has one server per distinct enabled port. */
  lemma ServerPlanPorts(enabled: seq<StreamConfig>, probes: map<string, seq<Mode>>)
    ensures var plan := ServerPlan(enabled, probes);
      && (forall k, l :: 0 <= k < l < |plan| ==> plan[k].port != plan[l].port)
      && (forall i :: 0 <= i < |enabled| ==> exists k :: 0 <= k < |plan| && plan[k].port == enabled[i].port)
      && (forall k :: 0 <= k < |plan| ==> exists i :: 0 <= i < |enabled| && enabled[i].port == plan[k].port)
  {
    var ports := Ports(enabled);
    var order := FirstSeen(ports);
    var plan := ServerPlan(enabled, probes);
    assert forall k :: 0 <= k < |plan| ==> plan[k].port == order[k];
    forall i | 0 <= i < |enabled| ensures exists k :: 0 <= k < |plan| && plan[k].port == enabled[i].port {
      assert ports[i] in order;
    }
    forall k | 0 <= k < |plan| ensures exists i :: 0 <= i < |enabled| && enabled[i].port == plan[k].port {
      assert order[k] in ports;
    }
  }

  /** Each port's server is offered exactly the enabled streams with that port. */
  lemma {:induction false} StreamsOnPortExactly(enabled: seq<StreamConfig>, p: int, c: StreamConfig)
    ensures c in StreamsOnPort(enabled, p) <==> c in enabled && c.port == p
  {
    if enabled != [] {
      var n := |enabled| - 1;
      StreamsOnPortExactly(enabled[..n], p, c);
      assert enabled == enabled[..n] + [enabled[n]];
    }
  }

  /** Grouping the enabled streams by port offers each of them to exactly one server. */
  lemma PortGroupsPartition(enabled: seq<StreamConfig>, probes: map<string, seq<Mode>>, i: nat)
    requires i < |enabled|
    ensures var plan := ServerPlan(enabled, probes);
      exists k :: 0 <= k < |plan| && plan[k].port == enabled[i].port
    ensures var plan := ServerPlan(enabled, probes);
      forall k, l :: 0 <= k < |plan| && 0 <= l < |plan| && plan[k].port == enabled[i].port && plan[l].port == enabled[i].port
        ==> k == l
    ensures var plan := ServerPlan(enabled, probes);
      forall k :: 0 <= k < |plan| ==> (enabled[i] in StreamsOnPort(enabled, plan[k].port) <==> plan[k].port == enabled[i].port)
  {
    ServerPlanPorts(enabled, probes);
    var plan := ServerPlan(enabled, probes);
    forall k | 0 <= k < |plan|
      ensures enabled[i] in StreamsOnPort(enabled, plan[k].port) <==> plan[k].port == enabled[i].port
    {
      StreamsOnPortExactly(enabled, plan[k].port, enabled[i]);
    }
  }

  // ---------------------------------------------------------------------------
  // The server object
  // ---------------------------------------------------------------------------

  class MultiCameraRTSPServer {
    const port: int
    var streams: seq<StreamConfig>

    constructor(port: int)
      ensures this.port == port && streams == []
    {
      this.port := port;
      streams := [];
    }

    /** add_stream: appends the options with defaults filled in. */
    method AddStream(options: StreamOptions)
      modifies this
      ensures streams == old(streams) + [WithDefaults(options, |old(streams)| + 1, port)]
    {
      streams := streams + [WithDefaults(options, |streams| + 1, port)];
    }

    /** _create_camera_server. */
    method CreateCameraServer(config: StreamConfig) returns (cam: CameraRTSPServer)
      ensures fresh(cam) && cam.Settings() == ConfigSettings(config) && !cam.autoDetected
      ensures cam.port == port && cam.mountPoint == config.mount
    {
      cam := new CameraRTSPServer(config.source, config.device, config.url, port, config.mount, config.codec,
                                  config.inputFormat, config.inputCodec, config.bitrate * 1000,
                                  config.inputWidth, config.inputHeight, config.outputWidth, config.outputHeight,
                                  config.framerate, config.flip);
    }

    /** The list comprehension of start that keeps the enabled streams. */
    static method FilterEnabled(streams: seq<StreamConfig>) returns (enabled: seq<StreamConfig>)
      ensures enabled == Enabled(streams)
    {
      enabled := [];
      for i := 0 to |streams|
        invariant enabled == Enabled(streams[..i])
      {
        assert streams[..i + 1][..i] == streams[..i];
        if streams[i].enable {
          enabled := enabled + [streams[i]];
        }
      }
      assert streams[..|streams|] == streams;
    }

    /** The port-grouping loop of start: the dict's keys and, per key, the streams in order. */
    static method GroupByPort(enabled: seq<StreamConfig>) returns (order: seq<int>, byPort: map<int, seq<StreamConfig>>)
      ensures order == FirstSeen(Ports(enabled))
      ensures forall p :: p in byPort <==> p in order
      ensures forall p :: p in byPort ==> byPort[p] == StreamsOnPort(enabled, p)
    {
      order, byPort := [], map[];
      for i := 0 to |enabled|
        invariant order == FirstSeen(Ports(enabled)[..i]) && byPort == ByPort(enabled[..i])
      {
        var p := enabled[i].port;
        GroupStep(Ports(enabled), i);
        ByPortStep(enabled, i);
        var streamsOnP := if p in byPort then byPort[p] else [];
        order := if p in byPort then order else order + [p];
        byPort := byPort[p := streamsOnP + [enabled[i]]];
      }
      assert enabled[..|enabled|] == enabled;
      assert Ports(enabled)[..|enabled|] == Ports(enabled);
      ByPortIsStreamsOnPort(enabled);
      forall p ensures p in byPort <==> p in order {
        PortMet(enabled, p);
      }
    }

    /** The mounting loop for one port's streams, building each stream's own camera server. */
    method MountPortStreams(portStreams: seq<StreamConfig>, probes: map<string, seq<Mode>>) returns (mounts: seq<Mount>)
      ensures mounts == MountsFor(portStreams, probes)
    {
      mounts := [];
      for j := 0 to |portStreams|
        invariant mounts == MountsFor(portStreams[..j], probes)
      {
        var config := portStreams[j];
        var cam := CreateCameraServer(config);
        var pipeline := cam.BuildPipeline(ProbeOf(probes, config.device));
        assert portStreams[..j + 1][..j] == portStreams[..j];
        if pipeline.Success? {
          mounts := mounts + [Mount(config.mount, pipeline.value)];
        }
      }
      assert portStreams[..|portStreams|] == portStreams;
    }

    /**
     * start up to running the main loop: the servers it creates, each with
     * its mounts; `probes` is what each USB device reports when queried.
     */
    method Start(probes: map<string, seq<Mode>>) returns (r: Result<seq<PortServer>, StartError>)
      ensures r == StartOutcome(streams, probes)
    {
      if streams == [] {
        return Failure(NoStreams);
      }
      var enabledStreams := FilterEnabled(streams);
      if enabledStreams == [] {
        return Failure(NoEnabledStreams);
      }
      var order, byPort := GroupByPort(enabledStreams);
      var servers := CreateServers(enabledStreams, order, byPort, probes);
      r := Success(servers);
    }

    /** The server-creating loop of start: one server per port, in the dict's key order. */
    method CreateServers(enabled: seq<StreamConfig>, order: seq<int>, byPort: map<int, seq<StreamConfig>>,
                         probes: map<string, seq<Mode>>)
      returns (servers: seq<PortServer>)
      requires order == FirstSeen(Ports(enabled))
      requires forall p :: p in byPort <==> p in order
      requires forall p :: p in byPort ==> byPort[p] == StreamsOnPort(enabled, p)
      ensures servers == ServerPlan(enabled, probes)
    {
      servers := [];
      ghost var plan := ServerPlan(enabled, probes);
      for k := 0 to |order|
        invariant servers == plan[..k]
      {
        var mounts := MountPortStreams(byPort[order[k]], probes);
        assert plan[k] == PortServer(order[k], mounts);
        servers := servers + [PortServer(order[k], mounts)];
      }
      assert plan[..|order|] == plan;
    }
  }
}
