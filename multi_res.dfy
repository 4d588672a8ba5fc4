/**
 * MultiResolutionRTSPServer (multi_res_server.py): one camera decoded once
 * and split by a tee; one scale-and-encode branch per distinct output size,
 * itself split by a tee into one RTP-over-UDP branch per stream; and one
 * RTSP server per port whose mounts relay those UDP streams to clients.
 */
module MultiRes {
  import opened Wrappers
  import opened Sequences
  import opened Stages
  import Lifecycle

  /** `udp_base_port`: stream i's encoded RTP leaves the main pipeline on UDP port UdpBasePort + i. */
  const UdpBasePort := 15000
  const UdpBufferSize := 4194304

  // ---------------------------------------------------------------------------
  // Configuration (the JSON file) and __init__, lines 62-88
  // ---------------------------------------------------------------------------

  /** The `camera` object; each key may be missing. */
  datatype CameraConfig = CameraConfig(
    device: Option<string>,
    inputFormat: Option<string>,
    inputWidth: Option<int>,
    inputHeight: Option<int>,
    framerate: Option<real>)

  /** One entry of `streams`: `port` and `mount` are required, the rest may be missing (bitrate in kbit/s). */
  datatype StreamConfig = StreamConfig(
    name: Option<string>,
    enable: Option<bool>,
    width: Option<int>,
    height: Option<int>,
    bitrate: Option<int>,
    port: int,
    mount: string)

  datatype ServerConfig = ServerConfig(camera: CameraConfig, streams: seq<StreamConfig>, onDemand: Option<bool>)

  /** A stream without `enable` is enabled. */
  predicate IsEnabled(s: StreamConfig) {
    s.enable.GetOr(true)
  }

  /** `stream_configs`: the enabled streams, in configuration order. */
  function EnabledStreams(streams: seq<StreamConfig>): (r: seq<StreamConfig>)
    ensures |r| <= |streams|
    ensures forall k :: 0 <= k < |r| ==> IsEnabled(r[k]) && r[k] in streams
    ensures forall i :: 0 <= i < |streams| && IsEnabled(streams[i]) ==> streams[i] in r
  {
    if streams == [] then []
    else
      var n := |streams| - 1;
      assert streams == streams[..n] + [streams[n]];
      EnabledStreams(streams[..n]) + (if IsEnabled(streams[n]) then [streams[n]] else [])
  }

  /** The filter keeps configuration order: it distributes over concatenation. */
  lemma {:induction false} EnabledStreamsKeepOrder(a: seq<StreamConfig>, b: seq<StreamConfig>)
    ensures EnabledStreams(a + b) == EnabledStreams(a) + EnabledStreams(b)
    decreases |b|
  {
    if b != [] {
      var n := |b| - 1;
      assert (a + b)[..|a + b| - 1] == a + b[..n];
      EnabledStreamsKeepOrder(a, b[..n]);
    } else {
      assert a + b == a;
    }
  }

  /** The ValueError of __init__. */
  datatype InitError = NoEnabledStream

  // ---------------------------------------------------------------------------
  // _build_main_pipeline, lines 142-231
  // ---------------------------------------------------------------------------

  type OutputSize = (int, int)

  /** A stream's output size; 1920x1080 when not given. */
  function OutSize(s: StreamConfig): OutputSize {
    (s.width.GetOr(1920), s.height.GetOr(1080))
  }

  function OutSizes(streams: seq<StreamConfig>): (r: seq<OutputSize>)
    ensures |r| == |streams|
  {
    seq(|streams|, i requires 0 <= i < |streams| => OutSize(streams[i]))
  }

  /** A branch of the launch line: `<tee>. ! ...`. */
  datatype Branch = Branch(from: TeeName, stages: seq<Stage>)

  /** The main launch line: the source chain ending in the main tee, then its branches in text order. */
  datatype Topology = Topology(source: seq<Stage>, branches: seq<Branch>)

  /** The decode stages; the input format is matched lower-cased, and an unknown one is treated as raw video. */
  function DecodeStages(cam: CameraConfig): seq<Stage>
  {
    var format := Lower(cam.inputFormat.GetOr("mjpeg"));
    var w, h := Some(cam.inputWidth.GetOr(1920)), Some(cam.inputHeight.GetOr(1080));
    var fps := Some(cam.framerate.GetOr(30.0));
    if format == "mjpeg" then
      [Caps(Jpeg, None, w, h, fps), HwDecoder(true)]
    else if format == "h264" then
      [Caps(H264Video, None, w, h, fps), Parse(H264, None), HwDecoder(false)]
    else if format == "nv12" then
      [Caps(RawVideo, Some(NV12), w, h, fps), HwConvert(None), Caps(NvmmVideo, Some(NV12), None, None, None)]
    else
      [Caps(RawVideo, None, w, h, fps), HwConvert(None), Caps(NvmmVideo, Some(NV12), None, None, None)]
  }

  function SourceChain(cam: CameraConfig): (r: seq<Stage>)
    ensures |r| >= 4 && r[0] == V4l2Src(cam.device.GetOr("/dev/video0")) && r[|r| - 1] == Tee(MainTee)
    ensures r[1..|r| - 1] == DecodeStages(cam)
  {
    [V4l2Src(cam.device.GetOr("/dev/video0"))] + DecodeStages(cam) + [Tee(MainTee)]
  }

  /**
   * The decode chain opens with the camera's caps at the configured size
   * and rate (1920x1080 at 30 when missing) and delivers frames to the
   * hardware: MJPEG through the JPEG decoder, H.264 through the parser and
   * decoder, NV12 and any other format as raw video through the converter.
   */
  lemma DecodeFormats(cam: CameraConfig)
    ensures var d, format := DecodeStages(cam), Lower(cam.inputFormat.GetOr("mjpeg"));
      && |d| >= 2 && d[0].Caps?
      && d[0].width == Some(cam.inputWidth.GetOr(1920)) && d[0].height == Some(cam.inputHeight.GetOr(1080))
      && d[0].framerate == Some(cam.framerate.GetOr(30.0))
      && d[|d| - 1] in [HwDecoder(true), HwDecoder(false), Caps(NvmmVideo, Some(NV12), None, None, None)]
      && (HwDecoder(true) in d <==> format == "mjpeg")
      && (Parse(H264, None) in d <==> format == "h264")
      && (d[0].format == Some(NV12) <==> format == "nv12")
      && (format != "mjpeg" && format != "h264" && format != "nv12" ==> d[0].media == RawVideo && d[0].format == None)
      && (forall i :: 0 <= i < |d| ==> !d[i].Encoder? && !d[i].UdpSink?)
  {
  }

  /** Group g's branch off the main tee: leaky queue, scaler to the group's size, H.265 encoder, parser, group tee. */
  function EncodeBranch(g: nat, size: OutputSize, bitrateKbps: int): Branch {
    Branch(MainTee,
           [Queue(10, true, true), HwConvert(None), Caps(NvmmVideo, Some(NV12), Some(size.0), Some(size.1), None),
            Encoder(H265, bitrateKbps * 1000, 1, 10, true, true), Parse(H265, Some(1)), Tee(GroupTee(g))])
  }

  /** Stream i's branch off its group's tee: queue, RTP payloader (type 96, MTU 1400), UDP sink on port UdpBasePort + i. */
  function OutputBranch(g: nat, i: nat): Branch {
    Branch(GroupTee(g),
           [Queue(10, true, false), Payloader(H265, None, 96, Some(1), Some(1400)),
            UdpSink("127.0.0.1", UdpBasePort + i, false, false, UdpBufferSize)])
  }

  function OutputBranches(g: nat, members: seq<nat>): seq<Branch> {
    seq(|members|, j requires 0 <= j < |members| => OutputBranch(g, members[j]))
  }

  lemma OutputBranchesSnoc(g: nat, members: seq<nat>, j: nat)
    requires j < |members|
    ensures OutputBranches(g, members[..j + 1]) == OutputBranches(g, members[..j]) + [OutputBranch(g, members[j])]
  {
    assert OutputBranches(g, members[..j + 1])[j] == OutputBranch(g, members[j]);
  }

  /** `resolution_groups[key]`: the positions of the streams with that output size, ascending. */
  function Members(streams: seq<StreamConfig>, key: OutputSize): seq<nat> {
    IndicesOf(OutSizes(streams), key)
  }

  /** A size some stream has is the key of a non-empty group. */
  lemma MembersNonEmpty(streams: seq<StreamConfig>, key: OutputSize)
    requires key in OutSizes(streams)
    ensures |Members(streams, key)| > 0 && Members(streams, key)[0] < |streams|
  {
    var i :| 0 <= i < |streams| && OutSizes(streams)[i] == key;
    assert i in Members(streams, key);
  }

  /**
   * The group's bitrate is its first member's, 4000 kbit/s when not given.
   * (Every group built has a first member; the guard only makes the function total.)
   */
  function GroupBitrate(streams: seq<StreamConfig>, members: seq<nat>): int {
    if |members| > 0 && members[0] < |streams| then streams[members[0]].bitrate.GetOr(4000) else 4000
  }

  /** The branches for the groups `keys`, in order: group g's encode branch, then one output branch per member. */
  function GroupBranches(streams: seq<StreamConfig>, keys: seq<OutputSize>): seq<Branch> {
    if keys == [] then []
    else
      var n := |keys| - 1;
      var members := Members(streams, keys[n]);
      GroupBranches(streams, keys[..n]) + [EncodeBranch(n, keys[n], GroupBitrate(streams, members))]
        + OutputBranches(n, members)
  }

  /** The outer branch loop's step: group g's branches come after those of the groups before it. */
  lemma GroupBranchesSnoc(streams: seq<StreamConfig>, keys: seq<OutputSize>, g: nat)
    requires g < |keys|
    ensures GroupBranches(streams, keys[..g + 1]) ==
      GroupBranches(streams, keys[..g]) + [EncodeBranch(g, keys[g], GroupBitrate(streams, Members(streams, keys[g])))]
        + OutputBranches(g, Members(streams, keys[g]))
  {
    assert keys[..g + 1][..g] == keys[..g];
  }

  /** The groups in first-seen order of their output size. */
  function GroupOrder(streams: seq<StreamConfig>): seq<OutputSize> {
    FirstSeen(OutSizes(streams))
  }

  /** What _build_main_pipeline builds for the enabled streams. */
  function MainPipeline(cam: CameraConfig, streams: seq<StreamConfig>): Topology {
    Topology(SourceChain(cam), GroupBranches(streams, GroupOrder(streams)))
  }

  // --- Encoder sharing -------------------------------------------------------

  function Encoders(stages: seq<Stage>): nat {
    if stages == [] then 0
    else Encoders(stages[..|stages| - 1]) + (if stages[|stages| - 1].Encoder? then 1 else 0)
  }

  function BranchEncoders(bs: seq<Branch>): nat {
    if bs == [] then 0
    else BranchEncoders(bs[..|bs| - 1]) + Encoders(bs[|bs| - 1].stages)
  }

  /** The number of hardware encoders in the whole launch line. */
  function EncoderCount(t: Topology): nat {
    Encoders(t.source) + BranchEncoders(t.branches)
  }

  lemma {:induction false} EncodersAppend(a: seq<Stage>, b: seq<Stage>)
    ensures Encoders(a + b) == Encoders(a) + Encoders(b)
    decreases |b|
  {
    if b != [] {
      var n := |b| - 1;
      assert (a + b)[..|a + b| - 1] == a + b[..n];
      EncodersAppend(a, b[..n]);
    } else {
      assert a + b == a;
    }
  }

  lemma {:induction false} NoEncoderStages(stages: seq<Stage>)
    requires forall i :: 0 <= i < |stages| ==> !stages[i].Encoder?
    ensures Encoders(stages) == 0
    decreases |stages|
  {
    if stages != [] {
      NoEncoderStages(stages[..|stages| - 1]);
    }
  }

  lemma {:induction false} BranchEncodersAppend(a: seq<Branch>, b: seq<Branch>)
    ensures BranchEncoders(a + b) == BranchEncoders(a) + BranchEncoders(b)
    decreases |b|
  {
    if b != [] {
      var n := |b| - 1;
      assert (a + b)[..|a + b| - 1] == a + b[..n];
      BranchEncodersAppend(a, b[..n]);
    } else {
      assert a + b == a;
    }
  }

  /** An encode branch holds one encoder, an output branch none. */
  lemma BranchEncoderCounts(g: nat, size: OutputSize, bitrateKbps: int, i: nat)
    ensures Encoders(EncodeBranch(g, size, bitrateKbps).stages) == 1
    ensures Encoders(OutputBranch(g, i).stages) == 0
  {
    var st := EncodeBranch(g, size, bitrateKbps).stages;
    assert st == st[..3] + [st[3]] + st[4..];
    EncodersAppend(st[..3] + [st[3]], st[4..]);
    EncodersAppend(st[..3], [st[3]]);
    NoEncoderStages(st[..3]);
    NoEncoderStages(st[4..]);
    assert [st[3]][..0] == [];
    NoEncoderStages(OutputBranch(g, i).stages);
  }

  lemma {:induction false} OutputBranchesEncodeNothing(g: nat, members: seq<nat>)
    ensures BranchEncoders(OutputBranches(g, members)) == 0
    decreases |members|
  {
    if members != [] {
      var n := |members| - 1;
      assert OutputBranches(g, members)[..n] == OutputBranches(g, members[..n]);
      OutputBranchesEncodeNothing(g, members[..n]);
      BranchEncoderCounts(g, (0, 0), 0, members[n]);
    }
  }

  lemma {:induction false} GroupBranchesEncoders(streams: seq<StreamConfig>, keys: seq<OutputSize>)
    ensures BranchEncoders(GroupBranches(streams, keys)) == |keys|
    decreases |keys|
  {
    if keys != [] {
      var n := |keys| - 1;
      var members := Members(streams, keys[n]);
      var front := GroupBranches(streams, keys[..n]);
      var e := EncodeBranch(n, keys[n], GroupBitrate(streams, members));
      assert GroupBranches(streams, keys) == front + [e] + OutputBranches(n, members);
      GroupBranchesEncoders(streams, keys[..n]);
      BranchEncodersAppend(front + [e], OutputBranches(n, members));
      BranchEncodersAppend(front, [e]);
      OutputBranchesEncodeNothing(n, members);
      BranchEncoderCounts(n, keys[n], GroupBitrate(streams, members), 0);
      assert [e][..0] == [];
    }
  }

  /** Streams of the same output size share one encoder: there are exactly as many encoders as distinct sizes. */
  lemma EncoderPerDistinctSize(cam: CameraConfig, streams: seq<StreamConfig>)
    ensures EncoderCount(MainPipeline(cam, streams)) == |set s | s in OutSizes(streams)|
  {
    var c := SourceChain(cam);
    assert forall i :: 0 <= i < |c| ==> !c[i].Encoder?;
    NoEncoderStages(c);
    GroupBranchesEncoders(streams, GroupOrder(streams));
    FirstSeenCount(OutSizes(streams));
  }

  // --- UDP addressing --------------------------------------------------------

  function StageSinkPorts(stages: seq<Stage>): seq<int> {
    if stages == [] then []
    else
      var last := stages[|stages| - 1];
      StageSinkPorts(stages[..|stages| - 1]) + (if last.UdpSink? then [last.port] else [])
  }

  /** The UDP sink ports of the branches, in text order. */
  function SinkPorts(bs: seq<Branch>): seq<int> {
    if bs == [] then []
    else SinkPorts(bs[..|bs| - 1]) + StageSinkPorts(bs[|bs| - 1].stages)
  }

  function PortsOf(positions: seq<nat>): (r: seq<int>)
    ensures |r| == |positions|
  {
    seq(|positions|, j requires 0 <= j < |positions| => UdpBasePort + positions[j])
  }

  lemma {:induction false} NoSinkStages(stages: seq<Stage>)
    requires forall i :: 0 <= i < |stages| ==> !stages[i].UdpSink?
    ensures StageSinkPorts(stages) == []
    decreases |stages|
  {
    if stages != [] {
      NoSinkStages(stages[..|stages| - 1]);
    }
  }

  lemma {:induction false} SinkPortsAppend(a: seq<Branch>, b: seq<Branch>)
    ensures SinkPorts(a + b) == SinkPorts(a) + SinkPorts(b)
    decreases |b|
  {
    if b != [] {
      var n := |b| - 1;
      assert (a + b)[..|a + b| - 1] == a + b[..n];
      SinkPortsAppend(a, b[..n]);
    } else {
      assert a + b == a;
    }
  }

  /** An encode branch sends nowhere; stream i's output branch sends to UdpBasePort + i. */
  lemma BranchSinks(g: nat, size: OutputSize, bitrateKbps: int, i: nat)
    ensures StageSinkPorts(EncodeBranch(g, size, bitrateKbps).stages) == []
    ensures StageSinkPorts(OutputBranch(g, i).stages) == [UdpBasePort + i]
  {
    NoSinkStages(EncodeBranch(g, size, bitrateKbps).stages);
    var st := OutputBranch(g, i).stages;
    NoSinkStages(st[..2]);
  }

  lemma {:induction false} OutputBranchesPorts(g: nat, members: seq<nat>)
    ensures SinkPorts(OutputBranches(g, members)) == PortsOf(members)
    decreases |members|
  {
    if members != [] {
      var n := |members| - 1;
      assert OutputBranches(g, members)[..n] == OutputBranches(g, members[..n]);
      OutputBranchesPorts(g, members[..n]);
      BranchSinks(g, (0, 0), 0, members[n]);
      assert PortsOf(members) == PortsOf(members[..n]) + [UdpBasePort + members[n]];
    }
  }

  lemma {:induction false} GroupBranchesPorts(streams: seq<StreamConfig>, keys: seq<OutputSize>)
    ensures SinkPorts(GroupBranches(streams, keys)) == PortsOf(ConcatIndices(OutSizes(streams), keys))
    decreases |keys|
  {
    if keys != [] {
      var n := |keys| - 1;
      var members := Members(streams, keys[n]);
      var front := GroupBranches(streams, keys[..n]);
      var e := EncodeBranch(n, keys[n], GroupBitrate(streams, members));
      assert GroupBranches(streams, keys) == front + [e] + OutputBranches(n, members);
      GroupBranchesPorts(streams, keys[..n]);
      SinkPortsAppend(front + [e], OutputBranches(n, members));
      SinkPortsAppend(front, [e]);
      OutputBranchesPorts(n, members);
      BranchSinks(n, keys[n], GroupBitrate(streams, members), 0);
      assert [e][..0] == [];
      PortsOfAppend(ConcatIndices(OutSizes(streams), keys[..n]), members);
    }
  }

  lemma PortsOfAppend(a: seq<nat>, b: seq<nat>)
    ensures PortsOf(a + b) == PortsOf(a) + PortsOf(b)
  {
    assert forall k :: 0 <= k < |a + b| ==> PortsOf(a + b)[k] == (PortsOf(a) + PortsOf(b))[k];
  }

  function Range(n: nat): (r: seq<nat>)
    ensures |r| == n && forall k :: 0 <= k < n ==> r[k] == k
  {
    seq(n, k requires 0 <= k < n => k)
  }

  /** A list of distinct positions that are exactly 0 .. n-1 has length n. */
  lemma PositionsCount(ci: seq<nat>, n: nat)
    requires Distinct(ci)
    requires forall i: nat :: i in ci <==> i < n
    ensures |ci| == n
  {
    var r := Range(n);
    assert Distinct(r);
    assert forall x: nat :: x in r <==> x < n by {
      forall x: nat | x < n ensures x in r {
        assert r[x] == x;
      }
    }
    var cs, rs := set x: nat | x in ci, set x: nat | x in r;
    assert cs == rs;
    DistinctCardinality(ci);
    DistinctCardinality(r);
    assert |cs| == |ci| && |rs| == |r|;
  }

  /**
   * Every stream gets exactly one UDP sink, at UdpBasePort + its position:
   * the sink ports are pairwise distinct and are exactly those ports.
   */
  lemma SinkPortsPerStream(cam: CameraConfig, streams: seq<StreamConfig>)
    ensures var ports := SinkPorts(MainPipeline(cam, streams).branches);
      && |ports| == |streams|
      && Distinct(ports)
      && (forall p :: p in ports <==> UdpBasePort <= p < UdpBasePort + |streams|)
  {
    var sizes := OutSizes(streams);
    GroupBranchesPorts(streams, GroupOrder(streams));
    GroupsCoverAllPositions(sizes);
    PortsOfAllPositions(ConcatIndices(sizes, GroupOrder(streams)), |streams|);
  }

  /** The ports of a list holding each position 0 .. n-1 exactly once. */
  lemma PortsOfAllPositions(ci: seq<nat>, n: nat)
    requires Distinct(ci)
    requires forall i: nat :: i in ci <==> i < n
    ensures var ports := PortsOf(ci);
      && |ports| == n
      && Distinct(ports)
      && (forall p :: p in ports <==> UdpBasePort <= p < UdpBasePort + n)
  {
    PositionsCount(ci, n);
    var ports := PortsOf(ci);
    forall p ensures p in ports <==> UdpBasePort <= p < UdpBasePort + n {
      if UdpBasePort <= p < UdpBasePort + n {
        var i: nat := p - UdpBasePort;
        assert i in ci;
        var j :| 0 <= j < |ci| && ci[j] == i;
        assert ports[j] == p;
      }
      if p in ports {
        var k :| 0 <= k < |ports| && ports[k] == p;
        assert ci[k] in ci;
      }
    }
  }

  /**
   * Group g's encode branch scales to the group's size with its first
   * member's bitrate, and every member's output branch hangs off group g's tee.
   */
  lemma {:induction false} GroupBranchesContain(streams: seq<StreamConfig>, keys: seq<OutputSize>, g: nat)
    requires g < |keys|
    ensures EncodeBranch(g, keys[g], GroupBitrate(streams, Members(streams, keys[g]))) in GroupBranches(streams, keys)
    ensures forall i :: i in Members(streams, keys[g]) ==> OutputBranch(g, i) in GroupBranches(streams, keys)
    decreases |keys|
  {
    var n := |keys| - 1;
    var members := Members(streams, keys[n]);
    var front := GroupBranches(streams, keys[..n]);
    var e := EncodeBranch(n, keys[n], GroupBitrate(streams, members));
    assert GroupBranches(streams, keys) == front + [e] + OutputBranches(n, members);
    if g < n {
      GroupBranchesContain(streams, keys[..n], g);
      assert keys[..n][g] == keys[g];
    } else {
      forall i | i in members ensures OutputBranch(g, i) in OutputBranches(n, members) {
        var j :| 0 <= j < |members| && members[j] == i;
        assert OutputBranches(n, members)[j] == OutputBranch(g, i);
      }
    }
  }

  /**
   * Each stream has its output branch under the tee of the group of its own
   * output size, and that group's encode branch scales to that size.
   */
  lemma StreamUnderItsGroup(cam: CameraConfig, streams: seq<StreamConfig>, i: nat) returns (g: nat)
    requires i < |streams|
    ensures g < |GroupOrder(streams)| && GroupOrder(streams)[g] == OutSize(streams[i])
    ensures OutputBranch(g, i) in MainPipeline(cam, streams).branches
    ensures EncodeBranch(g, OutSize(streams[i]), GroupBitrate(streams, Members(streams, OutSize(streams[i]))))
      in MainPipeline(cam, streams).branches
  {
    var order := GroupOrder(streams);
    assert OutSizes(streams)[i] in order;
    g :| 0 <= g < |order| && order[g] == OutSizes(streams)[i];
    GroupBranchesContain(streams, order, g);
    assert i in Members(streams, order[g]);
  }

  // ---------------------------------------------------------------------------
  // _create_rtsp_factory, lines 233-254, and the registry of start, lines 324-340
  // ---------------------------------------------------------------------------

  /** The relay served to clients of stream i: reads UDP port UdpBasePort + i and re-payloads it as `pay0`. */
  function RtspRelay(i: nat): (r: seq<Stage>)
    ensures |r| == 5 && r[0] == UdpSrc(UdpBasePort + i, UdpBufferSize, H265, 96, 90000)
    ensures r[4].Payloader? && r[4].name == Some("pay0")
  {
    [UdpSrc(UdpBasePort + i, UdpBufferSize, H265, 96, 90000), Queue(10, true, false), Depay(H265),
     Parse(H265, Some(1)), Payloader(H265, Some("pay0"), 96, Some(1), Some(1400))]
  }

  /**
   * The relay of stream i listens where stream i's output branch sends,
   * expects the codec and payload type that branch's payloader writes, and
   * with a socket buffer as large as the sink's.
   */
  lemma RelayMatchesSink(g: nat, i: nat)
    ensures var out := OutputBranch(g, i).stages;
      var src := RtspRelay(i)[0];
      && out[2].UdpSink? && out[2].port == src.port && out[2].bufferSize == src.bufferSize
      && out[1].Payloader? && out[1].codec == src.encoding && out[1].payload == src.payload
  {
  }

  function PortOf(c: StreamConfig): int {
    c.port
  }

  function Ports(streams: seq<StreamConfig>): (r: seq<int>)
    ensures |r| == |streams|
  {
    seq(|streams|, i requires 0 <= i < |streams| => PortOf(streams[i]))
  }

  /** The factory registered for stream i: the relay launch line at the stream's mount path. */
  function RelayMount(c: StreamConfig, i: nat): Mount {
    Mount(c.mount, RtspRelay(i))
  }

  /**
   * `servers` after the registry loop has read `streams`: a server per
   * port met, holding for each stream read the relay mount at its path.
   */
  function Registry(streams: seq<StreamConfig>): (m: map<int, seq<Mount>>)
    ensures forall p :: p in m <==> exists i :: 0 <= i < |streams| && streams[i].port == p
  {
    GroupMap(streams, PortOf, RelayMount)
  }

  /** Each port's server holds exactly the relays of the streams with that port, each at its stream's path. */
  lemma RegistryExactly(streams: seq<StreamConfig>, p: int, mount: Mount)
    requires p in Registry(streams)
    ensures mount in Registry(streams)[p] <==>
      exists i :: 0 <= i < |streams| && streams[i].port == p && mount == Mount(streams[i].mount, RtspRelay(i))
  {
    GroupMapExactly(streams, PortOf, RelayMount, p, mount);
  }

  /**
   * The registry has one server per distinct configured port, and stream
   * i's relay of UDP port UdpBasePort + i is mounted at stream i's path on
   * its own port's server and on no other.
   */
  lemma RegistryServesEveryStream(streams: seq<StreamConfig>, i: nat)
    requires i < |streams|
    ensures streams[i].port in Registry(streams)
    ensures Mount(streams[i].mount, RtspRelay(i)) in Registry(streams)[streams[i].port]
    ensures forall p :: p in Registry(streams) && Mount(streams[i].mount, RtspRelay(i)) in Registry(streams)[p] ==>
      p == streams[i].port
  {
    RegistryExactly(streams, streams[i].port, Mount(streams[i].mount, RtspRelay(i)));
    forall p | p in Registry(streams) && Mount(streams[i].mount, RtspRelay(i)) in Registry(streams)[p]
      ensures p == streams[i].port
    {
      RegistryExactly(streams, p, Mount(streams[i].mount, RtspRelay(i)));
    }
  }

  /** Reading one more stream in the registry loop: a server for a new port, and the stream's relay on its port's server. */
  lemma RegistryStep(streams: seq<StreamConfig>, i: nat)
    requires i < |streams|
    ensures var p, m := streams[i].port, Registry(streams[..i]);
      && (p in m <==> p in FirstSeen(Ports(streams)[..i]))
      && Registry(streams[..i + 1]) == m[p := (if p in m then m[p] else []) + [Mount(streams[i].mount, RtspRelay(i))]]
  {
    GroupMapStep(streams, PortOf, RelayMount, i);
    assert Ports(streams)[..i] == Ports(streams[..i]);
    ServerOrderIsRegistry(streams[..i]);
  }

  /** The servers are created in first-seen port order, one per distinct port. */
  lemma ServerOrderIsRegistry(streams: seq<StreamConfig>)
    ensures Distinct(FirstSeen(Ports(streams)))
    ensures forall p :: p in FirstSeen(Ports(streams)) <==> p in Registry(streams)
  {
    var ports := Ports(streams);
    forall p ensures p in FirstSeen(ports) <==> p in Registry(streams) {
      if p in FirstSeen(ports) {
        var k :| 0 <= k < |FirstSeen(ports)| && FirstSeen(ports)[k] == p;
        var i :| 0 <= i < |ports| && ports[i] == p;
        assert streams[i].port == p;
      }
      if p in Registry(streams) {
        var i :| 0 <= i < |streams| && streams[i].port == p;
        assert ports[i] in FirstSeen(ports);
      }
    }
  }

  /** How launching the main pipeline in start goes: parse_launch raises, set_state fails, or it plays. */
  datatype Launch = ParseError | StateChangeFailure | Playing

  /**
   * How start fails: the two exits with status 1, and the KeyError its
   * report raises for a stream with a key missing (main then exits with status 1).
   */
  datatype StartError = CannotCreatePipeline | CannotStartPipeline | MissingKey

  /** The encoder report of start reads every stream's `name` directly (line 318), before any server is made. */
  predicate AllNamed(streams: seq<StreamConfig>) {
    forall k :: 0 <= k < |streams| ==> streams[k].name.Some?
  }

  /** The stream report reads `width`, `height` and `bitrate` directly (lines 344-345), right after mounting the stream. */
  predicate Described(s: StreamConfig) {
    s.width.Some? && s.height.Some? && s.bitrate.Some?
  }

  predicate AllDescribed(streams: seq<StreamConfig>) {
    forall k :: 0 <= k < |streams| ==> Described(streams[k])
  }

  /**
   * The number of streams whose relays the registry loop mounts: all of them,
   * or up to and including the first stream that is not Described.
   */
  function Mounted(streams: seq<StreamConfig>): (n: nat)
    ensures n <= |streams|
    ensures AllDescribed(streams) ==> n == |streams|
    ensures !AllDescribed(streams) ==> 0 < n && !Described(streams[n - 1]) && AllDescribed(streams[..n - 1])
  {
    if streams == [] then 0
    else if !Described(streams[0]) then 1
    else
      var rest := streams[1..];
      assert forall k :: 0 < k < |streams| ==> streams[k] == rest[k - 1];
      var m := Mounted(rest);
      if AllDescribed(rest) then 1 + m
      else
        DescribedCons(streams, m);
        1 + m
  }

  /** A Described first stream followed by a Described run. */
  lemma DescribedCons(streams: seq<StreamConfig>, m: nat)
    requires 0 < m < |streams| && Described(streams[0]) && AllDescribed(streams[1..][..m - 1])
    ensures AllDescribed(streams[..m])
  {
    forall k | 0 < k < m ensures Described(streams[..m][k]) {
      assert streams[..m][k] == streams[1..][..m - 1][k - 1];
    }
  }

  /** The loop goes on past a Described stream. */
  lemma DescribedStep(streams: seq<StreamConfig>, i: nat)
    requires i < |streams| && AllDescribed(streams[..i]) && Described(streams[i])
    ensures AllDescribed(streams[..i + 1])
  {
    assert forall k :: 0 <= k < i ==> streams[..i + 1][k] == streams[..i][k];
  }

  /** The registry loop stops right after the first stream that is not Described. */
  lemma MountedUpTo(streams: seq<StreamConfig>, i: nat)
    requires i < |streams| && !Described(streams[i]) && AllDescribed(streams[..i])
    ensures Mounted(streams) == i + 1
  {
    var n := Mounted(streams);
    assert !AllDescribed(streams);
    assert forall k :: 0 <= k < i ==> Described(streams[k]) by {
      assert forall k :: 0 <= k < i ==> streams[..i][k] == streams[k];
    }
    assert forall k :: 0 <= k < n - 1 ==> Described(streams[k]) by {
      assert forall k :: 0 <= k < n - 1 ==> streams[..n - 1][k] == streams[k];
    }
  }

  // ---------------------------------------------------------------------------
  // The server object
  // ---------------------------------------------------------------------------

  class MultiResolutionRTSPServer {
    const camera: CameraConfig
    /** `stream_configs`: the enabled streams. */
    const streamConfigs: seq<StreamConfig>
    const onDemand: bool

    var clientCount: int
    /** `main_pipeline is not None`. */
    var running: bool
    /** Stop checks scheduled on the GLib timer and not yet fired. */
    ghost var pendingChecks: nat
    /** Engine calls made by the on-demand controller: parse_launch and set_state(NULL). */
    ghost var launches: nat
    ghost var halts: nat

    /** `resolution_groups`: its keys in insertion order, and the member positions of each. */
    var groupOrder: seq<OutputSize>
    var groupMembers: map<OutputSize, seq<nat>>

    /** `servers`: its ports in insertion order, and the mounts added to each port's server. */
    var serverOrder: seq<int>
    var servers: map<int, seq<Mount>>

    constructor(camera: CameraConfig, streamConfigs: seq<StreamConfig>, onDemand: bool)
      ensures this.camera == camera && this.streamConfigs == streamConfigs && this.onDemand == onDemand
      ensures Snapshot() == Lifecycle.State(0, false, 0, 0, 0)
      ensures groupOrder == [] && groupMembers == map[] && serverOrder == [] && servers == map[]
    {
      this.camera := camera;
      this.streamConfigs := streamConfigs;
      this.onDemand := onDemand;
      clientCount, running := 0, false;
      pendingChecks, launches, halts := 0, 0, 0;
      groupOrder, groupMembers := [], map[];
      serverOrder, servers := [], map[];
    }

    /** The filter loop of __init__. */
    static method FilterEnabled(streams: seq<StreamConfig>) returns (enabled: seq<StreamConfig>)
      ensures enabled == EnabledStreams(streams)
    {
      enabled := [];
      for i := 0 to |streams|
        invariant enabled == EnabledStreams(streams[..i])
      {
        assert streams[..i + 1][..i] == streams[..i];
        if IsEnabled(streams[i]) {
          enabled := enabled + [streams[i]];
        }
      }
      assert streams[..|streams|] == streams;
    }

    /** __init__: keeps the enabled streams, fails when there is none; `on_demand` defaults to false. */
    static method Create(config: ServerConfig) returns (r: Result<MultiResolutionRTSPServer, InitError>)
      ensures r.Failure? <==> EnabledStreams(config.streams) == []
      ensures r.Success? ==>
        && fresh(r.value) && r.value.camera == config.camera
        && r.value.streamConfigs == EnabledStreams(config.streams)
        && r.value.onDemand == config.onDemand.GetOr(false)
        && r.value.Snapshot() == Lifecycle.State(0, false, 0, 0, 0)
        && r.value.serverOrder == [] && r.value.servers == map[]
    {
      var enabled := FilterEnabled(config.streams);
      if enabled == [] {
        return Failure(NoEnabledStream);
      }
      var server := new MultiResolutionRTSPServer(config.camera, enabled, config.onDemand.GetOr(false));
      return Success(server);
    }

    ghost function Snapshot(): Lifecycle.State
      reads this
    {
      Lifecycle.State(clientCount, running, pendingChecks, launches, halts)
    }

    // --- On-demand lifecycle, lines 90-140 ----------------------------------

    /** _start_pipeline; `engineOk` is whether parse_launch and set_state(PLAYING) succeed. */
    method StartPipeline(engineOk: bool)
      modifies this`running, this`launches
      ensures Snapshot() == Lifecycle.StartPipeline(old(Snapshot()), engineOk)
    {
      if running {
        return;
      }
      launches := launches + 1;
      running := engineOk;
    }

    /** _stop_pipeline. */
    method StopPipeline()
      modifies this`running, this`halts
      ensures Snapshot() == Lifecycle.StopPipeline(old(Snapshot()))
    {
      if !running {
        return;
      }
      halts := halts + 1;
      running := false;
    }

    /** _on_client_connected. */
    method OnClientConnected(engineOk: bool)
      modifies this`clientCount, this`running, this`launches
      ensures Snapshot() == Lifecycle.Connect(old(Snapshot()), onDemand, engineOk)
    {
      clientCount := clientCount + 1;
      if onDemand && clientCount == 1 {
        StartPipeline(engineOk);
      }
    }

    /** _on_client_disconnected; scheduling the five-second timeout adds a pending check. */
    method OnClientDisconnected()
      modifies this`clientCount, this`pendingChecks
      ensures Snapshot() == Lifecycle.Disconnect(old(Snapshot()), onDemand)
    {
      clientCount := if clientCount - 1 > 0 then clientCount - 1 else 0;
      if onDemand && clientCount == 0 {
        pendingChecks := pendingChecks + 1;
      }
    }

    /** _check_and_stop_pipeline. */
    method CheckAndStopPipeline() returns (again: bool)
      modifies this`running, this`halts
      ensures (Snapshot(), again) == Lifecycle.CheckAndStop(old(Snapshot()))
    {
      if clientCount == 0 {
        StopPipeline();
      }
      return false;
    }

    /** The GLib main loop running one scheduled check. */
    method FireTimer()
      requires pendingChecks > 0
      modifies this`running, this`halts, this`pendingChecks
      ensures Snapshot() == Lifecycle.Fire(old(Snapshot()))
    {
      pendingChecks := pendingChecks - 1;
      var _ := CheckAndStopPipeline();
    }

    // --- Building and starting ----------------------------------------------

    /** The grouping loop of _build_main_pipeline: `resolution_groups` filled from the streams' output sizes. */
    static method GroupBySize(streams: seq<StreamConfig>) returns (order: seq<OutputSize>, groups: map<OutputSize, seq<nat>>)
      ensures order == GroupOrder(streams) && groups == PositionsMap(OutSizes(streams))
    {
      order, groups := FillGroups(OutSizes(streams));
    }

    /** The loop itself, over the output sizes in stream order (any key type: the loop only compares keys). */
    static method FillGroups<K(!new)>(sizes: seq<K>) returns (order: seq<K>, groups: map<K, seq<nat>>)
      ensures order == FirstSeen(sizes) && groups == PositionsMap(sizes)
    {
      order, groups := [], map[];
      for i: nat := 0 to |sizes|
        invariant order == FirstSeen(sizes[..i]) && groups == PositionsMap(sizes[..i])
      {
        var key := sizes[i];
        FillStep(sizes, i, order, groups);
        order, groups := (if key in groups then order else order + [key]),
                         groups[key := (if key in groups then groups[key] else []) + [i]];
      }
      assert sizes[..|sizes|] == sizes;
    }

    /** One pass of the outer branch loop: group g's encode branch, then its members' output branches. */
    static method AppendGroup(streams: seq<StreamConfig>, branches: seq<Branch>, g: nat, key: OutputSize,
                              members: seq<nat>)
      returns (branches': seq<Branch>)
      requires key in OutSizes(streams) && members == Members(streams, key)
      ensures branches' == branches + [EncodeBranch(g, key, GroupBitrate(streams, members))] + OutputBranches(g, members)
    {
      MembersNonEmpty(streams, key);
      var bitrate := streams[members[0]].bitrate.GetOr(4000);
      branches' := branches + [EncodeBranch(g, key, bitrate)];
      ghost var head := branches';
      for j := 0 to |members|
        invariant branches' == head + OutputBranches(g, members[..j])
      {
        OutputBranchesSnoc(g, members, j);
        branches' := branches' + [OutputBranch(g, members[j])];
      }
      assert members[..|members|] == members;
    }

    /** The branch loops of _build_main_pipeline, over the groups in insertion order. */
    static method GroupBranchLoop(streams: seq<StreamConfig>, order: seq<OutputSize>, groups: map<OutputSize, seq<nat>>)
      returns (branches: seq<Branch>)
      requires forall k :: 0 <= k < |order| ==>
        order[k] in OutSizes(streams) && order[k] in groups && groups[order[k]] == Members(streams, order[k])
      ensures branches == GroupBranches(streams, order)
    {
      branches := [];
      for g := 0 to |order|
        invariant branches == GroupBranches(streams, order[..g])
      {
        GroupBranchesSnoc(streams, order, g);
        branches := AppendGroup(streams, branches, g, order[g], groups[order[g]]);
      }
      assert order[..|order|] == order;
    }

    /** `resolution_groups` holds the positions of the streams of each output size, sizes in first-seen order. */
    ghost predicate Grouped()
      reads this`groupOrder, this`groupMembers
    {
      groupOrder == GroupOrder(streamConfigs) && groupMembers == PositionsMap(OutSizes(streamConfigs))
    }

    /**
     * `servers` after the registry loop has read the first `n` streams: one
     * server per port met, created in first-seen order, with those streams' relays.
     */
    ghost predicate Serving(n: nat)
      reads this`serverOrder, this`servers
    {
      n <= |streamConfigs| && serverOrder == FirstSeen(Ports(streamConfigs)[..n]) && servers == Registry(streamConfigs[..n])
    }

    /** _build_main_pipeline: the source chain, the groups, then the branches. */
    method BuildMainPipeline() returns (t: Topology)
      modifies this`groupOrder, this`groupMembers
      ensures t == MainPipeline(camera, streamConfigs)
      ensures Grouped()
    {
      var source := [V4l2Src(camera.device.GetOr("/dev/video0"))];
      source := source + DecodeStages(camera);
      source := source + [Tee(MainTee)];
      var order, groups := GroupBySize(streamConfigs);
      groupOrder, groupMembers := order, groups;
      PositionsMapIsIndices(OutSizes(streamConfigs));
      forall k | 0 <= k < |order|
        ensures order[k] in OutSizes(streamConfigs) && order[k] in groups && groups[order[k]] == Members(streamConfigs, order[k])
      {
        assert order[k] in OutSizes(streamConfigs);
      }
      var branches := GroupBranchLoop(streamConfigs, order, groups);
      t := Topology(source, branches);
    }

    /**
     * The part of start after the launch: the encoder report, which reads
     * every stream's name, then the registry loop, which stops after the
     * first stream that is not Described. The result says whether both got through.
     */
    method RegisterRelays() returns (ok: bool)
      requires serverOrder == [] && servers == map[]
      modifies this`serverOrder, this`servers
      ensures ok <==> AllNamed(streamConfigs) && AllDescribed(streamConfigs)
      ensures AllNamed(streamConfigs) ==> Serving(Mounted(streamConfigs))
      ensures !AllNamed(streamConfigs) ==> serverOrder == [] && servers == map[]
    {
      if !AllNamed(streamConfigs) {
        return false;
      }
      var order, registry;
      order, registry, ok := FillRegistry(streamConfigs);
      serverOrder, servers := order, registry;
    }

    /** The loop itself, from the empty `servers` dict of __init__. */
    static method FillRegistry(streams: seq<StreamConfig>) returns (order: seq<int>, registry: map<int, seq<Mount>>, complete: bool)
      ensures complete <==> AllDescribed(streams)
      ensures var n := Mounted(streams); order == FirstSeen(Ports(streams)[..n]) && registry == Registry(streams[..n])
    {
      order, registry := [], map[];
      for i := 0 to |streams|
        invariant order == FirstSeen(Ports(streams)[..i]) && registry == Registry(streams[..i])
        invariant AllDescribed(streams[..i])
      {
        var port := streams[i].port;
        GroupStep(Ports(streams), i);
        RegistryStep(streams, i);
        var mounts := if port in registry then registry[port] else [];
        order := if port in registry then order else order + [port];
        registry := registry[port := mounts + [Mount(streams[i].mount, RtspRelay(i))]];
        if !Described(streams[i]) {
          MountedUpTo(streams, i);
          return order, registry, false;
        }
        DescribedStep(streams, i);
      }
      assert streams[..|streams|] == streams;
      return order, registry, true;
    }

    /**
     * start up to the main loop: builds and launches the main pipeline (an
     * engine failure exits), reports the encoder groups, then creates one RTSP
     * server per distinct port and mounts each stream's relay on it.
     */
    method Start(launch: Launch) returns (r: Result<Topology, StartError>)
      requires serverOrder == [] && servers == map[]
      modifies this`groupOrder, this`groupMembers, this`running, this`serverOrder, this`servers
      ensures Grouped()
      ensures launch == ParseError ==> r == Failure(CannotCreatePipeline) && running == old(running)
      ensures launch == StateChangeFailure ==> r == Failure(CannotStartPipeline) && running
      ensures launch == Playing ==>
        && running
        && (r.Success? <==> AllNamed(streamConfigs) && AllDescribed(streamConfigs))
        && (r.Success? ==> r.value == MainPipeline(camera, streamConfigs))
        && (r.Failure? ==> r.error == MissingKey)
        && (AllNamed(streamConfigs) ==> Serving(Mounted(streamConfigs)))
      ensures (launch != Playing || !AllNamed(streamConfigs)) ==> serverOrder == [] && servers == map[]
    {
      var pipeline := BuildMainPipeline();
      if launch == ParseError {
        return Failure(CannotCreatePipeline);
      }
      running := true;
      if launch == StateChangeFailure {
        return Failure(CannotStartPipeline);
      }
      var ok := RegisterRelays();
      r := if ok then Success(pipeline) else Failure(MissingKey);
    }
  }
}
