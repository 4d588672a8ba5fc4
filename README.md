# jet_rtsp in Dafny

jet_rtsp serves a Jetson camera over RTSP with GStreamer. This project
models the planning and control logic of its two server programs. The
calls into GStreamer, GLib and the operating system are left out.

- **Capture-mode selection** (`camera_rtsp_server.py`, module `Resolutions`).
  The camera reports `(width, height, fps)` modes. The tail of
  `get_camera_resolutions` sorts them by pixel count, keeps the highest
  frame rate per size, and lists them from most to fewest pixels.
  `find_best_resolution` then picks a mode for a requested output size and
  frame rate. Python's stable `list.sort` is modelled as a stable insertion
  sort.
- **Single-camera server** (`camera_rtsp_server.py`, module `CameraServer`).
  The class `CameraRTSPServer` auto-detects the input size of a USB camera
  and builds its launch line in three parts. The source chain depends on
  the source type and input format. A hardware scaler brings it to the
  output size. An encoder, a parser and the `pay0` payloader follow. The
  launch line is a sequence of stage records (module `Stages`), not text.
  The probed mode list is a parameter.
- **Multi-camera server** (`camera_rtsp_server.py`, module `MultiCamera`).
  `add_stream` fills in the defaults. `start` keeps the enabled streams and
  groups them by port in first-seen order. Each port gets one RTSP server.
  On it, `start` mounts every stream whose own pipeline builds and skips
  the streams whose builder raises.
- **Multi-resolution server** (`multi_res_server.py`, module `MultiRes`).
  One camera is decoded once and split by a tee. Streams of the same output
  size share one scale-and-encode branch (the group), and each stream gets
  its own RTP-over-UDP branch on port 15000 + its index. One RTSP server
  per port relays those UDP streams to clients. `start` can fail three
  ways: the launch line does not parse, the pipeline does not start, or
  its report finds a stream key missing.
- **On-demand controller** (`multi_res_server.py`, module `Lifecycle` and
  the methods of `MultiResolutionRTSPServer`). This covers the client
  count, whether the main pipeline is held, and the deferred stop checks on
  the five-second GLib timer. Whether the engine starts the pipeline is a
  boolean parameter. The timer firing is an explicit event.

Stateful code of the source is kept as classes with `modifies` frames.
This covers the server objects, the dict-filling loops and the append
loops. Each method is proved against a function that states what it
computes, and the lemmas prove the properties of those functions. The
generic dict-grouping facts sit in module `Sequences`, and `Option` and
`Result` in module `Wrappers`.

## Model

| member | source | states |
|---|---|---|
| Sequences.FirstSeen | multi_res_server.py:188-195 | The keys of a dict filled from a list: no key twice, each one an element of the list, and every element a key. |
| Sequences.IndicesOf | multi_res_server.py:189-195 | The positions recorded under one key: ascending, each holding that key, and every position of the key present. |
| Sequences.FirstSeenOrder | multi_res_server.py:193-194 | Keys are in insertion order: an earlier key occurs in the list before every occurrence of a later key. |
| Sequences.ConcatIndicesPartition | multi_res_server.py:188-195 | For distinct keys, the concatenated position lists repeat no position and hold exactly the positions of those keys. |
| Sequences.GroupsCoverAllPositions | multi_res_server.py:188-195 | Grouping a list by its own elements covers every position 0..N-1 exactly once. |
| Sequences.FirstSeenCount | multi_res_server.py:188-201 | The dict has as many keys as the list has distinct elements. |
| Sequences.FillStep | multi_res_server.py:193-195 | One pass of the dict-filling loop turns the key order and the dict for a prefix into those for the prefix one longer. |
| Sequences.PositionsMapIsIndices | multi_res_server.py:188-195 | The dict filled by the loop maps each key to exactly its ascending positions. |
| Sequences.GroupMapExactly | multi_res_server.py:324-340 | In a dict of lists filled by appending a value under each element's key, a key's list holds exactly the values of the elements with that key. |
| Sequences.FilterMapExactly | camera_rtsp_server.py:755-770 | A loop that appends only the results that are present keeps a value exactly when some element yields it. |
| Resolutions.Insert | camera_rtsp_server.py:240 | Inserting into a list adds exactly that element (multiset). |
| Resolutions.SortByPixels | camera_rtsp_server.py:240 | The sort by pixel count returns a permutation of its input, sorted ascending or descending. |
| Resolutions.SortHead | camera_rtsp_server.py:299-308 | The sort is stable at the head: the first element is the earliest element with the best pixel count. |
| Resolutions.SortKeepsSizesDistinct | camera_rtsp_server.py:249-251 | Sorting a list without repeated sizes keeps the sizes distinct. |
| Resolutions.MaxFps | camera_rtsp_server.py:243-247 | The rate kept for a size is one reported for that size, and no rate reported for it is higher. |
| Resolutions.KeepMaxFps | camera_rtsp_server.py:243-247 | The dict loop yields the sizes in first-seen order, has a key for exactly the listed sizes, and keeps the highest rate for each. |
| Resolutions.GetCameraResolutions | camera_rtsp_server.py:239-251 | Sort, dict loop and final sort compute Dedup of the probed list. |
| Resolutions.DedupSizesDistinct | camera_rtsp_server.py:242-247 | No size is reported twice. |
| Resolutions.DedupKeepsMaxFps | camera_rtsp_server.py:242-247 | A reported mode carries a rate that the probe reported for its size, and no rate probed for that size is higher. |
| Resolutions.DedupKeepsSizes | camera_rtsp_server.py:240-251 | Every probed size is reported, so the output holds exactly the probed sizes. |
| Resolutions.DedupOrdered | camera_rtsp_server.py:249-251 | The output runs from most to fewest pixels. |
| Resolutions.Dedup | camera_rtsp_server.py:239-251 | What get_camera_resolutions returns for a probed list. It has no contract of its own: DedupSizesDistinct, DedupKeepsMaxFps, DedupKeepsSizes and DedupOrdered state its properties. |
| Resolutions.Filter | camera_rtsp_server.py:281 | A filter keeps exactly the elements that meet the criterion, all taken from the input. Order and repeats are stated by FilterKeepsOrder. |
| Resolutions.FilterKeepsOrder | camera_rtsp_server.py:281 | Filtering a concatenation is the concatenation of the filtered parts, so the filter keeps the list order and every repeat of a kept mode. |
| Resolutions.WorkingSet | camera_rtsp_server.py:281-285 | The candidates are empty exactly when the list is, all come from the list, and every fast-enough mode is among them. When some mode is fast enough, the candidates are the fast-enough filter of the list. When none is, the candidates are the whole list unchanged. |
| Resolutions.BestResolution | camera_rtsp_server.py:275-276 | The matcher returns None exactly when the list is empty. |
| Resolutions.Closest | camera_rtsp_server.py:299-314 | A non-empty candidate list always gives a pick, so the last fallback (lines 311-314) is never reached. |
| Resolutions.SplitByTarget | camera_rtsp_server.py:288-296 | The append loop splits the candidates into those at or above the target pixel count and those below it, each in list order. |
| Resolutions.SplitCoversAll | camera_rtsp_server.py:288-296 | The two groups together are as long as the candidate list. |
| Resolutions.FindBestResolution | camera_rtsp_server.py:275-314 | The method, with its loop and in-place sorts, returns BestResolution. |
| Resolutions.PickClosest | camera_rtsp_server.py:288-314 | The split-sort-pick tail of the method returns Closest. |
| Resolutions.ClosestFitAbove | camera_rtsp_server.py:299-302 | When some candidate reaches the target, the head of the ascending sort is the candidate with the fewest pixels at or above it, ties to the earliest. |
| Resolutions.ClosestFitBelow | camera_rtsp_server.py:305-308 | When none reaches it, the head of the descending sort is the candidate with the most pixels, ties to the earliest. |
| Resolutions.ClosestIsClosestFit | camera_rtsp_server.py:288-308 | The pick is the closest fit of the candidates. |
| Resolutions.BestResolutionIsClosestFit | camera_rtsp_server.py:278-308 | The matcher returns the closest fit of its working set: the fast-enough candidates, or all of them when none is. |
| Resolutions.ClosestFitUnique | camera_rtsp_server.py:299-308 | At most one position is the closest fit, so the pick is determined. |
| Resolutions.BestResolutionCandidate | camera_rtsp_server.py:281-285 | The pick is one of the listed modes, and it is fast enough whenever some listed mode is. |
| Resolutions.MatcherPrefersSmallestAbove | camera_rtsp_server.py:299-302 | For 1280x720, 1920x1080 and 640x480 and a 1000x700 target, 1280x720 is picked. |
| Resolutions.MatcherFallsBackBelow | camera_rtsp_server.py:305-308 | With only 640x480 and a 1920x1080 target, 640x480 is picked. |
| CameraServer.DetectionAdopts | camera_rtsp_server.py:398-403 | When the camera is probed and a mode is picked, the server takes its size and caps the frame rate at its rate, and the flag is set. |
| CameraServer.DetectedMode | camera_rtsp_server.py:391-396 | A mode is picked exactly when the probe reports something, and it is one of the deduplicated modes. |
| CameraServer.DetectedSettings | camera_rtsp_server.py:380-405 | The settings stay the same unless a USB camera without an input size is probed and reports modes. In that case it adopts one of the deduplicated modes. |
| CameraServer.Adopt | camera_rtsp_server.py:398-403 | The input size becomes the mode's size. The frame rate becomes the lower of the requested rate and the mode's rate. Nothing else changes. |
| CameraServer.NeedsProbe | camera_rtsp_server.py:382-386 | Predicate, no contract of its own: a USB camera with no truthy input size. DetectedSettings, DetectedFlag and EmptyProbeChangesNothing state their cases with it. |
| CameraServer.DetectedFlag | camera_rtsp_server.py:380-405 | The flag is untouched for a non-USB camera. For a USB camera it ends set exactly when the camera was probed and reported modes. |
| CameraServer.DetectionTouchesOnlyInput | camera_rtsp_server.py:380-405 | Auto-detection changes at most the input size and the frame rate, never raises the rate, and changes nothing when no probe is needed. |
| CameraServer.EmptyProbeChangesNothing | camera_rtsp_server.py:398-405 | When the probe finds nothing, nothing changes, and a USB camera's flag is cleared. |
| CameraServer.DetectionAdoptsProbedMode | camera_rtsp_server.py:380-405 | After a probe that reports modes, the input size is a probed size, and the rate is the lower of the requested rate and the best probed rate for that size. |
| CameraServer.UsbCapsSize | camera_rtsp_server.py:420-442 | Helper, no contract of its own: the caps size is both dimensions when both are truthy, and neither otherwise. SourceStages states this in its USB case. |
| CameraServer.SourceStages | camera_rtsp_server.py:407-496 | The builder fails exactly for an unknown source type or for an RTSP source without a URL, with those errors. For USB, the caps carry the rate, and the size only when both dimensions are set. MJPEG adds the hardware decoder and the leaky queue. Formats other than MJPEG and NV12 add videoconvert. For RTSP, the depayloader and parser follow the input codec. |
| CameraServer.EncoderStages | camera_rtsp_server.py:527-544 | Encoder, parser and payloader are all H.265 exactly when the codec is "h265", else H.264. The encoder bitrate is the configured one, and the payloader is `pay0` with payload type 96. |
| CameraServer.ScaleStages | camera_rtsp_server.py:498-525 | For every source type, the scaler ends in NV12 caps in NVMM memory at the output size, with no encoder or payloader. |
| CameraServer.PipelineStages | camera_rtsp_server.py:546-553 | A line is built exactly when the source chain is, and otherwise the source error passes through. The line is the source chain, then the two scaler stages, then the encoder stages. |
| CameraServer.PipelineShape | camera_rtsp_server.py:546-553 | A launch line is built exactly when the source chain is. It then has one encoder, of the output codec, fed by NV12 caps at the output size, and it ends in the `pay0` payloader. |
| CameraServer.CameraRTSPServer.constructor | camera_rtsp_server.py:362-376 | The arguments are stored, with codec, input format and input codec lower-cased, and the flag is false. |
| CameraServer.CameraRTSPServer.ChooseMode | camera_rtsp_server.py:391-396 | Dedup and matcher together return DetectedMode. |
| CameraServer.CameraRTSPServer.AutoDetectResolution | camera_rtsp_server.py:380-405 | The new settings are DetectedSettings of the old ones, and the flag is DetectedFlag. |
| CameraServer.CameraRTSPServer.ApplyChoice | camera_rtsp_server.py:398-405 | A picked mode sets the input size, caps the rate and sets the flag. No pick changes nothing and clears the flag. |
| CameraServer.CameraRTSPServer.BuildSourcePipeline | camera_rtsp_server.py:407-496 | Auto-detects for USB, then returns SourceStages of the new settings. |
| CameraServer.CameraRTSPServer.BuildPipeline | camera_rtsp_server.py:546-553 | Returns PipelineStages of the settings after auto-detection, passing a source error through. |
| MultiCamera.DefaultMountsDistinct | camera_rtsp_server.py:676-678 | Two streams added at different positions without a mount (or a name) get different default mounts (names). |
| MultiCamera.AllDefaults | camera_rtsp_server.py:675-693 | The stream add_stream stores for an empty options dict. |
| MultiCamera.WithDefaults | camera_rtsp_server.py:675-693 | The stream dict add_stream stores. It has no contract of its own: AllDefaults states every default, and DefaultMountsDistinct states that numbered defaults differ. |
| MultiCamera.Enabled | camera_rtsp_server.py:723 | The enabled list holds exactly the streams whose `enable` is true. |
| MultiCamera.EnabledKeepsOrder | camera_rtsp_server.py:723 | The filter keeps the original order: it distributes over concatenation. |
| MultiCamera.PortMet | camera_rtsp_server.py:731-736 | A port is a key of `streams_by_port` exactly when some enabled stream has it. |
| MultiCamera.ByPort | camera_rtsp_server.py:731-736 | The dict the grouping loop fills has a key for exactly the ports met. |
| MultiCamera.ByPortIsStreamsOnPort | camera_rtsp_server.py:731-736 | Each port's list holds that port's streams in their original order. |
| MultiCamera.StreamsOnPort | camera_rtsp_server.py:731-736 | The list of one port. It has no contract of its own: StreamsOnPortExactly and ByPortIsStreamsOnPort state its contents and order. |
| MultiCamera.StreamsOnPortExactly | camera_rtsp_server.py:731-736 | A stream is in a port's list exactly when it is enabled and has that port. |
| MultiCamera.PortGroupsPartition | camera_rtsp_server.py:731-736 | In ServerPlan, each enabled stream's port is the port of exactly one server, and a server is offered that stream exactly when its port is the stream's port. |
| MultiCamera.MountOf | camera_rtsp_server.py:756-770 | A stream is mounted exactly when its pipeline builds, with that pipeline at the stream's path. |
| MultiCamera.MountsForExactly | camera_rtsp_server.py:755-770 | A port's mounts are exactly the mounts of its streams whose pipelines build. |
| MultiCamera.ServerPlanPorts | camera_rtsp_server.py:747-751 | There is one server per distinct enabled port: no port twice, every stream's port present, and nothing else. |
| MultiCamera.ServerPlan | camera_rtsp_server.py:747-772 | The servers start creates. It has no contract of its own: ServerPlanPorts states one server per distinct port, and MountsForExactly and StreamsOnPortExactly state each server's mounts. |
| MultiCamera.StartOutcome | camera_rtsp_server.py:716-772 | No streams gives NoStreams, and only then. Streams that are all disabled give NoEnabledStreams, and only then. Otherwise there is at least one server, and the servers are ServerPlan of the enabled streams. |
| MultiCamera.MultiCameraRTSPServer.constructor | camera_rtsp_server.py:643-652 | Stores the port and starts with no streams. |
| MultiCamera.MultiCameraRTSPServer.AddStream | camera_rtsp_server.py:654-694 | Appends the options with defaults filled in, numbered one past the streams already added. |
| MultiCamera.MultiCameraRTSPServer.CreateCameraServer | camera_rtsp_server.py:696-714 | Creates a camera server from the stream with the bitrate in bit/s, the server's own port, and the stream's mount. |
| MultiCamera.ConfigSettings | camera_rtsp_server.py:696-714 | The settings a stream's camera server gets. It has no contract of its own: CreateCameraServer states that the server is created with them. |
| MultiCamera.MultiCameraRTSPServer.FilterEnabled | camera_rtsp_server.py:723 | The comprehension computes Enabled. |
| MultiCamera.MultiCameraRTSPServer.GroupByPort | camera_rtsp_server.py:731-736 | The loop yields the ports in first-seen order and, for each, exactly its streams in order. |
| MultiCamera.MultiCameraRTSPServer.MountPortStreams | camera_rtsp_server.py:755-770 | Builds each stream's own camera server and mounts exactly those whose pipelines build. |
| MultiCamera.MultiCameraRTSPServer.Start | camera_rtsp_server.py:716-772 | No streams, or no enabled stream, is an error. Otherwise the servers are ServerPlan of the enabled streams. |
| MultiCamera.MultiCameraRTSPServer.CreateServers | camera_rtsp_server.py:747-772 | One server per port in the dict's key order, each with its mounts. |
| MultiRes.EnabledStreams | multi_res_server.py:75 | Exactly the streams whose `enable` is true or missing. |
| MultiRes.EnabledStreamsKeepOrder | multi_res_server.py:75 | The filter keeps configuration order. |
| MultiRes.DecodeStages | multi_res_server.py:149-182 | The decode stages for the camera. It has no contract of its own: DecodeFormats states its cases. |
| MultiRes.DecodeFormats | multi_res_server.py:149-182 | The chain opens with caps at the configured size and rate, 1920x1080 at 30 when missing. It ends in the hardware decoder or in NV12 NVMM caps. The JPEG decoder is there exactly for "mjpeg", the H.264 parser exactly for "h264", and NV12 input caps exactly for "nv12". Any other format is taken as raw video without error. It holds no encoder and no sink. |
| MultiRes.SourceChain | multi_res_server.py:148-186 | The chain starts at the v4l2 source of the configured device, `/dev/video0` when missing. The decode stages follow, and it ends in the main tee. |
| MultiRes.OutSize | multi_res_server.py:190-191 | Helper, no contract of its own: a stream's output size, 1920x1080 where a dimension is missing. MembersNonEmpty, EncoderPerDistinctSize and the grouping members are stated over it, through OutSizes. |
| MultiRes.MembersNonEmpty | multi_res_server.py:201-203 | Every group has a first member, a valid stream index. |
| MultiRes.GroupBitrate | multi_res_server.py:202-204 | The group's bitrate is its first member's, 4000 kbit/s when missing. It has no contract of its own: GroupBranchesContain states that it is the bitrate of the group's encoder. |
| MultiRes.EncodeBranch | multi_res_server.py:207-219 | A group's encode branch. It has no contract of its own: BranchEncoderCounts states its one encoder, BranchSinks that it has no sink, and GroupBranchesContain its size and bitrate. |
| MultiRes.OutputBranch | multi_res_server.py:221-229 | A stream's output branch. It has no contract of its own: BranchSinks states its UDP port, and RelayMatchesSink that the relay reads what it writes. |
| MultiRes.GroupBranches | multi_res_server.py:201-229 | The branches of the groups in order. It has no contract of its own: GroupBranchesEncoders, GroupBranchesPorts and GroupBranchesContain state its properties. |
| MultiRes.MainPipeline | multi_res_server.py:142-231 | What _build_main_pipeline builds. It has no contract of its own: EncoderPerDistinctSize, SinkPortsPerStream and StreamUnderItsGroup state its properties. |
| MultiRes.BranchEncoderCounts | multi_res_server.py:211-228 | An encode branch holds one encoder; an output branch holds none. |
| MultiRes.GroupBranchesEncoders | multi_res_server.py:201-229 | The branches for k groups hold exactly k encoders. |
| MultiRes.EncoderPerDistinctSize | multi_res_server.py:142-231 | The launch line holds exactly as many encoders as there are distinct output sizes. |
| MultiRes.BranchSinks | multi_res_server.py:222-229 | An encode branch sends nowhere; stream i's output branch sends to UDP port 15000 + i. |
| MultiRes.OutputBranchesPorts | multi_res_server.py:222-229 | A group's output branches send to 15000 + each member's index, in member order. |
| MultiRes.GroupBranchesPorts | multi_res_server.py:201-229 | The sink ports of all branches are 15000 + the members' indices, group by group. |
| MultiRes.SinkPortsPerStream | multi_res_server.py:188-229 | There is one UDP sink per stream, the sink ports are pairwise distinct, and they are exactly 15000 .. 15000 + N - 1. |
| MultiRes.GroupBranchesContain | multi_res_server.py:201-229 | Group g's encode branch carries its size and first member's bitrate, and every member's output branch hangs off group g's tee. |
| MultiRes.StreamUnderItsGroup | multi_res_server.py:188-229 | Each stream's output branch is under the tee of the group of its own output size, whose encode branch scales to that size. |
| MultiRes.RtspRelay | multi_res_server.py:239-248 | Stream i's relay reads UDP port 15000 + i as H.265 with payload type 96 and re-payloads it as `pay0`. |
| MultiRes.RelayMatchesSink | multi_res_server.py:223-247 | The relay listens where the stream's sink sends, with its buffer size, and expects the codec and payload type its payloader writes. |
| MultiRes.Registry | multi_res_server.py:324-340 | The registry has a server for exactly the ports of the streams read. |
| MultiRes.RegistryExactly | multi_res_server.py:324-340 | A port's server holds exactly the relays of the streams with that port, each at its stream's path. |
| MultiRes.RegistryServesEveryStream | multi_res_server.py:324-340 | Stream i's relay is mounted at its path on its own port's server and on no other. |
| MultiRes.RegistryStep | multi_res_server.py:329-340 | One loop pass adds a server for a new port and puts the stream's relay on its port's server. |
| MultiRes.ServerOrderIsRegistry | multi_res_server.py:329-333 | Servers are created in first-seen port order, once per distinct port. |
| MultiRes.Mounted | multi_res_server.py:324-345 | The registry loop mounts every stream, or stops right after the first stream lacking `width`, `height` or `bitrate`. |
| MultiRes.MountedUpTo | multi_res_server.py:340-345 | The loop stops after stream i when stream i is the first such stream. |
| MultiRes.MultiResolutionRTSPServer.constructor | multi_res_server.py:74-88 | Stores the camera, the streams and the mode, with no clients, no pipeline, no groups and no servers. |
| MultiRes.MultiResolutionRTSPServer.FilterEnabled | multi_res_server.py:75 | The comprehension computes EnabledStreams. |
| MultiRes.MultiResolutionRTSPServer.Create | multi_res_server.py:74-88 | Fails exactly when no stream is enabled. Otherwise it keeps the enabled streams in order, with `on_demand` false when missing. |
| MultiRes.MultiResolutionRTSPServer.StartPipeline | multi_res_server.py:90-109 | Matches Lifecycle.StartPipeline on the server's state. |
| MultiRes.MultiResolutionRTSPServer.StopPipeline | multi_res_server.py:111-119 | Matches Lifecycle.StopPipeline. |
| MultiRes.MultiResolutionRTSPServer.OnClientConnected | multi_res_server.py:121-126 | Matches Lifecycle.Connect. |
| MultiRes.MultiResolutionRTSPServer.OnClientDisconnected | multi_res_server.py:128-134 | Matches Lifecycle.Disconnect. |
| MultiRes.MultiResolutionRTSPServer.CheckAndStopPipeline | multi_res_server.py:136-140 | Matches Lifecycle.CheckAndStop, including the false result. |
| MultiRes.MultiResolutionRTSPServer.FireTimer | multi_res_server.py:134-140 | Matches Lifecycle.Fire. |
| MultiRes.MultiResolutionRTSPServer.GroupBySize | multi_res_server.py:188-198 | `resolution_groups` becomes the first-seen size order and each size's member positions. |
| MultiRes.MultiResolutionRTSPServer.FillGroups | multi_res_server.py:189-195 | The grouping loop computes FirstSeen and PositionsMap of the sizes. |
| MultiRes.MultiResolutionRTSPServer.AppendGroup | multi_res_server.py:201-229 | Appends the group's encode branch with its first member's bitrate, then one output branch per member. |
| MultiRes.MultiResolutionRTSPServer.GroupBranchLoop | multi_res_server.py:201-229 | The nested loops compute GroupBranches over the groups in order. |
| MultiRes.MultiResolutionRTSPServer.BuildMainPipeline | multi_res_server.py:142-231 | Returns MainPipeline and leaves `resolution_groups` grouped. |
| MultiRes.AllNamed | multi_res_server.py:318 | Predicate, no contract of its own: every stream has a name, which the encoder report reads directly. RegisterRelays and Start state when they stop with it. |
| MultiRes.Described | multi_res_server.py:344-345 | Predicate, no contract of its own: a stream has width, height and bitrate, which the stream report reads directly. FillRegistry, RegisterRelays and Start state when they stop with it. |
| MultiRes.MultiResolutionRTSPServer.RegisterRelays | multi_res_server.py:317-345 | Stops before any server when some stream lacks a name. Otherwise `servers` is the registry of the streams Mounted. It succeeds exactly when every stream has all keys. |
| MultiRes.MultiResolutionRTSPServer.FillRegistry | multi_res_server.py:324-345 | The registry loop produces the first-seen port order and the registry of the streams Mounted. |
| MultiRes.MultiResolutionRTSPServer.Start | multi_res_server.py:288-345 | States the two engine failure exits. When the pipeline plays, the result is the main pipeline exactly when every stream has all keys, else a missing-key error. The servers are those RegisterRelays states. |
| Lifecycle.StartPipeline | multi_res_server.py:90-109 | A no-op with a pipeline held. Otherwise one launch, and the pipeline is held exactly when the engine started it. |
| Lifecycle.StopPipeline | multi_res_server.py:111-119 | Never leaves a pipeline held. It is a no-op without one, and otherwise one halt. |
| Lifecycle.CheckAndStop | multi_res_server.py:136-140 | Stops exactly when no client is left, and never asks to repeat. |
| Lifecycle.Connect | multi_res_server.py:121-126 | One more client. There is exactly one launch when on-demand mode is on, the count was 0 and no pipeline is held. The pipeline is then held exactly when the engine started it. Checks and halts are unchanged. |
| Lifecycle.Disconnect | multi_res_server.py:128-134 | The count drops by one, clamped at 0. A check is scheduled exactly when on-demand mode is on and the count reaches 0. The pipeline, launches and halts are unchanged. |
| Lifecycle.Fire | multi_res_server.py:134-140 | GLib runs one scheduled check once. It has no contract of its own: FireOnce states its effect. |
| Lifecycle.Step | multi_res_server.py:121-140 | One callback dispatched by the main loop. It has no contract of its own: CountNeverNegative, ClientsAreServed and NotOnDemandIgnoresClients state what sequences of steps keep. |
| Lifecycle.Run | multi_res_server.py:121-140 | A sequence of callbacks. It has no contract of its own: the same lemmas and the examples state its results. |
| Lifecycle.CallbacksDoOneThing | multi_res_server.py:121-134 | Connecting never halts or schedules a check. Disconnecting never launches or changes whether the pipeline is held. |
| Lifecycle.FireOnce | multi_res_server.py:134-140 | A fired check leaves the queue and stops the pipeline exactly when no client is connected. |
| Lifecycle.CountNeverNegative | multi_res_server.py:128-130 | The client count never goes negative over any event sequence. |
| Lifecycle.ClientsAreServed | multi_res_server.py:90-140 | In on-demand mode, while the engine starts every time, a connected client always has a running pipeline. |
| Lifecycle.NotOnDemandIgnoresClients | multi_res_server.py:121-134 | Without on-demand mode, clients never touch the pipeline or the timer. |
| Lifecycle.IdleStopThenRestart | multi_res_server.py:121-140 | Two clients leaving and the check firing halt the pipeline once, and the next client launches it again. |
| Lifecycle.FirstClientLaunches | multi_res_server.py:121-140 | Starting with no pipeline in on-demand mode, two clients come and go and the check fires. The result is exactly one launch and one halt. |
| Lifecycle.ReconnectCancelsStop | multi_res_server.py:121-140 | A client returning before the check fires keeps the pipeline running. |
| Stages.Lower | camera_rtsp_server.py:367-369 | Lower-casing keeps the length and maps every character by LowerChar. |
| Stages.NatToString | camera_rtsp_server.py:676-678 | The decimal text of a number is non-empty and made of digits. |
| Stages.NatToStringInjective | camera_rtsp_server.py:676-678 | Different numbers have different decimal texts. |

## Left out

- Device probing is not modelled: the `v4l2-ctl` calls, the parsing of their output, the GStreamer caps queries, `list_camera_formats` and `list_all_cameras` (camera_rtsp_server.py:20-237). They are external I/O, so the probed mode list is a parameter, and a device that cannot be probed reports nothing.
- GStreamer, GstRtspServer and GLib calls are not modelled: `parse_launch`, `set_state`, server creation and `attach`, `set_shared`, the bus watch and `_on_bus_message`, `GLib.MainLoop`, `timeout_add_seconds`. Their outcomes are parameters: the boolean start result and the `Launch` value. The timer is a counter of pending checks that `FireTimer` consumes.
- `_get_all_ips` (socket and ioctl enumeration for display) and `_suppress_glib_warnings` (a foreign call through ctypes) are not modelled.
- argparse `main`, JSON loading, `generate_sample_config` and every `print` are not modelled. The two reads in start's output that can raise are kept, in `MultiRes.Start`.
- rtsp_server.py is not part of this model. It picks one of two fixed passthrough launch strings.
- The exact launch-line text is not modelled. Elements are stage records with the properties the servers set. Property spellings, `!` separators and `framerate=<n>/1` formatting are not modelled.
- Stages.Lower: it folds ASCII letters only, not Python's full Unicode `str.lower()`.
- Frame rates are `real`, with no floating-point rounding.
- MultiCamera.MultiCameraRTSPServer.Start: `sys.exit(1)` on no stream or no enabled stream is returned as a `StartError`. Of the exceptions a stream's builder can raise, the model has the two ValueErrors, a missing RTSP URL and an unsupported source type (`PipelineError`); a stream raising one is skipped. Other exceptions are not modelled, such as a `None.lower()` or `None * 1000` on a null value.
- Configuration values are typed, and a key that is present with JSON `null` is treated as missing. The source treats some of these differently. In the source, `"enable": null` disables a stream (camera_rtsp_server.py:677, 723; multi_res_server.py:75). `"codec": null` makes that stream's build raise, and it is skipped (camera_rtsp_server.py:367, 768). `"width": null` gives a group of its own, keyed `(None, height)` (multi_res_server.py:190-192). In the model these act as the defaults would.
- The text of the ValueErrors and of the skipped stream's error message is not modelled.
- The per-stream report after start (camera_rtsp_server.py:774-790) only prints and is not modelled.
- MultiRes.StreamConfig has no `framerate`: it is read only for the unused `out_framerate` (multi_res_server.py:205) and for printing. `port` and `mount` are fields that are always present, so a stream missing them is not modelled.
- MultiRes.GroupBitrate: it falls back to 4000 when a group has no first member. That case never occurs (MembersNonEmpty); the fallback only keeps the function total.
- `pipeline_str` is never assigned, and the client callbacks are never connected in start. The lifecycle methods are modelled as written, without that wiring.
- MultiRes.MultiResolutionRTSPServer.Start: it requires an empty `servers`, as after `__init__`. Calling start a second time on the same object is not modelled.
- The final `set_state(NULL)` when the main loop ends (multi_res_server.py:382-385) is not modelled, because the loop itself is not modelled.
