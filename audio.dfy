/** The virtual surround player: the audio pump that splits each captured
    frame into one stream per virtual speaker and keeps every speaker's
    buffer queue fed, the silent pre-fill of those queues, the mapping from
    channels to speakers and their gains, the listener orientation taken
    from the head tracker, and what starting and stopping the player does
    to the audio server. The audio library and the audio server are
    reduced to the state the player reads and writes. */
module Audio {
  import opened Common
  import opened Rotation
  import opened Pcm
  import opened SpeakerConfig
  import opened Tracking
  import Gui

  // ---------------------------------------------------------------------
  // Sources and their buffer queues

  /** A source's play state as the audio library reports it. */
  datatype PlayState = Initial | Playing | Paused | Stopped

  /** A buffer, named by its id, and the mono samples last loaded into it. */
  datatype Buffer = Buffer(id: nat, samples: seq<int16>)

  /** One virtual speaker: its queue of buffers, oldest first, how many of
      them have finished playing, and its play state. */
  datatype Source = Source(queue: seq<Buffer>, processed: nat, state: PlayState)

  /** Finished buffers are always at the head of the queue. */
  predicate WellFormed(src: Source)
  {
    src.processed <= |src.queue|
  }

  function Ids(q: seq<Buffer>): (ids: seq<nat>)
    ensures |ids| == |q|
    ensures forall k :: 0 <= k < |q| ==> ids[k] == q[k].id
  {
    if q == [] then [] else [q[0].id] + Ids(q[1..])
  }

  /** One source's turn in `__handle_playing`: if a buffer has finished,
      take it off the head of the queue, load the channel's samples into it
      and queue it at the tail; then restart the source unless it is
      playing or paused. */
  function Service(src: Source, samples: seq<int16>): (r: Source)
    requires WellFormed(src)
    ensures WellFormed(r) && |r.queue| == |src.queue|
    ensures multiset(Ids(r.queue)) == multiset(Ids(src.queue))
    ensures r.state == (if src.state == Paused then Paused else Playing)
    ensures src.processed > 0 ==> r.processed == src.processed - 1 && r.queue[|r.queue| - 1] == Buffer(src.queue[0].id, samples)
    ensures src.processed == 0 ==> r.processed == 0 && r.queue == src.queue
  {
    var refilled :=
      if src.processed > 0 then
        var q := src.queue[1..] + [src.queue[0].(samples := samples)];
        assert Ids(src.queue) == [src.queue[0].id] + Ids(src.queue[1..]);
        assert Ids(q) == Ids(src.queue[1..]) + [src.queue[0].id];
        src.(queue := q, processed := src.processed - 1)
      else src;
    if refilled.state != Playing && refilled.state != Paused then refilled.(state := Playing) else refilled
  }

  /** A recycled buffer moves from the head of the queue to its tail; the
      others keep their order. */
  lemma ServiceRotates(src: Source, samples: seq<int16>)
    requires WellFormed(src) && src.processed > 0
    ensures Service(src, samples).queue[..|src.queue| - 1] == src.queue[1..]
  {
  }

  // ---------------------------------------------------------------------
  // The pump

  /** What one call of `__handle_playing` reports: stop, go on, or the
      exception numpy raises on a buffer of odd length. */
  datatype Outcome = Ended | Continued | Raised

  /** The state `__handle_playing` reads and writes: the previous frame and
      the sources. */
  datatype PumpState = PumpState(previous: Option<seq<byte>>, sources: seq<Source>)

  predicate PumpValid(p: PumpState)
  {
    |p.sources| > 0 && forall i :: 0 <= i < |p.sources| ==> WellFormed(p.sources[i])
  }

  /** Every source after a new frame: source `i` is served with channel `i`. */
  function ServeAll(sources: seq<Source>, data: seq<byte>): (r: seq<Source>)
    requires |sources| > 0 && |data| % 2 == 0
    requires forall i :: 0 <= i < |sources| ==> WellFormed(sources[i])
    ensures |r| == |sources|
  {
    var chs := Demux(Samples(data), |sources|);
    seq(|sources|, i requires 0 <= i < |sources| => Service(sources[i], chs[i]))
  }

  /** `__handle_playing(data)`. */
  function HandlePlayingSpec(p: PumpState, data: seq<byte>): (PumpState, Outcome)
    requires PumpValid(p)
  {
    if data == [] then (p, Ended)
    else if p.previous == Some(data) then (p, Continued)
    else if |data| % 2 != 0 then (p.(previous := Some(data)), Raised)
    else (PumpState(Some(data), ServeAll(p.sources, data)), Continued)
  }

  /** The outcomes of `__handle_playing`: an empty read ends the loop, an
      odd-length new frame raises, anything else continues; every
      non-empty read becomes the previous frame, and the sources change
      only for a new frame of even length. */
  lemma HandlePlayingCases(p: PumpState, data: seq<byte>)
    requires PumpValid(p)
    ensures var (p1, outcome) := HandlePlayingSpec(p, data);
      && (outcome == Ended <==> data == [])
      && (outcome == Raised <==> data != [] && p.previous != Some(data) && |data| % 2 != 0)
      && p1.previous == (if data == [] then p.previous else Some(data))
      && (p1.sources != p.sources ==> data != [] && p.previous != Some(data) && |data| % 2 == 0)
  {
  }

  /** An empty read ends the pump and changes nothing. */
  lemma EmptyReadEnds(p: PumpState)
    requires PumpValid(p)
    ensures HandlePlayingSpec(p, []) == (p, Ended)
  {
  }

  /** A frame identical to the previous one does nothing: after any
      non-empty frame, handling the same frame again changes no state. */
  lemma DuplicateFrameIdle(p: PumpState, data: seq<byte>)
    requires PumpValid(p) && data != []
    ensures PumpValid(HandlePlayingSpec(p, data).0)
    ensures var p1 := HandlePlayingSpec(p, data).0;
      p1.previous == Some(data) && HandlePlayingSpec(p1, data) == (p1, Continued)
  {
    if p.previous != Some(data) && |data| % 2 == 0 {
      ServeAllValid(p.sources, data);
    }
  }

  /** Source `i` is serviced with the `i`-th channel of the frame. */
  lemma ServeAllServes(sources: seq<Source>, data: seq<byte>)
    requires |sources| > 0 && |data| % 2 == 0
    requires forall i :: 0 <= i < |sources| ==> WellFormed(sources[i])
    ensures forall i :: 0 <= i < |sources| ==>
      ServeAll(sources, data)[i] == Service(sources[i], Stride(Samples(data), i, |sources|))
  {
  }

  lemma ServeAllValid(sources: seq<Source>, data: seq<byte>)
    requires |sources| > 0 && |data| % 2 == 0
    requires forall i :: 0 <= i < |sources| ==> WellFormed(sources[i])
    ensures forall i :: 0 <= i < |sources| ==> WellFormed(ServeAll(sources, data)[i])
  {
  }

  /** Every call leaves a pump the loop can go on with. */
  lemma HandlePlayingValid(p: PumpState, data: seq<byte>)
    requires PumpValid(p)
    ensures PumpValid(HandlePlayingSpec(p, data).0)
  {
    if data != [] && p.previous != Some(data) && |data| % 2 == 0 {
      ServeAllValid(p.sources, data);
    }
  }

  /** Every call keeps each source's queue length and set of buffers: no
      buffer is lost or duplicated, so each queue stays at the buffers
      queued at start-up. */
  lemma QueuesKept(p: PumpState, data: seq<byte>)
    requires PumpValid(p)
    ensures var p1 := HandlePlayingSpec(p, data).0;
      && PumpValid(p1) && |p1.sources| == |p.sources|
      && forall i :: 0 <= i < |p.sources| ==>
           |p1.sources[i].queue| == |p.sources[i].queue| &&
           multiset(Ids(p1.sources[i].queue)) == multiset(Ids(p.sources[i].queue))
  {
  }

  /** After a new frame, every source that was not playing or paused has
      been restarted, and the source of each channel whose head buffer had
      finished now ends with that channel's samples `i`, `i + c`, ... */
  lemma NewFrameServesChannels(p: PumpState, data: seq<byte>)
    requires PumpValid(p) && data != [] && p.previous != Some(data) && |data| % 2 == 0
    ensures var (p1, outcome) := HandlePlayingSpec(p, data);
      && outcome == Continued && p1.previous == Some(data)
      && forall i :: 0 <= i < |p.sources| ==>
           && p1.sources[i].state == (if p.sources[i].state == Paused then Paused else Playing)
           && (p.sources[i].processed > 0 ==>
                 var q := p1.sources[i].queue;
                 q[|q| - 1] == Buffer(p.sources[i].queue[0].id, Stride(Samples(data), i, |p.sources|)))
           && (p.sources[i].processed == 0 ==> p1.sources[i].queue == p.sources[i].queue)
  {
    assert HandlePlayingSpec(p, data) == (PumpState(Some(data), ServeAll(p.sources, data)), Continued);
    ServeAllServes(p.sources, data);
  }

  /** A full read of `bufferSize * 2 * c` bytes refills each recycled
      buffer with `bufferSize` samples. */
  lemma FullFrameRefill(p: PumpState, data: seq<byte>, bufferSize: nat, i: nat)
    requires PumpValid(p) && data != [] && p.previous != Some(data)
    requires |data| == bufferSize * 2 * |p.sources|
    requires i < |p.sources| && p.sources[i].processed > 0
    ensures var q := HandlePlayingSpec(p, data).0.sources[i].queue;
      |q[|q| - 1].samples| == bufferSize
  {
    FullFrame(data, |p.sources|, bufferSize);
  }

  /** The main loop of `__play_sound` over the successive chunks: it stops
      after the first read that does not report `Continued`. Returns the
      final state and the number of chunks handled. */
  function Run(p: PumpState, chunks: seq<seq<byte>>): (r: (PumpState, nat))
    requires PumpValid(p)
    ensures PumpValid(r.0) && r.1 <= |chunks|
  {
    RunAt(p, chunks, 0)
  }

  /** The main loop from chunk `h` on: the final state and the number of
      chunks handled from there. */
  function RunAt(p: PumpState, chunks: seq<seq<byte>>, h: nat): (r: (PumpState, nat))
    requires PumpValid(p) && h <= |chunks|
    ensures PumpValid(r.0) && r.1 <= |chunks| - h
    decreases |chunks| - h
  {
    if h == |chunks| then (p, 0)
    else
      var (p1, outcome) := HandlePlayingSpec(p, chunks[h]);
      HandlePlayingValid(p, chunks[h]);
      if outcome == Continued then
        var (p2, n) := RunAt(p1, chunks, h + 1);
        (p2, n + 1)
      else (p1, 1)
  }

  /** One turn of the main loop: a chunk that reports `Continued` is
      counted and the loop goes on with the next one; any other outcome
      stops the loop after that chunk. */
  lemma RunStep(p: PumpState, chunks: seq<seq<byte>>, h: nat)
    requires PumpValid(p) && h < |chunks|
    ensures var (p1, outcome) := HandlePlayingSpec(p, chunks[h]);
      && PumpValid(p1)
      && (outcome == Continued ==> RunAt(p, chunks, h) == (RunAt(p1, chunks, h + 1).0, RunAt(p1, chunks, h + 1).1 + 1))
      && (outcome != Continued ==> RunAt(p, chunks, h) == (p1, 1))
  {
    HandlePlayingValid(p, chunks[h]);
  }

  /** `RunStep` when chunk `h` reports `Continued` and leaves `p1`. */
  lemma RunContinues(p: PumpState, chunks: seq<seq<byte>>, h: nat, p1: PumpState)
    requires PumpValid(p) && h < |chunks|
    requires HandlePlayingSpec(p, chunks[h]) == (p1, Continued)
    ensures PumpValid(p1)
    ensures RunAt(p, chunks, h) == (RunAt(p1, chunks, h + 1).0, RunAt(p1, chunks, h + 1).1 + 1)
  {
    RunStep(p, chunks, h);
  }

  /** `RunStep` when chunk `h` reports anything but `Continued` and leaves
      `p1`. */
  lemma RunStops(p: PumpState, chunks: seq<seq<byte>>, h: nat, p1: PumpState, outcome: Outcome)
    requires PumpValid(p) && h < |chunks|
    requires HandlePlayingSpec(p, chunks[h]) == (p1, outcome) && outcome != Continued
    ensures RunAt(p, chunks, h) == (p1, 1)
  {
    RunStep(p, chunks, h);
  }

  /** An empty chunk `h` ends the loop there, with the state unchanged. */
  lemma RunEnds(p: PumpState, chunks: seq<seq<byte>>, h: nat)
    requires PumpValid(p) && h < |chunks| && chunks[h] == []
    ensures RunAt(p, chunks, h) == (p, 1)
  {
    EmptyReadEnds(p);
    RunStep(p, chunks, h);
  }

  /** What the pump loop knows after `h` chunks, where `total` is the
      result of the whole run and `rest` the result of the run from the
      current state `p` and chunk `h`: either the loop has stopped and
      `total` is its state and count, or `rest` finishes the whole run. */
  ghost predicate RunFrom(total: (PumpState, nat), rest: (PumpState, nat), p: PumpState, h: nat, done: bool)
  {
    && (!done ==> total == (rest.0, h + rest.1))
    && (done ==> total == (p, h))
  }

  /** One turn of the pump loop, where `whole` is the run from chunk `h`
      and `rest` the run from chunk `h + 1` in the state `p1` that chunk
      `h` leaves: a `Continued` chunk moves one count from the rest of the
      run to the chunks already handled, and any other outcome stops the
      loop in `p1` after `h + 1` chunks. */
  lemma RunFromStep(total: (PumpState, nat), whole: (PumpState, nat), rest: (PumpState, nat),
                    p: PumpState, p1: PumpState, h: nat, outcome: Outcome)
    requires RunFrom(total, whole, p, h, false)
    requires outcome == Continued ==> whole == (rest.0, rest.1 + 1)
    requires outcome != Continued ==> whole == (p1, 1)
    ensures RunFrom(total, rest, p1, h + 1, outcome != Continued)
  {
  }

  /** An empty read ends the loop: whatever follows it is never handled,
      and exactly the chunks up to it are. */
  lemma {:induction false} RunStopsAtEmptyRead(p: PumpState, chunks: seq<seq<byte>>, k: nat)
    requires PumpValid(p)
    requires k < |chunks| && chunks[k] == []
    requires forall j :: 0 <= j < k ==> chunks[j] != [] && |chunks[j]| % 2 == 0
    ensures Run(p, chunks) == Run(p, chunks[..k + 1])
    ensures Run(p, chunks).1 == k + 1
  {
    RunStopsFrom(p, chunks, k, 0);
  }

  /** `RunStopsAtEmptyRead` from chunk `h` on. */
  lemma {:induction false} RunStopsFrom(p: PumpState, chunks: seq<seq<byte>>, k: nat, h: nat)
    requires PumpValid(p)
    requires h <= k < |chunks| && chunks[k] == []
    requires forall j :: h <= j < k ==> chunks[j] != [] && |chunks[j]| % 2 == 0
    ensures RunAt(p, chunks, h) == RunAt(p, chunks[..k + 1], h)
    ensures RunAt(p, chunks, h).1 == k + 1 - h
    decreases k - h
  {
    var prefix := chunks[..k + 1];
    assert prefix[h] == chunks[h];
    if h == k {
      RunEnds(p, chunks, h);
      RunEnds(p, prefix, h);
    } else {
      var p1 := HandlePlayingSpec(p, chunks[h]).0;
      RunContinues(p, chunks, h, p1);
      RunContinues(p, prefix, h, p1);
      RunStopsFrom(p1, chunks, k, h + 1);
    }
  }

  // ---------------------------------------------------------------------
  // Channels, speakers and gains

  /** The audio server's channel positions the player uses. */
  datatype Position = FrontLeftPos | FrontRightPos | FrontCenterPos | RearLeftPos | RearRightPos

  /** `__pulse_audio_channel_maps`: the channel map of the virtual sink for
      each supported channel count. */
  function ChannelMap(c: int): (r: Option<seq<Position>>)
    ensures r.Some? <==> c == 2 || c == 3 || c == 5
    ensures r.Some? ==> |r.value| == c && r.value[0] == FrontLeftPos && r.value[1] == FrontRightPos
    ensures r.Some? ==> forall i, j :: 0 <= i < j < |r.value| ==> r.value[i] != r.value[j]
  {
    if c == 2 then Some([FrontLeftPos, FrontRightPos])
    else if c == 3 then Some([FrontLeftPos, FrontRightPos, FrontCenterPos])
    else if c == 5 then Some([FrontLeftPos, FrontRightPos, FrontCenterPos, RearLeftPos, RearRightPos])
    else None
  }

  /** `__pulse_speaker_name_to_my_dict` */
  function SpeakerOf(pos: Position): (name: string)
    ensures name in DefaultNames
  {
    match pos
    case FrontLeftPos => FrontLeft
    case FrontRightPos => FrontRight
    case FrontCenterPos => FrontCenter
    case RearLeftPos => RearLeft
    case RearRightPos => RearRight
  }

  /** Two channel positions never name the same speaker. */
  lemma SpeakerOfInjective(a: Position, b: Position)
    ensures SpeakerOf(a) == SpeakerOf(b) ==> a == b
  {
    DefaultNamesDistinct();
  }

  /** `__pulse_channel_order_list`: the speaker each source plays. */
  function ChannelOrder(c: int): (order: Option<seq<string>>)
    ensures order.Some? <==> c == 2 || c == 3 || c == 5
    ensures order.Some? ==> |order.value| == c && order.value == DefaultNames[..c]
  {
    match ChannelMap(c)
    case None => None
    case Some(map_) => Some(seq(|map_|, i requires 0 <= i < |map_| => SpeakerOf(map_[i])))
  }

  /** Every surround system the window offers has a channel order, and the
      player's sources play exactly the speakers of that system. */
  lemma LayoutsHaveChannelOrder(system: Gui.SurroundSystem)
    ensures var layout := Gui.Layout(system);
      && ChannelOrder(|layout|).Some?
      && forall name :: name in ChannelOrder(|layout|).value <==> name in layout
  {
    var layout := Gui.Layout(system);
    var order := ChannelOrder(|layout|).value;
    match system
    case Stereo =>
      assert order == [FrontLeft, FrontRight];
    case Lcr =>
      assert order == [FrontLeft, FrontRight, FrontCenter];
    case LcrRear =>
      assert order == [FrontLeft, FrontRight, FrontCenter, RearLeft, RearRight];
  }

  /** The gain a speaker's volume percentage gives its source. */
  function Gain(volume: int): (g: real)
    ensures g * 100.0 == volume as real
  {
    volume as real / 100.0
  }

  /** Over the slider range the gain runs from silence to unit gain and
      grows with the volume. */
  lemma GainRange(v1: int, v2: int)
    requires 0 <= v1 <= v2 <= 100
    ensures 0.0 <= Gain(v1) <= Gain(v2) <= 1.0
    ensures Gain(0) == 0.0 && Gain(100) == 1.0
  {
  }

  /** The gain of each source under the current table. */
  function Gains(params: Table, order: seq<string>): (gains: seq<real>)
    requires forall k :: 0 <= k < |order| ==> order[k] in params
    ensures |gains| == |order|
    ensures forall k :: 0 <= k < |order| ==> gains[k] == params[order[k]].volume as real / 100.0
  {
    seq(|order|, k requires 0 <= k < |order| => Gain(params[order[k]].volume))
  }

  // ---------------------------------------------------------------------
  // The listener

  /** The listener matrix made from the tracker's: row 1 negated. */
  function Listener(m: Mat3): (l: Mat3)
    ensures l.r0 == m.r0 && l.r1 == NegVec(m.r1) && l.r2 == m.r2
  {
    Mat3(m.r0, NegVec(m.r1), m.r2)
  }

  /** The listener orientation sent to the audio library: the "at" vector
      (row 2) followed by the "up" vector (row 1). */
  function Axes(l: Mat3): (Vec3, Vec3)
  {
    (l.r2, l.r1)
  }

  /** Flipping row 1 twice restores the tracker's matrix. */
  lemma ListenerInvolution(m: Mat3)
    ensures Listener(Listener(m)) == m
  {
  }

  /** What is sent: "at" is the tracker's row 2 and "up" its row 1 negated. */
  lemma ListenerAxes(m: Mat3)
    ensures Axes(Listener(m)) == (m.r2, NegVec(m.r1))
  {
  }

  /** Facing forward, the listener looks down -z with +y up. */
  lemma DefaultListenerAxes()
    ensures Listener(DefaultRotation) == Mat3(Vec3(1.0, 0.0, 0.0), Vec3(0.0, 1.0, 0.0), Vec3(0.0, 0.0, -1.0))
    ensures Axes(Listener(DefaultRotation)) == (Vec3(0.0, 0.0, -1.0), Vec3(0.0, 1.0, 0.0))
  {
    ListenerAxes(DefaultRotation);
  }

  /** After calibration, a head in the calibration pose is reported as
      minus the identity, which the listener hears as facing forward. */
  lemma CalibratedListenerAxes(r: Mat3)
    requires Orthonormal(r)
    ensures Axes(Listener(Mul(CalibrationOffset(r), r))) == Axes(Listener(DefaultRotation))
  {
    CalibratedPose(r);
  }

  // ---------------------------------------------------------------------
  // The audio server

  /** A playback stream on the server: its index, its `media.name`
      property if it has one, and the sink it plays on. */
  datatype SinkInput = SinkInput(index: nat, mediaName: Option<string>, sink: string)

  /** The part of the server the player changes: the default sink, the flat
      volume of each sink (the sinks that exist), the loaded null-sink
      modules with the sink each created, the next module id, and the
      playback streams. */
  datatype ServerState = ServerState(defaultSink: string, volumes: map<string, real>, modules: map<nat, string>,
                                     nextModule: nat, inputs: seq<SinkInput>)

  /** Module ids are handed out in increasing order. */
  predicate ServerValid(s: ServerState)
  {
    forall id :: id in s.modules ==> id < s.nextModule
  }

  /** A stream after the start-up move: streams named `media` go to the
      headset. */
  function Routed(input: SinkInput, media: string, headset: string): SinkInput
  {
    if input.mediaName == Some(media) then input.(sink := headset) else input
  }

  function RouteAll(inputs: seq<SinkInput>, media: string, headset: string): (r: seq<SinkInput>)
    ensures |r| == |inputs|
    ensures forall k :: 0 <= k < |inputs| ==> r[k] == Routed(inputs[k], media, headset)
  {
    seq(|inputs|, k requires 0 <= k < |inputs| => Routed(inputs[k], media, headset))
  }

  /** The server once the player has started: the virtual sink exists, is
      the default, and has the headset's former volume; the headset is at
      full volume; the named streams play on the headset. */
  function AfterStart(s: ServerState, headset: string, sinkName: string, media: string): (r: ServerState)
    requires headset in s.volumes && sinkName !in s.volumes
    ensures r.defaultSink == sinkName
    ensures r.volumes.Keys == s.volumes.Keys + {sinkName}
    ensures r.volumes[sinkName] == s.volumes[headset] && r.volumes[headset] == 1.0
    ensures forall k :: k in s.volumes && k != headset ==> r.volumes[k] == s.volumes[k]
    ensures r.modules == s.modules[s.nextModule := sinkName] && r.nextModule == s.nextModule + 1
    ensures r.inputs == RouteAll(s.inputs, media, headset)
  {
    ServerState(sinkName, s.volumes[sinkName := s.volumes[headset]][headset := 1.0],
                s.modules[s.nextModule := sinkName], s.nextModule + 1, RouteAll(s.inputs, media, headset))
  }

  /** The server once the player has stopped: the headset takes the
      virtual sink's volume and is the default again, and the module and
      its sink are gone. */
  function AfterStop(s: ServerState, headset: string, sinkName: string, id: nat): (r: ServerState)
    requires headset in s.volumes && sinkName in s.volumes && id in s.modules
    ensures r.defaultSink == headset
    ensures r.modules == s.modules - {id} && r.nextModule == s.nextModule && r.inputs == s.inputs
    ensures r.volumes.Keys == s.volumes.Keys - {s.modules[id]}
    ensures headset != s.modules[id] ==> r.volumes[headset] == s.volumes[sinkName]
    ensures forall k :: k in r.volumes && k != headset ==> r.volumes[k] == s.volumes[k]
  {
    s.(defaultSink := headset, volumes := s.volumes[headset := s.volumes[sinkName]] - {s.modules[id]},
       modules := s.modules - {id})
  }

  /** A session in which nobody touches the virtual sink's volume leaves
      the headset at its former volume, every other sink as it was, and no
      module behind; the headset ends up the default sink. */
  lemma SessionRoundTrip(s: ServerState, headset: string, sinkName: string, media: string)
    requires ServerValid(s) && headset in s.volumes && sinkName !in s.volumes
    ensures var s1 := AfterStart(s, headset, sinkName, media);
      var s2 := AfterStop(s1, headset, sinkName, s.nextModule);
      && ServerValid(s1) && ServerValid(s2)
      && s2.volumes == s.volumes && s2.modules == s.modules && s2.defaultSink == headset
  {
    var s1 := AfterStart(s, headset, sinkName, media);
    var s2 := AfterStop(s1, headset, sinkName, s.nextModule);
    assert s.nextModule !in s.modules;
    assert s2.modules == s.modules;
    assert s2.volumes.Keys == s.volumes.Keys;
  }

  /** A volume set on the virtual sink during the session is what the
      headset keeps afterwards. */
  lemma SessionVolumeCarriesOver(s: ServerState, headset: string, sinkName: string, media: string, v: real)
    requires ServerValid(s) && headset in s.volumes && sinkName !in s.volumes
    ensures var s1 := AfterStart(s, headset, sinkName, media);
      var s1' := s1.(volumes := s1.volumes[sinkName := v]);
      AfterStop(s1', headset, sinkName, s.nextModule).volumes == s.volumes[headset := v]
  {
    var s1 := AfterStart(s, headset, sinkName, media);
    var s1' := s1.(volumes := s1.volumes[sinkName := v]);
    assert AfterStop(s1', headset, sinkName, s.nextModule).volumes.Keys == s.volumes.Keys;
  }

  /** The audio server, as far as the player drives it. Each method is one
      request the player sends. */
  class PulseServer {
    var defaultSink: string
    var volumes: map<string, real>
    var modules: map<nat, string>
    var nextModule: nat
    var inputs: seq<SinkInput>

    function State(): ServerState
      reads this
    {
      ServerState(defaultSink, volumes, modules, nextModule, inputs)
    }

    constructor (s: ServerState)
      ensures State() == s
    {
      defaultSink, volumes, modules, nextModule, inputs := s.defaultSink, s.volumes, s.modules, s.nextModule, s.inputs;
    }

    /** `default_set` */
    method DefaultSet(name: string)
      requires name in volumes
      modifies this
      ensures State() == old(State()).(defaultSink := name)
    {
      defaultSink := name;
    }

    /** `module_load("module-null-sink", ...)`: a new sink at full volume. */
    method LoadNullSink(name: string) returns (id: nat)
      requires name !in volumes
      modifies this
      ensures id == old(nextModule)
      ensures State() == old(State()).(volumes := old(volumes)[name := 1.0], modules := old(modules)[id := name],
                                       nextModule := id + 1)
    {
      id := nextModule;
      volumes := volumes[name := 1.0];
      modules := modules[id := name];
      nextModule := id + 1;
    }

    /** `volume_set_all_chans` */
    method SetVolume(name: string, v: real)
      requires name in volumes
      modifies this
      ensures State() == old(State()).(volumes := old(volumes)[name := v])
    {
      volumes := volumes[name := v];
    }

    /** `pactl move-sink-input` */
    method MoveSinkInput(k: nat, sink: string)
      requires k < |inputs| && sink in volumes
      modifies this
      ensures State() == old(State()).(inputs := old(inputs)[k := old(inputs)[k].(sink := sink)])
    {
      inputs := inputs[k := inputs[k].(sink := sink)];
    }

    /** `module_unload`: the module and its sink go away. */
    method UnloadModule(id: nat)
      requires id in modules
      modifies this
      ensures State() == old(State()).(volumes := old(volumes) - {old(modules)[id]}, modules := old(modules) - {id})
    {
      volumes := volumes - {modules[id]};
      modules := modules - {id};
    }
  }

  // ---------------------------------------------------------------------
  // The player

  /** `np.zeros(buffer_size, dtype=np.int16)` */
  function Silence(size: nat): (z: seq<int16>)
    ensures |z| == size && forall k :: 0 <= k < size ==> z[k] == 0
  {
    seq(size, _ => 0)
  }

  /** The silent pre-fill of `__init_openal`: `n` buffers of `size` zero
      samples queued on each of `c` sources, none finished, none started.
      Buffer ids are numbered here; the audio library picks its own. */
  method Prefill(c: nat, n: nat, size: nat) returns (srcs: seq<Source>)
    ensures |srcs| == c
    ensures forall ch :: 0 <= ch < c ==>
      srcs[ch].processed == 0 && srcs[ch].state == Initial && |srcs[ch].queue| == n
    ensures forall ch, k :: 0 <= ch < c && 0 <= k < n ==> srcs[ch].queue[k] == Buffer(ch * n + k, Silence(size))
  {
    srcs := [];
    var ch := 0;
    while ch < c
      invariant 0 <= ch <= c && |srcs| == ch
      invariant forall j :: 0 <= j < ch ==> srcs[j].processed == 0 && srcs[j].state == Initial && |srcs[j].queue| == n
      invariant forall j, k :: 0 <= j < ch && 0 <= k < n ==> srcs[j].queue[k] == Buffer(j * n + k, Silence(size))
    {
      var queue := SilentQueue(ch * n, n, size);
      srcs := srcs + [Source(queue, 0, Initial)];
      ch := ch + 1;
    }
  }

  /** The buffers of one source in the pre-fill: `n` silent buffers of
      `size` samples, numbered from `first`. */
  method SilentQueue(first: nat, n: nat, size: nat) returns (queue: seq<Buffer>)
    ensures |queue| == n
    ensures forall k :: 0 <= k < n ==> queue[k] == Buffer(first + k, Silence(size))
  {
    queue := [];
    var k := 0;
    while k < n
      invariant 0 <= k <= n && |queue| == k
      invariant forall j :: 0 <= j < k ==> queue[j] == Buffer(first + j, Silence(size))
    {
      queue := queue + [Buffer(first + k, Silence(size))];
      k := k + 1;
    }
  }

  /** No buffer id is used twice in the pre-fill. */
  lemma PrefillIdsDistinct(n: nat, ch1: nat, k1: nat, ch2: nat, k2: nat)
    requires k1 < n && k2 < n
    requires ch1 * n + k1 == ch2 * n + k2
    ensures ch1 == ch2 && k1 == k2
  {
    ModDivUnique(ch1 * n + k1, n, k1, ch1);
    ModDivUnique(ch2 * n + k2, n, k2, ch2);
  }

  /** `alSourcePlay` on every source, at the top of `__play_sound`. */
  function PlayAll(sources: seq<Source>): (r: seq<Source>)
    ensures |r| == |sources|
    ensures forall i :: 0 <= i < |sources| ==> r[i] == sources[i].(state := Playing)
  {
    seq(|sources|, i requires 0 <= i < |sources| => sources[i].(state := Playing))
  }

  /** The loop of `__handle_playing` over a new frame: split it into
      channels and give source `i` its turn with channel `i`. */
  method ServeSources(sources: seq<Source>, data: seq<byte>) returns (served: seq<Source>)
    requires |sources| > 0 && |data| % 2 == 0
    requires forall i :: 0 <= i < |sources| ==> WellFormed(sources[i])
    ensures served == ServeAll(sources, data)
  {
    var c := |sources|;
    var channels := Demux(Samples(data), c);
    served := [];
    var i := 0;
    while i < c
      invariant 0 <= i <= c && |served| == i
      invariant forall j :: 0 <= j < i ==> served[j] == Service(sources[j], channels[j])
    {
      var src := Refill(sources[i], channels[i]);
      served := served + [src];
      i := i + 1;
    }
  }

  /** The loop at the top of `__play_sound`: every source is started. */
  method StartSources(sources: seq<Source>) returns (started: seq<Source>)
    ensures started == PlayAll(sources)
  {
    started := sources;
    var i := 0;
    while i < |started|
      invariant 0 <= i <= |started| == |sources|
      invariant forall j :: 0 <= j < i ==> started[j] == sources[j].(state := Playing)
      invariant forall j :: i <= j < |started| ==> started[j] == sources[j]
    {
      started := started[i := started[i].(state := Playing)];
      i := i + 1;
    }
  }

  /** One source's turn in `__handle_playing`: unqueue a finished buffer,
      fill it with the channel's samples and queue it again, then restart
      the source unless it is playing or paused. */
  method Refill(src: Source, samples: seq<int16>) returns (r: Source)
    requires WellFormed(src)
    ensures r == Service(src, samples)
  {
    r := src;
    if r.processed > 0 {
      var buf := r.queue[0];
      r := r.(queue := r.queue[1..], processed := r.processed - 1);
      buf := buf.(samples := samples);
      r := r.(queue := r.queue + [buf]);
    }
    if r.state != Playing && r.state != Paused {
      r := r.(state := Playing);
    }
  }

  class VirtualPlayer {
    var previousData: Option<seq<byte>>
    var sources: seq<Source>
    var gains: seq<real>
    var listener: Mat3
    var moduleId: nat
    const order: seq<string>
    const speakers: SpeakerTable
    const tracker: FaceTracker
    const headset: string
    const sinkName: string
    const mediaName: string

    function Pump(): PumpState
      reads this
    {
      PumpState(previousData, sources)
    }

    /** The player's own set-up in `__init__`: the channel order, the
        pre-filled sources, the gains and the forward-facing listener. */
    constructor (c: nat, speakers: SpeakerTable, tracker: FaceTracker, headset: string, sinkName: string,
                 mediaName: string, bufferSize: nat, buffersNumber: nat)
      requires ChannelOrder(c).Some?
      requires forall k :: 0 <= k < c ==> ChannelOrder(c).value[k] in speakers.params
      ensures order == ChannelOrder(c).value && this.speakers == speakers && this.tracker == tracker
      ensures this.headset == headset && this.sinkName == sinkName && this.mediaName == mediaName
      ensures previousData == None && PumpValid(Pump()) && |sources| == c
      ensures forall ch :: 0 <= ch < c ==> sources[ch].processed == 0 && sources[ch].state == Initial && |sources[ch].queue| == buffersNumber
      ensures forall ch, k :: 0 <= ch < c && 0 <= k < buffersNumber ==> sources[ch].queue[k] == Buffer(ch * buffersNumber + k, Silence(bufferSize))
      ensures gains == Gains(speakers.params, order)
      ensures listener == DefaultRotation
    {
      order := ChannelOrder(c).value;
      this.speakers := speakers;
      this.tracker := tracker;
      this.headset := headset;
      this.sinkName := sinkName;
      this.mediaName := mediaName;
      previousData := None;
      listener := DefaultRotation;
      moduleId := 0;
      var srcs := Prefill(c, buffersNumber, bufferSize);
      sources := srcs;
      gains := seq(c, _ => 1.0);
      new;
      SetSpeakersParameters();
    }

    /** `__set_speakers_parameters`, gains only: source `i` gets the volume
        of speaker `order[i]` over 100. */
    method SetSpeakersParameters()
      requires forall k :: 0 <= k < |order| ==> order[k] in speakers.params
      requires |gains| == |order|
      modifies this
      ensures gains == Gains(speakers.params, order)
      ensures previousData == old(previousData) && sources == old(sources) && Pump() == old(Pump())
      ensures listener == old(listener) && moduleId == old(moduleId)
      ensures unchanged(tracker)
    {
      var i := 0;
      while i < |order|
        invariant 0 <= i <= |order| && |gains| == |order|
        invariant forall k :: 0 <= k < i ==> gains[k] == Gain(speakers.params[order[k]].volume)
        invariant previousData == old(previousData) && sources == old(sources)
        invariant listener == old(listener) && moduleId == old(moduleId)
      {
        gains := gains[i := Gain(speakers.params[order[i]].volume)];
        i := i + 1;
      }
    }

    /** `__handle_playing(data)`. */
    method HandlePlaying(data: seq<byte>) returns (outcome: Outcome)
      requires PumpValid(Pump())
      modifies this
      ensures (Pump(), outcome) == HandlePlayingSpec(old(Pump()), data)
      ensures gains == old(gains) && listener == old(listener) && moduleId == old(moduleId)
    {
      if data == [] {
        return Ended;
      }
      if previousData == Some(data) {
        return Continued;
      }
      previousData := Some(data);
      if |data| % 2 != 0 {
        return Raised;
      }
      sources := ServeSources(sources, data);
      outcome := Continued;
    }

    /** `__play_sound` over the chunks read before the stop event: start
        every source, then handle chunk after chunk until one does not
        report `Continued`. Returns how many chunks were handled. */
    method PlaySound(chunks: seq<seq<byte>>) returns (handled: nat)
      requires PumpValid(Pump())
      modifies this
      ensures PumpValid(PumpState(old(previousData), PlayAll(old(sources))))
      ensures (Pump(), handled) == Run(PumpState(old(previousData), PlayAll(old(sources))), chunks)
      ensures gains == old(gains) && listener == old(listener) && moduleId == old(moduleId)
    {
      sources := StartSources(sources);
      ghost var total := Run(Pump(), chunks);
      handled := 0;
      var done := false;
      while handled < |chunks| && !done
        invariant 0 <= handled <= |chunks| && PumpValid(Pump())
        invariant RunFrom(total, RunAt(Pump(), chunks, handled), Pump(), handled, done)
        invariant gains == old(gains) && listener == old(listener) && moduleId == old(moduleId)
        decreases |chunks| - handled
      {
        ghost var before := Pump();
        var outcome := HandlePlaying(chunks[handled]);
        if outcome == Continued {
          RunContinues(before, chunks, handled, Pump());
        } else {
          RunStops(before, chunks, handled, Pump(), outcome);
        }
        RunFromStep(total, RunAt(before, chunks, handled), RunAt(Pump(), chunks, handled + 1), before, Pump(), handled, outcome);
        handled := handled + 1;
        done := outcome != Continued;
      }
    }

    /** One pass of `__update_listener_and_speakers`: process a camera
        frame, read the orientation, flip it into the listener matrix and
        send its axes, then refresh the gains. */
    method UpdateListenerAndSpeakers(cameraOk: bool, d: Detection, now: real) returns (at: Vec3, up: Vec3)
      requires forall k :: 0 <= k < |order| ==> order[k] in speakers.params
      requires |gains| == |order|
      modifies this, tracker
      ensures tracker.State() == if cameraOk then AfterDetection(old(tracker.State()), d, now)
                                 else AfterCameraFailure(old(tracker.State()), now)
      ensures listener == Listener(OrientationAt(tracker.State(), now, tracker.secondsBeforeRecenter))
      ensures (at, up) == Axes(listener)
      ensures gains == Gains(speakers.params, order)
      ensures Pump() == old(Pump()) && moduleId == old(moduleId)
    {
      var m := Track(cameraOk, d, now);
      at, up := SetListener(m);
      SetSpeakersParameters();
    }

    /** The tracker's half of `__update_listener_and_speakers`: process the
        frame and read the orientation. */
    method Track(cameraOk: bool, d: Detection, now: real) returns (m: Mat3)
      modifies tracker
      ensures tracker.State() == if cameraOk then AfterDetection(old(tracker.State()), d, now)
                                 else AfterCameraFailure(old(tracker.State()), now)
      ensures m == OrientationAt(tracker.State(), now, tracker.secondsBeforeRecenter)
      ensures unchanged(this) && unchanged(speakers)
    {
      var _ := tracker.CalculateCurrentOrientation(cameraOk, d, now);
      m := tracker.GetCurrentOrientation(now);
    }

    /** The listener half of `__update_listener_and_speakers`: flip the
        tracker's matrix `m` into the listener matrix and send its axes. */
    method SetListener(m: Mat3) returns (at: Vec3, up: Vec3)
      modifies this
      ensures listener == Listener(m) && (at, up) == Axes(listener)
      ensures Pump() == old(Pump()) && gains == old(gains) && moduleId == old(moduleId)
      ensures unchanged(tracker) && unchanged(speakers)
    {
      listener := Listener(m);
      at, up := listener.r2, listener.r1;
    }

    /** `__init_openal`'s switch to the headset, then
        `__create_virtual_device`. */
    method CreateVirtualDevice(server: PulseServer)
      requires headset in server.volumes && sinkName !in server.volumes
      modifies this, server
      ensures server.State() == AfterStart(old(server.State()), headset, sinkName, mediaName)
      ensures moduleId == old(server.nextModule)
      ensures Pump() == old(Pump()) && gains == old(gains) && listener == old(listener)
    {
      var headsetVolume := server.volumes[headset];
      server.DefaultSet(headset);
      var id := server.LoadNullSink(sinkName);
      server.DefaultSet(sinkName);
      RouteInputs(server);
      server.SetVolume(sinkName, headsetVolume);
      server.SetVolume(headset, 1.0);
      moduleId := id;
    }

    /** The loop of `__create_virtual_device` over the sink inputs: every
        stream of the player's media moves to the headset. */
    method RouteInputs(server: PulseServer)
      requires headset in server.volumes
      modifies server
      ensures server.State() == old(server.State()).(inputs := RouteAll(old(server.inputs), mediaName, headset))
    {
      ghost var before := server.State();
      var k := 0;
      while k < |server.inputs|
        invariant 0 <= k <= |server.inputs| == |before.inputs|
        invariant forall j :: 0 <= j < k ==> server.inputs[j] == Routed(before.inputs[j], mediaName, headset)
        invariant forall j :: k <= j < |before.inputs| ==> server.inputs[j] == before.inputs[j]
        invariant server.State() == before.(inputs := server.inputs)
      {
        if server.inputs[k].mediaName == Some(mediaName) {
          server.MoveSinkInput(k, headset);
        }
        k := k + 1;
      }
    }

    /** The server side of `stop`: hand the virtual sink's volume back to
        the headset, make the headset the default and unload the module. */
    method Stop(server: PulseServer)
      requires headset in server.volumes && sinkName in server.volumes && moduleId in server.modules
      modifies server
      ensures server.State() == AfterStop(old(server.State()), headset, sinkName, moduleId)
    {
      server.SetVolume(headset, server.volumes[sinkName]);
      server.DefaultSet(headset);
      server.UnloadModule(moduleId);
    }
  }
}
