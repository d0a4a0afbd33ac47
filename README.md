# Virtual surround with head tracking: a Dafny model

The Linux application turns a five-speaker (or stereo, or LCR) mix into
binaural sound for headphones. It also turns the sound field with the
listener's head, which a webcam tracks. Its core has three parts:

- **The player** (`Linux_version/virtual_player.py`) does three things:
  - It creates a virtual null sink on the audio server and captures that sink's
    interleaved 16-bit output.
  - It splits each captured frame into one mono stream per virtual speaker. It
    keeps each speaker's queue of buffers fed, recycling at most one finished
    buffer per speaker per frame.
  - It sets each speaker's gain from the shared speaker table, and the
    listener's orientation from the head tracker.

  Stopping the player hands the headset back its volume and its role as the
  default sink.
- **The head tracker** (`Linux_version/face_tracker.py`) keeps:
  - the last head pose, corrected by a calibration offset;
  - the time the face was lost.

  It reports the forward-facing matrix once the face has been gone for a
  configurable number of seconds.
- **The settings window** (`Linux_version/gui_v2.py`) covers:
  - sink lookup;
  - the shared speaker table and its setters, with left/right mirroring;
  - the mirror and reset buttons of the options panel;
  - where the live table comes from at start-up;
  - the speaker icon bucket;
  - window centering.

The modules follow that structure:

- `Common` (`common.dfy`): options, bytes, 16-bit samples, Python's `int()` and
  a first-match search.
- `Rotation` (`rotation.dfy`): 3x3 matrices over the reals, with numpy's `@`, `.T`,
  `* (-1)` and `np.identity(3)` as `Mul`, `Transpose`, `Neg` and `Identity`.
- `SpeakerConfig` (`speaker_config.dfy`): the speaker table as a class, the
  string operations behind mirroring, and the mirror pass.
- `Gui` (`gui.dfy`): the options panel as a class, sink lookup, icons, layouts,
  start-up and centering.
- `Tracking` (`face_tracker.dfy`): the tracker as a class, over a pure
  `TrackerState` specification.
- `Pcm` (`pcm.dfy`): decoding and encoding samples, channel strides and
  interleaving.
- `Audio` (`audio.dfy`), covering:
  - buffer queues and the pump as pure specifications;
  - the main loop;
  - channel order and gains;
  - the listener;
  - the audio server as a class with start and stop round trips;
  - the player as a class whose methods are proved against those
    specifications.

Camera frames, the clock and captured chunks are parameters. Each frame is
reduced to what the pose estimator made of it, time is a `real` passed in, and
the sequence of chunks stands for what the capture pipe returns until the stop
event.

## Model

| member | source | states |
|---|---|---|
| Common.Trunc | Linux_version/gui_v2.py:648 | Python's `int()` on a float truncates toward zero: the result is within one of the input, on the input's side of zero |
| Common.FirstIndex | Linux_version/gui_v2.py:34-38 | The early-return search finds the first element that satisfies the test, and reports nothing exactly when no element does |
| SpeakerConfig.StartsWithPrefix | Linux_version/gui_v2.py:644 | The match test behind `in` and `replace` holds exactly when the pattern is a prefix of the string |
| SpeakerConfig.ContainsIsSubstring | Linux_version/gui_v2.py:644 | `"left" in name` holds exactly when the pattern occurs at some position of the name |
| SpeakerConfig.ReplaceAll | Linux_version/gui_v2.py:644-645 | Replacing a pattern by itself leaves any string unchanged |
| SpeakerConfig.ReplaceAbsent | Linux_version/gui_v2.py:643-645 | `str.replace` leaves a string without the pattern unchanged |
| SpeakerConfig.MirrorOfSideless | Linux_version/gui_v2.py:643-645 | A speaker name naming neither side is its own mirror |
| SpeakerConfig.MirrorOfDefaults | Linux_version/gui_v2.py:643-645 | Front left and front right are each other's mirrors, as are rear left and rear right; front center mirrors itself |
| SpeakerConfig.MirrorInvolution | Linux_version/gui_v2.py:643-645 | Over the default speakers, mirroring stays in the table, is its own inverse, and fixes only the centre speaker |
| SpeakerConfig.CopySignInt | Linux_version/gui_v2.py:653-654 | `int(copysign(value, angle))` has the floored magnitude of `value` and the sign of the stored angle, where 0 counts as positive |
| SpeakerConfig.CopySignStable | Linux_version/gui_v2.py:655-658 | Copying a sign onto a value that already carries it changes nothing |
| SpeakerConfig.CopySignSelf | Linux_version/gui_v2.py:653-654 | Re-applying a stored angle to itself keeps it |
| SpeakerConfig.WithVolume | Linux_version/gui_v2.py:647-650 | The volume setter sets the truncated volume on the speaker, and on its mirror when mirroring is on. It changes no other field and no other speaker, and keeps the key set |
| SpeakerConfig.WithAngle | Linux_version/gui_v2.py:652-658 | The angle setter gives the speaker, and with mirroring its mirror, the magnitude of the value with each one's own sign. Nothing else changes |
| SpeakerConfig.SpeakerTable.constructor | Linux_version/gui_v2.py:703 | The shared table starts as the given dictionary |
| SpeakerConfig.SpeakerTable.SetSpeakerVolume | Linux_version/gui_v2.py:647-650 | Updates the shared dictionary in place to `WithVolume` of its old contents |
| SpeakerConfig.SpeakerTable.SetSpeakerAngle | Linux_version/gui_v2.py:652-658 | Updates the shared dictionary in place to `WithAngle` of its old contents |
| SpeakerConfig.MirrorPass | Linux_version/gui_v2.py:518-531 | The pass over the speaker names keeps the table's key set |
| SpeakerConfig.MirrorPassEffect | Linux_version/gui_v2.py:512-531 | When mirrors are separate, the mirror pass has this effect: every leading-side speaker keeps its values, its mirror gets its volume and its angle magnitude with the mirror's own sign, and every other speaker is untouched |
| SpeakerConfig.DefaultMirrorsSeparate | Linux_version/gui_v2.py:690-696 | Any table with the default speakers meets the pass's conditions for either leading side |
| Gui.FindSinkByName | Linux_version/gui_v2.py:34-38 | Returns the first sink with that name, and `None` exactly when no sink has it |
| Gui.FindSinkByDescription | Linux_version/gui_v2.py:41-45 | Returns the first sink with that description, and `None` exactly when no sink has it |
| Gui.FindSinkByNameAppend | Linux_version/gui_v2.py:34-38 | Sinks listed after a match do not change the result |
| Gui.SpeakerIconId | Linux_version/gui_v2.py:324-332 | One of four icons; the silent icon exactly for volume 0 |
| Gui.SpeakerIconMonotone | Linux_version/gui_v2.py:324-332 | On non-negative volumes, a louder speaker never shows a quieter icon |
| Gui.SpeakerIconBuckets | Linux_version/gui_v2.py:324-332 | For positive volumes, the icons are: below 35, below 75, the rest |
| Gui.Layout | Linux_version/gui_v2.py:705-709 | Each surround system lists only speakers of the default table |
| Gui.LeadingSide | Linux_version/gui_v2.py:513-516 | The leading side is "left" exactly when a selected speaker's name contains "left", and "right" otherwise |
| Gui.OptionsFrame.constructor | Linux_version/gui_v2.py:402-419 | The panel shares the live table, takes its key order once, starts with no selection and with mirroring on |
| Gui.OptionsFrame.SelectSpeaker | Linux_version/gui_v2.py:501-502 | Records the selected speaker |
| Gui.OptionsFrame.ToggleMirroring | Linux_version/gui_v2.py:476-481 | A click on the mirror checkbox flips mirroring and keeps the selection |
| Gui.OptionsFrame.Reset | Linux_version/gui_v2.py:504-508 | Reset clears the selection. The live table becomes what the default table held at the click. When the two tables are different objects, the defaults are unchanged |
| Gui.OptionsFrame.MirrorClick | Linux_version/gui_v2.py:512-531 | With mirroring on, the table becomes `MirrorPass` over the panel's names from the current leading side; with it off, the table is unchanged |
| Gui.MirrorClickOnDefaults | Linux_version/gui_v2.py:512-531 | On the default speakers, the mirror click has the effect stated by `MirrorPassEffect`, for any selection |
| Gui.RestoreSpeakersAsWritten | Linux_version/gui_v2.py:699-703 | As written: when no settings file can be read, the live table is the default settings' own dictionary |
| Gui.RestoreSpeakers | Linux_version/gui_v2.py:789-798 | Corrected start-up: the live table is always a separate object, holding the saved table or a copy of the defaults |
| Gui.FirstRunResetKeepsEdit | Linux_version/gui_v2.py:504-508 | As written, on first run, editing front-left to 40 and pressing reset leaves 40 |
| Gui.FirstRunResetRestores | Linux_version/gui_v2.py:504-508 | With the corrected start-up, the same edit and reset restore 100 |
| Gui.EditThenReset | Linux_version/gui_v2.py:504-508 | With the corrected start-up, after any sequence of volume edits, reset restores exactly the default table |
| Gui.ScreenOf | Linux_version/gui_v2.py:757-767 | When some monitor holds the window's corner, edges included, the chosen screen is the first such monitor; when none does, it is the zero rectangle |
| Gui.CenterWindow | Linux_version/gui_v2.py:749-772 | The loop finds the first monitor holding the window's corner, edges included. The corner is placed at the floor of half the free space, measured from that screen's origin |
| Gui.CenteredInside | Linux_version/gui_v2.py:769-770 | A window that fits on the screen with its offset is placed within the screen |
| Rotation.MulIdentityLeft | Linux_version/face_tracker.py:79 | With the offset reset to `np.identity(3)`, `offset @ pose` is the pose itself |
| Rotation.MulNegLeft | Linux_version/face_tracker.py:101 | A negated offset, as `find_offset_rotation_matrix` stores, negates the product `offset @ pose` |
| Tracking.AfterDetection | Linux_version/face_tracker.py:55-85 | A pose sets the offset-corrected pose and clears the lost time. A failed pose changes nothing. A missing face starts the lost timer only if it was not running. The offset never changes |
| Tracking.AfterCameraFailure | Linux_version/face_tracker.py:87-91 | A failed camera read restarts the lost timer and keeps the pose |
| Tracking.OrientationAt | Linux_version/face_tracker.py:115-119 | The tracker reports forward exactly when a non-zero lost time is at least the recentre delay in the past, and the current pose otherwise |
| Tracking.CalibrationOffset | Linux_version/face_tracker.py:100-101 | The offset's transpose is the calibration pose negated |
| Tracking.CheckCameraAngle | Linux_version/face_tracker.py:146-147 | The camera is well placed exactly when its angle is within 15 degrees either way |
| Tracking.FaceTracker.constructor | Linux_version/face_tracker.py:14-30 | A new tracker has no offset, no lost time and the forward pose |
| Tracking.FaceTracker.CalculateRotationMatrix | Linux_version/face_tracker.py:55-85 | Updates the fields to `AfterDetection` and returns the current pose |
| Tracking.FaceTracker.CalculateCurrentOrientation | Linux_version/face_tracker.py:87-98 | A failed read gives `AfterCameraFailure`; otherwise the frame is processed |
| Tracking.FaceTracker.FindOffsetRotationMatrix | Linux_version/face_tracker.py:100-101 | Processes the frame, then stores the negated transpose of the resulting pose as the offset |
| Tracking.FaceTracker.ResetRotationOffset | Linux_version/face_tracker.py:103-104 | The offset becomes the identity; nothing else changes |
| Tracking.FaceTracker.GetOffsetRotationMatrix | Linux_version/face_tracker.py:106-107 | Returns the offset |
| Tracking.FaceTracker.SetOffsetRotationMatrix | Linux_version/face_tracker.py:112-113 | The offset becomes the given matrix; nothing else changes |
| Tracking.FaceTracker.GetCurrentOrientation | Linux_version/face_tracker.py:115-119 | Returns `OrientationAt` of the tracker's state |
| Tracking.InitialOrientation | Linux_version/face_tracker.py:21-30 | A new tracker faces forward at any time |
| Tracking.PoseIsReported | Linux_version/face_tracker.py:77-80 | After a pose, the offset-corrected pose is reported at any later time |
| Tracking.ResetOffsetPose | Linux_version/face_tracker.py:103-104 | With the offset reset, a pose is reported unchanged |
| Tracking.MissesKeepFirstLoss | Linux_version/face_tracker.py:82-83 | A run of frames without a face keeps the pose and offset. The lost time is that of the first of them, unless a timer was already running |
| Tracking.RecenterAfterMisses | Linux_version/face_tracker.py:115-117 | Starting from a tracked face, a run of misses recentres exactly when the delay has passed since the first miss |
| Tracking.CameraFailureRecenters | Linux_version/face_tracker.py:89-91 | After a failed camera read, the tracker recentres exactly when the delay has passed since that read |
| Tracking.CalibratedPose | Linux_version/face_tracker.py:100-101 | For a rotation, the offset derived from it maps the same pose to minus the identity |
| Tracking.CalibrateThenSamePose | Linux_version/face_tracker.py:100-104 | Reset, calibrate on a pose, then see that pose again: the tracker holds minus the identity |
| Pcm.Decode16 | Linux_version/virtual_player.py:191 | The sample is the two bytes read as a 16-bit two's-complement value: it equals `lo + 256*hi` modulo 2^16, and is negative exactly when the high byte's top bit is set |
| Pcm.DecodeEncode16 | Linux_version/virtual_player.py:191 | Decoding a sample's little-endian bytes gives the sample back |
| Pcm.EncodeDecode16 | Linux_version/virtual_player.py:202 | Encoding a decoded sample gives the two bytes back |
| Pcm.Samples | Linux_version/virtual_player.py:191 | An even-length buffer gives half as many samples, each decoded from its byte pair |
| Pcm.ToBytes | Linux_version/virtual_player.py:202 | Each sample becomes its low byte, then its high byte |
| Pcm.SamplesOfBytes | Linux_version/virtual_player.py:191 | Decoding the bytes of samples gives the samples back |
| Pcm.BytesOfSamples | Linux_version/virtual_player.py:202 | Encoding the samples of an even-length buffer gives the buffer back |
| Pcm.StrideAt | Linux_version/virtual_player.py:193 | Position `k` of `s[i::c]` is `s[i + k*c]` |
| Pcm.StrideReachesEnd | Linux_version/virtual_player.py:193 | `s[i::c]` takes every element up to the end of `s` |
| Pcm.StrideLength | Linux_version/virtual_player.py:193 | Through `n*c` samples, each of the `c` strides has `n` samples |
| Pcm.Demux | Linux_version/virtual_player.py:193 | There is one stride per channel, channel `i` starting at sample `i` |
| Pcm.DemuxSample | Linux_version/virtual_player.py:193 | Sample `i + k*c` of the frame is sample `k` of channel `i` |
| Pcm.InterleaveDemux | Linux_version/virtual_player.py:193 | A frame of `n*c` samples splits into channels of `n` samples, which interleave back to the frame |
| Pcm.DemuxInterleave | Linux_version/virtual_player.py:193 | Splitting interleaved channels gives the channels back |
| Pcm.FullFrame | Linux_version/virtual_player.py:26 | A full pipe read of `bufferSize*2*c` bytes gives every channel `bufferSize` samples |
| Audio.Service | Linux_version/virtual_player.py:195-210 | One source's turn keeps the queue's length and its buffers as a multiset. A paused source stays paused and any other ends playing. A finished buffer moves to the tail with the channel's samples, and `processed` drops by one; with none finished the queue is untouched |
| Audio.ServiceRotates | Linux_version/virtual_player.py:198-204 | The recycled buffer leaves the head; the other buffers keep their order |
| Audio.ServeAllServes | Linux_version/virtual_player.py:191-210 | After a new frame, source `i` takes its turn with `samples[i::c]`, where `c` is the number of sources |
| Audio.HandlePlayingCases | Linux_version/virtual_player.py:182-212 | An empty read ends the loop, an odd-length new frame raises, and anything else continues. Every non-empty read becomes the previous frame, and the sources change only for a new frame of even length |
| Audio.EmptyReadEnds | Linux_version/virtual_player.py:183-184 | An empty read ends the pump and changes nothing |
| Audio.DuplicateFrameIdle | Linux_version/virtual_player.py:186-189 | After any non-empty frame, the same frame again changes nothing and continues |
| Audio.QueuesKept | Linux_version/virtual_player.py:195-210 | Each call keeps every queue's length and its buffers as a multiset, whatever the data |
| Audio.NewFrameServesChannels | Linux_version/virtual_player.py:189-210 | A new even frame continues and records the frame. A paused source stays paused and every other ends playing. Each source with a finished buffer gets its channel's stride `i, i+c, ...` at the tail; the others keep their queue |
| Audio.FullFrameRefill | Linux_version/virtual_player.py:26 | A full read refills the recycled buffer with exactly `bufferSize` samples |
| Audio.Run | Linux_version/virtual_player.py:174-177 | The main loop keeps the pump well formed and handles at most all the chunks |
| Audio.RunAt | Linux_version/virtual_player.py:174-177 | The loop from a given chunk on keeps the pump well formed and handles at most the chunks left |
| Audio.RunStep | Linux_version/virtual_player.py:174-177 | One turn of the loop: a chunk that reports `Continued` is counted and the loop goes on with the next; any other outcome stops it after that chunk, in the state the chunk left |
| Audio.RunStopsAtEmptyRead | Linux_version/virtual_player.py:174-177 | The loop stops at the first empty read: chunks after it are never handled, and it handles exactly up to it |
| Audio.ChannelMap | Linux_version/virtual_player.py:42-46 | A channel map exists exactly for 2, 3 and 5 channels. It has `c` distinct positions and starts front-left, front-right |
| Audio.SpeakerOf | Linux_version/virtual_player.py:34-40 | Every channel position names a speaker of the default table |
| Audio.SpeakerOfInjective | Linux_version/virtual_player.py:34-40 | No two channel positions name the same speaker |
| Audio.ChannelOrder | Linux_version/virtual_player.py:34-48 | A channel order exists exactly for 2, 3 and 5 channels, and is the first `c` default speakers |
| Audio.LayoutsHaveChannelOrder | Linux_version/gui_v2.py:541 | Every surround system the window offers gives a supported channel count, whose sources play exactly that system's speakers |
| Audio.Gain | Linux_version/virtual_player.py:157 | The gain times 100 is the volume percentage |
| Audio.GainRange | Linux_version/virtual_player.py:157 | Over the slider range, the gain runs from 0 to 1 and grows with the volume |
| Audio.Gains | Linux_version/virtual_player.py:155-158 | Source `k`'s gain is the volume of speaker `order[k]` over 100 |
| Audio.Listener | Linux_version/virtual_player.py:141-143 | The listener matrix is the tracker's with row 1 negated |
| Audio.ListenerInvolution | Linux_version/virtual_player.py:141-143 | Negating row 1 twice gives the tracker's matrix back |
| Audio.ListenerAxes | Linux_version/virtual_player.py:143-148 | What is sent: "at" is the tracker's row 2 and "up" its row 1 negated |
| Audio.DefaultListenerAxes | Linux_version/virtual_player.py:145-146 | Facing forward, the listener looks down -z with +y up |
| Audio.CalibratedListenerAxes | Linux_version/virtual_player.py:141-146 | After calibration, a head in the calibration pose is heard as facing forward |
| Audio.RouteAll | Linux_version/virtual_player.py:122-126 | Exactly the streams named after the media move to the headset |
| Audio.AfterStart | Linux_version/virtual_player.py:110-131 | After start, the virtual sink exists, is the default, and has the headset's former volume. The headset is at full volume, other sinks are untouched, and the module is recorded |
| Audio.AfterStop | Linux_version/virtual_player.py:215-229 | After stop, the headset is the default sink and takes the virtual sink's volume. The module and its sink are gone, other volumes and the routing are unchanged |
| Audio.PulseServer.constructor | Linux_version/virtual_player.py:31 | The server the player is given starts in the given state |
| Audio.PulseServer.DefaultSet | Linux_version/virtual_player.py:119 | `default_set` makes the named sink the default and changes nothing else |
| Audio.PulseServer.LoadNullSink | Linux_version/virtual_player.py:111-115 | Loading the null-sink module returns the next module id, adds the sink at full volume, and records the module as creating it; nothing else changes |
| Audio.PulseServer.SetVolume | Linux_version/virtual_player.py:129-131 | `volume_set_all_chans` sets that sink's volume and changes nothing else |
| Audio.PulseServer.MoveSinkInput | Linux_version/virtual_player.py:122-126 | `pactl move-sink-input` moves that one stream to the sink; nothing else changes |
| Audio.PulseServer.UnloadModule | Linux_version/virtual_player.py:229 | Unloading the module removes it and its sink; nothing else changes |
| Audio.SessionRoundTrip | Linux_version/virtual_player.py:218-229 | Start then stop restores every sink's flat volume (its `value_flat` level) and the module list, and makes the headset the default |
| Audio.SessionVolumeCarriesOver | Linux_version/virtual_player.py:220 | A volume set on the virtual sink during the session is the headset's volume after stop |
| Audio.Silence | Linux_version/virtual_player.py:103 | The pre-fill buffer is `size` zero samples |
| Audio.Prefill | Linux_version/virtual_player.py:100-108 | Each of the `c` sources queues `n` silent buffers, none finished, none started |
| Audio.SilentQueue | Linux_version/virtual_player.py:103-108 | One source's queue: `n` buffers of silence with consecutive ids |
| Audio.PrefillIdsDistinct | Linux_version/virtual_player.py:100-102 | The model's own `ch*n + k` buffer numbering is collision-free: no id is queued on two sources or twice on one. It says nothing about the names the audio library picks |
| Audio.PlayAll | Linux_version/virtual_player.py:170-171 | Every source is started |
| Audio.Refill | Linux_version/virtual_player.py:195-210 | One source's turn, step by step, equals `Service` |
| Audio.VirtualPlayer.constructor | Linux_version/virtual_player.py:11-63 | The player's set-up has no previous frame and the pre-filled sources. Gains come from the table in channel order, and the listener starts at the forward matrix |
| Audio.VirtualPlayer.SetSpeakersParameters | Linux_version/virtual_player.py:155-158 | The gains become `Gains` of the current table; the pump and listener are untouched |
| Audio.VirtualPlayer.HandlePlaying | Linux_version/virtual_player.py:182-212 | The per-source loop leaves the pump state and outcome that `HandlePlayingSpec` gives |
| Audio.VirtualPlayer.PlaySound | Linux_version/virtual_player.py:169-177 | After starting every source, the loop ends in the state and count that `Run` gives. The gains, the listener and the module id are untouched |
| Audio.VirtualPlayer.UpdateListenerAndSpeakers | Linux_version/virtual_player.py:137-153 | The tracker takes the frame. The listener becomes the reported orientation with row 1 negated, and its axes are sent. The gains are refreshed. The pump and the module id are untouched |
| Audio.VirtualPlayer.CreateVirtualDevice | Linux_version/virtual_player.py:110-131 | The server ends in `AfterStart` of its old state, with the module id recorded |
| Audio.VirtualPlayer.Stop | Linux_version/virtual_player.py:215-229 | The server ends in `AfterStop`: the headset takes the virtual sink's volume and is the default, and the module and its sink are gone |
| Audio.StartSources | Linux_version/virtual_player.py:170-171 | The start loop leaves every source as `PlayAll` says: started, with its queue untouched |
| Audio.ServeSources | Linux_version/virtual_player.py:191-210 | The per-source loop over a new frame leaves exactly `ServeAll` of the sources and the frame: source `i` served with channel `i` |
| Audio.VirtualPlayer.Track | Linux_version/virtual_player.py:140-141 | The tracker takes the frame, or the failed read, and the orientation read back is `OrientationAt` its new state; the player itself is untouched |
| Audio.VirtualPlayer.SetListener | Linux_version/virtual_player.py:143-148 | The listener becomes the matrix with row 1 negated, "at" and "up" are its rows 2 and 1, and the pump, gains and tracker are untouched |
| Audio.VirtualPlayer.RouteInputs | Linux_version/virtual_player.py:122-126 | Every sink input carrying the player's media name moves to the headset; the other inputs and the rest of the server are unchanged |

## Left out

- OpenAL and the audio server are not called. They are reduced to what the player reads and writes:
  - each source's buffer queue, finished count and play state;
  - sink volumes, the default sink, modules and stream routing.
- Audio.PulseServer only records requests. The server's own behaviour is not modelled, such as how volumes and routing change on its own.
- Audio.VirtualPlayer.HandlePlaying: the audio library advances `processed` and the play state between calls; the model takes them as given at each call.
- Audio.Prefill: buffer ids are numbered `ch*n + k`; the audio library chooses its own names.
- Threads, the stop event, `time.sleep` and joining are not modelled. The orientation loop is modelled one pass at a time, and the play loop runs over the chunks read before the stop.
- The `parec` capture process and the stimulant subprocess are not modelled. The pipe is the sequence of chunks.
- Speaker positions are not modelled: `__get_speaker_position`, OpenAL `AL_POSITION` and distance, which use floating-point trigonometry.
- Pose estimation is left out: face landmarks, `solvePnP`, Rodrigues, and the yaw, pitch and roll angles. A frame is reduced to a `Detection`.
- The webcam and the clock are parameters.
- Matrices are over the reals, not float64. Gains are exact reals, not float32.
- Decoding assumes a little-endian machine, as numpy's native int16 on the usual targets.
- Audio.VirtualPlayer.CreateVirtualDevice: the 0.1 s pause is not modelled. The headset volume is read at the start of the method; the source reads it from the sink object fetched in `__init__`, and nothing changes it in between.
- Audio.VirtualPlayer.Stop: the stop does not model the server moving streams off the unloaded sink. It also leaves out OpenAL teardown.
- Audio.VirtualPlayer.constructor: an unsupported channel count, on which the source raises, is a precondition. So is every speaker of the channel order being in the table; otherwise `__set_speakers_parameters` raises `AttributeError`. The constructor does not switch the default sink; `CreateVirtualDevice` does that first.
- SpeakerConfig.SpeakerTable.SetSpeakerVolume and SetSpeakerAngle require the speaker and, with mirroring, its mirror to be in the table. Otherwise the source raises an exception it does not handle: `KeyError` from the volume setter, and `AttributeError` from the angle setter's `.get(...).get("angle")`.
- Gui.OptionsFrame.MirrorClick requires each leading-side speaker and its mirror to be in the table, for the same reason. The slider labels and compass redraws it triggers are not modelled.
- The GUI's drawing, images, click sounds, dropdowns and camera-calibration frame are not modelled. Reading and writing the JSON settings file is not modelled either: a readable file is the `saved` table, and a missing or corrupt one is `None`.
- Audio.SessionRoundTrip: each sink's volume is one level, pulsectl's `value_flat`, which is the average over the channels. The source reads the headset's `value_flat` and sets it on every channel of the virtual sink. At stop it sets the virtual sink's `value_flat` on every headset channel. So a session restores a multi-channel headset's average level, not its balance: channels at 0.8 and 0.6 come back at 0.7 and 0.7. The round trip is proved for the flat level only. Audio.AfterStart, Audio.AfterStop, Audio.SessionVolumeCarriesOver and Audio.PulseServer.SetVolume work on the same flat levels.
- Audio channel maps: the `channel_map`, rate and channel-count arguments of `module_load` are strings sent to the server and are not modelled.

## Findings

| source | as written | input that shows it | evidently intended | confidence | as-written member | corrected member |
|---|---|---|---|---|---|---|
| Linux_version/gui_v2.py:699-703 | With no settings file, or with an unreadable one, `__restore_settings` returns the default settings themselves. The live speaker table is then the same dictionary as `default_settings["speakers_parameters"]`, so every edit also changes the defaults, and reset (lines 504-508) copies the edited table back onto itself | First run without a settings file: set "Front left" to volume 40, then press reset; the volume stays 40 | Reset restores the default table (front left at 100) | not executed | Gui.FirstRunResetKeepsEdit | Gui.FirstRunResetRestores |
