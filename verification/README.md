# Zrythm fader core in Dafny

This project models the fader of the Zrythm digital audio workstation: the
gain, balance, mute, solo, listen and mono-compatibility stage at the end of
every channel, of the monitor section and of the sample processor. It also
models the block-level buffer primitives the fader is built on and the two
small marker facts the project file relies on.

Modules:

- `Dsp` (`dsp.dfy`): the buffer primitives of `inc/utils/dsp.h`, from fill,
  limit, copy, scale, add and mix to mono summing and peak detection.
  Buffers are `seq<real>`. Each primitive works on the first `size` samples
  and leaves the rest alone.
- `Tracklist` (`tracklist.dfy`): the read-only view of the track list that
  the fader consults, and the implied-solo walk.
  - Tracks are addressed by position. A position outside the list stands for
    a missing track.
  - The walk follows the routes-to chain and the group-target children.
  - The walk is related, in both directions, to a reference definition by
    witness paths.
- `Faders` (`fader.dfy`): the fader record, `fader_new`, the toggle setters,
  amplitude changes, value copying, re-addressing, implied solo and the
  effective-mute decision.
- `FaderProcess` (`process.dfy`): one `fader_process` cycle.
  - Audio path: copy, monitor dim and listen, balance and amplitude, mono,
    mute or denormal fill, hard limit. The work is done on the window
    `[start, start + n)` of the output ports.
  - MIDI path: append the window's input events, then multiply note-on
    velocities.
- `Markers` (`marker.dfy`): `marker_is_deletable` and the
  `marker_type_strings` table.
- `Wrappers` (`wrappers.dfy`): `Option` and `Result`.

Interfaces that fader.c calls but does not define are passed in as
parameters:

- The math.c curves (amplitude to dBFS, amplitude to fader position, and
  back) are the function-valued fields of `Faders.Curves`.
- The linear balance law is `Engine.balanceLaw`.
- The engine's globals are `Engine` and `ControlRoom`: bounce mode,
  transport rolling, the denormal-prevention value, and the mute, listen
  and dim amplitudes and dim-output switch.
- The other tracks' post-fader outputs, read by the monitor when listening,
  are the `outs` parameter.
- A frozen track's clip audio for the window is the `clip` parameter.

The implied-solo walk in the source has no cycle guard. The model takes a
`Tracklist.Ranking`, a certificate that the routes-to and group-child
relations are acyclic, and every walk terminates under it.

Where this model follows the code rather than a natural reading of it:

- `fader_set_mono_compat_enabled` writes the toggle before it checks the
  track, so the value is set even when a channel fader's track is missing
  (`Faders.SetMonoCompat`).
- `fader_set_fader_val` stores the position it is given, but `fader_set_amp`
  then recomputes the position from the clamped amplitude. The position
  kept is the recomputed one (`Faders.SetFaderVal`).
- `fader_copy_values` does not copy the MIDI mode (`Faders.CopyValues`).
- In `fader_process`, the owning track is fetched only for audio-channel
  faders. A MIDI-channel fader is therefore never exempt as the master and
  is never muted by bouncing (`Faders.EffectivelyMuted`).
- The MIDI velocity loop runs over the whole output event list, so events
  already in the output list when `fader_process` is called are scaled as
  well (`FaderProcess.ProcessMidi`).
- The CC-volume MIDI mode emits nothing, because its branch is empty in the
  source.
- The master-track test `track != P_MASTER_TRACK` is modelled through the
  track's master flag.

## Model

| member | source | states |
|---|---|---|
| Dsp.Clamp | src/audio/fader.c:588-591 | glib CLAMP: inside `[lo, hi]` when the range is non-empty; the value itself when in range; `hi` above, `lo` below, and `lo` for a value below `lo` even when the range is empty |
| Dsp.Fill | inc/utils/dsp.h:36-46 | the first `size` samples all become `val`; the rest of the buffer is unchanged |
| Dsp.FillIsMix | inc/utils/dsp.h:36-46 | a fill equals a mix that drops the buffer and takes a constant buffer of `val` at unity gain |
| Dsp.Limit1 | inc/utils/dsp.h:53-75 | every processed sample lies in `[minf, maxf]`; in-range samples keep their value, samples above become `maxf`, samples below become `minf`; the tail is unchanged |
| Dsp.Limit1Idempotent | inc/utils/dsp.h:68-71 | limiting a limited buffer again changes nothing |
| Dsp.Limit1InRangeUnchanged | inc/utils/dsp.h:68-71 | a buffer already inside the range passes the limiter unchanged |
| Dsp.Copy | inc/utils/dsp.h:77-83 | the first `size` samples of `dest` become those of `src`; the rest of `dest` is kept |
| Dsp.CopyIsMix | inc/utils/dsp.h:77-83 | a copy equals a mix that drops `dest` and takes `src` at unity gain |
| Dsp.MulK2 | inc/utils/dsp.h:85-94 | `dest[i] * k` for the first `size` samples; the tail is unchanged |
| Dsp.MulK2Compose | inc/utils/dsp.h:85-94 | scaling by `k1` then `k2` equals scaling once by `k1 * k2` |
| Dsp.Add2 | inc/utils/dsp.h:157-166 | `dest[i] + src[i]` for the first `size` samples; the tail is unchanged |
| Dsp.Mix2 | inc/utils/dsp.h:168-196 | `dest[i] * k1 + src[i] * k2` for the first `size` samples; the tail is unchanged |
| Dsp.Mix2IsScaledSum | inc/utils/dsp.h:168-196 | a mix equals adding the two separately scaled buffers |
| Dsp.MixAdd2 | inc/utils/dsp.h:198-210 | `dest[i] + src1[i] * k1 + src2[i] * k2` for the first `size` samples |
| Dsp.MixAdd2IsAddOfMix | inc/utils/dsp.h:198-210 | mix-add equals adding the two-source mix to `dest` |
| Dsp.MakeMono | inc/utils/dsp.h:232-251 | both channels of every processed frame become `(L + R) * 0.7079` for equal power and `(L + R) / 2` for equal amplitude, so they are identical; equal-amplitude summing keeps `L + R`; the tail is unchanged |
| Dsp.MakeMonoEqualAmplitudeIdempotent | inc/utils/dsp.h:232-251 | equal-amplitude summing applied twice equals applying it once |
| Dsp.Peak | inc/utils/dsp.h:120-127 | the scanned peak is at least the incoming peak, bounds every absolute sample, and is either the incoming peak or one of the absolute samples |
| Dsp.AbsMax | inc/utils/dsp.h:103-137 | the returned peak is the scan's maximum of the incoming peak and all absolute samples; `changed` holds exactly when it differs from the old peak by FLT_EPSILON or more |
| Dsp.PeakUnchangedWhenBelow | inc/utils/dsp.h:120-136 | when no sample exceeds the incoming peak, the peak is unchanged and no change is reported |
| Tracklist.Lookup | src/audio/fader.c:426-427 | a track exists exactly for positions inside the list, and it is the track at that position |
| Tracklist.HasSoloed | src/audio/fader.c:1007 | some track in the list is soloed |
| Tracklist.HasListened | src/audio/fader.c:1075-1076 | some track in the list is listened |
| Tracklist.RouteSoloed | src/audio/fader.c:429-446 | the parents loop: follows the routes-to chain from the track, stopping at a track without a channel or output, and reports a soloed track on it; characterised by `Tracklist.RouteSoloedIff` |
| Tracklist.RouteSoloedSound | src/audio/fader.c:429-446 | when the parents loop reports a solo, a routes-to path of at least one hop leads to a soloed track |
| Tracklist.RouteSoloedComplete | src/audio/fader.c:429-446 | every routes-to path of at least one hop ending at a soloed track makes the parents loop report a solo |
| Tracklist.RouteSoloedIff | src/audio/fader.c:429-446 | the parents loop reports a solo if and only if some track downstream on the routes-to chain is soloed |
| Tracklist.WalkImplies | src/audio/fader.c:428-468 | the walk after the early exits: the parents loop, then for a group target the children loop; characterised by `Tracklist.WalkImpliesIff` |
| Tracklist.ChildImplies | src/audio/fader.c:450-462 | one iteration of the children loop: the child is in the list and soloed or implied-soloed |
| Tracklist.TrackImpliedSoloed | src/audio/fader.c:457-459 | a child's implied solo: it has a channel, is not soloed itself, and its own walk implies a solo |
| Tracklist.WalkImpliesSound | src/audio/fader.c:428-468 | when the walk implies a solo, there is a witness: a route to a soloed track, or a chain of group children ending at a soloed track or at a track with such a route |
| Tracklist.PrependWitness | src/audio/fader.c:448-465 | a group target whose channel child has a witness path has one itself, through that child |
| Tracklist.WalkImpliesComplete | src/audio/fader.c:428-468 | every such witness path makes the walk imply a solo |
| Tracklist.WalkImpliesIff | src/audio/fader.c:428-468 | the walk implies a solo if and only if a witness path exists |
| Faders.New | src/audio/fader.c:115-361 | defaults: amp 1 in `[0, 2]`, balance 0.5, toggles off, velocity-multiplier mode; stereo ports exactly for audio, monitor and sample-processor faders and MIDI ports exactly for MIDI faders; volume, balance and mute automatable exactly on non-prefader channel faders; solo, listen, mute and mono-compat are toggles |
| Faders.NewPortsAtTrack | src/audio/fader.c:115-361 | every port of a new fader is owned by the fader's track position |
| Faders.FaderTrack | src/audio/fader.c:767-779 | the owning track exists exactly when the fader's position is inside the list |
| Faders.SetMuted | src/audio/fader.c:368-385 | fails exactly when the track is missing; otherwise sets the mute toggle and changes nothing else |
| Faders.SetMutedUndo | src/audio/fader.c:368-385 | setting the mute and then restoring the old value gives back the original fader |
| Faders.SetSoloed | src/audio/fader.c:474-491 | fails exactly when the track is missing; otherwise sets the solo toggle and changes nothing else |
| Faders.SetListened | src/audio/fader.c:497-514 | fails exactly when the track is missing; otherwise sets the listen toggle and changes nothing else |
| Faders.SetMonoCompat | src/audio/fader.c:655-676 | the toggle always takes the new value, even when the track is missing; nothing else changes |
| Faders.UpdateCaches | src/audio/fader.c:516-526 | the cached dBFS volume and fader position agree with the amplitude afterwards; nothing else changes |
| Faders.SetAmp | src/audio/fader.c:516-540 | the amplitude is stored as given, the cached dBFS volume and fader position agree with it, nothing else changes |
| Faders.AddAmp | src/audio/fader.c:580-595 | the new amplitude is the sum clamped to the amp port's range, so a valid fader stays valid; the caches agree with it |
| Faders.AddAmpUndo | src/audio/fader.c:580-595 | an in-range step followed by the opposite step restores the fader |
| Faders.SetFaderVal | src/audio/fader.c:711-723 | the amplitude is the curve's value clamped to the range; the stored position and volume are recomputed from that amplitude |
| Faders.SetFaderValRoundTrip | src/audio/fader.c:711-723 | with mutually inverse curves, moving to the position of an in-range amplitude sets exactly that amplitude and position |
| Faders.AmpEdit | src/audio/fader.c:548-574 | an edit from `from` to `to` for the fader's track is issued exactly when skipping is off or the two differ by at least 0.0001 |
| Faders.AmpEditSkipsRepeat | src/audio/fader.c:548-574 | re-setting the current amplitude with skipping on issues no edit; with skipping off, an edit is always issued |
| Faders.CopyValues | src/audio/fader.c:875-890 | the destination takes all nine copied values of the source and keeps everything else, including its MIDI mode |
| Faders.CopyValuesIdempotent | src/audio/fader.c:875-890 | copying the same values twice equals copying once |
| Faders.UpdateTrackPos | src/audio/fader.c:895-953 | the fader and every port it has are addressed to the new position; values, type and mode are kept |
| Faders.UpdateTrackPosUndo | src/audio/fader.c:895-953 | moving a consistently addressed fader away and back restores it |
| Faders.UpdateTrackPosLastWins | src/audio/fader.c:895-953 | of two successive moves only the last one matters |
| Faders.ImpliedSoloed | src/audio/fader.c:413-468 | a true result comes only from a non-prefader, unsoloed channel fader whose track exists; characterised by `Faders.ImpliedSoloedIff` |
| Faders.ImpliedSoloedIff | src/audio/fader.c:413-468 | a fader is implied-soloed exactly when it is a channel fader, not prefader, not itself soloed, its track exists, and that track has a witness path to a soloed track |
| Faders.ImpliedByDownstreamSolo | src/audio/fader.c:429-446 | a channel fader whose track outputs directly into a soloed track is implied-soloed |
| Faders.ImpliedByGroupedSolo | src/audio/fader.c:448-465 | a group target with a soloed child, or with a soloed grandchild under a channel group child, is implied-soloed |
| Faders.EffectivelyMuted | src/audio/fader.c:993-1017 | a prefader is never muted; its own mute always mutes it; non-channel faders are muted exactly by their own mute; a MIDI fader is muted exactly by its own mute or by an unrelated solo; an audio channel on a present track is muted exactly by its own mute, by an unrelated solo off the master track, or while bouncing by a non-master track left out of the bounce; with its track missing, exactly by its own mute or an unrelated solo |
| Faders.BounceMutesExcludedTracks | src/audio/fader.c:1011-1017 | while bouncing, a non-prefader audio channel on a non-master track left out of the bounce is muted |
| Faders.BounceChangesOnlyExcludedTracks | src/audio/fader.c:1011-1017 | bouncing changes the decision exactly for an otherwise audible, non-prefader audio channel on a present, non-master track left out of the bounce |
| Faders.MasterMutedOnlyByOwnMute | src/audio/fader.c:1003-1017 | the master track's fader is muted only by its own mute, never by solo or bouncing |
| Faders.SoloedNotMutedBySolo | src/audio/fader.c:1003-1010 | outside bouncing, a soloed fader is muted only by its own mute |
| Faders.NoSoloNoBounceOnlyOwnMute | src/audio/fader.c:1003-1017 | with nothing soloed and no bounce, only the own mute silences a fader |
| Faders.SoloIsolates | src/audio/fader.c:1003-1010 | while a track is soloed, a non-master audio channel that is neither soloed nor implied-soloed is muted |
| FaderProcess.Window | src/audio/fader.c:1037-1044 | the window holds the `n` frames starting at `start` |
| FaderProcess.Splice | src/audio/fader.c:1037-1044 | the window is written at `start`; every other frame keeps its value |
| FaderProcess.Scale | src/audio/fader.c:1151-1158 | each channel is scaled frame by frame by its own gain |
| FaderProcess.ListenStepOf | src/audio/fader.c:1101-1127 | one listen-loop iteration keeps the window length; its value is stated by `FaderProcess.ListenStep` |
| FaderProcess.ListenStep | src/audio/fader.c:1101-1127 | one iteration adds the track's frame times the listen gain when the track has a channel, audio output and is listened, and nothing otherwise |
| FaderProcess.ListenMix | src/audio/fader.c:1097-1128 | the listen loop over all track positions keeps the window length; its value is stated by `FaderProcess.ListenMixIsSum` |
| FaderProcess.ListenMixIsSum | src/audio/fader.c:1094-1128 | the listen loop adds the listen gain times the sum of the listened tracks' outputs to every frame |
| FaderProcess.MonitorStage | src/audio/fader.c:1067-1143 | with no track listened and dim-output off, the monitor stage passes the window through |
| FaderProcess.MonitorStageMixesListened | src/audio/fader.c:1067-1128 | with a listened track and dim-output off, each frame is the input times the dim gain plus the listened tracks' outputs at that frame, each times the listen gain |
| FaderProcess.MonitorStageDimsOutput | src/audio/fader.c:1130-1142 | with dim-output on, the monitor stage's result is the dim-output-off result scaled by the dim gain on both sides |
| FaderProcess.MuteStage | src/audio/fader.c:1180-1212 | unmuted passes through; muted below the 0.00001 floor fills with the denormal value; otherwise scales by the mute gain; a mono window stays mono |
| FaderProcess.LimitStage | src/audio/fader.c:1214-1232 | when enabled, every frame is clamped to `[-2, 2]`: it ends in that range, in-range frames are kept and out-of-range ones go to the nearer bound; when disabled, nothing changes; a mono window stays mono |
| FaderProcess.PreMute | src/audio/fader.c:1067-1178 | outside the monitor, the window scaled by the fader's gains; in the monitor, the monitor stage's output (dimmed window plus listened tracks) scaled by the gains; in both cases summed to equal-amplitude mono when mono compatibility is on, and then both channels agree |
| FaderProcess.PostFader | src/audio/fader.c:1145-1232 | every frame is given per case from the pre-mute frame `p`: unmuted, `p` itself, clamped to `[-2, 2]` when the fader limits its output; muted at or above the floor, `p` times the mute gain, clamped when limited; muted below the floor, the denormal value, clamped when limited; without monitor, mono compatibility, mute or limiter, the window scaled by the gains; with mono compatibility both channels agree and, unmuted and unlimited outside the monitor, are the equal-amplitude mono sum of the scaled window; muted at or above the floor, the scaled window is scaled again by the mute gain; limited, every frame lies in `[-2, 2]` |
| FaderProcess.ScaleCompose | src/audio/fader.c:1150-1158 | scaling by the fader gains and then by a common gain equals scaling once by the products |
| FaderProcess.PostFaderMutedScales | src/audio/fader.c:1180-1211 | a muted fader with the mute gain at or above the floor (no monitor, mono compatibility or limiter) scales each side by its gain times the mute gain (`MutedGains`) |
| FaderProcess.CopyIn | src/audio/fader.c:1037-1044 | the window copied into the output holds exactly the input's frames |
| FaderProcess.SpliceWindow | src/audio/fader.c:1037-1044 | reading back the window just written to the output gives what was written |
| FaderProcess.Gains | src/audio/fader.c:1145-1158 | each side's gain is the amplitude times the linear balance law's gain for that side |
| FaderProcess.LimitsOutput | src/audio/fader.c:1216-1222 | the master track's audio channel, the monitor and the sample processor are hard-limited |
| FaderProcess.PlaysClip | src/audio/fader.c:1050-1053 | a frozen audio-channel track plays its clip while the transport rolls |
| FaderProcess.ProcessAudio | src/audio/fader.c:964-1234 | fails exactly for an audio-channel fader whose track is missing; otherwise only the window is written, with the input (or the frozen clip while rolling) for a prefader and the post-fader chain otherwise |
| FaderProcess.MutedOutputsDenormal | src/audio/fader.c:1180-1200 | a muted fader whose track exists, with the mute gain below the floor, is processed and outputs exactly the denormal value in every frame of the window |
| FaderProcess.LimitedOutputBounded | src/audio/fader.c:1214-1232 | the master, monitor and sample-processor faders are processed and their outputs stay within `[-2, 2]` inside the window |
| FaderProcess.ScaleSideGain | src/audio/fader.c:1150-1158 | each frame of a scaled window is the original frame times that side's gain |
| FaderProcess.MonitorStageFrame | src/audio/fader.c:1067-1143 | each frame of the monitor stage is the window frame times the dim gain plus the listened tracks' sum, dimmed once more when dim-output is on |
| FaderProcess.PreMuteFrame | src/audio/fader.c:1144-1158 | without mono compatibility, each pre-mute frame is the (monitor-staged, for the monitor) frame times that side's gain |
| FaderProcess.LimitedOutputFrame | src/audio/fader.c:1214-1232 | an unmuted fader that limits its output is processed and writes each pre-mute frame clamped to `[-2, 2]` at its place in the output |
| FaderProcess.MonitorOutputFrame | src/audio/fader.c:1067-1232 | an unmuted monitor fader without mono compatibility is processed and writes, for each frame, the dimmed input plus listened tracks (dimmed again when dim-output is on), times the side's gain, clamped to `[-2, 2]` |
| FaderProcess.MasterAndSamplerOutputFrame | src/audio/fader.c:1145-1232 | an unmuted master-track or sample-processor fader without mono compatibility is processed and writes each input frame times the side's gain, clamped to `[-2, 2]` |
| FaderProcess.ChannelWindowScaled | src/audio/fader.c:1145-1158 | for an unmuted, non-master audio channel without mono compatibility, the output window is the input window scaled by the fader's gains |
| FaderProcess.WindowScaled | src/audio/fader.c:1151-1158 | a window equal to the scaled input window means every frame inside it is the input frame times each side's gain |
| FaderProcess.ChannelAppliesBalanceAndAmp | src/audio/fader.c:1145-1158 | for an unmuted, non-master audio channel without mono compatibility, each output frame in the window is the input frame times the amplitude times that side's balance-law gain (`Gains`) |
| FaderProcess.InWindow | src/audio/fader.c:1239-1242 | every kept event is an input event timed inside the window, and every such input event is kept |
| FaderProcess.InWindowSingle | src/audio/fader.c:1239-1242 | a single event is kept exactly when its time is inside the window |
| FaderProcess.InWindowAppend | src/audio/fader.c:1239-1242 | filtering a concatenation concatenates the filtered parts, so the kept events keep their input order and multiplicity |
| FaderProcess.Truncate | src/audio/fader.c:1262-1265 | the C `(int)` conversion: toward zero, within one of the real value |
| FaderProcess.ScaleEvent | src/audio/fader.c:1257-1270 | only a note-on changes, and only in its velocity, which becomes the scaled velocity; every other event is kept |
| FaderProcess.ScaledVelocity | src/audio/fader.c:1262-1269 | the new velocity is at most 127; a product in `[0, 128)` is truncated; 128 and above give 127; below 1 gives 0 |
| FaderProcess.ProcessMidi | src/audio/fader.c:1235-1283 | a muted fader leaves the queue unchanged; otherwise the window's events are appended, and outside prefader in velocity-multiplier mode every note-on in the queue gets the scaled velocity while all other events are kept |
| FaderProcess.ScaledVelocityIsClampedProduct | src/audio/fader.c:1262-1269 | for a non-negative amplitude the velocity is the floored product clamped to `[0, 127]`; unity amplitude keeps a valid velocity |
| FaderProcess.MidiUnityGainKeepsEvents | src/audio/fader.c:1244-1271 | at unity amplitude with valid velocities, processing just appends the window's events |
| Markers.IsDeletable | inc/audio/marker.h:47-49 | a marker can be deleted exactly when it is a custom marker; the start and end markers cannot |
| Markers.FindName | inc/audio/marker.h:64-70 | the found type is paired with the name in the table; no result means no entry has that name |
| Markers.FindType | inc/audio/marker.h:64-70 | the found name is paired with the type in the table; no result means no entry has that type |
| Markers.TypeOfName | inc/audio/marker.h:64-70 | a type is found exactly for "start", "end" and "custom" |
| Markers.NameOfType | inc/audio/marker.h:64-70 | every marker type has one of the three saved names |
| Markers.TypeNameRoundTrip | inc/audio/marker.h:54-70 | saving a type's name and reading it back gives the same type |
| Markers.NameTypeRoundTrip | inc/audio/marker.h:54-70 | reading a known name and saving the type gives back the same name |
| Markers.NameOfTypeInjective | inc/audio/marker.h:54-70 | distinct marker types have distinct saved names |

## Left out

- `fader_init_loaded`, `fader_free`, `fader_disconnect_all`, `fader_clear_buffers`, `fader_set_is_project`: these manage memory, port connections and project registration, not fader values.
- `fader_db_string_getter`, `fader_get_default_fader_val`, `fader_get_channel`: formatting and lookups through code outside fader.c.
- `fader_set_midi_mode` and its undoable action: the mode is a plain field here, and the undo system is outside the model.
- `fader_set_amp_with_action` performing the edit: the model decides whether an edit is issued, but the undo stack and error reporting are outside the model.
- `fader_set_fader_val`: the GSettings write-back of the monitor, mute, listen and dim faders is configuration I/O and is not modelled.
- `EVENTS_PUSH` and the `fire_events` flag of the setters: these are GUI notifications.
- Amplitude curves and balance law: math.c and balance_control.c are not part of this model, so they are parameters (`Curves`, `Engine.balanceLaw`).
- `math_floats_equal_epsilon`: it is taken to be a strict comparison of the distance against the tolerance.
- `tracklist_has_soloed`, `tracklist_has_listened`, `channel_get_output_track`, `track_get_implied_soloed`: these are defined outside fader.c. They are modelled from the track list: a track's implied solo is its channel fader's walk, and a track without a channel has none.
- `port_set_control_value`: it is taken to store the value without clamping. `fader_set_amp` therefore keeps amplitudes outside the range.
- `fader_new`: port names are modelled, but the L/R suffixes of stereo port names and the owner pointers are not. Non-channel faders keep track position 0.
- `stereo_ports_fill_from_clip`: the clip audio for the window is a parameter, because the audio pool is not part of this model.
- `midi_events_append`: it is modelled as appending the input events timed inside the window, in order (`FaderProcess.InWindowAppend`). Event queueing and locking are not modelled.
- MIDI CC-volume mode: the source's branch is empty, so the model emits nothing.
- `dsp_linear_fade_in`, `dsp_linear_fade_out`: their ramp end points are not stated precisely enough to model.
- `dsp_min`, `dsp_max`: the fader does not use them.
- The optional vectorised DSP backend: only the scalar loops are modelled. The backends differ for `dsp_abs_max`: the vectorised one sets the peak to the buffer's own peak and ignores the incoming one, so `Dsp.Peak`'s lower bound by the incoming peak and `Dsp.PeakUnchangedWhenBelow` hold for the scalar path only.
- Floating-point rounding: samples and gains are exact reals. The 32-bit float results of the source can differ in the last bits.
- Threading, real-time constraints, the GUI and the test suite.
- FaderProcess.MonitorStage: its own contract states only the pass-through case; the listened case is stated by `FaderProcess.MonitorStageMixesListened` and the dim-output case by `FaderProcess.MonitorStageDimsOutput`.
