/** The fader of a track, of the monitor section or of the sample processor
    (src/audio/fader.c): its control values, its ports, construction, the
    toggle setters, amplitude changes, value copying, re-addressing, and the
    two pieces of decision logic the mix stage needs, implied solo and
    effective mute. */
module Faders {
  import opened Wrappers
  import opened Tracklist
  import Dsp

  datatype FaderType = AudioChannel | MidiChannel | Monitor | SampleProcessor

  /** A per-track fader. */
  predicate IsChannel(t: FaderType)
  {
    t == AudioChannel || t == MidiChannel
  }

  /** Fader types that carry a stereo in/out port pair. */
  predicate HasStereo(t: FaderType)
  {
    t == AudioChannel || t == Monitor || t == SampleProcessor
  }

  datatype MidiFaderMode = VelMultiplier | CcVolume

  datatype PortType = Control | Audio | Event
  datatype PortFlow = Input | Output
  datatype PortFlag =
    | Amplitude | Automatable | ChannelFader | StereoBalance
    | FaderMute | Toggle | FaderSolo | FaderListen | FaderMonoCompat

  /** A port as the fader sees it: its name, kind, direction, flags and the
      position of the track that owns it. Buffers live with the process stage. */
  datatype Port = Port(name: string, kind: PortType, flow: PortFlow, flags: set<PortFlag>, trackPos: int)

  datatype StereoPorts = StereoPorts(l: Port, r: Port)

  datatype Fader = Fader(
    kind: FaderType,
    passthrough: bool,         // pre-fader instance
    midiMode: MidiFaderMode,
    trackPos: int,             // position of the owning track
    volume: real,              // cached dBFS of amp
    phase: real,
    faderVal: real,            // cached normalized fader position
    amp: real,                 // control value of the amp port
    ampDefault: real,
    ampMin: real,
    ampMax: real,
    balance: real,
    mute: bool,
    solo: bool,
    listen: bool,
    monoCompat: bool,
    ampPort: Port,
    balancePort: Port,
    mutePort: Port,
    soloPort: Port,
    listenPort: Port,
    monoCompatPort: Port,
    stereoIn: Option<StereoPorts>,
    stereoOut: Option<StereoPorts>,
    midiIn: Option<Port>,
    midiOut: Option<Port>)

  /** The conversions fader.c calls but does not define: amplitude to dBFS,
      amplitude to normalized fader position and back. */
  datatype Curves = Curves(
    ampToDbfs: real -> real,
    faderValFromAmp: real -> real,
    ampFromFaderVal: real -> real)

  /** The fader position curve and its inverse undo each other. */
  ghost predicate CurvesInverse(c: Curves)
  {
    && (forall a :: c.ampFromFaderVal(c.faderValFromAmp(a)) == a)
    && (forall v :: c.faderValFromAmp(c.ampFromFaderVal(v)) == v)
  }

  /** What every fader keeps: the amplitude inside its range, and exactly the
      port pairs its type calls for. */
  predicate Valid(f: Fader)
  {
    && f.ampMin <= f.amp <= f.ampMax
    && (f.stereoIn.Some? <==> HasStereo(f.kind))
    && (f.stereoOut.Some? <==> HasStereo(f.kind))
    && (f.midiIn.Some? <==> f.kind == MidiChannel)
    && (f.midiOut.Some? <==> f.kind == MidiChannel)
  }

  /** The cached display values agree with the amplitude. */
  ghost predicate CachesAgree(f: Fader, c: Curves)
  {
    f.volume == c.ampToDbfs(f.amp) && f.faderVal == c.faderValFromAmp(f.amp)
  }

  // ---------------------------------------------------------------------
  // Construction

  function ControlLabel(passthrough: bool, what: string): string
  {
    (if passthrough then "Prefader " else "Fader ") + what
  }

  function StereoLabel(kind: FaderType, passthrough: bool, input: bool): string
  {
    match kind
    case AudioChannel =>
      if passthrough then (if input then "Ch Pre-Fader in" else "Ch Pre-Fader out")
      else (if input then "Ch Fader in" else "Ch Fader out")
    case SampleProcessor =>
      if input then "Sample Processor Fader in" else "Sample Processor Fader out"
    case _ =>
      if input then "Monitor Fader in" else "Monitor Fader out"
  }

  function MidiLabel(passthrough: bool, input: bool): string
  {
    if passthrough then (if input then "Ch MIDI Pre-Fader in" else "Ch MIDI Pre-Fader out")
    else (if input then "Ch MIDI Fader in" else "Ch MIDI Fader out")
  }

  function StereoPair(name: string, flow: PortFlow, pos: int): StereoPorts
  {
    StereoPorts(Port(name, Audio, flow, {}, pos), Port(name, Audio, flow, {}, pos))
  }

  /** fader_new. `ch` is the position of the owning channel's track; it is
      read only for channel faders, which must have one. Other faders keep
      the zeroed position of a fresh allocation. */
  function New(kind: FaderType, ch: Option<int>, passthrough: bool, c: Curves): (f: Fader)
    requires IsChannel(kind) ==> ch.Some?
    ensures Valid(f)
    ensures f.kind == kind && f.passthrough == passthrough && f.midiMode == VelMultiplier
    ensures f.trackPos == (if IsChannel(kind) then ch.value else 0)
    ensures f.amp == 1.0 && f.ampDefault == 1.0 && f.ampMin == 0.0 && f.ampMax == 2.0
    ensures f.balance == 0.5
    ensures !f.mute && !f.solo && !f.listen && !f.monoCompat
    ensures f.volume == 0.0 && f.phase == 0.0 && f.faderVal == c.faderValFromAmp(1.0)
    ensures f.stereoIn.Some? && f.stereoOut.Some? <==> kind in {AudioChannel, Monitor, SampleProcessor}
    ensures f.midiIn.Some? && f.midiOut.Some? <==> kind == MidiChannel
    ensures !(f.stereoIn.Some? && f.midiIn.Some?)
    ensures Automatable in f.ampPort.flags <==> IsChannel(kind) && !passthrough
    ensures Automatable in f.balancePort.flags <==> IsChannel(kind) && !passthrough
    ensures Automatable in f.mutePort.flags <==> IsChannel(kind) && !passthrough
    ensures Automatable !in f.soloPort.flags && Automatable !in f.listenPort.flags
    ensures Toggle in f.mutePort.flags && Toggle in f.soloPort.flags
    ensures Toggle in f.listenPort.flags && Toggle in f.monoCompatPort.flags
  {
    var pos := if IsChannel(kind) then ch.value else 0;
    var automatable := IsChannel(kind) && !passthrough;
    var ampFlags := {Amplitude} + (if automatable then {Automatable, ChannelFader} else {});
    var balanceFlags := {StereoBalance} + (if automatable then {Automatable} else {});
    var muteFlags := {FaderMute, Toggle} + (if automatable then {Automatable} else {});
    Fader(
      kind, passthrough, VelMultiplier, pos,
      0.0, 0.0, c.faderValFromAmp(1.0),
      1.0, 1.0, 0.0, 2.0,
      0.5,
      false, false, false, false,
      Port(ControlLabel(passthrough, "Volume"), Control, Input, ampFlags, pos),
      Port(ControlLabel(passthrough, "Balance"), Control, Input, balanceFlags, pos),
      Port(ControlLabel(passthrough, "Mute"), Control, Input, muteFlags, pos),
      Port(ControlLabel(passthrough, "Solo"), Control, Input, {FaderSolo, Toggle}, pos),
      Port(ControlLabel(passthrough, "Listen"), Control, Input, {FaderListen, Toggle}, pos),
      Port(ControlLabel(passthrough, "Mono Compat"), Control, Input, {FaderMonoCompat, Toggle}, pos),
      if HasStereo(kind) then Some(StereoPair(StereoLabel(kind, passthrough, true), Input, pos)) else None,
      if HasStereo(kind) then Some(StereoPair(StereoLabel(kind, passthrough, false), Output, pos)) else None,
      if kind == MidiChannel then Some(Port(MidiLabel(passthrough, true), Event, Input, {}, pos)) else None,
      if kind == MidiChannel then Some(Port(MidiLabel(passthrough, false), Event, Output, {}, pos)) else None)
  }

  // ---------------------------------------------------------------------
  // Toggles

  datatype FaderError = NoTrack

  /** fader_get_track: the owning track, when the position is in the list. */
  function FaderTrack(f: Fader, ts: Tracks): (r: Option<Track>)
    ensures r.Some? <==> 0 <= f.trackPos < |ts|
    ensures r.Some? ==> r.value == ts[f.trackPos]
  {
    Lookup(ts, f.trackPos)
  }

  /** fader_set_muted: refuses a fader whose track is missing. */
  function SetMuted(f: Fader, ts: Tracks, mute: bool): (r: Result<Fader, FaderError>)
    ensures r.Failure? <==> !(0 <= f.trackPos < |ts|)
    ensures r.Success? ==> r.value.mute == mute && r.value.(mute := f.mute) == f
  {
    if FaderTrack(f, ts).None? then Failure(NoTrack) else Success(f.(mute := mute))
  }

  /** fader_set_soloed: refuses a fader whose track is missing. */
  function SetSoloed(f: Fader, ts: Tracks, solo: bool): (r: Result<Fader, FaderError>)
    ensures r.Failure? <==> !(0 <= f.trackPos < |ts|)
    ensures r.Success? ==> r.value.solo == solo && r.value.(solo := f.solo) == f
  {
    if FaderTrack(f, ts).None? then Failure(NoTrack) else Success(f.(solo := solo))
  }

  /** fader_set_listened: refuses a fader whose track is missing. */
  function SetListened(f: Fader, ts: Tracks, listen: bool): (r: Result<Fader, FaderError>)
    ensures r.Failure? <==> !(0 <= f.trackPos < |ts|)
    ensures r.Success? ==> r.value.listen == listen && r.value.(listen := f.listen) == f
  {
    if FaderTrack(f, ts).None? then Failure(NoTrack) else Success(f.(listen := listen))
  }

  /** fader_set_mono_compat_enabled: the toggle is written before the track
      check, so it takes effect even for a channel fader without a track. */
  function SetMonoCompat(f: Fader, enabled: bool): (r: Fader)
    ensures r.monoCompat == enabled
    ensures r.(monoCompat := f.monoCompat) == f
  {
    f.(monoCompat := enabled)
  }

  /** Switching a toggle on and back off restores the fader. */
  lemma SetMutedUndo(f: Fader, ts: Tracks, mute: bool)
    requires SetMuted(f, ts, mute).Success?
    ensures SetMuted(SetMuted(f, ts, mute).value, ts, f.mute) == Success(f)
  {
  }

  // ---------------------------------------------------------------------
  // Amplitude

  /** fader_update_volume_and_fader_val: recomputes the cached dBFS value
      and fader position from the amplitude. */
  function UpdateCaches(f: Fader, c: Curves): (r: Fader)
    ensures CachesAgree(r, c)
    ensures r.(volume := f.volume, faderVal := f.faderVal) == f
  {
    f.(volume := c.ampToDbfs(f.amp), faderVal := c.faderValFromAmp(f.amp))
  }

  /** fader_set_amp: stores the amplitude as given and refreshes the cached
      dBFS value and fader position. */
  function SetAmp(f: Fader, a: real, c: Curves): (r: Fader)
    ensures r.amp == a
    ensures CachesAgree(r, c)
    ensures r.(amp := f.amp, volume := f.volume, faderVal := f.faderVal) == f
  {
    UpdateCaches(f.(amp := a), c)
  }

  /** fader_add_amp: adds to the amplitude, clamped to the amp port's range. */
  function AddAmp(f: Fader, delta: real, c: Curves): (r: Fader)
    ensures f.ampMin <= f.ampMax ==> f.ampMin <= r.amp <= f.ampMax
    ensures f.ampMin <= f.amp + delta <= f.ampMax ==> r.amp == f.amp + delta
    ensures f.amp + delta > f.ampMax ==> r.amp == f.ampMax
    ensures f.ampMin <= f.ampMax && f.amp + delta < f.ampMin ==> r.amp == f.ampMin
    ensures CachesAgree(r, c)
    ensures r.(amp := f.amp, volume := f.volume, faderVal := f.faderVal) == f
    ensures Valid(f) ==> Valid(r)
  {
    var amp := Dsp.Clamp(f.amp + delta, f.ampMin, f.ampMax);
    // fader_add_amp refreshes the caches once more after fader_set_amp.
    UpdateCaches(SetAmp(f, amp, c), c)
  }

  /** An in-range step followed by its opposite restores the fader. */
  lemma AddAmpUndo(f: Fader, delta: real, c: Curves)
    requires CachesAgree(f, c)
    requires f.ampMin <= f.amp <= f.ampMax
    requires f.ampMin <= f.amp + delta <= f.ampMax
    ensures AddAmp(AddAmp(f, delta, c), -delta, c) == f
  {
    var g := AddAmp(f, delta, c);
    assert g.amp + -delta == f.amp;
  }

  /** fader_set_fader_val, without the settings write-back of the monitor
      section faders: the amplitude is the curve's value clamped to the amp
      port's range, and the stored position is recomputed from it, so the
      position passed in is not kept when it lies outside the range. */
  function SetFaderVal(f: Fader, faderVal: real, c: Curves): (r: Fader)
    ensures f.ampMin <= f.ampMax ==> f.ampMin <= r.amp <= f.ampMax
    ensures f.ampMin <= c.ampFromFaderVal(faderVal) <= f.ampMax ==> r.amp == c.ampFromFaderVal(faderVal)
    ensures c.ampFromFaderVal(faderVal) > f.ampMax ==> r.amp == f.ampMax
    ensures f.ampMin <= f.ampMax && c.ampFromFaderVal(faderVal) < f.ampMin ==> r.amp == f.ampMin
    ensures CachesAgree(r, c)
    ensures r.(amp := f.amp, volume := f.volume, faderVal := f.faderVal) == f
    ensures Valid(f) ==> Valid(r)
  {
    var amp := Dsp.Clamp(c.ampFromFaderVal(faderVal), f.ampMin, f.ampMax);
    SetAmp(f.(faderVal := faderVal), amp, c).(volume := c.ampToDbfs(amp))
  }

  /** With inverse curves, moving the fader to the position of an in-range
      amplitude sets exactly that amplitude and that position. */
  lemma SetFaderValRoundTrip(f: Fader, a: real, c: Curves)
    requires CurvesInverse(c)
    requires f.ampMin <= a <= f.ampMax
    ensures SetFaderVal(f, c.faderValFromAmp(a), c).amp == a
    ensures SetFaderVal(f, c.faderValFromAmp(a), c).faderVal == c.faderValFromAmp(a)
  {
    assert c.ampFromFaderVal(c.faderValFromAmp(a)) == a;
  }

  /** The volume edit handed to the undo system. */
  datatype VolumeEdit = VolumeEdit(trackPos: int, from: real, to: real)

  const AmpEditEpsilon: real := 0.0001

  /** fader_set_amp_with_action, the decision only: the edit is performed
      unless asked to skip equal values and the two lie within 0.0001. */
  function AmpEdit(f: Fader, from: real, to: real, skipIfEqual: bool): (r: Option<VolumeEdit>)
    ensures r.Some? <==> !skipIfEqual || Dsp.Abs(from - to) >= AmpEditEpsilon
    ensures r.Some? ==> r.value.from == from && r.value.to == to && r.value.trackPos == f.trackPos
  {
    if !skipIfEqual || !Dsp.FloatsEqualEpsilon(from, to, AmpEditEpsilon)
    then Some(VolumeEdit(f.trackPos, from, to))
    else None
  }

  /** Setting the amplitude it already has, with skipping on, records no
      edit; with skipping off it always records one. */
  lemma AmpEditSkipsRepeat(f: Fader, to: real)
    ensures AmpEdit(f, f.amp, to, true).None? <==> Dsp.Abs(f.amp - to) < AmpEditEpsilon
    ensures AmpEdit(f, f.amp, f.amp, true).None?
    ensures AmpEdit(f, f.amp, to, false).Some?
  {
  }

  // ---------------------------------------------------------------------
  // Copying values and re-addressing

  /** The values fader_copy_values carries over. */
  datatype FaderValues = FaderValues(
    volume: real, phase: real, faderVal: real, amp: real, balance: real,
    mute: bool, solo: bool, listen: bool, monoCompat: bool)

  function ValuesOf(f: Fader): FaderValues
  {
    FaderValues(f.volume, f.phase, f.faderVal, f.amp, f.balance,
                f.mute, f.solo, f.listen, f.monoCompat)
  }

  function WithValues(f: Fader, v: FaderValues): Fader
  {
    f.(volume := v.volume, phase := v.phase, faderVal := v.faderVal, amp := v.amp,
       balance := v.balance, mute := v.mute, solo := v.solo, listen := v.listen,
       monoCompat := v.monoCompat)
  }

  /** fader_copy_values: `dest` takes the values of `src` (the amplitude
      unclamped and without recomputing caches) and keeps its type, ports,
      position, range and MIDI mode. */
  function CopyValues(src: Fader, dest: Fader): (r: Fader)
    ensures ValuesOf(r) == ValuesOf(src)
    ensures WithValues(r, ValuesOf(dest)) == dest
    ensures r.midiMode == dest.midiMode && r.kind == dest.kind && r.trackPos == dest.trackPos
    ensures Valid(dest) && dest.ampMin <= src.amp <= dest.ampMax ==> Valid(r)
  {
    WithValues(dest, ValuesOf(src))
  }

  /** Copying values into a fader and then copying them again changes nothing. */
  lemma CopyValuesIdempotent(src: Fader, dest: Fader)
    ensures CopyValues(src, CopyValues(src, dest)) == CopyValues(src, dest)
  {
  }

  function MovePort(p: Port, pos: int): Port
  {
    p.(trackPos := pos)
  }

  function MoveStereo(s: Option<StereoPorts>, pos: int): Option<StereoPorts>
  {
    match s
    case None => None
    case Some(p) => Some(StereoPorts(MovePort(p.l, pos), MovePort(p.r, pos)))
  }

  function MoveMidi(p: Option<Port>, pos: int): Option<Port>
  {
    match p
    case None => None
    case Some(q) => Some(MovePort(q, pos))
  }

  /** Every port of the fader that exists is owned by the track at `pos`. */
  predicate PortsAt(f: Fader, pos: int)
  {
    && f.ampPort.trackPos == pos && f.balancePort.trackPos == pos
    && f.mutePort.trackPos == pos && f.soloPort.trackPos == pos
    && f.listenPort.trackPos == pos && f.monoCompatPort.trackPos == pos
    && (f.stereoIn.Some? ==> f.stereoIn.value.l.trackPos == pos && f.stereoIn.value.r.trackPos == pos)
    && (f.stereoOut.Some? ==> f.stereoOut.value.l.trackPos == pos && f.stereoOut.value.r.trackPos == pos)
    && (f.midiIn.Some? ==> f.midiIn.value.trackPos == pos)
    && (f.midiOut.Some? ==> f.midiOut.value.trackPos == pos)
  }

  /** fader_update_track_pos: re-addresses the fader and all of its ports. */
  function UpdateTrackPos(f: Fader, pos: int): (r: Fader)
    ensures r.trackPos == pos && PortsAt(r, pos)
    ensures ValuesOf(r) == ValuesOf(f)
    ensures r.kind == f.kind && r.passthrough == f.passthrough && r.midiMode == f.midiMode
    ensures Valid(f) ==> Valid(r)
  {
    f.(trackPos := pos,
       ampPort := MovePort(f.ampPort, pos),
       balancePort := MovePort(f.balancePort, pos),
       mutePort := MovePort(f.mutePort, pos),
       soloPort := MovePort(f.soloPort, pos),
       listenPort := MovePort(f.listenPort, pos),
       monoCompatPort := MovePort(f.monoCompatPort, pos),
       stereoIn := MoveStereo(f.stereoIn, pos),
       stereoOut := MoveStereo(f.stereoOut, pos),
       midiIn := MoveMidi(f.midiIn, pos),
       midiOut := MoveMidi(f.midiOut, pos))
  }

  /** Moving a consistently addressed fader away and back restores it, so
      the update changes nothing but positions. */
  lemma UpdateTrackPosUndo(f: Fader, pos: int)
    requires PortsAt(f, f.trackPos)
    ensures UpdateTrackPos(UpdateTrackPos(f, pos), f.trackPos) == f
  {
  }

  /** Of two moves, only the last one counts. */
  lemma UpdateTrackPosLastWins(f: Fader, a: int, b: int)
    ensures UpdateTrackPos(UpdateTrackPos(f, a), b) == UpdateTrackPos(f, b)
  {
  }

  /** A new channel fader is consistently addressed to its track. */
  lemma NewPortsAtTrack(kind: FaderType, ch: Option<int>, passthrough: bool, c: Curves)
    requires IsChannel(kind) ==> ch.Some?
    ensures PortsAt(New(kind, ch, passthrough, c), New(kind, ch, passthrough, c).trackPos)
  {
  }

  // ---------------------------------------------------------------------
  // Solo and mute decisions

  /** fader_get_implied_soloed: false for non-channel, passthrough and soloed
      faders and for a fader whose track is missing; otherwise the walk over
      the owning track's routes-to chain and group children. */
  function ImpliedSoloed(f: Fader, ts: Tracks, k: Ranking): (r: bool)
    requires Ranks(ts, k)
    ensures r ==> IsChannel(f.kind) && !f.passthrough && !f.solo && 0 <= f.trackPos < |ts|
  {
    if !IsChannel(f.kind) || f.passthrough || f.solo then false
    else if !(0 <= f.trackPos < |ts|) then false
    else WalkImplies(ts, k, f.trackPos)
  }

  /** A fader is implied-soloed exactly when it is an unsoloed, non-prefader
      channel fader whose track has a witness path to a soloed track. */
  lemma ImpliedSoloedIff(f: Fader, ts: Tracks, k: Ranking)
    requires Ranks(ts, k)
    ensures ImpliedSoloed(f, ts, k) <==>
      && IsChannel(f.kind) && !f.passthrough && !f.solo
      && 0 <= f.trackPos < |ts|
      && exists path :: ImpliedWitness(ts, f.trackPos, path)
  {
    if IsChannel(f.kind) && !f.passthrough && !f.solo && 0 <= f.trackPos < |ts| {
      WalkImpliesIff(ts, k, f.trackPos);
    }
  }

  /** A channel fader whose track routes straight into a soloed track is
      implied-soloed. */
  lemma ImpliedByDownstreamSolo(f: Fader, ts: Tracks, k: Ranking, out: nat)
    requires Ranks(ts, k)
    requires IsChannel(f.kind) && !f.passthrough && !f.solo
    requires 0 <= f.trackPos < |ts| && RoutesTo(ts, f.trackPos, out) && ts[out].soloed
    ensures ImpliedSoloed(f, ts, k)
  {
    assert RouteSoloed(ts, k, f.trackPos);
  }

  /** A group track with a soloed child is implied-soloed, and so is one whose
      soloed track is a grandchild below a channel child. */
  lemma ImpliedByGroupedSolo(f: Fader, ts: Tracks, k: Ranking, c: nat, g: nat)
    requires Ranks(ts, k)
    requires IsChannel(f.kind) && !f.passthrough && !f.solo
    requires 0 <= f.trackPos < |ts| && ts[f.trackPos].canBeGroupTarget
    requires c < |ts| && c in ts[f.trackPos].children
    requires g < |ts|
    requires ts[c].soloed || (ts[c].hasChannel && ts[c].canBeGroupTarget && g in ts[c].children && ts[g].soloed)
    ensures ImpliedSoloed(f, ts, k)
  {
    var p := f.trackPos;
    if ts[c].soloed {
      assert ImpliedWitness(ts, p, [p, c]);
    } else {
      assert GroupPath(ts, [p, c, g]);
      assert ImpliedWitness(ts, p, [p, c, g]);
    }
    ImpliedSoloedIff(f, ts, k);
  }

  /** The effective mute of fader_process. The owning track is fetched only
      for audio-channel faders, so for a MIDI-channel fader the master
      exemption always holds and the bounce clause never applies. */
  function EffectivelyMuted(f: Fader, ts: Tracks, k: Ranking, bounceOn: bool): (r: bool)
    requires Ranks(ts, k)
    ensures f.passthrough ==> !r
    ensures !f.passthrough && f.mute ==> r
    ensures !IsChannel(f.kind) ==> (r <==> !f.passthrough && f.mute)
    ensures f.kind == MidiChannel ==>
      (r <==> !f.passthrough && (f.mute || (HasSoloed(ts) && !f.solo && !ImpliedSoloed(f, ts, k))))
    ensures f.kind == AudioChannel && 0 <= f.trackPos < |ts| ==>
      (r <==> !f.passthrough
              && (|| f.mute
                  || (HasSoloed(ts) && !f.solo && !ImpliedSoloed(f, ts, k) && !ts[f.trackPos].isMaster)
                  || (bounceOn && !ts[f.trackPos].isMaster && !ts[f.trackPos].bounce)))
    ensures f.kind == AudioChannel && !(0 <= f.trackPos < |ts|) ==>
      (r <==> !f.passthrough && (f.mute || (HasSoloed(ts) && !f.solo && !ImpliedSoloed(f, ts, k))))
  {
    var track := if f.kind == AudioChannel then FaderTrack(f, ts) else None;
    !f.passthrough
    && (f.mute
        || (IsChannel(f.kind) && HasSoloed(ts) && !f.solo && !ImpliedSoloed(f, ts, k)
            && !(track.Some? && track.value.isMaster))
        || (bounceOn && IsChannel(f.kind) && track.Some?
            && !track.value.isMaster && !track.value.bounce))
  }

  /** While bouncing, an audio channel fader on a track left out of the
      bounce is muted, unless it is pre-fader or on the master track. */
  lemma BounceMutesExcludedTracks(f: Fader, ts: Tracks, k: Ranking)
    requires Ranks(ts, k)
    requires f.kind == AudioChannel && !f.passthrough
    requires 0 <= f.trackPos < |ts| && !ts[f.trackPos].isMaster && !ts[f.trackPos].bounce
    ensures EffectivelyMuted(f, ts, k, true)
  {
  }

  /** Bouncing changes the mute decision exactly for an audio channel fader
      on a present, non-master track left out of the bounce that would
      otherwise play. */
  lemma BounceChangesOnlyExcludedTracks(f: Fader, ts: Tracks, k: Ranking)
    requires Ranks(ts, k)
    ensures EffectivelyMuted(f, ts, k, true) != EffectivelyMuted(f, ts, k, false) <==>
      && f.kind == AudioChannel && !f.passthrough
      && 0 <= f.trackPos < |ts| && !ts[f.trackPos].isMaster && !ts[f.trackPos].bounce
      && !EffectivelyMuted(f, ts, k, false)
  {
  }

  /** The master track's fader is muted only by its own mute. */
  lemma MasterMutedOnlyByOwnMute(f: Fader, ts: Tracks, k: Ranking, bounceOn: bool)
    requires Ranks(ts, k)
    requires f.kind == AudioChannel && 0 <= f.trackPos < |ts| && ts[f.trackPos].isMaster
    ensures EffectivelyMuted(f, ts, k, bounceOn) <==> !f.passthrough && f.mute
  {
  }

  /** A soloed channel fader is not silenced by solo: it is muted only by its
      own mute or by bouncing. */
  lemma SoloedNotMutedBySolo(f: Fader, ts: Tracks, k: Ranking)
    requires Ranks(ts, k)
    requires f.solo
    ensures EffectivelyMuted(f, ts, k, false) <==> !f.passthrough && f.mute
  {
  }

  /** With nothing soloed and no bounce, only the own mute silences a fader. */
  lemma NoSoloNoBounceOnlyOwnMute(f: Fader, ts: Tracks, k: Ranking)
    requires Ranks(ts, k)
    requires !HasSoloed(ts)
    ensures EffectivelyMuted(f, ts, k, false) <==> !f.passthrough && f.mute
  {
  }

  /** While something is soloed, a non-passthrough audio channel fader on a
      non-master track is silenced unless it is soloed or implied-soloed. */
  lemma SoloIsolates(f: Fader, ts: Tracks, k: Ranking, bounceOn: bool)
    requires Ranks(ts, k)
    requires f.kind == AudioChannel && !f.passthrough
    requires 0 <= f.trackPos < |ts| && !ts[f.trackPos].isMaster
    requires HasSoloed(ts) && !f.solo && !ImpliedSoloed(f, ts, k)
    ensures EffectivelyMuted(f, ts, k, bounceOn)
  {
  }
}
