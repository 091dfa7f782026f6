/** One processing cycle of a fader (src/audio/fader.c, fader_process).

    Audio faders copy their input window to the output, then (unless they
    are pre-fader) apply in order: the monitor section's dim and listen,
    balance times amplitude, mono summing, the mute gain or the
    denormal-prevention fill, and the hard limit to [-2, 2] for the master,
    monitor and sample-processor outputs. MIDI faders append the input
    events of the window and scale note-on velocities by the amplitude.

    Everything engine-wide the source reads from globals arrives as an
    explicit `Engine`; the post-fader outputs of the other tracks, read by
    the monitor fader for listening, arrive as `outs`, indexed by track
    position. Frames are positions in the port buffers; the window is
    [start, start + n). */
module FaderProcess {
  import opened Wrappers
  import opened Tracklist
  import opened Faders
  import opened Dsp

  /** The monitor section's gain sources. */
  datatype ControlRoom = ControlRoom(muteAmp: real, listenAmp: real, dimAmp: real, dimOutput: bool)

  /** Engine-wide inputs of one cycle. `balanceLaw` is the linear balance
      control, mapping a balance value to left and right gains. */
  datatype Engine = Engine(
    bounceOn: bool,
    rolling: bool,
    denormal: real,
    room: ControlRoom,
    balanceLaw: real -> (real, real))

  /** Below this mute gain the output is filled rather than scaled. */
  const MuteAmpFloor: real := 0.00001

  /** The hard limit applied to the busses that reach the hardware. */
  const LimitLo: real := -2.0
  const LimitHi: real := 2.0

  /** Both channels of `s` hold the frames [start, start + n). */
  predicate Covers(s: Stereo, start: nat, n: nat)
  {
    start + n <= |s.l| && start + n <= |s.r|
  }

  /** Each track's post-fader output port pair covers the window. */
  predicate OutputsCover(ts: Tracks, outs: seq<Stereo>, start: nat, n: nat)
  {
    |outs| == |ts| && forall t :: 0 <= t < |outs| ==> Covers(outs[t], start, n)
  }

  /** The buffers of one fader_process call on a stereo fader: the ports and
      the frozen clip hold the window, and every track has an output. */
  predicate AudioCall(
    f: Fader, ts: Tracks, k: Ranking,
    input: Stereo, output: Stereo, clip: Stereo, outs: seq<Stereo>, start: nat, n: nat)
  {
    && HasStereo(f.kind)
    && Ranks(ts, k)
    && Covers(input, start, n) && Covers(output, start, n)
    && Spans(clip, n)
    && OutputsCover(ts, outs, start, n)
  }

  /** The first `n` frames are mono: both channels agree. */
  predicate IsMono(w: Stereo, n: nat)
    requires Spans(w, n)
  {
    forall i :: 0 <= i < n ==> w.l[i] == w.r[i]
  }

  /** The frames [start, start + n) of a port pair, as `&buf[start]` with `n`. */
  function Window(s: Stereo, start: nat, n: nat): (w: Stereo)
    requires Covers(s, start, n)
    ensures Spans(w, n)
    ensures forall i :: 0 <= i < n ==> w.l[i] == s.l[start + i] && w.r[i] == s.r[start + i]
  {
    Stereo(s.l[start..start + n], s.r[start..start + n])
  }

  /** Writes a processed window back at `start`; other frames keep their values. */
  function Splice(s: Stereo, start: nat, w: Stereo): (r: Stereo)
    requires start + |w.l| <= |s.l| && start + |w.r| <= |s.r|
    ensures |r.l| == |s.l| && |r.r| == |s.r|
    ensures forall i :: 0 <= i < |w.l| ==> r.l[start + i] == w.l[i]
    ensures forall i :: 0 <= i < |w.r| ==> r.r[start + i] == w.r[i]
    ensures forall i :: 0 <= i < |s.l| && !(start <= i < start + |w.l|) ==> r.l[i] == s.l[i]
    ensures forall i :: 0 <= i < |s.r| && !(start <= i < start + |w.r|) ==> r.r[i] == s.r[i]
  {
    var l := s.l[..start] + w.l + s.l[start + |w.l|..];
    var r := s.r[..start] + w.r + s.r[start + |w.r|..];
    assert forall i :: 0 <= i < |w.l| ==> l[start + i] == w.l[i];
    assert forall i :: 0 <= i < |w.r| ==> r[start + i] == w.r[i];
    Stereo(l, r)
  }

  /** dsp_mul_k2 on both channels of a window. */
  function Scale(w: Stereo, kl: real, kr: real): (r: Stereo)
    ensures |r.l| == |w.l| && |r.r| == |w.r|
    ensures forall i :: 0 <= i < |w.l| ==> r.l[i] == w.l[i] * kl
    ensures forall i :: 0 <= i < |w.r| ==> r.r[i] == w.r[i] * kr
  {
    Stereo(MulK2(w.l, kl, |w.l|), MulK2(w.r, kr, |w.r|))
  }

  /** Whether a track is added to the monitor when listening: it has a
      channel with audio output and is listened. */
  predicate Listenable(t: Track)
  {
    t.hasChannel && t.audioOut && t.listened
  }

  /** The left or the right channel of a block. */
  function Side(s: Stereo, left: bool): seq<real>
  {
    if left then s.l else s.r
  }

  /** One iteration of the listen loop: a listenable track's post-fader
      window is mixed in at the listen gain. */
  function ListenStepOf(ts: Tracks, outs: seq<Stereo>, start: nat, n: nat, listenAmp: real, w: Stereo, i: nat): (r: Stereo)
    requires OutputsCover(ts, outs, start, n)
    requires Spans(w, n)
    requires i < |ts|
    ensures Spans(r, n)
  {
    if Listenable(ts[i]) then
      var o := Window(outs[i], start, n);
      Stereo(Mix2(w.l, o.l, 1.0, listenAmp, n), Mix2(w.r, o.r, 1.0, listenAmp, n))
    else w
  }

  /** The listen loop of the monitor fader, over the track positions from `i` on. */
  function ListenMix(ts: Tracks, outs: seq<Stereo>, start: nat, n: nat, listenAmp: real, w: Stereo, i: nat): (r: Stereo)
    requires OutputsCover(ts, outs, start, n)
    requires Spans(w, n)
    ensures Spans(r, n)
    decreases |ts| - i
  {
    if i >= |ts| then w
    else ListenMix(ts, outs, start, n, listenAmp, ListenStepOf(ts, outs, start, n, listenAmp, w, i), i + 1)
  }

  /** Frame `j` of one channel of the track at `i`, when it is listenable. */
  ghost function Heard(ts: Tracks, outs: seq<Stereo>, start: nat, n: nat, j: nat, left: bool, i: nat): real
    requires OutputsCover(ts, outs, start, n)
    requires i < |ts| && j < n
  {
    assert Covers(outs[i], start, n);
    if Listenable(ts[i]) then Side(outs[i], left)[start + j] else 0.0
  }

  /** Frame `j` of one channel of the listened tracks' outputs, each at the
      listen gain, summed over the positions from `i` on. */
  ghost function ListenedSum(ts: Tracks, outs: seq<Stereo>, start: nat, n: nat, listenAmp: real, j: nat, left: bool, i: nat): real
    requires OutputsCover(ts, outs, start, n)
    requires j < n
    decreases |ts| - i
  {
    if i >= |ts| then 0.0
    else Heard(ts, outs, start, n, j, left, i) * listenAmp + ListenedSum(ts, outs, start, n, listenAmp, j, left, i + 1)
  }

  /** One listen step adds the track's frame at the listen gain. */
  lemma ListenStep(ts: Tracks, outs: seq<Stereo>, start: nat, n: nat, listenAmp: real, w: Stereo, i: nat, j: nat, left: bool)
    requires OutputsCover(ts, outs, start, n)
    requires Spans(w, n)
    requires i < |ts| && j < n
    ensures Side(ListenStepOf(ts, outs, start, n, listenAmp, w, i), left)[j]
            == Side(w, left)[j] + Heard(ts, outs, start, n, j, left, i) * listenAmp
  {
    assert Covers(outs[i], start, n);
    var stepped := ListenStepOf(ts, outs, start, n, listenAmp, w, i);
    if Listenable(ts[i]) {
      var o := Window(outs[i], start, n);
      var mixed := Mix2(Side(w, left), Side(o, left), 1.0, listenAmp, n);
      assert Side(stepped, left) == mixed;
      assert Side(o, left)[j] == Side(outs[i], left)[start + j];
      assert mixed[j] == Side(w, left)[j] * 1.0 + Side(o, left)[j] * listenAmp;
    } else {
      assert stepped == w;
      assert Heard(ts, outs, start, n, j, left, i) == 0.0;
    }
  }

  /** The listen loop adds to every frame of each channel the listened
      tracks' outputs at the listen gain. */
  lemma {:induction false} ListenMixIsSum(ts: Tracks, outs: seq<Stereo>, start: nat, n: nat, listenAmp: real, w: Stereo, i: nat, j: nat, left: bool)
    requires OutputsCover(ts, outs, start, n)
    requires Spans(w, n)
    requires j < n
    ensures Side(ListenMix(ts, outs, start, n, listenAmp, w, i), left)[j]
            == Side(w, left)[j] + ListenedSum(ts, outs, start, n, listenAmp, j, left, i)
    decreases |ts| - i
  {
    if i < |ts| {
      var w' := ListenStepOf(ts, outs, start, n, listenAmp, w, i);
      ListenMixIsSum(ts, outs, start, n, listenAmp, w', i + 1, j, left);
      ListenStep(ts, outs, start, n, listenAmp, w, i, j, left);
      ListenedSumUnfold(ts, outs, start, n, listenAmp, w, i, j, left);
    }
  }

  /** One iteration of the loop and of the sum. */
  lemma ListenedSumUnfold(ts: Tracks, outs: seq<Stereo>, start: nat, n: nat, listenAmp: real, w: Stereo, i: nat, j: nat, left: bool)
    requires OutputsCover(ts, outs, start, n)
    requires Spans(w, n)
    requires i < |ts| && j < n
    ensures ListenMix(ts, outs, start, n, listenAmp, w, i)
            == ListenMix(ts, outs, start, n, listenAmp, ListenStepOf(ts, outs, start, n, listenAmp, w, i), i + 1)
    ensures ListenedSum(ts, outs, start, n, listenAmp, j, left, i)
            == Heard(ts, outs, start, n, j, left, i) * listenAmp + ListenedSum(ts, outs, start, n, listenAmp, j, left, i + 1)
  {
  }

  /** The monitor section: dim and add the listened tracks when any track is
      listened, then dim again when the dim-output switch is on. */
  function MonitorStage(w: Stereo, ts: Tracks, outs: seq<Stereo>, start: nat, n: nat, room: ControlRoom): (r: Stereo)
    requires OutputsCover(ts, outs, start, n)
    requires Spans(w, n)
    ensures Spans(r, n)
    ensures !HasListened(ts) && !room.dimOutput ==> r == w
  {
    var listened :=
      if HasListened(ts)
      then ListenMix(ts, outs, start, n, room.listenAmp, Scale(w, room.dimAmp, room.dimAmp), 0)
      else w;
    if room.dimOutput then Scale(listened, room.dimAmp, room.dimAmp) else listened
  }

  /** With any track listened and the dim-output switch off, each monitor
      frame is the dimmed input plus the listened tracks' outputs, each at
      the listen gain. */
  lemma MonitorStageMixesListened(w: Stereo, ts: Tracks, outs: seq<Stereo>, start: nat, n: nat, room: ControlRoom, j: nat, left: bool)
    requires OutputsCover(ts, outs, start, n)
    requires Spans(w, n)
    requires HasListened(ts) && !room.dimOutput && j < n
    ensures Side(MonitorStage(w, ts, outs, start, n, room), left)[j]
            == Side(w, left)[j] * room.dimAmp + ListenedSum(ts, outs, start, n, room.listenAmp, j, left, 0)
  {
    var dimmed := Scale(w, room.dimAmp, room.dimAmp);
    MonitorStageUnfold(w, ts, outs, start, n, room);
    ListenMixIsSum(ts, outs, start, n, room.listenAmp, dimmed, 0, j, left);
    ScaleSide(w, room.dimAmp, j, left);
  }

  /** The dim-output switch scales the whole monitor output by the dim gain
      once more. */
  lemma MonitorStageDimsOutput(w: Stereo, ts: Tracks, outs: seq<Stereo>, start: nat, n: nat, room: ControlRoom)
    requires OutputsCover(ts, outs, start, n)
    requires Spans(w, n)
    requires room.dimOutput
    ensures MonitorStage(w, ts, outs, start, n, room)
            == Scale(MonitorStage(w, ts, outs, start, n, room.(dimOutput := false)), room.dimAmp, room.dimAmp)
  {
    var dimmed := MonitorStage(w, ts, outs, start, n, room);
    var undimmed := MonitorStage(w, ts, outs, start, n, room.(dimOutput := false));
  }

  /** The monitor stage with listened tracks, one stage at a time. */
  lemma MonitorStageUnfold(w: Stereo, ts: Tracks, outs: seq<Stereo>, start: nat, n: nat, room: ControlRoom)
    requires OutputsCover(ts, outs, start, n)
    requires Spans(w, n)
    requires HasListened(ts)
    ensures
      var mixed := ListenMix(ts, outs, start, n, room.listenAmp, Scale(w, room.dimAmp, room.dimAmp), 0);
      MonitorStage(w, ts, outs, start, n, room)
      == if room.dimOutput then Scale(mixed, room.dimAmp, room.dimAmp) else mixed
  {
  }

  /** A frame of a channel scaled by a common gain. */
  lemma ScaleSide(w: Stereo, k: real, j: nat, left: bool)
    requires j < |w.l| && j < |w.r|
    ensures Side(Scale(w, k, k), left)[j] == Side(w, left)[j] * k
  {
  }

  /** A frame of a channel scaled by a gain per side. */
  lemma ScaleSideGain(w: Stereo, kl: real, kr: real, j: nat, left: bool)
    requires j < |w.l| && j < |w.r|
    ensures Side(Scale(w, kl, kr), left)[j] == Side(w, left)[j] * (if left then kl else kr)
  {
  }

  /** Frame `j` of one channel of the monitor stage while tracks are
      listened: the input at the dim gain plus the listened tracks' outputs
      at the listen gain, dimmed once more when dim-output is on. */
  ghost function MonitorFrame(w: Stereo, ts: Tracks, outs: seq<Stereo>, start: nat, n: nat, room: ControlRoom, j: nat, left: bool): real
    requires OutputsCover(ts, outs, start, n)
    requires Spans(w, n) && j < n
  {
    var mixed := Side(w, left)[j] * room.dimAmp + ListenedSum(ts, outs, start, n, room.listenAmp, j, left, 0);
    if room.dimOutput then mixed * room.dimAmp else mixed
  }

  /** With any track listened, each monitor frame is its MonitorFrame, for
      either setting of the dim-output switch. */
  lemma MonitorStageFrame(w: Stereo, ts: Tracks, outs: seq<Stereo>, start: nat, n: nat, room: ControlRoom, j: nat, left: bool)
    requires OutputsCover(ts, outs, start, n)
    requires Spans(w, n)
    requires HasListened(ts) && j < n
    ensures Side(MonitorStage(w, ts, outs, start, n, room), left)[j] == MonitorFrame(w, ts, outs, start, n, room, j, left)
  {
    var plain := room.(dimOutput := false);
    MonitorStageMixesListened(w, ts, outs, start, n, plain, j, left);
    if room.dimOutput {
      MonitorStageDimsOutput(w, ts, outs, start, n, room);
      ScaleSide(MonitorStage(w, ts, outs, start, n, plain), room.dimAmp, j, left);
    }
  }

  /** Mute stage: the mute gain, or below the floor the denormal-prevention fill. */
  function MuteStage(w: Stereo, n: nat, muted: bool, muteAmp: real, denormal: real): (r: Stereo)
    requires Spans(w, n)
    ensures Spans(r, n)
    ensures !muted ==> r == w
    ensures muted && muteAmp < MuteAmpFloor ==> forall i :: 0 <= i < n ==> r.l[i] == denormal && r.r[i] == denormal
    ensures muted && muteAmp >= MuteAmpFloor ==> forall i :: 0 <= i < n ==> r.l[i] == w.l[i] * muteAmp && r.r[i] == w.r[i] * muteAmp
    ensures IsMono(w, n) ==> IsMono(r, n)
  {
    if !muted then w
    else if muteAmp < MuteAmpFloor then Stereo(Fill(w.l, denormal, n), Fill(w.r, denormal, n))
    else Scale(w, muteAmp, muteAmp)
  }

  /** Limit stage: dsp_limit1 to [-2, 2] on both channels when enabled. */
  function LimitStage(w: Stereo, n: nat, limited: bool): (r: Stereo)
    requires Spans(w, n)
    ensures Spans(r, n)
    ensures !limited ==> r == w
    ensures limited ==> forall i :: 0 <= i < n ==> LimitLo <= r.l[i] <= LimitHi && LimitLo <= r.r[i] <= LimitHi
    ensures limited ==> forall i :: 0 <= i < n ==> r.l[i] == Clamp(w.l[i], LimitLo, LimitHi) && r.r[i] == Clamp(w.r[i], LimitLo, LimitHi)
    ensures forall i :: 0 <= i < n && LimitLo <= w.l[i] <= LimitHi ==> r.l[i] == w.l[i]
    ensures forall i :: 0 <= i < n && LimitLo <= w.r[i] <= LimitHi ==> r.r[i] == w.r[i]
    ensures IsMono(w, n) ==> IsMono(r, n)
  {
    if limited then Stereo(Limit1(w.l, LimitLo, LimitHi, n), Limit1(w.r, LimitLo, LimitHi, n)) else w
  }

  /** The output of the master track's fader, the monitor fader and the
      sample processor's fader is hard-limited. */
  predicate LimitsOutput(f: Fader, ts: Tracks)
  {
    || f.kind == Monitor
    || f.kind == SampleProcessor
    || (f.kind == AudioChannel && 0 <= f.trackPos < |ts| && ts[f.trackPos].isMaster)
  }

  /** The pre-fader instance of a frozen track plays its clip while the
      transport rolls. Only audio-channel faders look up their track. */
  predicate PlaysClip(f: Fader, ts: Tracks, e: Engine)
  {
    f.kind == AudioChannel && 0 <= f.trackPos < |ts| && ts[f.trackPos].frozen && e.rolling
  }

  /** The left and right gain a fader applies: its amplitude times the
      balance law's gain of each side for its balance. */
  function Gains(f: Fader, e: Engine): (real, real)
  {
    var b := e.balanceLaw(f.balance);
    (f.amp * b.0, f.amp * b.1)
  }

  /** Scaling twice is scaling once by the product of the gains. */
  lemma ScaleCompose(w: Stereo, kl: real, kr: real, k: real, ml: real, mr: real)
    requires ml == kl * k && mr == kr * k
    ensures Scale(Scale(w, kl, kr), k, k) == Scale(w, ml, mr)
  {
    var a := Scale(Scale(w, kl, kr), k, k);
    var b := Scale(w, ml, mr);
    forall i | 0 <= i < |w.l|
      ensures a.l[i] == b.l[i]
    {
      assert (w.l[i] * kl) * k == w.l[i] * (kl * k);
    }
    forall i | 0 <= i < |w.r|
      ensures a.r[i] == b.r[i]
    {
      assert (w.r[i] * kr) * k == w.r[i] * (kr * k);
    }
  }

  /** The gain a fader applies to the left or the right channel. */
  function SideGain(f: Fader, e: Engine, left: bool): real
  {
    if left then Gains(f, e).0 else Gains(f, e).1
  }

  /** A sample of the left or the right channel times the fader's gain for that side. */
  function Gained(x: real, f: Fader, e: Engine, left: bool): real
  {
    x * SideGain(f, e, left)
  }

  /** The stages before the mute: the monitor section, amplitude times
      balance gain, and equal-amplitude mono summing when mono
      compatibility is on. */
  function PreMute(f: Fader, ts: Tracks, e: Engine, outs: seq<Stereo>, start: nat, n: nat, w: Stereo): (r: Stereo)
    requires OutputsCover(ts, outs, start, n)
    requires Spans(w, n)
    ensures Spans(r, n)
    ensures f.kind != Monitor && !f.monoCompat ==> r == Scale(w, Gains(f, e).0, Gains(f, e).1)
    ensures f.kind != Monitor && f.monoCompat ==> r == MakeMono(Scale(w, Gains(f, e).0, Gains(f, e).1), n, false)
    ensures f.kind == Monitor && !f.monoCompat ==>
      r == Scale(MonitorStage(w, ts, outs, start, n, e.room), Gains(f, e).0, Gains(f, e).1)
    ensures f.kind == Monitor && f.monoCompat ==>
      r == MakeMono(Scale(MonitorStage(w, ts, outs, start, n, e.room), Gains(f, e).0, Gains(f, e).1), n, false)
    ensures f.monoCompat ==> IsMono(r, n)
  {
    var monitored := if f.kind == Monitor then MonitorStage(w, ts, outs, start, n, e.room) else w;
    var scaled := Scale(monitored, Gains(f, e).0, Gains(f, e).1);
    if f.monoCompat then MakeMono(scaled, n, false) else scaled
  }

  /** The stages after the copy, for a fader that is not pre-fader. */
  function PostFader(f: Fader, ts: Tracks, e: Engine, outs: seq<Stereo>, start: nat, n: nat, w: Stereo, muted: bool): (r: Stereo)
    requires OutputsCover(ts, outs, start, n)
    requires Spans(w, n)
    ensures Spans(r, n)
    ensures f.kind != Monitor && !f.monoCompat && !muted && !LimitsOutput(f, ts) ==>
      r == Scale(w, Gains(f, e).0, Gains(f, e).1)
    ensures LimitsOutput(f, ts) ==>
      forall i :: 0 <= i < n ==> LimitLo <= r.l[i] <= LimitHi && LimitLo <= r.r[i] <= LimitHi
    ensures muted && e.room.muteAmp < MuteAmpFloor && LimitLo <= e.denormal <= LimitHi ==>
      forall i :: 0 <= i < n ==> r.l[i] == e.denormal && r.r[i] == e.denormal
    ensures f.monoCompat ==> IsMono(r, n)
    ensures f.kind != Monitor && f.monoCompat && !muted && !LimitsOutput(f, ts) ==>
      r == MakeMono(Scale(w, Gains(f, e).0, Gains(f, e).1), n, false)
    ensures f.kind != Monitor && !f.monoCompat && muted && e.room.muteAmp >= MuteAmpFloor && !LimitsOutput(f, ts) ==>
      r == Scale(Scale(w, Gains(f, e).0, Gains(f, e).1), e.room.muteAmp, e.room.muteAmp)
    ensures !muted ==>
      var p := PreMute(f, ts, e, outs, start, n, w);
      forall i :: 0 <= i < n ==>
        && r.l[i] == (if LimitsOutput(f, ts) then Clamp(p.l[i], LimitLo, LimitHi) else p.l[i])
        && r.r[i] == (if LimitsOutput(f, ts) then Clamp(p.r[i], LimitLo, LimitHi) else p.r[i])
    ensures muted && e.room.muteAmp >= MuteAmpFloor ==>
      var p := PreMute(f, ts, e, outs, start, n, w);
      var m := e.room.muteAmp;
      forall i :: 0 <= i < n ==>
        && r.l[i] == (if LimitsOutput(f, ts) then Clamp(p.l[i] * m, LimitLo, LimitHi) else p.l[i] * m)
        && r.r[i] == (if LimitsOutput(f, ts) then Clamp(p.r[i] * m, LimitLo, LimitHi) else p.r[i] * m)
    ensures muted && e.room.muteAmp < MuteAmpFloor ==>
      forall i :: 0 <= i < n ==>
        && r.l[i] == (if LimitsOutput(f, ts) then Clamp(e.denormal, LimitLo, LimitHi) else e.denormal)
        && r.r[i] == (if LimitsOutput(f, ts) then Clamp(e.denormal, LimitLo, LimitHi) else e.denormal)
  {
    var silenced := MuteStage(PreMute(f, ts, e, outs, start, n, w), n, muted, e.room.muteAmp, e.denormal);
    LimitStage(silenced, n, LimitsOutput(f, ts))
  }

  /** The gains of a muted fader whose mute gain is at or above the floor:
      its own gain on each side times the mute gain. */
  function MutedGains(f: Fader, e: Engine): (real, real)
  {
    (Gains(f, e).0 * e.room.muteAmp, Gains(f, e).1 * e.room.muteAmp)
  }

  /** A muted fader whose mute gain is at or above the floor (no monitor,
      mono compatibility or limiter) scales its window by amplitude times
      balance gain times mute gain on each side. */
  lemma PostFaderMutedScales(f: Fader, ts: Tracks, e: Engine, outs: seq<Stereo>, start: nat, n: nat, w: Stereo)
    requires OutputsCover(ts, outs, start, n)
    requires Spans(w, n)
    requires f.kind != Monitor && !f.monoCompat && !LimitsOutput(f, ts) && e.room.muteAmp >= MuteAmpFloor
    ensures PostFader(f, ts, e, outs, start, n, w, true)
            == Scale(w, MutedGains(f, e).0, MutedGains(f, e).1)
  {
    var r := PostFader(f, ts, e, outs, start, n, w, true);
    ScaleCompose(w, Gains(f, e).0, Gains(f, e).1, e.room.muteAmp, MutedGains(f, e).0, MutedGains(f, e).1);
  }

  /** fader_process for the faders with stereo ports. An audio-channel fader
      whose track is missing returns before writing anything. `clip` is the
      frozen track's clip audio for the window. */
  function ProcessAudio(
    f: Fader, ts: Tracks, k: Ranking, e: Engine,
    input: Stereo, output: Stereo, clip: Stereo, outs: seq<Stereo>,
    start: nat, n: nat): (r: Result<Stereo, FaderError>)
    requires AudioCall(f, ts, k, input, output, clip, outs, start, n)
    ensures r.Failure? <==> f.kind == AudioChannel && !(0 <= f.trackPos < |ts|)
    ensures r.Success? ==> |r.value.l| == |output.l| && |r.value.r| == |output.r|
    ensures r.Success? ==> forall i :: 0 <= i < |output.l| && !(start <= i < start + n) ==> r.value.l[i] == output.l[i]
    ensures r.Success? ==> forall i :: 0 <= i < |output.r| && !(start <= i < start + n) ==> r.value.r[i] == output.r[i]
    ensures r.Success? ==>
      Window(r.value, start, n) ==
        (if f.passthrough then (if PlaysClip(f, ts, e) then clip else Window(input, start, n))
         else PostFader(f, ts, e, outs, start, n, Window(input, start, n), EffectivelyMuted(f, ts, k, e.bounceOn)))
  {
    if f.kind == AudioChannel && FaderTrack(f, ts).None? then Failure(NoTrack)
    else
      var w := CopyIn(input, output, start, n);
      var result :=
        if f.passthrough then (if PlaysClip(f, ts, e) then clip else w)
        else PostFader(f, ts, e, outs, start, n, w, EffectivelyMuted(f, ts, k, e.bounceOn));
      SpliceWindow(output, start, result, n);
      Success(Splice(output, start, result))
  }

  /** dsp_copy of the input window into the output window, on both channels:
      afterwards the output window holds the input frames. */
  function CopyIn(input: Stereo, output: Stereo, start: nat, n: nat): (w: Stereo)
    requires Covers(input, start, n) && Covers(output, start, n)
    ensures w == Window(input, start, n)
  {
    var win := Window(input, start, n);
    var wout := Window(output, start, n);
    var l := Copy(wout.l, win.l, n);
    var r := Copy(wout.r, win.r, n);
    assert l == win.l && r == win.r;
    Stereo(l, r)
  }

  /** Reading back the window just written gives what was written. */
  lemma SpliceWindow(s: Stereo, start: nat, w: Stereo, n: nat)
    requires Spans(w, n) && Covers(s, start, n)
    ensures Covers(Splice(s, start, w), start, n)
    ensures Window(Splice(s, start, w), start, n) == w
  {
    var r := Splice(s, start, w);
    assert forall i :: 0 <= i < n ==> Window(r, start, n).l[i] == w.l[i];
    assert forall i :: 0 <= i < n ==> Window(r, start, n).r[i] == w.r[i];
  }

  /** A muted fader whose mute gain is below the floor outputs exactly the
      denormal-prevention value in every frame of the window (after the
      limiter, when that value is within the limits). */
  lemma MutedOutputsDenormal(
    f: Fader, ts: Tracks, k: Ranking, e: Engine,
    input: Stereo, output: Stereo, clip: Stereo, outs: seq<Stereo>, start: nat, n: nat)
    requires AudioCall(f, ts, k, input, output, clip, outs, start, n)
    requires f.kind == AudioChannel ==> 0 <= f.trackPos < |ts|
    requires !f.passthrough && EffectivelyMuted(f, ts, k, e.bounceOn) && e.room.muteAmp < MuteAmpFloor
    requires LimitLo <= e.denormal <= LimitHi
    ensures ProcessAudio(f, ts, k, e, input, output, clip, outs, start, n).Success?
    ensures forall i :: start <= i < start + n ==>
      ProcessAudio(f, ts, k, e, input, output, clip, outs, start, n).value.l[i] == e.denormal &&
      ProcessAudio(f, ts, k, e, input, output, clip, outs, start, n).value.r[i] == e.denormal
  {
    var out := ProcessAudio(f, ts, k, e, input, output, clip, outs, start, n).value;
    var w := Window(out, start, n);
    forall i | start <= i < start + n
      ensures out.l[i] == e.denormal && out.r[i] == e.denormal
    {
      assert out.l[i] == w.l[i - start] && out.r[i] == w.r[i - start];
    }
  }

  /** The master, monitor and sample-processor outputs never leave [-2, 2]
      inside the window. */
  lemma LimitedOutputBounded(
    f: Fader, ts: Tracks, k: Ranking, e: Engine,
    input: Stereo, output: Stereo, clip: Stereo, outs: seq<Stereo>, start: nat, n: nat)
    requires AudioCall(f, ts, k, input, output, clip, outs, start, n)
    requires !f.passthrough && LimitsOutput(f, ts)
    ensures ProcessAudio(f, ts, k, e, input, output, clip, outs, start, n).Success?
    ensures forall i :: start <= i < start + n ==>
      LimitLo <= ProcessAudio(f, ts, k, e, input, output, clip, outs, start, n).value.l[i] <= LimitHi &&
      LimitLo <= ProcessAudio(f, ts, k, e, input, output, clip, outs, start, n).value.r[i] <= LimitHi
  {
    var out := ProcessAudio(f, ts, k, e, input, output, clip, outs, start, n).value;
    var w := Window(out, start, n);
    forall i | start <= i < start + n
      ensures LimitLo <= out.l[i] <= LimitHi && LimitLo <= out.r[i] <= LimitHi
    {
      assert out.l[i] == w.l[i - start] && out.r[i] == w.r[i - start];
    }
  }

  /** Every frame of `out` in [start, start + n) is the same frame of `input`
      times the gain of its side. */
  predicate ScaledFrames(out: Stereo, input: Stereo, start: nat, n: nat, kl: real, kr: real)
    requires Covers(input, start, n) && Covers(out, start, n)
  {
    forall i :: start <= i < start + n ==> out.l[i] == input.l[i] * kl && out.r[i] == input.r[i] * kr
  }

  /** When the window of `out` is the window of `input` scaled per side, each
      frame of `out` in the window is the matching input frame times its gain. */
  lemma WindowScaled(out: Stereo, input: Stereo, start: nat, n: nat, kl: real, kr: real)
    requires Covers(input, start, n) && Covers(out, start, n)
    requires Window(out, start, n) == Scale(Window(input, start, n), kl, kr)
    ensures ScaledFrames(out, input, start, n, kl, kr)
  {
    var w := Window(out, start, n);
    var win := Window(input, start, n);
    forall i | start <= i < start + n
      ensures out.l[i] == input.l[i] * kl && out.r[i] == input.r[i] * kr
    {
      assert out.l[i] == w.l[i - start] && out.r[i] == w.r[i - start];
      assert win.l[i - start] == input.l[i] && win.r[i - start] == input.r[i];
    }
  }

  /** For an ordinary audible channel the window of the output is the window
      of the input scaled by amplitude times the balance gain of each side. */
  lemma ChannelWindowScaled(
    f: Fader, ts: Tracks, k: Ranking, e: Engine,
    input: Stereo, output: Stereo, clip: Stereo, outs: seq<Stereo>, start: nat, n: nat)
    requires f.kind == AudioChannel && !f.passthrough && !f.monoCompat
    requires AudioCall(f, ts, k, input, output, clip, outs, start, n)
    requires 0 <= f.trackPos < |ts| && !ts[f.trackPos].isMaster
    requires !EffectivelyMuted(f, ts, k, e.bounceOn)
    ensures ProcessAudio(f, ts, k, e, input, output, clip, outs, start, n).Success?
    ensures Covers(ProcessAudio(f, ts, k, e, input, output, clip, outs, start, n).value, start, n)
    ensures Window(ProcessAudio(f, ts, k, e, input, output, clip, outs, start, n).value, start, n)
            == Scale(Window(input, start, n), Gains(f, e).0, Gains(f, e).1)
  {
    var out := ProcessAudio(f, ts, k, e, input, output, clip, outs, start, n).value;
    var win := Window(input, start, n);
    var plain := PostFader(f, ts, e, outs, start, n, win, false);
    assert !LimitsOutput(f, ts);
    assert Window(out, start, n) == plain;
  }

  /** An ordinary audible channel (not pre-fader, not master, not muted, mono
      compatibility off) outputs its input times amplitude times the balance
      gain of each side. */
  lemma ChannelAppliesBalanceAndAmp(
    f: Fader, ts: Tracks, k: Ranking, e: Engine,
    input: Stereo, output: Stereo, clip: Stereo, outs: seq<Stereo>, start: nat, n: nat)
    requires f.kind == AudioChannel && !f.passthrough && !f.monoCompat
    requires AudioCall(f, ts, k, input, output, clip, outs, start, n)
    requires 0 <= f.trackPos < |ts| && !ts[f.trackPos].isMaster
    requires !EffectivelyMuted(f, ts, k, e.bounceOn)
    ensures ProcessAudio(f, ts, k, e, input, output, clip, outs, start, n).Success?
    ensures Covers(ProcessAudio(f, ts, k, e, input, output, clip, outs, start, n).value, start, n)
    ensures ScaledFrames(ProcessAudio(f, ts, k, e, input, output, clip, outs, start, n).value,
                         input, start, n, Gains(f, e).0, Gains(f, e).1)
  {
    ChannelWindowScaled(f, ts, k, e, input, output, clip, outs, start, n);
    WindowScaled(ProcessAudio(f, ts, k, e, input, output, clip, outs, start, n).value, input, start, n, Gains(f, e).0, Gains(f, e).1);
  }

  /** Without mono compatibility, a frame before the mute is the monitor
      frame (or, outside the monitor, the input frame) times the fader's
      gain for that side. */
  lemma PreMuteFrame(f: Fader, ts: Tracks, e: Engine, outs: seq<Stereo>, start: nat, n: nat, w: Stereo, m: Stereo, j: nat, left: bool)
    requires OutputsCover(ts, outs, start, n)
    requires Spans(w, n) && !f.monoCompat && j < n
    requires m == if f.kind == Monitor then MonitorStage(w, ts, outs, start, n, e.room) else w
    ensures Side(PreMute(f, ts, e, outs, start, n, w), left)[j] == Gained(Side(m, left)[j], f, e, left)
  {
    assert PreMute(f, ts, e, outs, start, n, w) == Scale(m, Gains(f, e).0, Gains(f, e).1);
    ScaleSideGain(m, Gains(f, e).0, Gains(f, e).1, j, left);
  }

  /** An unmuted, hard-limited fader (master, monitor or sample processor)
      outputs each frame before the mute clamped to [-2, 2]. */
  lemma LimitedOutputFrame(
    f: Fader, ts: Tracks, k: Ranking, e: Engine,
    input: Stereo, output: Stereo, clip: Stereo, outs: seq<Stereo>, start: nat, n: nat, j: nat, left: bool)
    requires AudioCall(f, ts, k, input, output, clip, outs, start, n)
    requires !f.passthrough && LimitsOutput(f, ts) && !EffectivelyMuted(f, ts, k, e.bounceOn) && j < n
    ensures ProcessAudio(f, ts, k, e, input, output, clip, outs, start, n).Success?
    ensures
      Side(ProcessAudio(f, ts, k, e, input, output, clip, outs, start, n).value, left)[start + j]
      == Clamp(Side(PreMute(f, ts, e, outs, start, n, Window(input, start, n)), left)[j], LimitLo, LimitHi)
  {
    var out := ProcessAudio(f, ts, k, e, input, output, clip, outs, start, n).value;
    var r := PostFader(f, ts, e, outs, start, n, Window(input, start, n), false);
    assert Window(out, start, n) == r;
    assert Side(out, left)[start + j] == Side(r, left)[j];
  }

  /** An unmuted monitor fader without mono compatibility, while tracks are
      listened: each output frame in the window is the monitor frame of the
      input (dimmed input plus the listened tracks at the listen gain,
      dimmed again with dim-output on) times the fader's gain for that side,
      hard-limited to [-2, 2]. */
  lemma MonitorOutputFrame(
    f: Fader, ts: Tracks, k: Ranking, e: Engine,
    input: Stereo, output: Stereo, clip: Stereo, outs: seq<Stereo>, start: nat, n: nat, j: nat, left: bool)
    requires AudioCall(f, ts, k, input, output, clip, outs, start, n)
    requires f.kind == Monitor && !f.passthrough && !f.mute && !f.monoCompat
    requires HasListened(ts) && j < n
    ensures ProcessAudio(f, ts, k, e, input, output, clip, outs, start, n).Success?
    ensures
      Side(ProcessAudio(f, ts, k, e, input, output, clip, outs, start, n).value, left)[start + j]
      == Clamp(Gained(MonitorFrame(Window(input, start, n), ts, outs, start, n, e.room, j, left), f, e, left), LimitLo, LimitHi)
  {
    var win := Window(input, start, n);
    LimitedOutputFrame(f, ts, k, e, input, output, clip, outs, start, n, j, left);
    PreMuteFrame(f, ts, e, outs, start, n, win, MonitorStage(win, ts, outs, start, n, e.room), j, left);
    MonitorStageFrame(win, ts, outs, start, n, e.room, j, left);
  }

  /** An unmuted master-track or sample-processor fader without mono
      compatibility outputs each input frame of the window times its gain
      for that side, hard-limited to [-2, 2]. */
  lemma MasterAndSamplerOutputFrame(
    f: Fader, ts: Tracks, k: Ranking, e: Engine,
    input: Stereo, output: Stereo, clip: Stereo, outs: seq<Stereo>, start: nat, n: nat, j: nat, left: bool)
    requires AudioCall(f, ts, k, input, output, clip, outs, start, n)
    requires f.kind != Monitor && LimitsOutput(f, ts)
    requires !f.passthrough && !f.mute && !f.monoCompat && j < n
    ensures ProcessAudio(f, ts, k, e, input, output, clip, outs, start, n).Success?
    ensures
      Side(ProcessAudio(f, ts, k, e, input, output, clip, outs, start, n).value, left)[start + j]
      == Clamp(Gained(Side(input, left)[start + j], f, e, left), LimitLo, LimitHi)
  {
    var win := Window(input, start, n);
    if f.kind == AudioChannel {
      MasterMutedOnlyByOwnMute(f, ts, k, e.bounceOn);
    }
    LimitedOutputFrame(f, ts, k, e, input, output, clip, outs, start, n, j, left);
    PreMuteFrame(f, ts, e, outs, start, n, win, win, j, left);
    assert Side(win, left)[j] == Side(input, left)[start + j];
  }

  // ---------------------------------------------------------------------
  // MIDI

  datatype MidiEventType = NoteOn | NoteOff | Controller | PitchBend | AllNotesOff | Other

  datatype MidiEvent = MidiEvent(kind: MidiEventType, time: nat, channel: nat, note: nat, velocity: nat)

  /** midi_events_append without queueing: the input events whose time lies
      in the window, in their order. */
  function InWindow(evs: seq<MidiEvent>, start: nat, n: nat): (r: seq<MidiEvent>)
    ensures |r| <= |evs|
    ensures forall ev :: ev in r ==> ev in evs && start <= ev.time < start + n
    ensures forall ev :: ev in evs && start <= ev.time < start + n ==> ev in r
  {
    if |evs| == 0 then []
    else
      var rest := InWindow(evs[1..], start, n);
      assert forall ev :: ev in evs[1..] ==> ev in evs;
      if start <= evs[0].time < start + n then [evs[0]] + rest else rest
  }

  /** A single event is kept exactly when its time is in the window. */
  lemma InWindowSingle(ev: MidiEvent, start: nat, n: nat)
    ensures InWindow([ev], start, n) == (if start <= ev.time < start + n then [ev] else [])
  {
    assert [ev][1..] == [];
  }

  /** Filtering a concatenation filters each part and keeps them in order;
      with InWindowSingle this fixes the order and multiplicity of the result. */
  lemma {:induction false} InWindowAppend(a: seq<MidiEvent>, b: seq<MidiEvent>, start: nat, n: nat)
    ensures InWindow(a + b, start, n) == InWindow(a, start, n) + InWindow(b, start, n)
    decreases |a|
  {
    if |a| == 0 {
      assert a + b == b;
    } else {
      assert (a + b)[0] == a[0];
      assert (a + b)[1..] == a[1..] + b;
      InWindowAppend(a[1..], b, start, n);
    }
  }

  /** The C `(int)` conversion: truncation toward zero. */
  function Truncate(x: real): (r: int)
    ensures x >= 0.0 ==> r as real <= x < r as real + 1.0
    ensures x < 0.0 ==> r as real - 1.0 < x <= r as real
  {
    if x >= 0.0 then x.Floor else -((-x).Floor)
  }

  /** glib's CLAMP on integers. */
  function ClampInt(x: int, lo: int, hi: int): int
  {
    if x > hi then hi else if x < lo then lo else x
  }

  /** The new note-on velocity for a velocity and an amplitude. */
  function ScaledVelocity(velocity: nat, amp: real): (v: nat)
    ensures v <= 127
    ensures 0.0 <= velocity as real * amp < 128.0 ==> v as real <= velocity as real * amp < v as real + 1.0
    ensures velocity as real * amp >= 128.0 ==> v == 127
    ensures velocity as real * amp < 1.0 ==> v == 0
  {
    ClampInt(Truncate(velocity as real * amp), 0, 127)
  }

  /** The velocity multiplier of one event: only note-ons change. */
  function ScaleEvent(ev: MidiEvent, amp: real): (r: MidiEvent)
    ensures r.kind == ev.kind && r.time == ev.time && r.channel == ev.channel && r.note == ev.note
    ensures ev.kind == NoteOn ==> r.velocity == ScaledVelocity(ev.velocity, amp) && r.velocity <= 127
    ensures ev.kind != NoteOn ==> r == ev
  {
    if ev.kind == NoteOn then ev.(velocity := ScaledVelocity(ev.velocity, amp)) else ev
  }

  /** fader_process for MIDI-channel faders, on the output event queue. A
      muted fader appends nothing. Otherwise the window's input events are
      appended, and a non-pre-fader in velocity-multiplier mode then scales
      the velocity of every note-on in the output queue, including events
      that were already queued. The CC-volume mode emits nothing. */
  function ProcessMidi(
    f: Fader, ts: Tracks, k: Ranking, e: Engine,
    input: seq<MidiEvent>, output: seq<MidiEvent>, start: nat, n: nat): (r: seq<MidiEvent>)
    requires f.kind == MidiChannel
    requires Ranks(ts, k)
    ensures EffectivelyMuted(f, ts, k, e.bounceOn) ==> r == output
    ensures !EffectivelyMuted(f, ts, k, e.bounceOn) ==> |r| == |output| + |InWindow(input, start, n)|
    ensures !EffectivelyMuted(f, ts, k, e.bounceOn) && (f.passthrough || f.midiMode == CcVolume) ==>
      r == output + InWindow(input, start, n)
    ensures !EffectivelyMuted(f, ts, k, e.bounceOn) && !f.passthrough && f.midiMode == VelMultiplier ==>
      forall i :: 0 <= i < |r| ==>
        var ev := (output + InWindow(input, start, n))[i];
        && r[i].kind == ev.kind && r[i].time == ev.time && r[i].note == ev.note && r[i].channel == ev.channel
        && (ev.kind == NoteOn ==> r[i].velocity == ScaledVelocity(ev.velocity, f.amp) && r[i].velocity <= 127)
        && (ev.kind != NoteOn ==> r[i] == ev)
  {
    if EffectivelyMuted(f, ts, k, e.bounceOn) then output
    else
      var appended := output + InWindow(input, start, n);
      if !f.passthrough && f.midiMode == VelMultiplier
      then seq(|appended|, i requires 0 <= i < |appended| => ScaleEvent(appended[i], f.amp))
      else appended
  }

  /** A note-on's new velocity is the product truncated toward zero when it
      fits in [0, 127], and the nearest bound otherwise. */
  lemma ScaledVelocityIsClampedProduct(velocity: nat, amp: real)
    ensures amp >= 0.0 ==> ScaledVelocity(velocity, amp) == ClampInt((velocity as real * amp).Floor, 0, 127)
    ensures amp >= 0.0 && velocity as real * amp < 128.0 ==> ScaledVelocity(velocity, amp) == (velocity as real * amp).Floor
    ensures amp == 1.0 && velocity <= 127 ==> ScaledVelocity(velocity, amp) == velocity
  {
  }

  /** At unity amplitude with valid velocities, the velocity multiplier
      passes the events through unchanged. */
  lemma MidiUnityGainKeepsEvents(
    f: Fader, ts: Tracks, k: Ranking, e: Engine,
    input: seq<MidiEvent>, output: seq<MidiEvent>, start: nat, n: nat)
    requires f.kind == MidiChannel
    requires Ranks(ts, k)
    requires !EffectivelyMuted(f, ts, k, e.bounceOn)
    requires f.amp == 1.0
    requires forall ev :: ev in output + input ==> ev.velocity <= 127
    ensures ProcessMidi(f, ts, k, e, input, output, start, n) == output + InWindow(input, start, n)
  {
    var appended := output + InWindow(input, start, n);
    var r := ProcessMidi(f, ts, k, e, input, output, start, n);
    if !f.passthrough && f.midiMode == VelMultiplier {
      forall i | 0 <= i < |r|
        ensures r[i] == appended[i]
      {
        assert appended[i] in output + input;
        ScaledVelocityIsClampedProduct(appended[i].velocity, 1.0);
      }
    }
  }
}
