/** The read-only view of the track list that the fader consults: solo,
    listen and bounce state per track, the "routes to" relation and the
    group-target children relation, plus the implied-solo walk over them
    (src/audio/fader.c, fader_get_implied_soloed).

    Tracks are addressed by position, as the fader addresses its owner; a
    position outside the list stands for a missing (NULL) track. */
module Tracklist {
  import opened Wrappers

  datatype Track = Track(
    hasChannel: bool,        // track_type_has_channel
    isMaster: bool,          // type is TRACK_TYPE_MASTER
    canBeGroupTarget: bool,  // TRACK_CAN_BE_GROUP_TARGET
    audioOut: bool,          // out_signal_type is TYPE_AUDIO
    soloed: bool,            // solo toggle of the track's channel fader
    listened: bool,          // listen toggle of the track's channel fader
    bounce: bool,            // included when bouncing
    frozen: bool,
    output: Option<nat>,     // position of channel_get_output_track
    children: seq<nat>)      // positions of the tracks grouped under it

  type Tracks = seq<Track>

  /** TRACKLIST->tracks[pos], NULL when out of range. */
  function Lookup(ts: Tracks, pos: int): (r: Option<Track>)
    ensures r.Some? <==> 0 <= pos < |ts|
    ensures r.Some? ==> r.value == ts[pos]
  {
    if 0 <= pos < |ts| then Some(ts[pos]) else None
  }

  /** tracklist_has_soloed */
  predicate HasSoloed(ts: Tracks)
  {
    exists i :: 0 <= i < |ts| && ts[i].soloed
  }

  /** tracklist_has_listened */
  predicate HasListened(ts: Tracks)
  {
    exists i :: 0 <= i < |ts| && ts[i].listened
  }

  /** The track's output, when it has a channel and the output is in the list. */
  predicate RoutesTo(ts: Tracks, a: nat, b: nat)
    requires a < |ts|
  {
    ts[a].hasChannel && ts[a].output == Some(b) && b < |ts|
  }

  /** A certificate that neither relation the walk follows has a cycle: every
      routes-to hop lowers `route`, every step from a group target to a child
      lowers `group`. The source does not guard against cycles (its loop would
      not terminate), so the model asks the caller for this witness. */
  datatype Ranking = Ranking(route: seq<nat>, group: seq<nat>)

  predicate Ranks(ts: Tracks, k: Ranking)
  {
    && |k.route| == |ts|
    && |k.group| == |ts|
    && (forall a :: 0 <= a < |ts| && ts[a].hasChannel && ts[a].output.Some? && ts[a].output.value < |ts|
          ==> k.route[ts[a].output.value] < k.route[a])
    && (forall p, j :: 0 <= p < |ts| && ts[p].canBeGroupTarget && 0 <= j < |ts[p].children| && ts[p].children[j] < |ts|
          ==> k.group[ts[p].children[j]] < k.group[p])
  }

  /** The "check parents" loop: follows the routes-to chain from `p` and
      reports whether a track on it (not `p` itself) is soloed. The walk stops
      at a track without a channel or without an output. */
  function RouteSoloed(ts: Tracks, k: Ranking, p: nat): bool
    requires Ranks(ts, k)
    requires p < |ts|
    decreases k.route[p]
  {
    if !ts[p].hasChannel then false
    else match ts[p].output
      case None => false
      case Some(q) => q < |ts| && (ts[q].soloed || RouteSoloed(ts, k, q))
  }

  /** The part of fader_get_implied_soloed after its early exits, for the
      track at `p`: a soloed track downstream, or (for a group target) a
      child that is soloed or itself implied-soloed. */
  function WalkImplies(ts: Tracks, k: Ranking, p: nat): bool
    requires Ranks(ts, k)
    requires p < |ts|
    decreases k.group[p], 1
  {
    RouteSoloed(ts, k, p)
    || (ts[p].canBeGroupTarget
        && exists j :: 0 <= j < |ts[p].children| && ChildImplies(ts, k, p, j))
  }

  /** One iteration of the children loop: the child is present and soloed or
      implied-soloed. */
  predicate ChildImplies(ts: Tracks, k: Ranking, p: nat, j: nat)
    requires Ranks(ts, k)
    requires p < |ts| && ts[p].canBeGroupTarget && j < |ts[p].children|
    decreases k.group[p], 0
  {
    var c := ts[p].children[j];
    c < |ts| && (ts[c].soloed || TrackImpliedSoloed(ts, k, c))
  }

  /** track_get_implied_soloed: the implied solo of the track's channel
      fader, which is a non-passthrough channel fader whose own solo is the
      track's. A track without a channel has none. */
  predicate TrackImpliedSoloed(ts: Tracks, k: Ranking, c: nat)
    requires Ranks(ts, k)
    requires c < |ts|
    decreases k.group[c], 2
  {
    ts[c].hasChannel && !ts[c].soloed && WalkImplies(ts, k, c)
  }

  // ---------------------------------------------------------------------
  // A reference description of the walk by witness paths.

  function Last(path: seq<nat>): nat
    requires |path| > 0
  {
    path[|path| - 1]
  }

  /** `path` follows routes-to hops: each track but the last has a channel
      and outputs to the next one. */
  ghost predicate RoutePath(ts: Tracks, path: seq<nat>)
  {
    && |path| > 0
    && (forall i :: 0 <= i < |path| ==> path[i] < |ts|)
    && (forall i :: 0 <= i < |path| - 1 ==> RoutesTo(ts, path[i], path[i + 1]))
  }

  /** Some soloed track is reachable from `p` by one or more routes-to hops. */
  ghost predicate SoloedDownstream(ts: Tracks, p: nat)
  {
    exists path :: RoutePath(ts, path) && |path| >= 2 && path[0] == p && ts[Last(path)].soloed
  }

  lemma {:induction false} RouteSoloedSound(ts: Tracks, k: Ranking, p: nat)
    requires Ranks(ts, k)
    requires p < |ts|
    requires RouteSoloed(ts, k, p)
    ensures SoloedDownstream(ts, p)
    decreases k.route[p]
  {
    var q := ts[p].output.value;
    if ts[q].soloed {
      assert RoutePath(ts, [p, q]);
    } else {
      RouteSoloedSound(ts, k, q);
      var tail :| RoutePath(ts, tail) && |tail| >= 2 && tail[0] == q && ts[Last(tail)].soloed;
      var path := [p] + tail;
      assert forall i :: 0 <= i < |path| - 1 ==> RoutesTo(ts, path[i], path[i + 1]) by {
        forall i | 0 <= i < |path| - 1
          ensures RoutesTo(ts, path[i], path[i + 1])
        {
          if i > 0 {
            assert path[i] == tail[i - 1] && path[i + 1] == tail[i];
          }
        }
      }
      assert Last(path) == Last(tail);
      assert RoutePath(ts, path);
    }
  }

  lemma {:induction false} RouteSoloedComplete(ts: Tracks, k: Ranking, path: seq<nat>)
    requires Ranks(ts, k)
    requires RoutePath(ts, path) && |path| >= 2 && ts[Last(path)].soloed
    ensures RouteSoloed(ts, k, path[0])
    decreases |path|
  {
    assert RoutesTo(ts, path[0], path[1]);
    if |path| > 2 {
      var tail := path[1..];
      assert forall i :: 0 <= i < |tail| - 1 ==> RoutesTo(ts, tail[i], tail[i + 1]) by {
        forall i | 0 <= i < |tail| - 1
          ensures RoutesTo(ts, tail[i], tail[i + 1])
        {
          assert tail[i] == path[i + 1] && tail[i + 1] == path[i + 2];
        }
      }
      assert Last(tail) == Last(path);
      RouteSoloedComplete(ts, k, tail);
    }
  }

  /** The routes-to walk finds a soloed track exactly when one is reachable
      downstream. */
  lemma RouteSoloedIff(ts: Tracks, k: Ranking, p: nat)
    requires Ranks(ts, k)
    requires p < |ts|
    ensures RouteSoloed(ts, k, p) <==> SoloedDownstream(ts, p)
  {
    if RouteSoloed(ts, k, p) {
      RouteSoloedSound(ts, k, p);
    }
    if SoloedDownstream(ts, p) {
      var path :| RoutePath(ts, path) && |path| >= 2 && path[0] == p && ts[Last(path)].soloed;
      RouteSoloedComplete(ts, k, path);
    }
  }

  /** `path` descends from group targets into present children; the tracks
      strictly between the first and the last have channels. */
  ghost predicate GroupPath(ts: Tracks, path: seq<nat>)
  {
    && |path| > 0
    && (forall i :: 0 <= i < |path| ==> path[i] < |ts|)
    && (forall i :: 0 <= i < |path| - 1 ==>
          ts[path[i]].canBeGroupTarget && path[i + 1] in ts[path[i]].children)
    && (forall i :: 0 < i < |path| - 1 ==> ts[path[i]].hasChannel)
  }

  /** A group path from `p` that ends either at a soloed descendant or at a
      descendant with a channel (or `p` itself) that has a soloed track
      downstream. */
  ghost predicate ImpliedWitness(ts: Tracks, p: nat, path: seq<nat>)
  {
    && GroupPath(ts, path)
    && path[0] == p
    && ((|path| >= 2 && ts[Last(path)].soloed)
        || ((|path| == 1 || ts[Last(path)].hasChannel) && SoloedDownstream(ts, Last(path))))
  }

  lemma {:induction false} WalkImpliesSound(ts: Tracks, k: Ranking, p: nat)
    requires Ranks(ts, k)
    requires p < |ts|
    requires WalkImplies(ts, k, p)
    ensures exists path :: ImpliedWitness(ts, p, path)
    decreases k.group[p]
  {
    if RouteSoloed(ts, k, p) {
      RouteSoloedIff(ts, k, p);
      assert ImpliedWitness(ts, p, [p]);
    } else {
      var j :| 0 <= j < |ts[p].children| && ChildImplies(ts, k, p, j);
      var c := ts[p].children[j];
      if ts[c].soloed {
        assert ImpliedWitness(ts, p, [p, c]);
      } else {
        assert TrackImpliedSoloed(ts, k, c);
        WalkImpliesSound(ts, k, c);
        var tail :| ImpliedWitness(ts, c, tail);
        PrependWitness(ts, p, tail);
      }
    }
  }

  /** A group step from `p` to a channel child extends the child's witness. */
  lemma PrependWitness(ts: Tracks, p: nat, tail: seq<nat>)
    requires p < |ts| && |tail| > 0 && tail[0] < |ts|
    requires ts[p].canBeGroupTarget && tail[0] in ts[p].children && ts[tail[0]].hasChannel
    requires ImpliedWitness(ts, tail[0], tail)
    ensures ImpliedWitness(ts, p, [p] + tail)
  {
    var path := [p] + tail;
    assert forall i :: 0 <= i < |path| ==> path[i] < |ts| by {
      forall i | 0 <= i < |path|
        ensures path[i] < |ts|
      {
        if i > 0 { assert path[i] == tail[i - 1]; }
      }
    }
    assert forall i :: 0 <= i < |path| - 1 ==>
        ts[path[i]].canBeGroupTarget && path[i + 1] in ts[path[i]].children by {
      forall i | 0 <= i < |path| - 1
        ensures ts[path[i]].canBeGroupTarget && path[i + 1] in ts[path[i]].children
      {
        if i > 0 { assert path[i] == tail[i - 1] && path[i + 1] == tail[i]; }
      }
    }
    assert forall i :: 0 < i < |path| - 1 ==> ts[path[i]].hasChannel by {
      forall i | 0 < i < |path| - 1
        ensures ts[path[i]].hasChannel
      {
        assert path[i] == tail[i - 1];
      }
    }
    assert Last(path) == Last(tail);
  }

  lemma {:induction false} WalkImpliesComplete(ts: Tracks, k: Ranking, path: seq<nat>)
    requires Ranks(ts, k)
    requires |path| > 0 && path[0] < |ts|
    requires ImpliedWitness(ts, path[0], path)
    ensures WalkImplies(ts, k, path[0])
    decreases |path|
  {
    var p := path[0];
    if |path| == 1 {
      RouteSoloedIff(ts, k, p);
    } else {
      var c := path[1];
      assert ts[p].canBeGroupTarget && c in ts[p].children;
      var j :| 0 <= j < |ts[p].children| && ts[p].children[j] == c;
      if !ts[c].soloed {
        var tail := path[1..];
        assert Last(tail) == Last(path);
        assert forall i :: 0 <= i < |tail| - 1 ==>
            ts[tail[i]].canBeGroupTarget && tail[i + 1] in ts[tail[i]].children by {
          forall i | 0 <= i < |tail| - 1
            ensures ts[tail[i]].canBeGroupTarget && tail[i + 1] in ts[tail[i]].children
          {
            assert tail[i] == path[i + 1] && tail[i + 1] == path[i + 2];
          }
        }
        assert forall i :: 0 < i < |tail| - 1 ==> ts[tail[i]].hasChannel by {
          forall i | 0 < i < |tail| - 1
            ensures ts[tail[i]].hasChannel
          {
            assert tail[i] == path[i + 1];
          }
        }
        assert GroupPath(ts, tail);
        assert ts[c].hasChannel;
        WalkImpliesComplete(ts, k, tail);
        assert TrackImpliedSoloed(ts, k, c);
      }
      assert ChildImplies(ts, k, p, j);
    }
  }

  /** The walk succeeds exactly when a witness path exists: a soloed track
      downstream of `p`, or a group descent from `p` to a soloed track or to
      a channel track with a soloed track downstream. */
  lemma WalkImpliesIff(ts: Tracks, k: Ranking, p: nat)
    requires Ranks(ts, k)
    requires p < |ts|
    ensures WalkImplies(ts, k, p) <==> exists path :: ImpliedWitness(ts, p, path)
  {
    if WalkImplies(ts, k, p) {
      WalkImpliesSound(ts, k, p);
    }
    if exists path :: ImpliedWitness(ts, p, path) {
      var path :| ImpliedWitness(ts, p, path);
      WalkImpliesComplete(ts, k, path);
    }
  }
}
