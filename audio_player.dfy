/**
 * The buffer-based player (`AudioPlayer`): every press of play fetches and
 * decodes the current track into a fresh buffer source node, routes it
 * through a gain node and an analyser to the output, and starts it.
 *
 * Each handler is one atomic step on the component's state. The calls the
 * handlers make on source nodes, and each source's natural end, are
 * recorded, in order, in `events`; `Live(events)` is the set of sources that
 * are started and have neither been stopped nor ended, so "at most one live
 * source" is a statement about that log.
 */
module AudioPlayer {
  import opened Optional
  import opened Media
  import Sequencer

  /** A call made on a buffer source node, or the node reaching the end of its buffer. */
  datatype GraphEvent =
    | Connect(source: SourceId)     // source.connect(gainNode)
    | Start(source: SourceId)       // source.start(0)
    | Stop(source: SourceId)        // sourceNode.stop()
    | Disconnect(source: SourceId)  // sourceNode.disconnect()
    | Ended(source: SourceId)       // the source played its buffer to the end

  /** How one event changes the set of live (started, neither stopped nor ended) sources. */
  function Step(live: set<SourceId>, e: GraphEvent): set<SourceId>
  {
    match e
    case Start(s) => live + {s}
    case Stop(s) => live - {s}
    case Ended(s) => live - {s}
    case _ => live
  }

  /** The live sources after replaying the first `n` events of `log` from a silent graph. */
  function LiveUpTo(log: seq<GraphEvent>, n: nat): set<SourceId>
    requires n <= |log|
  {
    if n == 0 then {} else Step(LiveUpTo(log, n - 1), log[n - 1])
  }

  /** The live sources after replaying all of `log`. */
  function Live(log: seq<GraphEvent>): set<SourceId>
  {
    LiveUpTo(log, |log|)
  }

  /** Events after the first `n` do not change what those `n` leave live. */
  lemma {:induction false} LiveUpToPrefix(log: seq<GraphEvent>, more: seq<GraphEvent>, n: nat)
    requires n <= |log|
    ensures LiveUpTo(log + more, n) == LiveUpTo(log, n)
  {
    if n > 0 {
      LiveUpToPrefix(log, more, n - 1);
      assert (log + more)[n - 1] == log[n - 1];
    }
  }

  lemma LiveSnoc(log: seq<GraphEvent>, e: GraphEvent)
    ensures Live(log + [e]) == Step(Live(log), e)
  {
    LiveUpToPrefix(log, [e], |log|);
  }

  /** The calls `cleanup` makes when a source is held: stop it, then disconnect it. */
  function Teardown(held: Option<SourceId>): (r: seq<GraphEvent>)
    ensures held.None? ==> r == []
    ensures held.Some? ==> r == [Stop(held.value), Disconnect(held.value)]
  {
    if held.Some? then [Stop(held.value), Disconnect(held.value)] else []
  }

  /** A teardown silences exactly the held source and leaves every other source as it was. */
  lemma LiveAfterTeardown(log: seq<GraphEvent>, held: Option<SourceId>)
    ensures Live(log + Teardown(held)) == Live(log) - (if held.Some? then {held.value} else {})
  {
    if held.Some? {
      var s := held.value;
      LiveSnoc(log, Stop(s));
      LiveSnoc(log + [Stop(s)], Disconnect(s));
      assert log + Teardown(held) == log + [Stop(s)] + [Disconnect(s)];
    } else {
      assert log + Teardown(held) == log;
    }
  }

  /** Tearing down the held source and connecting a new one leaves no source live that was not live before. */
  lemma LiveAfterReplace(log: seq<GraphEvent>, held: Option<SourceId>, added: SourceId)
    ensures Live(log + Teardown(held) + [Connect(added)]) == Live(log) - (if held.Some? then {held.value} else {})
  {
    LiveAfterTeardown(log, held);
    LiveSnoc(log + Teardown(held), Connect(added));
  }

  lemma AppendPair(log: seq<GraphEvent>, a: GraphEvent, b: GraphEvent)
    ensures log + [a] + [b] == log + [a, b]
  {
  }

  /** The gain the component intends: silent while muted, otherwise the stored volume. */
  function EffectiveGain(volume: real, muted: bool): (g: real)
    ensures muted ==> g == 0.0
    ensures !muted ==> g == volume
  {
    if muted then 0.0 else volume
  }

  /**
   * How far `togglePlay`'s `try` block gets once it decides to load: a
   * throw from resuming the context, fetching or decoding (lines 66-70), a
   * throw from `source.start(0)` (line 90), or a source that starts.
   */
  datatype PlayOutcome = LoadFailed | StartFailed | Started

  class BufferPlayer {
    var tracks: seq<Track>
    var currentTrackIndex: nat
    var isPlaying: bool
    var isLoading: bool
    /** The source node held in component state (`sourceNode`). */
    var sourceNode: Option<SourceId>
    var volume: real
    var isMuted: bool
    /** `audioContext.current`, `gainNode.current` and the analyser exist; they are created together. */
    var graphReady: bool
    /** `gainNode.current.gain.value`. */
    var gain: real
    /** The identity the next `createBufferSource()` returns. */
    var nextSource: SourceId
    /** Every call made on a source node, and every natural end, so far, oldest first. */
    var events: seq<GraphEvent>
    /**
     * The `sourceNode` of the render whose `togglePlay` set the latest
     * `onended` handler. That handler calls that render's `cleanup`, so a
     * natural end tears down this value, not the source that ended.
     */
    var endedSees: Option<SourceId>

    ghost predicate IndexInRange()
      reads this
    {
      (|tracks| > 0 ==> currentTrackIndex < |tracks|) && (|tracks| == 0 ==> currentTrackIndex == 0)
    }

    /**
     * A source may stay held after it ended or failed to start, but a
     * playing player holds the one live source, and a paused one has none.
     */
    ghost predicate Valid()
      reads this
    {
      && IndexInRange()
      && 0.0 <= volume <= 1.0
      && (isPlaying ==> sourceNode.Some?)
      && (sourceNode.Some? ==> sourceNode.value < nextSource)
      && Live(events) == (if isPlaying then {sourceNode.value} else {})
    }

    /** The gain node follows the mute rule: 0 while muted, the stored volume otherwise. */
    ghost predicate GainConsistent()
      reads this
    {
      graphReady ==> gain == EffectiveGain(volume, isMuted)
    }

    /** Number of sources currently producing sound. */
    ghost function LiveSources(): nat
      reads this
    {
      |Live(events)|
    }

    /** `tracks[currentTrackIndex]` exists and the audio graph has been built. */
    predicate CanPlay()
      reads this
    {
      graphReady && currentTrackIndex < |tracks|
    }

    /** The state at first render: no tracks, index 0, full volume, nothing built. */
    constructor ()
      ensures Valid() && GainConsistent()
      ensures tracks == [] && currentTrackIndex == 0 && isLoading
      ensures !isPlaying && sourceNode == None && volume == 1.0 && !isMuted
      ensures !graphReady && events == [] && nextSource == 0 && endedSees == None
    {
      tracks := [];
      currentTrackIndex := 0;
      isPlaying := false;
      isLoading := true;
      sourceNode := None;
      volume := 1.0;
      isMuted := false;
      graphReady := false;
      gain := 1.0;
      nextSource := 0;
      events := [];
      endedSees := None;
    }

    /**
     * The mount effect's graph construction: context, analyser and gain
     * node, only when no context exists yet. A new gain node has gain 1.
     */
    method BuildGraph()
      requires Valid()
      modifies this
      ensures Valid()
      ensures old(graphReady) ==> unchanged(this)
      ensures !old(graphReady) ==> graphReady && gain == 1.0
      ensures tracks == old(tracks) && currentTrackIndex == old(currentTrackIndex)
      ensures isPlaying == old(isPlaying) && isLoading == old(isLoading) && sourceNode == old(sourceNode)
      ensures volume == old(volume) && isMuted == old(isMuted)
      ensures nextSource == old(nextSource) && events == old(events) && endedSees == old(endedSees)
    {
      if !graphReady {
        graphReady := true;
        gain := 1.0;
      }
    }

    /**
     * The mount effect's track fetch. `fetched` is the parsed track list, or
     * None when the request or parsing failed; `u` is the value
     * `Math.random()` returned. Loading ends either way.
     */
    method ReceiveTracks(fetched: Option<seq<Track>>, u: real)
      requires Valid()
      requires 0.0 <= u < 1.0
      modifies this
      ensures Valid()
      ensures !isLoading
      ensures fetched.Some? ==> tracks == fetched.value && currentTrackIndex == Sequencer.InitialIndex(|tracks|, u)
      ensures fetched.None? ==> tracks == old(tracks) && currentTrackIndex == old(currentTrackIndex)
      ensures isPlaying == old(isPlaying) && sourceNode == old(sourceNode)
      ensures volume == old(volume) && isMuted == old(isMuted) && graphReady == old(graphReady) && gain == old(gain)
      ensures nextSource == old(nextSource) && events == old(events) && endedSees == old(endedSees)
    {
      if fetched.Some? {
        tracks := fetched.value;
        currentTrackIndex := Sequencer.InitialIndex(|tracks|, u);
      }
      isLoading := false;
    }

    /**
     * `cleanup` as defined in a render whose `sourceNode` was `seen`: stop,
     * disconnect and drop that source if there is one, and mark the player
     * paused. With nothing seen, the held source stays held. A handler gets
     * the `cleanup` of the render it was made in, so `seen` is the current
     * `sourceNode` except where a handler outlives its render.
     */
    method Cleanup(seen: Option<SourceId>)
      requires Valid()
      requires isPlaying ==> seen == sourceNode
      modifies this
      ensures Valid()
      ensures !isPlaying && LiveSources() == 0
      ensures sourceNode == (if seen.Some? then None else old(sourceNode))
      ensures events == old(events) + Teardown(seen)
      ensures tracks == old(tracks) && currentTrackIndex == old(currentTrackIndex) && isLoading == old(isLoading)
      ensures volume == old(volume) && isMuted == old(isMuted) && graphReady == old(graphReady) && gain == old(gain)
      ensures nextSource == old(nextSource) && endedSees == old(endedSees)
    {
      LiveAfterTeardown(events, seen);
      events := events + Teardown(seen);
      if seen.Some? {
        sourceNode := None;
      }
      isPlaying := false;
    }

    /** `handleNextTrack`: clean up, then move to the following track, wrapping to the first. */
    method NextTrack()
      requires Valid()
      requires currentTrackIndex < |tracks|
      modifies this
      ensures Valid()
      ensures tracks == old(tracks) && isLoading == old(isLoading)
      ensures currentTrackIndex == Sequencer.Next(old(currentTrackIndex), |tracks|)
      ensures !isPlaying && sourceNode == None && LiveSources() == 0
      ensures events == old(events) + Teardown(old(sourceNode))
      ensures volume == old(volume) && isMuted == old(isMuted) && graphReady == old(graphReady) && gain == old(gain)
      ensures nextSource == old(nextSource) && endedSees == old(endedSees)
    {
      Cleanup(sourceNode);
      currentTrackIndex := Sequencer.Next(currentTrackIndex, |tracks|);
    }

    /** `handlePreviousTrack`: clean up, then move to the preceding track, wrapping to the last. */
    method PreviousTrack()
      requires Valid()
      requires currentTrackIndex < |tracks|
      modifies this
      ensures Valid()
      ensures tracks == old(tracks) && isLoading == old(isLoading)
      ensures currentTrackIndex == Sequencer.PreviousWrap(old(currentTrackIndex), |tracks|)
      ensures !isPlaying && sourceNode == None && LiveSources() == 0
      ensures events == old(events) + Teardown(old(sourceNode))
      ensures volume == old(volume) && isMuted == old(isMuted) && graphReady == old(graphReady) && gain == old(gain)
      ensures nextSource == old(nextSource) && endedSees == old(endedSees)
    {
      Cleanup(sourceNode);
      currentTrackIndex := Sequencer.PreviousWrap(currentTrackIndex, |tracks|);
    }

    /**
     * `togglePlay`'s `try` block once the track decoded, up to the start
     * (lines 71-89): create a source, tear down the held one, connect the new
     * one, set the gain from the mute rule, let `onended` capture this
     * render's `cleanup`, and hold the new source, not yet started.
     */
    method ConnectSource()
      requires Valid() && !isPlaying
      modifies this
      ensures Valid() && !isPlaying
      ensures sourceNode == Some(old(nextSource)) && nextSource == old(nextSource) + 1
      ensures events == old(events) + Teardown(old(sourceNode)) + [Connect(old(nextSource))]
      ensures endedSees == old(sourceNode) && gain == EffectiveGain(volume, isMuted)
      ensures tracks == old(tracks) && currentTrackIndex == old(currentTrackIndex) && isLoading == old(isLoading)
      ensures volume == old(volume) && isMuted == old(isMuted) && graphReady == old(graphReady)
    {
      var seen := sourceNode;
      var source := nextSource;
      nextSource := nextSource + 1;
      // line 74: `cleanup` tears the held source down; the player is already paused,
      // and the source it drops is replaced at once
      LiveAfterReplace(events, seen, source);
      events := events + Teardown(seen) + [Connect(source)];
      gain := EffectiveGain(volume, isMuted);
      endedSees := seen;
      sourceNode := Some(source);
    }

    /** `source.start(0)` returning, then `setIsPlaying(true)` (lines 90-91): the held source becomes live. */
    method StartHeld()
      requires Valid() && !isPlaying && sourceNode.Some?
      modifies this
      ensures Valid() && isPlaying && sourceNode == old(sourceNode)
      ensures events == old(events) + [Start(old(sourceNode).value)]
      ensures tracks == old(tracks) && currentTrackIndex == old(currentTrackIndex) && isLoading == old(isLoading)
      ensures volume == old(volume) && isMuted == old(isMuted) && graphReady == old(graphReady) && gain == old(gain)
      ensures nextSource == old(nextSource) && endedSees == old(endedSees)
    {
      var s := sourceNode.value;
      LiveSnoc(events, Start(s));
      assert Live(events + [Start(s)]) == {s};
      events := events + [Start(s)];
      isPlaying := true;
    }

    /**
     * `togglePlay`. Without a graph or a current track it does nothing;
     * while playing it only cleans up, and so does a load that throws.
     * Otherwise it connects and holds a new source (`ConnectSource`) and
     * starts it. If `start` throws, the catch block's `cleanup` tears down
     * the old source a second time and, when there was none, leaves the new,
     * never started source connected and held.
     */
    method TogglePlay(outcome: PlayOutcome)
      requires Valid()
      modifies this
      ensures Valid()
      ensures tracks == old(tracks) && currentTrackIndex == old(currentTrackIndex) && isLoading == old(isLoading)
      ensures volume == old(volume) && isMuted == old(isMuted) && graphReady == old(graphReady)
      ensures !old(CanPlay()) ==> unchanged(this)
      ensures old(CanPlay()) && (old(isPlaying) || outcome == LoadFailed) ==>
        && !isPlaying && sourceNode == None
        && events == old(events) + Teardown(old(sourceNode))
        && gain == old(gain) && nextSource == old(nextSource) && endedSees == old(endedSees)
      ensures old(CanPlay()) && !old(isPlaying) && outcome == Started ==>
        && isPlaying && sourceNode == Some(old(nextSource)) && nextSource == old(nextSource) + 1
        && events == old(events) + Teardown(old(sourceNode)) + [Connect(old(nextSource)), Start(old(nextSource))]
        && gain == EffectiveGain(volume, isMuted) && endedSees == old(sourceNode)
      ensures old(CanPlay()) && !old(isPlaying) && outcome == StartFailed ==>
        && !isPlaying && nextSource == old(nextSource) + 1
        && sourceNode == (if old(sourceNode).Some? then None else Some(old(nextSource)))
        && events == old(events) + Teardown(old(sourceNode)) + [Connect(old(nextSource))] + Teardown(old(sourceNode))
        && gain == EffectiveGain(volume, isMuted) && endedSees == old(sourceNode)
      ensures LiveSources() <= 1
    {
      if !graphReady || currentTrackIndex >= |tracks| {
        return;
      }
      if isPlaying || outcome == LoadFailed {
        Cleanup(sourceNode);
        return;
      }
      var seen := sourceNode;
      ConnectSource();
      if outcome == StartFailed {
        // the catch block's `cleanup` still sees the old source
        Cleanup(seen);
      } else {
        StartHeld();
        AppendPair(old(events) + Teardown(seen), Connect(old(nextSource)), Start(old(nextSource)));
      }
    }

    /**
     * The playing source reaches the end of its buffer and its `onended`
     * handler runs the `cleanup` it captured: that tears down `endedSees`,
     * so the source that ended is neither stopped nor disconnected. It stays
     * held when nothing was seen, and is dropped while still connected when
     * an older source was seen.
     */
    method TrackEnded()
      requires Valid()
      requires isPlaying
      modifies this
      ensures Valid()
      ensures !isPlaying && LiveSources() == 0
      ensures events == old(events) + [Ended(old(sourceNode).value)] + Teardown(old(endedSees))
      ensures sourceNode == (if old(endedSees).Some? then None else old(sourceNode))
      ensures tracks == old(tracks) && currentTrackIndex == old(currentTrackIndex) && isLoading == old(isLoading)
      ensures volume == old(volume) && isMuted == old(isMuted) && graphReady == old(graphReady) && gain == old(gain)
      ensures nextSource == old(nextSource) && endedSees == old(endedSees)
    {
      var ended := sourceNode.value;
      LiveSnoc(events, Ended(ended));
      events := events + [Ended(ended)];
      LiveAfterTeardown(events, endedSees);
      events := events + Teardown(endedSees);
      if endedSees.Some? {
        sourceNode := None;
      }
      isPlaying := false;
    }

    /**
     * The effect that runs when the index changes: it calls `togglePlay`
     * only when the player is marked playing, and then `togglePlay` takes
     * its pausing branch, so `outcome` never matters.
     */
    method IndexChanged(outcome: PlayOutcome)
      requires Valid()
      modifies this
      ensures Valid()
      ensures !(old(isPlaying) && old(CanPlay())) ==> unchanged(this)
      ensures old(isPlaying) && old(CanPlay()) ==>
        !isPlaying && sourceNode == None && LiveSources() == 0 && events == old(events) + Teardown(old(sourceNode))
      ensures tracks == old(tracks) && currentTrackIndex == old(currentTrackIndex) && isLoading == old(isLoading)
      ensures volume == old(volume) && isMuted == old(isMuted) && graphReady == old(graphReady) && gain == old(gain)
      ensures nextSource == old(nextSource) && endedSees == old(endedSees)
    {
      if isPlaying {
        TogglePlay(outcome);
      }
    }

    /**
     * `handleVolumeChange` as written: store the new volume and write it to
     * the gain node, whether or not the player is muted.
     */
    method VolumeChange(newVolume: real)
      requires Valid()
      requires 0.0 <= newVolume <= 1.0
      modifies this
      ensures Valid()
      ensures volume == newVolume
      ensures graphReady ==> gain == newVolume
      ensures !graphReady ==> gain == old(gain)
      ensures isMuted == old(isMuted) && graphReady == old(graphReady)
      ensures tracks == old(tracks) && currentTrackIndex == old(currentTrackIndex) && isLoading == old(isLoading)
      ensures isPlaying == old(isPlaying) && sourceNode == old(sourceNode)
      ensures nextSource == old(nextSource) && events == old(events) && endedSees == old(endedSees)
    {
      volume := newVolume;
      if graphReady {
        gain := newVolume;
      }
    }

    /**
     * The volume change the mute rule calls for: store the new volume and
     * write the effective gain, so a muted player stays silent.
     */
    method VolumeChangeKeepingMute(newVolume: real)
      requires Valid()
      requires 0.0 <= newVolume <= 1.0
      modifies this
      ensures Valid() && GainConsistent()
      ensures volume == newVolume
      ensures graphReady ==> gain == EffectiveGain(newVolume, isMuted)
      ensures !graphReady ==> gain == old(gain)
      ensures isMuted == old(isMuted) && graphReady == old(graphReady)
      ensures tracks == old(tracks) && currentTrackIndex == old(currentTrackIndex) && isLoading == old(isLoading)
      ensures isPlaying == old(isPlaying) && sourceNode == old(sourceNode)
      ensures nextSource == old(nextSource) && events == old(events) && endedSees == old(endedSees)
    {
      volume := newVolume;
      if graphReady {
        gain := EffectiveGain(newVolume, isMuted);
      }
    }

    /**
     * `toggleMute`: flip the mute flag; the gain becomes 0 when muting and
     * the stored volume when unmuting. The stored volume is untouched.
     */
    method ToggleMute()
      requires Valid()
      modifies this
      ensures Valid() && GainConsistent()
      ensures isMuted == !old(isMuted) && volume == old(volume)
      ensures graphReady ==> gain == (if isMuted then 0.0 else volume)
      ensures !graphReady ==> gain == old(gain)
      ensures graphReady == old(graphReady)
      ensures tracks == old(tracks) && currentTrackIndex == old(currentTrackIndex) && isLoading == old(isLoading)
      ensures isPlaying == old(isPlaying) && sourceNode == old(sourceNode)
      ensures nextSource == old(nextSource) && events == old(events) && endedSees == old(endedSees)
    {
      var wasMuted := isMuted;
      isMuted := !wasMuted;
      if graphReady {
        gain := if !wasMuted then 0.0 else volume;
      }
    }
  }

  /** Every state the handlers keep has at most one source producing sound. */
  lemma AtMostOneLiveSource(p: BufferPlayer)
    requires p.Valid()
    ensures p.LiveSources() <= 1
    ensures p.isPlaying <==> p.LiveSources() == 1
  {
  }

  /** Three tracks, starting at index 0: three presses of next give 1, 2, 0, and the player stays stopped. */
  method ThreeNextsScenario() returns (seen: seq<nat>, playing: bool)
    ensures seen == [1, 2, 0]
    ensures !playing
  {
    var p := new BufferPlayer();
    p.BuildGraph();
    p.ReceiveTracks(Some(ThreeTracks()), 0.0);
    p.TogglePlay(Started);
    p.NextTrack();
    var a := p.currentTrackIndex;
    p.NextTrack();
    var b := p.currentTrackIndex;
    p.NextTrack();
    seen, playing := [a, b, p.currentTrackIndex], p.isPlaying;
  }

  /** A track that fails to load leaves the player paused, with no live source, on the same track. */
  method FailedLoadScenario(u: real) returns (index: nat, playing: bool, live: nat, before: nat)
    requires 0.0 <= u < 1.0
    ensures index == before && !playing && live == 0
  {
    var p := new BufferPlayer();
    p.BuildGraph();
    p.ReceiveTracks(Some(ThreeTracks()), u);
    before := p.currentTrackIndex;
    p.TogglePlay(LoadFailed);
    index, playing := p.currentTrackIndex, p.isPlaying;
    live := |Live(p.events)|;
  }

  /**
   * A `start` that throws on the first press: the new source was connected,
   * never started, and is still held by the paused player.
   */
  method FailedStartScenario() returns (held: Option<SourceId>, playing: bool, log: seq<GraphEvent>)
    ensures held == Some(0) && !playing
    ensures log == [Connect(0)]
  {
    var p := new BufferPlayer();
    p.BuildGraph();
    p.ReceiveTracks(Some(ThreeTracks()), 0.0);
    p.TogglePlay(StartFailed);
    held, playing, log := p.sourceNode, p.isPlaying, p.events;
  }

  /** Pressing play twice with successful loads: the second press pauses, never leaving two sources. */
  method PlayTwiceScenario() returns (playing: bool, live: nat)
    ensures !playing && live == 0
  {
    var p := new BufferPlayer();
    p.BuildGraph();
    p.ReceiveTracks(Some(ThreeTracks()), 0.0);
    p.TogglePlay(Started);
    p.TogglePlay(Started);
    playing, live := p.isPlaying, |Live(p.events)|;
  }

  /**
   * Play, let the track end, play again, let it end again. The first end
   * runs a `cleanup` that saw no source, so source 0 stays held until the
   * second press tears it down before connecting source 1. The second end
   * runs a `cleanup` that saw source 0: it tears 0 down once more and drops
   * source 1 without ever disconnecting it.
   */
  method NaturalEndsScenario() returns (afterFirst: Option<SourceId>, afterSecond: Option<SourceId>, log: seq<GraphEvent>)
    ensures afterFirst == Some(0) && afterSecond == None
    ensures log == [Connect(0), Start(0), Ended(0), Stop(0), Disconnect(0),
                    Connect(1), Start(1), Ended(1), Stop(0), Disconnect(0)]
    ensures Disconnect(1) !in log
  {
    var p := new BufferPlayer();
    p.BuildGraph();
    p.ReceiveTracks(Some(ThreeTracks()), 0.0);
    p.TogglePlay(Started);
    assert p.events == [Connect(0), Start(0)] && p.endedSees == None;
    p.TrackEnded();
    assert p.events == [Connect(0), Start(0), Ended(0)];
    afterFirst := p.sourceNode;
    p.TogglePlay(Started);
    assert p.events == [Connect(0), Start(0), Ended(0), Stop(0), Disconnect(0), Connect(1), Start(1)];
    assert p.endedSees == Some(0);
    p.TrackEnded();
    afterSecond, log := p.sourceNode, p.events;
  }

  /** Set volume `v`, mute, unmute: the gain goes to 0 and back to exactly `v`. */
  method MuteRoundTripScenario(v: real) returns (mutedGain: real, restoredGain: real, stored: real)
    requires 0.0 <= v <= 1.0
    ensures mutedGain == 0.0 && restoredGain == v && stored == v
  {
    var p := new BufferPlayer();
    p.BuildGraph();
    p.VolumeChange(v);
    p.ToggleMute();
    mutedGain := p.gain;
    p.ToggleMute();
    restoredGain, stored := p.gain, p.volume;
  }

  /**
   * Moving the volume slider while muted, as written: the player still
   * shows muted, yet the gain node carries the new, audible volume.
   */
  method MutedVolumeChangeScenario() returns (muted: bool, gain: real)
    ensures muted && gain == 0.5
    ensures gain != EffectiveGain(0.5, muted)
  {
    var p := new BufferPlayer();
    p.BuildGraph();
    p.ToggleMute();
    p.VolumeChange(0.5);
    muted, gain := p.isMuted, p.gain;
  }

  /** The same steps with the mute-respecting volume change: the gain stays 0 while muted. */
  method MutedVolumeChangeKeepingMuteScenario() returns (muted: bool, gain: real, stored: real)
    ensures muted && gain == 0.0 && stored == 0.5
  {
    var p := new BufferPlayer();
    p.BuildGraph();
    p.ToggleMute();
    p.VolumeChangeKeepingMute(0.5);
    muted, gain, stored := p.isMuted, p.gain, p.volume;
  }
}
