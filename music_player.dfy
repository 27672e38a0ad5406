/**
 * The element-based player (`MusicPlayer`): the track list comes in as a
 * property and one `<audio>` element plays the current track. Play and
 * mute act on that element only once it has been rendered; an empty track
 * list renders nothing, so no control and no element exist then.
 */
module MusicPlayer {
  import opened Media
  import Sequencer

  class ElementPlayer {
    const tracks: seq<Track>
    var currentTrackIndex: nat
    var isPlaying: bool
    var isMuted: bool
    /** `audioRef.current`: the rendered `<audio>` element, if any. */
    var audio: AudioElement?

    ghost predicate Valid()
      reads this, audio
    {
      && (|tracks| > 0 ==> currentTrackIndex < |tracks|)
      && (|tracks| == 0 ==> currentTrackIndex == 0 && audio == null)
      && (audio != null ==> audio.muted == isMuted)
    }

    /** Line 78: an empty track list renders no player at all. */
    predicate Renders()
      reads this
    {
      |tracks| > 0
    }

    /**
     * The first render: index 0, paused, unmuted. `element` is the `<audio>`
     * element React attaches to the ref, which exists only when the player
     * renders.
     */
    constructor (tracks: seq<Track>, element: AudioElement?)
      requires element != null ==> |tracks| > 0 && !element.muted
      ensures Valid()
      ensures this.tracks == tracks && audio == element
      ensures currentTrackIndex == 0 && !isPlaying && !isMuted
    {
      this.tracks := tracks;
      currentTrackIndex := 0;
      isPlaying := false;
      isMuted := false;
      audio := element;
    }

    /** `togglePlay`: with an element, pause or play it and flip `isPlaying`; without one, nothing. */
    method TogglePlay()
      requires Valid()
      modifies this, audio
      ensures Valid()
      ensures audio == old(audio) && currentTrackIndex == old(currentTrackIndex) && isMuted == old(isMuted)
      ensures audio == null ==> isPlaying == old(isPlaying)
      ensures audio != null ==> isPlaying == !old(isPlaying) && audio.playing == isPlaying
      ensures audio != null ==> audio.muted == old(audio.muted) && audio.connected == old(audio.connected)
    {
      if audio != null {
        if isPlaying {
          audio.playing := false;
        } else {
          audio.playing := true;
        }
        isPlaying := !isPlaying;
      }
    }

    /** `playNextTrack`: move to the following track, wrapping to the first, and mark playing. */
    method PlayNextTrack()
      requires Valid()
      requires Renders()
      modifies this
      ensures Valid()
      ensures currentTrackIndex == Sequencer.Next(old(currentTrackIndex), |tracks|)
      ensures isPlaying
      ensures audio == old(audio) && isMuted == old(isMuted)
    {
      currentTrackIndex := Sequencer.Next(currentTrackIndex, |tracks|);
      isPlaying := true;
    }

    /** `playPreviousTrack`: move to the preceding track, from the first to the last, and mark playing. */
    method PlayPreviousTrack()
      requires Valid()
      requires Renders()
      modifies this
      ensures Valid()
      ensures currentTrackIndex == Sequencer.PreviousBranch(old(currentTrackIndex), |tracks|)
      ensures currentTrackIndex == Sequencer.PreviousWrap(old(currentTrackIndex), |tracks|)
      ensures isPlaying
      ensures audio == old(audio) && isMuted == old(isMuted)
    {
      Sequencer.PreviousFormulasAgree(currentTrackIndex, |tracks|);
      currentTrackIndex := Sequencer.PreviousBranch(currentTrackIndex, |tracks|);
      isPlaying := true;
    }

    /** `toggleMute`: with an element, flip its `muted` and `isMuted` together; without one, nothing. */
    method ToggleMute()
      requires Valid()
      modifies this, audio
      ensures Valid()
      ensures audio == old(audio) && currentTrackIndex == old(currentTrackIndex) && isPlaying == old(isPlaying)
      ensures audio == null ==> isMuted == old(isMuted)
      ensures audio != null ==> isMuted == !old(isMuted) && audio.muted == isMuted
      ensures audio != null ==> audio.playing == old(audio.playing) && audio.connected == old(audio.connected)
    {
      if audio != null {
        audio.muted := !isMuted;
        isMuted := !isMuted;
      }
    }

    /** The element's `ended` listener, registered only on a rendered element: play the next track. */
    method Ended()
      requires Valid()
      requires audio != null
      modifies this
      ensures Valid()
      ensures currentTrackIndex == Sequencer.Next(old(currentTrackIndex), |tracks|)
      ensures isPlaying
      ensures audio == old(audio) && isMuted == old(isMuted)
    {
      PlayNextTrack();
    }
  }

  /** Three tracks, starting at 0: previous wraps to the last track, and next brings it back to 0. */
  method WrapScenario() returns (afterPrevious: nat, afterNext: nat, playing: bool)
    ensures afterPrevious == 2 && afterNext == 0 && playing
  {
    var element := new AudioElement();
    var p := new ElementPlayer(ThreeTracks(), element);
    p.PlayPreviousTrack();
    afterPrevious := p.currentTrackIndex;
    p.Ended();
    afterNext, playing := p.currentTrackIndex, p.isPlaying;
  }

  /** Before the element is attached, play and mute are ignored. */
  method NoElementScenario(tracks: seq<Track>) returns (playing: bool, muted: bool)
    ensures !playing && !muted
  {
    var p := new ElementPlayer(tracks, null);
    p.TogglePlay();
    p.ToggleMute();
    playing, muted := p.isPlaying, p.isMuted;
  }
}
