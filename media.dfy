/**
 * Entities shared by the two players and the visualizer: the track record
 * served by the track endpoint, the identity of an audio source node, and the
 * browser's HTMLAudioElement reduced to the three attributes the components
 * read or write.
 */
module Media {

  /** A track record as the players receive it from `/api/tracks`. */
  datatype Track = Track(id: string, name: string, songUrl: string, imageUrl: string, artist: string)

  /** Identity of one audio source node created on the audio context. */
  type SourceId = nat

  /**
   * The part of an HTMLAudioElement that the components touch:
   * `muted` (written by the element-based player's mute toggle), `playing`
   * (true after the last `play()` call, false after the last `pause()` call),
   * and `connected` (the element's `dataset.connected === 'true'` tag that the
   * visualizer sets once it has tapped the element).
   */
  class AudioElement {
    var muted: bool
    var playing: bool
    var connected: bool

    /** A freshly rendered `<audio>` element: not muted, paused, untagged. */
    constructor ()
      ensures !muted && !playing && !connected
    {
      muted := false;
      playing := false;
      connected := false;
    }
  }

  /** A three-track list, used by the players' scenarios. */
  function ThreeTracks(): (ts: seq<Track>)
    ensures |ts| == 3
  {
    [Track("1", "one", "one.mp3", "one.jpg", "A"),
     Track("2", "two", "two.mp3", "two.jpg", "A"),
     Track("3", "three", "three.mp3", "three.jpg", "A")]
  }
}
