/**
 * The visualizer's connect-once effect (`AudioVisualizer`): tap an audio
 * element with a media-element source node connected to the output, at
 * most once per element. The element's `connected` tag (its
 * `dataset.connected === 'true'`) records that the tap was made; the
 * effect's cleanup disconnects the source its own run created and leaves
 * the tag alone.
 */
module AudioVisualizer {
  import opened Optional
  import opened Media

  /** What an effect run leaves for React to call on teardown. */
  datatype EffectCleanup =
    | NoCleanup                           // an early return: no cleanup registered
    | CleanupOf(source: Option<SourceId>) // the cleanup closure over the run's `source`

  /** The audio context's side of the tap: source nodes created and those connected to the output. */
  class OutputGraph {
    /** Media-element source nodes created so far; the next one gets this identity. */
    var created: nat
    /** Sources currently connected to `audioContext.destination`. */
    var connected: set<SourceId>

    ghost predicate Valid()
      reads this
    {
      forall s :: s in connected ==> s < created
    }

    constructor ()
      ensures Valid() && created == 0 && connected == {}
    {
      created := 0;
      connected := {};
    }

    /**
     * One run of the effect. `element` is `audioRef.current`, `hasContext`
     * whether an audio context was passed, and `createOk` whether
     * `createMediaElementSource` returned rather than threw.
     */
    method RunEffect(element: AudioElement?, hasContext: bool, createOk: bool) returns (cleanup: EffectCleanup)
      requires Valid()
      modifies this, element
      ensures Valid()
      ensures element == null || !hasContext ==>
        cleanup == NoCleanup && unchanged(this) && (element != null ==> unchanged(element))
      ensures element != null && hasContext && old(element.connected) ==>
        cleanup == NoCleanup && unchanged(this) && unchanged(element)
      ensures element != null && hasContext && !old(element.connected) && !createOk ==>
        cleanup == CleanupOf(None) && unchanged(this) && unchanged(element)
      ensures element != null && hasContext && !old(element.connected) && createOk ==>
        && cleanup == CleanupOf(Some(old(created)))
        && created == old(created) + 1
        && connected == old(connected) + {old(created)}
        && element.connected
        && element.muted == old(element.muted) && element.playing == old(element.playing)
    {
      if element == null || !hasContext {
        return NoCleanup;
      }
      if element.connected {
        return NoCleanup;
      }
      var source: Option<SourceId> := None;
      if createOk {
        var s := created;
        created := created + 1;
        source := Some(s);
        element.connected := true;
        connected := connected + {s};
      }
      return CleanupOf(source);
    }

    /** The effect's cleanup: disconnect the run's own source, if it made one. */
    method RunCleanup(cleanup: EffectCleanup)
      requires Valid()
      modifies this
      ensures Valid()
      ensures created == old(created)
      ensures cleanup.CleanupOf? && cleanup.source.Some? ==> connected == old(connected) - {cleanup.source.value}
      ensures !(cleanup.CleanupOf? && cleanup.source.Some?) ==> connected == old(connected)
    {
      if cleanup.CleanupOf? && cleanup.source.Some? {
        connected := connected - {cleanup.source.value};
      }
    }
  }

  /**
   * Mount, unmount, mount again on the same element: the first run taps
   * it, the cleanup disconnects that tap, and the second run, seeing the
   * tag still set, creates nothing and connects nothing.
   */
  method RemountScenario() returns (first: EffectCleanup, second: EffectCleanup, created: nat, connected: set<SourceId>, tagged: bool)
    ensures first == CleanupOf(Some(0))
    ensures second == NoCleanup
    ensures created == 1 && connected == {} && tagged
  {
    var graph := new OutputGraph();
    var element := new AudioElement();
    first := graph.RunEffect(element, true, true);
    graph.RunCleanup(first);
    second := graph.RunEffect(element, true, true);
    created, connected, tagged := graph.created, graph.connected, element.connected;
  }

  /** A creation that throws leaves the tag unset, so a later run can still tap the element. */
  method FailedTapScenario() returns (first: EffectCleanup, second: EffectCleanup, created: nat, tagged: bool)
    ensures first == CleanupOf(None)
    ensures second == CleanupOf(Some(0))
    ensures created == 1 && tagged
  {
    var graph := new OutputGraph();
    var element := new AudioElement();
    first := graph.RunEffect(element, true, false);
    graph.RunCleanup(first);
    second := graph.RunEffect(element, true, true);
    created, tagged := graph.created, element.connected;
  }
}
