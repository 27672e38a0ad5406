# Family site: players, visualizer tap and link shaping, in Dafny

This project models the logic of a small family website: a page that shows
a background photo and two lists of links (photo albums and other family
links) read from an Airtable "Links" table, and a floating music player.

The model covers five parts of the code:

- **Buffer-based player** (`AudioPlayer`, class `AudioPlayer.BufferPlayer`).
  Each press of play fetches and decodes the current track into a new
  buffer source node. It routes the node through a gain node and starts it.
  Every call the component makes on a source node (connect, start, stop,
  disconnect), and every source playing to its end, goes into an event log,
  `events`. `Live(events)` is the set of sources that have been started and
  have neither been stopped nor ended. The invariant `Valid()` ties that set
  to the `isPlaying` flag and the `sourceNode` the component holds, which is
  how the model states "at most one source is live". The field `endedSees`
  records which `sourceNode` the latest `onended` handler's `cleanup` sees.
- **Element-based player** (`MusicPlayer`, class `MusicPlayer.ElementPlayer`).
  One `<audio>` element plays the tracks passed in as a property. Play and
  mute act only once the element exists. The element's `ended` event
  advances to the next track.
- **Visualizer tap** (`AudioVisualizer`, class `AudioVisualizer.OutputGraph`).
  The tap connects an element to the output at most once. The element's
  `connected` tag records that the tap was made, and the effect's cleanup
  leaves the tag set.
- **Track sequencing** (`Sequencer`). Both players share the `next` step. The
  players write `previous` in two different ways, which the model proves equal.
  The buffer-based player picks its first track at random.
- **Data shaping** (`Airtable`, `Page`). Provider records are projected into
  links, and the main photo is taken from the first record. The links are
  split into albums and other links, and an image URL and a caption fall back
  to defaults.

These parts are abstracted:

- **Browser and network calls** become parameters of the handlers:
  - `outcome` (`LoadFailed`, `StartFailed` or `Started`): whether resuming the
    audio context, fetching or decoding threw, `source.start` threw, or the
    new source started;
  - `createOk`: whether `createMediaElementSource` returned;
  - `fetched` and `response`: the parsed results of HTTP requests, or None
    when a request failed;
  - `u`: the value `Math.random()` returned.
- **React handlers:** each one is a single atomic method. A handler sees the
  state of the render it was created in; for every handler but `onended`
  that is the current state.
- **State:** a field the component changes in place is a class field.

In these places the code's behaviour may surprise; the model follows the
code:

- **Pressing play while playing** pauses the buffer-based player through
  `cleanup`. It is not a no-op.
- **A natural end of track** in the buffer-based player only cleans up. It
  does not advance. The element-based player does advance.
- **The `onended` handler's `cleanup` is stale.** It is the `cleanup` of the
  render in which play was pressed, so it tears down the source held then,
  not the source that ended. When nothing was held, the ended source stays
  held until the next press of play tears it down. When an older source was
  held, that one is torn down a second time and the ended source is dropped
  without ever being disconnected.
- **A `start` that throws** comes after the new source was connected and
  stored. The catch block's `cleanup` sees the old source, so when there was
  none, the new source stays connected and held without ever starting.
- **While muted**, a volume change makes the gain audible (see Findings).
- **Both players step sequentially;** neither has a random next policy.

## Model

| member | source | states |
|---|---|---|
| Sequencer.Next | app/components/AudioPlayer.tsx:48 | for n > 0 the next index is in [0, n); it is i+1 except at the last index, where it wraps to 0 |
| Sequencer.PreviousWrap | app/components/AudioPlayer.tsx:53 | `(i-1+n) % n` is in [0, n); it is i-1 for 0 < i <= n and n-1 for i = 0 |
| Sequencer.PreviousBranch | app/components/MusicPlayer.tsx:47 | 0 maps to n-1 and any other i to i-1; in range for in-range i |
| Sequencer.PreviousFormulasAgree | app/components/MusicPlayer.tsx:46-50 | on every in-range index the element player's branch formula equals `(i-1+n) % n` |
| Sequencer.PreviousAfterNext | app/components/AudioPlayer.tsx:46-54 | previous (both formulas) after next returns the original index |
| Sequencer.NextAfterPrevious | app/components/AudioPlayer.tsx:46-54 | next after previous (both formulas) returns the original index |
| Sequencer.Advance | app/components/AudioPlayer.tsx:48 | after at least one next step the index is in range |
| Sequencer.AdvanceIsModularSum | app/components/AudioPlayer.tsx:48 | k successive nexts from an in-range i give `(i+k) % n` |
| Sequencer.FullCycle | app/components/MusicPlayer.tsx:40-44 | n successive nexts return to the starting index |
| Sequencer.ThreeNextsFromZero | app/components/AudioPlayer.tsx:46-49 | with three tracks, starting at 0, three nexts visit 1, 2, 0 |
| Sequencer.InitialIndex | app/components/AudioPlayer.tsx:121 | `Math.floor(Math.random() * n)` is 0 for an empty list and in [0, n) otherwise |
| AudioPlayer.LiveSnoc | app/components/AudioPlayer.tsx:34-91 | appending one event to the log changes the live set by exactly that event's step |
| AudioPlayer.Teardown | app/components/AudioPlayer.tsx:35-39 | cleanup makes no source call when nothing is held; otherwise it calls `stop`, then `disconnect`, on the held source |
| AudioPlayer.LiveAfterTeardown | app/components/AudioPlayer.tsx:35-39 | a teardown silences exactly the held source: the live set afterwards is the live set before minus that source |
| AudioPlayer.LiveAfterReplace | app/components/AudioPlayer.tsx:74-77 | tearing down the held source and connecting a new one makes no source live |
| AudioPlayer.BufferPlayer.constructor | app/components/AudioPlayer.tsx:21-31 | initial state: no tracks, index 0, paused, no source, volume 1, unmuted, no graph, loading |
| AudioPlayer.BufferPlayer.BuildGraph | app/components/AudioPlayer.tsx:129-136 | context, analyser and gain node are built once, only when no context exists; a new gain node has gain 1 |
| AudioPlayer.BufferPlayer.ReceiveTracks | app/components/AudioPlayer.tsx:115-127 | a successful fetch stores the tracks and picks the initial index; a failure keeps tracks and index; loading ends either way |
| AudioPlayer.BufferPlayer.Cleanup | app/components/AudioPlayer.tsx:34-44 | the `cleanup` of a render that saw `seen`: the log gains exactly the teardown of `seen`; the held source is dropped when something was seen and kept otherwise; afterwards the player is paused and no source is live |
| AudioPlayer.BufferPlayer.NextTrack | app/components/AudioPlayer.tsx:46-49 | cleans up first, then moves to `(i+1) % n`; the player ends stopped with no live source |
| AudioPlayer.BufferPlayer.PreviousTrack | app/components/AudioPlayer.tsx:51-54 | cleans up first, then moves to `(i-1+n) % n`; the player ends stopped with no live source |
| AudioPlayer.BufferPlayer.ConnectSource | app/components/AudioPlayer.tsx:71-89 | a new source id is used; the log gains the held source's teardown, then the new source's connect; the gain follows the mute rule; the new source is held, not started, and `onended` sees the previously held source |
| AudioPlayer.BufferPlayer.StartHeld | app/components/AudioPlayer.tsx:90-91 | the held source is started and becomes the only live source, and the player is marked playing |
| AudioPlayer.BufferPlayer.TogglePlay | app/components/AudioPlayer.tsx:56-96 | nothing changes without a graph or a current track; while playing, or when the load throws, it only cleans up; a start logs the old source's teardown before connecting and starting the new one, sets the gain from the mute rule, holds and plays the new source; a start that throws logs the old source's teardown twice around the connect and leaves the new source held exactly when no old source was; at most one source is live afterwards |
| AudioPlayer.BufferPlayer.TrackEnded | app/components/AudioPlayer.tsx:85-87 | the playing source's natural end logs its end and then the teardown of the source `onended` saw, not of the ended one; the ended source stays held exactly when nothing was seen; the player is paused with no live source and the index unchanged |
| AudioPlayer.BufferPlayer.IndexChanged | app/components/AudioPlayer.tsx:202-207 | the index-change effect changes nothing unless the player is marked playing and can play; then it pauses, dropping the held source and logging its teardown; the track list, index, volume, mute, graph and gain never change |
| AudioPlayer.BufferPlayer.VolumeChange | app/components/AudioPlayer.tsx:98-103 | stores the new volume and writes it to the gain node whether or not muted; nothing else changes |
| AudioPlayer.BufferPlayer.VolumeChangeKeepingMute | app/components/AudioPlayer.tsx:98-103 | corrected volume change: stores the volume and writes the effective gain, keeping the gain consistent with the mute rule |
| AudioPlayer.BufferPlayer.ToggleMute | app/components/AudioPlayer.tsx:105-110 | flips the mute flag; the gain becomes 0 when muting and the stored volume when unmuting; the stored volume never changes |
| AudioPlayer.AtMostOneLiveSource | app/components/AudioPlayer.tsx:70-91 | in every state the handlers keep, at most one source is live, and one is live exactly when the player is marked playing |
| AudioPlayer.ThreeNextsScenario | app/components/AudioPlayer.tsx:46-49 | after a start, three nexts over three tracks from index 0 give 1, 2, 0 and leave the player stopped |
| AudioPlayer.FailedLoadScenario | app/components/AudioPlayer.tsx:92-95 | a track that fails to load leaves the player paused, with no live source, on the same index |
| AudioPlayer.FailedStartScenario | app/components/AudioPlayer.tsx:77-95 | a `start` that throws on the first press leaves source 0 connected, never started and held, with the player paused |
| AudioPlayer.PlayTwiceScenario | app/components/AudioPlayer.tsx:59-62 | two presses of play with successful loads never give two sources: the second press pauses |
| AudioPlayer.NaturalEndsScenario | app/components/AudioPlayer.tsx:74-89 | play, end, play, end: source 0 stays held after the first end and is torn down by the second press; the second end tears 0 down again and drops source 1, which is never disconnected |
| AudioPlayer.MuteRoundTripScenario | app/components/AudioPlayer.tsx:98-110 | setting volume v, muting and unmuting gives gain 0, then exactly v, with v still stored |
| AudioPlayer.MutedVolumeChangeScenario | app/components/AudioPlayer.tsx:98-103 | as written, a volume change while muted leaves the player muted with an audible gain of 0.5 |
| AudioPlayer.MutedVolumeChangeKeepingMuteScenario | app/components/AudioPlayer.tsx:98-103 | with the corrected volume change the gain stays 0 while muted and the new volume is stored |
| MusicPlayer.ElementPlayer.constructor | app/components/MusicPlayer.tsx:21-25 | initial index 0, paused, unmuted; an element exists only when the track list is non-empty |
| MusicPlayer.ElementPlayer.TogglePlay | app/components/MusicPlayer.tsx:29-38 | with an element, pauses or plays it and flips `isPlaying`; without one, changes nothing |
| MusicPlayer.ElementPlayer.PlayNextTrack | app/components/MusicPlayer.tsx:40-44 | the index becomes `(i+1) % n`, in range, and the player is marked playing |
| MusicPlayer.ElementPlayer.PlayPreviousTrack | app/components/MusicPlayer.tsx:46-50 | the index becomes the branch formula's value, which equals `(i-1+n) % n`, and the player is marked playing |
| MusicPlayer.ElementPlayer.ToggleMute | app/components/MusicPlayer.tsx:52-57 | with an element, flips its `muted` and `isMuted` together, keeping them equal; without one, changes nothing |
| MusicPlayer.ElementPlayer.Ended | app/components/MusicPlayer.tsx:67-76 | the `ended` listener advances one position with wraparound and marks the player playing |
| MusicPlayer.WrapScenario | app/components/MusicPlayer.tsx:40-50 | with three tracks, previous from 0 lands on 2, and an end of track brings the index back to 0 |
| MusicPlayer.NoElementScenario | app/components/MusicPlayer.tsx:29-57 | before the element exists, play and mute leave the player paused and unmuted |
| AudioVisualizer.OutputGraph.constructor | app/components/AudioVisualizer.tsx:8 | the graph starts with no media-element source created or connected |
| AudioVisualizer.OutputGraph.RunEffect | app/components/AudioVisualizer.tsx:9-37 | no element or no context: nothing changes and no cleanup is registered; tag already set: nothing is created or connected; a failed creation leaves the tag unset and no source; success creates exactly one source, sets the tag after creation and connects that source |
| AudioVisualizer.OutputGraph.RunCleanup | app/components/AudioVisualizer.tsx:31-36 | disconnects only the source its own run created, if any, and never touches the tag |
| AudioVisualizer.RemountScenario | app/components/AudioVisualizer.tsx:13-36 | tap, cleanup, run again on the same element: the second run skips, one source was ever created, none is connected, the tag stays set |
| AudioVisualizer.FailedTapScenario | app/components/AudioVisualizer.tsx:20-29 | a creation that throws leaves the tag unset, so the next run taps the element |
| Airtable.MapLinks | lib/airtable.ts:32-37 | the mapped list has one link per record, the i-th being the i-th record's projection |
| Airtable.FamilyLinks | lib/airtable.ts:23-42 | a failed request or a record without fields gives `[]`; otherwise one link per record |
| Airtable.FamilyLinksProjectFields | lib/airtable.ts:32-37 | each link carries its record's id and its `Name`, `links` and `category` fields |
| Airtable.FamilyLinksConcat | lib/airtable.ts:32-37 | the projection keeps order: links of concatenated records are the concatenated links |
| Airtable.MainPhoto | lib/airtable.ts:1-21 | no photo on failure, on an empty table or on a first record without fields; otherwise `URL` and `Caption` of the first record |
| Airtable.MainPhotoFirstRecordOnly | lib/airtable.ts:10-15 | records after the first never change the photo |
| Page.TrimEmptyIffBlank | app/page.tsx:24 | `s.trim() === ''` exactly when every character of s is JavaScript whitespace |
| Page.Filter | app/page.tsx:23-26 | the filtered list is no longer than the input and holds exactly the input's elements that pass the test |
| Page.FilterIsSubsequence | app/page.tsx:23-26 | a filtered list is a subsequence of its input |
| Page.FilterConcat | app/page.tsx:23-26 | filtering distributes over concatenation, so the kept links stay in their original order |
| Page.AlbumLinks | app/page.tsx:23-24 | holds exactly the links with category `album` and a URL that is non-empty after trimming |
| Page.OtherLinks | app/page.tsx:25-26 | holds exactly the links with category `link` and a URL that is non-empty after trimming |
| Page.Cards | app/page.tsx:64 | the rendered cards are exactly the section's links with a truthy URL and a truthy name |
| Page.HasUrlIffNotBlank | app/page.tsx:24 | the URL test passes exactly when a URL exists with a non-whitespace character |
| Page.SectionsDisjointAndSelective | app/page.tsx:23-26 | albums and other links are disjoint; a link in neither category, or with a missing or blank URL, is in neither list |
| Page.SectionsKeepOrder | app/page.tsx:23-26 | both sections are subsequences of the links, and each section's cards are a subsequence of that section |
| Page.SectionsConcat | app/page.tsx:23-26 | sections of concatenated link lists are the concatenated sections |
| Page.ImageUrl | app/page.tsx:29-31 | the main photo's URL when present and not blank, otherwise `/fam.jpg`; never blank |
| Page.ImageCaption | app/page.tsx:32 | the main photo's caption when it is a non-empty string, otherwise `Family Photo`; never empty |
| Page.NoPhotoFallsBack | app/page.tsx:29-32 | a failed photo request or an empty table shows `/fam.jpg` with `Family Photo` |
| Page.NoLinksOnFailure | app/page.tsx:23-26 | a failed links request renders no album and no other link |

## Left out

- The visualizer's draw loop (app/components/AudioPlayer.tsx:159-200) paints a canvas using floating-point bar heights and colours. It is not modelled, and neither is the `cancelAnimationFrame` call in `cleanup` (lines 40-42).
- app/components/SnowEffects.tsx is WebGL rendering with random particle placement, so it is not modelled.
- The browser's audio calls are abstract steps, not modelled calls:
  - context resume, fetch, `arrayBuffer` and `decodeAudioData` are together one step that succeeds or throws (`LoadFailed`); `source.start` is a separate step that succeeds or throws (`StartFailed`);
  - a `stop()` on a source that never started throws in the browser; the model records the call as made (this follows a `StartFailed` start, which leaves such a source held);
  - `createMediaElementSource` is `createOk`;
  - `play()` and `pause()` on the element are recorded in its `playing` attribute, and a rejected `play()` promise is not modelled;
  - the connections gain → analyser → destination (AudioPlayer.tsx:78-79) are not in the event log, which records only calls on source nodes.
- React scheduling is not modelled: batched state updates and effect dependency timing. Each handler runs as one atomic step and reads the current state; the one stale read modelled is the `sourceNode` that `onended`'s `cleanup` sees (`endedSees`).
  - The `ended` event that `stop()` itself raises on a source, which would run that source's stale `cleanup` once more, is not modelled. `TrackEnded` covers only the playing source reaching the end of its buffer.
  - The awaits inside `togglePlay` (lines 67 and 70) are not interleaved with other handlers.
  - The unmount cleanup of the buffer-based player (AudioPlayer.tsx:141-155) is not modelled.
- Some of the element-based player's effects are not modelled:
  - the play-on-index-change effect (MusicPlayer.tsx:59-65);
  - the way the `ended` listener is re-registered on each index change (lines 67-76). `Ended` models one firing of the registered listener.
- The render guards are preconditions, not modelled code. The buffer-based player's controls exist only while `tracks[currentTrackIndex]` exists (AudioPlayer.tsx:216), so its next and previous require an in-range index. The element-based player renders nothing for an empty list (MusicPlayer.tsx:78).
- The volume handlers require a value in [0, 1]. The range input's bounds (AudioPlayer.tsx:256-264) are not modelled code.
- app/page.tsx:113 renders `MusicPlayer` without its `tracks` property, so MusicPlayer.tsx:27 reads `undefined[0]` and the first render throws a TypeError. The model takes the track list as a constructor parameter and does not model that throw.
- Airtable field values are strings. Non-string field values (attachments, arrays) are not modelled. A record without a `fields` object stands for every way the mapping callback can throw.
- The element's `dataset.connected` is modelled as a boolean: true means the value is the string `'true'`.
- app/api/tracks/route.ts is not modelled. It is a thin HTTP wrapper, and the `getMusicTracks` it imports is not defined in lib/airtable.ts, so the track records cannot be modelled from the code.
- Not modelled: JSX markup, styling, the page's `revalidate` caching and environment-variable configuration.

## Findings

| source | as written | input that shows it | evidently intended | confidence | as-written member | corrected member |
|---|---|---|---|---|---|---|
| app/components/AudioPlayer.tsx:98-103 | `handleVolumeChange` writes the new volume to the gain node without checking `isMuted` | mute, then move the slider to 0.5: `isMuted` is true and the gain is 0.5, so the muted player is audible | the gain stays 0 while muted, as in `toggleMute` (line 108) and the start path (line 82): `isMuted ? 0 : newVolume` | medium, not executed | AudioPlayer.MutedVolumeChangeScenario | AudioPlayer.BufferPlayer.VolumeChangeKeepingMute |
