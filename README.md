# asayake core, modelled in Dafny

asayake is a browser music player with a WebGL album-art visualizer, plus two Node tools.
The ripper probes a music directory and writes the master metadata list. The auto-playlist
tool groups that list into one playlist per album. This project models the rules inside
those programs that can be stated exactly, and proves what they promise.

Modules, in dependency order:

- `Wrappers` holds `Option`, `Outcome` (`Pass` or `Fail(msg)`, a returned or thrown error)
  and `Result`.
- `JsNumbers` covers the ECMAScript conversions the code relies on: ToInt32 and ToUint32
  (ECMA-262 sections 7.1.6 and 7.1.7) and ToUint8 (section 7.1.11, a store into a
  `Uint8Array`). It also holds the 32-bit `&` behind the `isPowerOf2` helpers.
- `JsStrings` covers `toString(radix)` on non-negative integers, `padStart`, and `split`/`join`
  on one separator character. It also models the UTF-16 code units that `length` and
  `charCodeAt` see.
- `Analysis` is the audio arithmetic shared by both visualizers:
  - the mono merge of the two analyser channels;
  - the normalised mean square behind the RMS loudness;
  - the exponential moving average with alpha = 0.1.
- `WebGl` holds the texture parameter values and the power-of-two side test.
- `Tracks` holds the metadata records of `src/types.ts` and `makePlaylistInternal`.
- `Vis` models class `AsaVis` of `src/vis.ts`:
  - the context record and the three-entry mode table;
  - mode changes, the per-tick analysis and the album-art texture choice;
  - the non-reentrant update interval.

  WebGL programs and draw buffers, audio contexts and intervals are integer handles drawn
  from one counter. The sets of live handles stand for what the browser holds of those kinds.
- `AsaPlayer` models class `Asa` of `src/asa.ts`:
  - playlist resolution in `yeet`;
  - next and previous track;
  - the highlight of the playing track and the `mm:ss` time display;
  - its own copy of the visualization: six modes, default mode 5, linear filtering.
- `MetaRipper` models `tools/ripper.ts`: `simpleHash`, the shell escaping of a track path,
  `process` (keying, first-wins de-duplication, URI derivation) and `error`.
- `AutoPlaylist` models the grouping loop of `tools/auto-playlist.ts`.

## How the model represents the program

- A JavaScript dictionary is the sequence of its entries in iteration order, with distinct
  keys.
- The analyser's output is a set of input byte sequences.
- `Math.sqrt` is the one floating-point function left. Callers pass its result `root` with
  `root >= 0 && root * root == meanSquare`. Loudness values are exact reals.
- Whether the canvas, the audio element and a WebGL context exist is a fixed input of the
  visualizer.
- In the ripper, the set of existing cover files (paths relative to the music directory)
  is an input. The path separator is `/`.
- The fetched JSON of the player arrives as parameters.
- The DOM is reduced to the class lists of the track elements and to whether the player's
  elements have been built.

## Behaviour of the code that the model keeps

The model follows the code in each of these cases, even where the project's own description
of its behaviour differs.

- `setupVisContext` in `src/vis.ts` replaces the record before checking for WebGL. So the
  "WebGL context not initialized" error leaves a new record behind (`Vis.AsaVis.SetupVisContext`).
- The first record of `src/vis.ts` has mode 0. The first record of `src/asa.ts` has mode 5
  (`?? 5`).
- `init` in `src/vis.ts` calls `setupVisContext`, which creates a draw buffer. It then calls
  `updateVisMode`, which deletes a buffer only together with an existing program, and there
  is none at that point. So the first buffer stays live:
  `Vis.AsaVis.UpdateVisMode` states exactly which buffers are deleted.
- The interval callback sets its running flag and clears it only when `updateShaderData`
  returns. An update that throws (for example after `clearContext`) leaves the flag set.
  Every later tick then does nothing until `init` starts a new interval (`Vis.AsaVis.Tick`).
- `shaders.shader0` is not defined in `src/shaders.ts`, so a new record has no shader until
  `updateVisMode` picks one.
- `shadersEnabled` is never changed from `true`, so the guards on it are always passed.
- `yeet` resets the track index to 0 and empties the track list before an unknown playlist id
  throws. The model keeps that partial reset (`AsaPlayer.Asa.Resolution`, `AsaPlayer.Asa.Yeet`).
- With WebGL, the player of `src/asa.ts` never gets a program built. `yeet` connects the new
  audio element in `setupVisContext` (`src/asa.ts:839`). The `setupVisContext` inside
  `updateVisMode` (`src/asa.ts:552`) then asks for a second source node for the same element,
  and the browser refuses it with an `InvalidStateError`. So `yeet` rejects before
  `updateTrack(0)`, and every later click on the album image throws as well. The model keeps
  this through the flag `sourceAttached` (`AsaPlayer.Asa.SetupVisContext`,
  `AsaPlayer.Asa.UpdateVisMode`, `AsaPlayer.Asa.OnAlbumImageClick`, `AsaPlayer.Asa.BuildPlayer`,
  `AsaPlayer.Asa.Yeet`). Without WebGL, `updateVisMode` returns before the rebuild and `yeet`
  succeeds.
- `nextTrack` and `prevTrack` on an empty playlist compute `NaN`, modelled as `TrackPos.NaN`.
- The ripper's keys hash the album, artist and title run together without a separator.
  Distinct records can therefore share a key, and the second is reported as a duplicate
  (`MetaRipper.FieldBoundaryCollision`). The hash itself collides too
  (`MetaRipper.HashCollision`).

## Model

| member | source | states |
|---|---|---|
| JsNumbers.ToInt32 | tools/ripper.ts:27 | `hash \|= 0` keeps the value modulo 2^32 and leaves every int32 value unchanged |
| JsNumbers.Int32AsUint32 | tools/ripper.ts:30 | `hash >>> 0` adds 2^32 to a negative hash and keeps a non-negative one |
| JsNumbers.ToInt32Congruent | tools/ripper.ts:26-27 | values equal modulo 2^32 have the same ToInt32, so truncating each step gives the same hash as truncating once |
| JsNumbers.ToUint8HalfSum | src/vis.ts:206 | storing `(l + r) / 2` into a `Uint8Array` keeps `(l + r) div 2` |
| JsNumbers.IsPowerOf2Iff | src/vis.ts:240 | on every 32-bit value the bit test `(v & (v - 1)) === 0` holds exactly for 0 and the powers of two |
| JsStrings.ToStringRadixValue | tools/ripper.ts:30 | `toString(radix)` yields only digits of the radix, and they read back as the number |
| JsStrings.ToStringRadixLength | tools/ripper.ts:30 | a number below radix^k renders in at most k digits |
| JsStrings.PadStart | tools/ripper.ts:30 | the result is as long as the target (or the string, if longer), ends with the string, and is filled in front |
| JsStrings.PaddedRendering | src/asa.ts:277-278 | below radix^width, the padded rendering is exactly `width` digits reading as the number |
| JsStrings.PaddedValue | src/asa.ts:277 | for any number, the padded rendering has at least `width` digits and reads as the number |
| JsStrings.Split | tools/ripper.ts:87 | a split has at least one piece, and no piece contains the separator |
| JsStrings.JoinSplit | tools/ripper.ts:87 | joining the pieces of a split with the same separator gives the string back |
| JsStrings.AroundFirst | tools/ripper.ts:87 | the text before and after the first separator put the string back together, and the text before holds no separator |
| JsStrings.FirstPiece | tools/ripper.ts:92-93 | `split(sep)[0]` is the text before the first separator |
| JsStrings.DropFirstPiece | tools/ripper.ts:87 | `split(sep).slice(1).join(sep)` is the text after the first separator |
| JsStrings.Utf16 | tools/ripper.ts:25-26 | a string has at least as many UTF-16 code units as characters |
| Analysis.CopyInto | src/vis.ts:199-200 | `getByteFrequencyData` leaves the array holding exactly the analyser's bytes |
| Analysis.ArrayOf | src/vis.ts:209-212 | a new time-domain buffer holds exactly the analyser's bytes |
| Analysis.MonoSample | src/vis.ts:204-206 | a mono sample is `(l + r) div 2` and lies between the two channel samples |
| Analysis.MonoMergeAt | src/vis.ts:203-207 | every sample of the merged channel is the truncated mean of the two channel samples and lies between them |
| Analysis.MergeInto | src/vis.ts:202-208 | after the merge loop the mono array is the merge of the two channels, and neither channel has changed |
| Analysis.Normalize | src/vis.ts:217 | a normalised sample `(d - 128) / 128` lies in [-1, 1) |
| Analysis.SumSquares | src/vis.ts:215-219 | the sum of squared normalised samples lies between 0 and the sample count |
| Analysis.MeanSquare | src/vis.ts:220 | the mean square of a non-empty buffer lies in [0, 1] |
| Analysis.MeanSquareOf | src/vis.ts:214-221 | the `rms` loop accumulates exactly the mean square of the whole buffer |
| Analysis.RootBounded | src/vis.ts:220 | the square root of a mean square in [0, 1] is again in [0, 1] |
| Analysis.MonoLoudness | src/vis.ts:225 | the mono loudness is the mean of the channel loudnesses: in [0, 1] and between them |
| Analysis.Smooth | src/vis.ts:226-229 | one moving-average step lands between the old value and the reading, and on a zero reading scales the value by 0.9 |
| Analysis.SmoothAllBounded | src/vis.ts:226-229 | starting in [0, 1], any run of readings in [0, 1] keeps the smoothed loudness in [0, 1] |
| Analysis.SilenceDecay | src/vis.ts:226-229 | k silent readings scale the smoothed loudness by exactly 0.9^k |
| WebGl.SideBitTest | src/vis.ts:240 | a texture side passes `isPowerOf2` exactly when it is 0 or a power of two |
| Tracks.Lookup | src/asa.ts:830-831 | `dict[key]` is absent exactly when no entry has the key, and otherwise is the value of an entry with that key |
| Tracks.TrackIdsOf | src/asa.ts:118-128 | the ids are the array itself, or the playlist object's `trackIds` |
| Tracks.MakePlaylistInternal | src/asa.ts:118-128 | the push loop returns the master values whose key is listed, in master order |
| Tracks.SelectTracksPicked | src/asa.ts:118-128 | the playlist is, in strictly increasing master positions, exactly the entries whose key is listed, each once |
| Tracks.SelectTracksMembership | src/asa.ts:118-128 | a track is in the playlist iff a master entry with a listed key carries it |
| Tracks.SelectTracksKnownIds | src/asa.ts:118-128 | ids that name no master entry do not change the playlist |
| AsaPlayer.ModeConfigFor | src/asa.ts:551 | `modeMap[mode] ?? modeMap[0]` is a table entry with a valid FFT size, and is the mode's own entry for a mode in range |
| AsaPlayer.NextMode | src/asa.ts:244-245 | the next of six modes is in range: one more, or 0 after the last |
| AsaPlayer.PlayerTexture | src/asa.ts:151-161 | mipmapped means LINEAR_MIPMAP_LINEAR and REPEAT, otherwise LINEAR and CLAMP_TO_EDGE; magnification is always LINEAR |
| AsaPlayer.PlayerTextureBitTest | src/asa.ts:144-151 | the album art is mipmapped exactly when both sides pass the bit test |
| AsaPlayer.NextIndex | src/asa.ts:220-224 | the next position is in range and wraps from the last to 0; it is NaN exactly for an empty playlist or a NaN position |
| AsaPlayer.PrevIndex | src/asa.ts:225-229 | the previous position is in range and wraps from 0 to the last; it is NaN exactly for an empty playlist or a NaN position |
| AsaPlayer.NextPrevInverse | src/asa.ts:220-229 | within a playlist, next then previous, and previous then next, return to the same position |
| AsaPlayer.FormatTimeShape | src/asa.ts:276-280 | `formatTime(t)` is at least two minute digits, a colon and two second digits below 60, and 60 times the minutes plus the seconds is t |
| AsaPlayer.Resolve | src/asa.ts:823-835 | the playlist resolution fails exactly for an id without a playlist list or naming no playlist, with the source's messages; otherwise it filters the master list by the given or found ids |
| AsaPlayer.PlaylistFormsAgree | src/asa.ts:118-128 | the array form and the object form of the same ids give the same playlist |
| AsaPlayer.Highlighted | src/asa.ts:213-218 | a visited element carries `asa-track-playing` iff it is the playing one, and keeps all its other classes |
| AsaPlayer.Asa.constructor | src/asa.ts:66-97 | a new player has no metadata, an empty playlist, position 0, no track elements, no audio element with a source node and no visualization |
| AsaPlayer.Asa.FetchMetadata | src/asa.ts:98-117 | a failed master fetch fails with nothing changed; a failed playlist fetch is only reported; otherwise both lists are replaced |
| AsaPlayer.Asa.InitPlayer | src/asa.ts:652-663 | one element with class `asa-track` is appended per playlist entry, on a new audio element that has no source node yet |
| AsaPlayer.Asa.Highlight | src/asa.ts:213-218 | after the loop exactly the element at the position carries `asa-track-playing`, and no other class of any element changed |
| AsaPlayer.Asa.UpdateTrack | src/asa.ts:163-219 | nothing without a visualization; otherwise only the image changes, its `onload` set; a position outside the playlist shows nothing; otherwise that track is shown, exactly its element highlighted with all other classes kept, and a missing cover sets the image to the placeholder |
| AsaPlayer.Asa.NextTrack | src/asa.ts:220-224 | the position becomes the next one; a track is shown iff there is a visualization and the position is in the playlist, and then exactly its element is highlighted; only the image changes in the record, and the metadata, playlist and built state are kept |
| AsaPlayer.Asa.PrevTrack | src/asa.ts:225-229 | the position becomes the previous one; a track is shown iff there is a visualization and the position is in the playlist, and then exactly its element is highlighted; only the image changes in the record, and the metadata, playlist and built state are kept |
| AsaPlayer.Asa.SetupVisContext | src/asa.ts:578-645 | nothing before the player is built; on an audio element that already has a source node it throws `InvalidStateError` and keeps the record; otherwise the element is connected, and a new record of fresh all-zero arrays of `fftSize / 2` samples and zeroed raw and smoothed loudness keeps mode (5 at first) and image, has no program, and has the placeholder texture given WebGL; the player state is kept |
| AsaPlayer.Asa.UpdateShaderTexture | src/asa.ts:137-162 | with a record and WebGL the album art takes the parameters its size selects; otherwise nothing changes |
| AsaPlayer.Asa.UpdateVisMode | src/asa.ts:540-577 | nothing without a record or WebGL; otherwise it throws exactly when the audio element already has a source node, leaving the record without a program; else a program for the mode's table entry (entry 0 for an unknown mode), buffers for its FFT size, the same mode and image, and the texture set |
| AsaPlayer.Asa.OnAlbumImageClick | src/asa.ts:239-248 | the mode moves to the next of six; given WebGL it throws exactly when the audio element already has a source node, leaving no program, and otherwise the program, buffers and texture match the new mode and the image is kept; without WebGL only the mode changes; the player state is kept |
| AsaPlayer.Asa.Draw | src/asa.ts:462-494 | the channel arrays receive the frequency data, the mono array their merge, the raw loudness the roots (mono: their mean), and each smoothed loudness one moving-average step |
| AsaPlayer.Asa.Resolution | src/asa.ts:810-835 | the metadata is fetched once; a missing master list fails with nothing reset; otherwise the position is 0 and the elements cleared, and the result is the playlist resolution's |
| AsaPlayer.Asa.Yeet | src/asa.ts:810-843 | succeeds exactly when the master list is present, the argument resolves and there is no WebGL; after a resolution the playlist is the resolved one, the position 0 and one `asa-track` element per track; on success only the first is highlighted; with WebGL it throws `InvalidStateError` with no element highlighted and no program; on a failed resolution the visualization is untouched, and once the master list is present the position is 0 and the elements are cleared |
| AsaPlayer.Asa.BuildPlayer | src/asa.ts:836-841 | the player is built with one plain `asa-track` element per playlist entry, a connected audio element and a visualization record; it throws `InvalidStateError` exactly with WebGL, and then the record keeps no program and the placeholder texture |
| Vis.ModeConfigFor | src/vis.ts:162 | `modeMap[mode] ?? modeMap[0]` is a table entry with a valid FFT size, and is the mode's own entry for a mode in range |
| Vis.NextVisMode | src/vis.ts:335-341 | the next mode is in range: one more, or 0 after the last of three |
| Vis.AfterChangesValue | src/vis.ts:335-341 | k mode changes advance the mode by k places modulo the table length |
| Vis.ChangesCycle | src/vis.ts:43-47 | three mode changes lead back to the starting mode |
| Vis.VisTexture | src/vis.ts:247-258 | mipmapped means LINEAR_MIPMAP_NEAREST and REPEAT, otherwise NEAREST and CLAMP_TO_EDGE; magnification is always NEAREST |
| Vis.VisTextureBitTest | src/vis.ts:240-247 | the album art is mipmapped exactly when both sides pass the bit test |
| Vis.TextureExamples | src/vis.ts:240-258 | a 256x256 cover is mipmapped and repeats, a 300x200 cover is clamped |
| Vis.AsaVis.GetVisMode | src/vis.ts:364-367 | fails without a record with the source's message, and otherwise returns the record's mode |
| Vis.AsaVis.constructor | src/vis.ts:36-50 | a new visualizer has no record, no interval, a cleared flag and no live handles |
| Vis.AsaVis.SetupVisContext | src/vis.ts:57-148 | fails with nothing changed without canvas or audio element; otherwise a record of fresh zeroed arrays of `fftSize / 2` samples and zeroed loudness keeps mode (0 at first), image and audio graph; without WebGL it then fails, otherwise it adds one live buffer and the placeholder texture |
| Vis.AsaVis.ReplaceRecord | src/vis.ts:68-116 | the audio graph of an existing record is reused (a new one opened otherwise), arrays are fresh and zeroed, loudness zeroed, mode and image carried over |
| Vis.AsaVis.AttachBuffer | src/vis.ts:132-147 | one new live draw buffer and the 1x1 placeholder texture with NEAREST filtering, nothing else |
| Vis.AsaVis.UpdateShaderTexture | src/vis.ts:233-259 | fails without a record or WebGL; otherwise only the album-art texture changes, to the parameters the image's size selects |
| Vis.AsaVis.UpdateVisMode | src/vis.ts:151-193 | fails without a record or WebGL; otherwise the old program (with its buffer) is deleted, and exactly one new live program for the mode's shader is left, with buffers for the mode's FFT size and the texture set |
| Vis.AsaVis.DeleteProgram | src/vis.ts:156-161 | an existing program is deleted with its draw buffer; without one nothing changes |
| Vis.AsaVis.AttachProgram | src/vis.ts:174-178 | one new live program for the shader becomes the record's |
| Vis.AsaVis.UpdateShaderData | src/vis.ts:195-230 | fails without a record; otherwise channel arrays hold the frequency data, the mono array their merge, and each smoothed loudness takes one moving-average step (mono: the mean reading) |
| Vis.AsaVis.Tick | src/vis.ts:390-397 | a tick finding the flag set changes nothing; otherwise it runs the update and the flag stays set exactly when the update threw |
| Vis.AsaVis.Init | src/vis.ts:374-399 | succeeds exactly with canvas, audio element and WebGL; then one live interval with a cleared flag and a program for the kept mode; on failure the interval is untouched |
| Vis.AsaVis.RestartInterval | src/vis.ts:383-397 | any running interval is cleared with its flag, and exactly one new interval is live |
| Vis.AsaVis.ClearContext | src/vis.ts:358-363 | the audio context is closed and the record dropped; the interval keeps running |
| Vis.AsaVis.ChangeVisMode | src/vis.ts:335-341 | fails without a record; otherwise the mode moves to the next of three; without WebGL only the mode changes; with it the old program and its buffer are released, exactly one new program for the mode's shader is live, image and audio graph are kept and the buffers match the mode |
| Vis.AsaVis.SetVisMode | src/vis.ts:368-373 | fails without a record, and fails with nothing changed outside the table; otherwise `getVisMode()` returns the mode; without WebGL only the mode changes; with it the old program and its buffer are released, exactly one new program is live, image and audio graph are kept and the buffers match the mode |
| Vis.AsaVis.SetupVisImg | src/vis.ts:342-350 | fails without a record; otherwise only the image's `onload` is set |
| Vis.AsaVis.SetVisImg | src/vis.ts:351-357 | fails without a record; otherwise only the image's source changes |
| Vis.AsaVis.OnImageLoad | src/vis.ts:344-348 | a loaded image takes its size, and with `onload` set the texture follows the new size |
| Vis.ChangeModeThrice | src/vis.ts:335-341 | three mode changes with WebGL succeed and `getVisMode()` returns the starting mode |
| MetaRipper.ShiftStep | tools/ripper.ts:26-27 | `((h << 5) - h) + c`, then `\| 0`, is ToInt32(31 h + c) |
| MetaRipper.HashHexShape | tools/ripper.ts:30 | the rendered hash is 8 lower-case hex digits reading as the hash's unsigned value |
| MetaRipper.HashHexInjective | tools/ripper.ts:30 | different 32-bit hashes never render alike |
| MetaRipper.EmptyHash | tools/ripper.ts:23-31 | the empty string hashes to `00000000` |
| MetaRipper.HashCollision | tools/ripper.ts:21-31 | `Aa` and `BB` hash alike |
| MetaRipper.EscapeLength | tools/ripper.ts:35 | escaping adds exactly one backslash per `"`, `\`, `$` or backquote |
| MetaRipper.EscapeRoundTrip | tools/ripper.ts:35-36 | a POSIX shell reads the escaped path between double quotes back as the original path |
| MetaRipper.EscapeIdentity | tools/ripper.ts:35 | a path without those characters passes through unchanged |
| MetaRipper.Candidates | tools/ripper.ts:79-82 | one key, metadata and message per record, in order |
| MetaRipper.DedupErrSticky | tools/ripper.ts:83-86 | once a duplicate has thrown, the run ends with that error |
| MetaRipper.DedupKeysDistinct | tools/ripper.ts:83-86 | the listing holds each key once and has no more entries than candidates |
| MetaRipper.DedupFirstWins | tools/ripper.ts:83-86 | every key is listed, each entry belonging to the first candidate with its key |
| MetaRipper.DedupFails | tools/ripper.ts:83-86 | the loop throws exactly under exit-on-error when two candidates share a key |
| MetaRipper.ProcessListing | tools/ripper.ts:77-117 | the listing has distinct keys, at most one entry per record and every record's key; each entry is the key and metadata of the first record with that key |
| MetaRipper.ProcessFails | tools/ripper.ts:77-117 | `process` throws exactly under exit-on-error when two records share a key |
| MetaRipper.AudioUriAfterFirst | tools/ripper.ts:87 | the audio URI is the file name after its first `/`, and the two put the file name back together |
| MetaRipper.CoverChoice | tools/ripper.ts:92-103 | the cover is `<first directory>/cover.jpg` when that file exists, else `<first directory>/cover.png` |
| MetaRipper.FieldBoundaryCollision | tools/ripper.ts:81-86 | two different records splitting the same text across album and artist share a key, so the second throws as a duplicate |
| MetaRipper.Ripper.constructor | tools/ripper.ts:10-12 | a new ripper throws on error |
| MetaRipper.Ripper.Error | tools/ripper.ts:14-20 | `error(msg)` throws `msg` exactly under exit-on-error and otherwise returns |
| MetaRipper.Ripper.SimpleHash | tools/ripper.ts:23-31 | the loop over the code units computes the 32-bit hash, rendered as 8 hex digits |
| MetaRipper.Ripper.Process | tools/ripper.ts:77-117 | `process` returns the listing, or throws, as the first-wins de-duplication of the records prescribes |
| MetaRipper.Ripper.ProcessLoop | tools/ripper.ts:79-115 | the loop over the records ends in the de-duplication of their candidates |
| MetaRipper.Ripper.ProcessRecord | tools/ripper.ts:80-114 | one pass extends the listing by the record's entry, skips it, or throws on a duplicate, as the de-duplication prescribes |
| AutoPlaylist.AlbumName | tools/auto-playlist.ts:14 | the album name is the title, or `Unknown Album` for the empty title, and never empty |
| AutoPlaylist.FindGroup | tools/auto-playlist.ts:15 | the lookup finds the first playlist with the name, or reports none |
| AutoPlaylist.GroupByAlbum | tools/auto-playlist.ts:13-23 | the loop builds the playlists of the whole master list |
| AutoPlaylist.GroupsContents | tools/auto-playlist.ts:13-23 | each playlist is named by its key, names are distinct, and its ids are exactly its album's keys in master order |
| AutoPlaylist.AlbumNamesAreGroups | tools/auto-playlist.ts:13-23 | the playlist names are exactly the album names of the master list |
| AutoPlaylist.GroupCount | tools/auto-playlist.ts:25 | the reported album count is the number of distinct album names |
| AutoPlaylist.GroupsTotal | tools/auto-playlist.ts:13-23 | the playlists hold as many ids as the master list has entries |
| AutoPlaylist.GroupsCover | tools/auto-playlist.ts:15-21 | a playlist's cover is that of the first entry of its album, never overwritten |
| AutoPlaylist.KeyInExactlyOneGroup | tools/auto-playlist.ts:13-23 | with distinct keys, a key is in a playlist iff the playlist is named by its entry's album name |

## Left out

- Web Audio graph calls (`createMediaElementSource`, the splitter, `connect`, `resume`,
  `close`, `getByte*Data`) are foreign browser APIs. Their output is an input byte sequence, and
  contexts and source nodes are handles.
- `AsaPlayer.Asa.SetupVisContext`: the audio contexts of `src/asa.ts` are not tracked. So the
  model does not record that a rejected rebuild has already closed the old context and opened
  a new one (`src/asa.ts:581-585`) before it throws.
- `Vis.AsaVis.SetupVisContext` and `Vis.AsaVis.Init` do not model the same rejection in
  `src/vis.ts`. After
  `clearContext` (`src/vis.ts:358-363`) the record is gone, so the next `setupVisContext` opens
  a new `AudioContext` and calls `createMediaElementSource` (`src/vis.ts:74-81`) on an audio
  element that already has a source node. In a browser that throws, so `clearContext(); init()`
  fails. The model opens a fresh graph and succeeds.
- `Vis.AsaVis.UpdateVisMode`, `Vis.AsaVis.ChangeVisMode`, `Vis.AsaVis.SetVisMode` and
  `Vis.AsaVis.UpdateShaderTexture` do not track texture and shader objects, only programs and
  draw buffers. The source never releases textures or shaders:
  - every `setupVisContext` creates a placeholder texture (`src/vis.ts:139`,
    `src/asa.ts:635`);
  - every `updateShaderTexture` creates an album-art texture (`src/vis.ts:242`,
    `src/asa.ts:146`);
  - `gl.deleteShader;` (`src/vis.ts:159`, `src/asa.ts:548`) reads the method without calling
    it, so the two shaders compiled for each program stay alive.

  Each mode switch therefore leaves one more texture and two more shaders behind. Only the
  programs and draw buffers return to their former count.
- WebGL calls are foreign: shader compilation and linking, uniform and texture uploads,
  drawing, and the per-frame draw part of `draw` in both files (`src/vis.ts:274-334`,
  `src/asa.ts:525-539`). The model keeps a program flag or handle, the buffer handles and the
  chosen texture parameters. The shader-text regex at `src/vis.ts:169` is left out too.
- `src/shaders.ts` is GLSL text and not part of this model.
- `setInterval` and `requestAnimationFrame` timing is left out. A tick is one call to
  `Vis.AsaVis.Tick`, and JavaScript runs ticks one at a time.
- Floating point:
  - `Math.sqrt` is an input, as described above.
  - Loudness is exact reals.
  - The volume curve, the scrubber percentages, `Math.floor` of the playback time and
    `Number`/`Date` parsing are left out.
  - Durations, sizes and dates stay text.
- `AsaPlayer.FormatTime`: is modelled for whole non-negative seconds only, which is what
  `onTimeUpdate` passes after `Math.floor` of a finite time. A `NaN` duration is not modelled.
- `AsaPlayer.PlaylistFormsAgree`: holds by the definitions alone; it records the promise
  rather than proving work.
- `Analysis.MeanSquare`: the `?? 128` fallback for a missing sample cannot fire on a full
  buffer and is not modelled.
- DOM construction and events are UI: `initPlaylistList`, play and pause, the shuffle flag,
  the now-playing text, mouse handlers and `res/example.js`. Track elements are reduced to
  their class lists.
- `updateTrack` checks for the audio element, but that check cannot fail after `initPlayer`
  and is not modelled. Setting the audio source and playing it are left out.
- The `HEAD` request `updateTrack` makes to check a cover exists is I/O and left out.
- I/O is left out: `fetch`, `fs`, `exec`, `ffprobe`, the directory walk of the ripper,
  `tools/build.ts`, and the JSON reading and writing of `tools/auto-playlist.ts`.
- The ECMAScript ordering of integer-like dictionary keys is not modelled. A key such as
  `12345678` (a hash made only of decimal digits, without a leading zero) or an album name such
  as `1989` is an array index. `Object.entries` and `JSON.stringify` list such keys first, in
  numeric order, and only then the others in insertion order. The model keeps insertion order
  throughout, which affects these members:
  - `MetaRipper.Dedup`, `MetaRipper.ProcessListing` and `MetaRipper.Ripper.Process` give the
    listing in record order. The `metadata.json` that `tools/ripper.ts:126` writes puts
    integer-like keys first.
  - `AutoPlaylist.GroupsOf` and `AutoPlaylist.GroupByAlbum` give the playlists in creation
    order. `playlists.json` puts integer-like album names first.
  - The master list a member receives (`Tracks.MakePlaylistInternal`, `AutoPlaylist.GroupByAlbum`)
    is taken to be in the order `Object.entries` yields. That order is the one the file was
    read in, after the reordering above.

  Which keys are in a dictionary and what they map to is unaffected.
- Dictionary keys that name `Object.prototype` members are not modelled. An album named
  `constructor` would find an inherited value in `playlists[album]`. The ripper's 8-digit hex
  keys never name such a member.
- `MetaRipper.HashInput`: all four tags are modelled as present strings. `ffprobe` leaves
  absent tags out of its record, and the model does not cover that. With an absent album, artist
  or title, the template at `tools/ripper.ts:81` inserts the text `undefined`. A record without
  a `tags` object throws a `TypeError` at that line.
- `Vis.AsaVis.SetVisMode`: a non-integer number argument is not modelled; modes are integers.
- An image load that lands after `clearContext` is not modelled: `Vis.AsaVis.OnImageLoad`
  requires a record.
- The time-domain arrays of `draw` in `src/asa.ts` are modelled as fresh buffers per call,
  like those of `src/vis.ts`.
