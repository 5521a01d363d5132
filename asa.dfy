/**
 * The player of `src/asa.ts`, class `Asa`: playlist resolution in `yeet`, next and previous
 * track arithmetic, the highlight of the playing track, the time display, and its own copy of
 * the visualization state (six modes, default mode 5, linear texture filtering).
 *
 * Fetched JSON arrives as parameters; the DOM is reduced to the class lists of the track
 * elements and to whether the player's elements have been built.
 */
module AsaPlayer {
  import opened Wrappers
  import opened JsNumbers
  import opened JsStrings
  import opened Analysis
  import opened WebGl
  import opened Tracks

  // ---------------------------------------------------------------------------
  // Mode table

  /** The shader-source functions the mode table names. */
  datatype DrawFn = Draw0 | Draw1 | Draw2 | Draw3

  datatype ModeConfig = ModeConfig(fftSize: nat, fn: DrawFn)

  /** `modeMap`. */
  const MODE_MAP: seq<ModeConfig> := [
    ModeConfig(32, Draw0), ModeConfig(64, Draw1), ModeConfig(2048, Draw1),
    ModeConfig(64, Draw2), ModeConfig(2048, Draw2), ModeConfig(2048, Draw3)]

  /** The mode of a first context, `this.vis?.mode ?? 5`, and the default argument of `setupVisContext`. */
  const DEFAULT_MODE: int := 5
  const DEFAULT_FFT_SIZE: nat := 2048

  /** `this.modeMap[mode] ?? this.modeMap[0]`. */
  function ModeConfigFor(mode: int): (cfg: ModeConfig)
    ensures cfg in MODE_MAP && ValidFftSize(cfg.fftSize)
    ensures 0 <= mode < |MODE_MAP| ==> cfg == MODE_MAP[mode]
  {
    assert PowerOfTwo(32) && PowerOfTwo(64) && PowerOfTwo(2048);
    if 0 <= mode < |MODE_MAP| then MODE_MAP[mode] else MODE_MAP[0]
  }

  /** The mode `onAlbumImageClick` moves to: `(mode + 1) % modeMap.length`. */
  function NextMode(mode: nat): (next: nat)
    ensures next < |MODE_MAP|
    ensures mode < |MODE_MAP| - 1 ==> next == mode + 1
    ensures mode == |MODE_MAP| - 1 ==> next == 0
  {
    (mode + 1) % |MODE_MAP|
  }

  // ---------------------------------------------------------------------------
  // Album-art texture

  /** The 1x1 placeholder texture `setupVisContext` creates. */
  const PLACEHOLDER_TEXTURE: TexParams := TexParams(false, Linear, Linear, ClampToEdge, ClampToEdge)

  /**
   * The parameters `updateShaderTexture` gives the album art: mipmapped, trilinear and
   * repeating when both sides pass the bit test, otherwise linear and clamped;
   * magnification is always linear.
   */
  function PlayerTexture(width: Uint32, height: Uint32): (t: TexParams)
    ensures t.magFilter == Linear
    ensures t.mipmap ==> t.minFilter == LinearMipmapLinear && t.wrapS == Repeat && t.wrapT == Repeat
    ensures !t.mipmap ==> t.minFilter == Linear && t.wrapS == ClampToEdge && t.wrapT == ClampToEdge
  {
    if SidePasses(width) && SidePasses(height) then TexParams(true, LinearMipmapLinear, Linear, Repeat, Repeat)
    else TexParams(false, Linear, Linear, ClampToEdge, ClampToEdge)
  }

  /** The texture is mipmapped exactly when both sides pass `(v & (v - 1)) === 0`. */
  lemma PlayerTextureBitTest(width: Uint32, height: Uint32)
    ensures PlayerTexture(width, height).mipmap <==> IsPowerOf2(width) && IsPowerOf2(height)
  {
    SideBitTest(width);
    SideBitTest(height);
  }

  // ---------------------------------------------------------------------------
  // Track positions

  /** `trackIndex`: a position, or NaN once a step was taken in an empty playlist. */
  datatype TrackPos = Index(i: nat) | NaN

  /** `(currentIndex + 1) % this.playlist.length`. */
  function NextIndex(current: TrackPos, len: nat): (r: TrackPos)
    ensures r.Index? <==> current.Index? && len > 0
    ensures r.Index? ==> r.i < len
    ensures current.Index? && current.i + 1 < len ==> r == Index(current.i + 1)
    ensures current.Index? && current.i + 1 == len ==> r == Index(0)
  {
    if current.NaN? || len == 0 then NaN else Index((current.i + 1) % len)
  }

  /** `(currentIndex - 1 + this.playlist.length) % this.playlist.length`. */
  function PrevIndex(current: TrackPos, len: nat): (r: TrackPos)
    ensures r.Index? <==> current.Index? && len > 0
    ensures r.Index? ==> r.i < len
    ensures current.Index? && 0 < current.i <= len ==> r == Index(current.i - 1)
    ensures current.Index? && current.i == 0 && len > 0 ==> r == Index(len - 1)
  {
    if current.NaN? || len == 0 then NaN else Index((current.i - 1 + len) % len)
  }

  /** Within a playlist, stepping forward then back, or back then forward, returns to the track. */
  lemma NextPrevInverse(i: nat, len: nat)
    requires i < len
    ensures PrevIndex(NextIndex(Index(i), len), len) == Index(i)
    ensures NextIndex(PrevIndex(Index(i), len), len) == Index(i)
  {
    if i + 1 < len {
      assert NextIndex(Index(i), len) == Index(i + 1);
    } else {
      assert NextIndex(Index(i), len) == Index(0);
    }
    if i > 0 {
      assert PrevIndex(Index(i), len) == Index(i - 1);
    } else {
      assert PrevIndex(Index(i), len) == Index(len - 1);
    }
  }

  // ---------------------------------------------------------------------------
  // Time display

  /** `formatTime` in `onTimeUpdate`: whole minutes and the remaining seconds, each padded to two digits. */
  function FormatTime(time: nat): string
  {
    PadStart(ToStringRadix(time / 60, 10), 2, '0') + ":" + PadStart(ToStringRadix(time % 60, 10), 2, '0')
  }

  /**
   * `formatTime(t)` is `MM:SS`: at least two decimal digits of minutes, a colon, then two
   * decimal digits of seconds below 60, and the minutes times 60 plus the seconds give t.
   */
  lemma FormatTimeShape(time: nat)
    ensures var r := FormatTime(time);
      && |r| >= 5 && r[|r| - 3] == ':'
      && AllDigits(r[..|r| - 3], 10) && AllDigits(r[|r| - 2..], 10)
      && DigitsValue(r[|r| - 2..], 10) < 60
      && 60 * DigitsValue(r[..|r| - 3], 10) + DigitsValue(r[|r| - 2..], 10) == time
  {
    var minutes := PadStart(ToStringRadix(time / 60, 10), 2, '0');
    var seconds := PadStart(ToStringRadix(time % 60, 10), 2, '0');
    PaddedValue(time / 60, 10, 2);
    assert Pow(10, 2) == 100;
    PaddedRendering(time % 60, 10, 2);
    var r := FormatTime(time);
    assert r == minutes + ":" + seconds;
    assert r[..|r| - 3] == minutes;
    assert r[|r| - 2..] == seconds;
  }

  // ---------------------------------------------------------------------------
  // Playlist resolution

  /** `AsaPlaylistList`: playlist id to playlist, in iteration order. */
  type PlaylistList = seq<(string, Playlist)>

  /** The argument of `yeet`: a playlist given directly (array or object), or the id of a fetched one. */
  datatype YeetArg = Given(playlist: PlaylistArg) | Id(id: string)

  const MSG_NO_MASTER: string := "Master metadata not initialized"
  const MSG_NO_PLAYLISTS: string := "Playlists metadata not initialized"
  /**
   * The name of the `DOMException` `createMediaElementSource` throws for an audio element
   * that already feeds a source node.
   */
  const MSG_SOURCE_TAKEN: string := "InvalidStateError"

  function NotFoundMessage(id: string): string
  {
    "Playlist with ID " + id + " not found"
  }

  /**
   * The playlist `yeet` builds once the master list is present: a given playlist is filtered
   * from the master list directly; an id fails when no playlist list was fetched or when it
   * names none of its entries, and otherwise the entry's track ids are used.
   */
  function Resolve(master: MasterList, playlists: Option<PlaylistList>, arg: YeetArg): (r: Result<seq<TrackMeta>>)
    ensures r.Err? <==> arg.Id? && (playlists.None? || arg.id !in Keys(playlists.value))
    ensures r.Err? && playlists.None? ==> r.msg == MSG_NO_PLAYLISTS
    ensures r.Err? && playlists.Some? ==> r.msg == NotFoundMessage(arg.id)
    ensures arg.Given? ==> r == Ok(SelectTracks(master, TrackIdsOf(arg.playlist)))
    ensures r.Ok? && arg.Id? ==>
      (exists i :: 0 <= i < |playlists.value| && playlists.value[i].0 == arg.id
         && r.value == SelectTracks(master, playlists.value[i].1.trackIds))
  {
    match arg
    case Given(p) => Ok(SelectTracks(master, TrackIdsOf(p)))
    case Id(id) =>
      if playlists.None? then Err(MSG_NO_PLAYLISTS)
      else
        match Lookup(playlists.value, id)
        case None => Err(NotFoundMessage(id))
        case Some(p) => Ok(SelectTracks(master, p.trackIds))
  }

  /** The array form of a playlist and the object form with the same ids give the same tracks. */
  lemma PlaylistFormsAgree(master: MasterList, p: Playlist)
    ensures Resolve(master, None, Given(Simple(p.trackIds))) == Resolve(master, None, Given(Full(p)))
  {
  }

  // ---------------------------------------------------------------------------
  // The player

  const TRACK_CLASS: string := "asa-track"
  const PLAYING_CLASS: string := "asa-track-playing"
  const PLACEHOLDER_SRC: string := "placeholder.png"

  /** The album-art `Image` element: its source, its loaded size and whether `onload` is set. */
  datatype AlbumImage = AlbumImage(src: string, width: Uint32, height: Uint32, onloadSet: bool)

  const BLANK_IMAGE: AlbumImage := AlbumImage("", 0, 0, false)

  /** The player's `AsaVis` record, without its audio and GPU handles. */
  datatype PlayerVis = PlayerVis(
    fftSize: nat,
    bufferLength: nat,
    dataArrayL: array<Byte>,
    dataArrayR: array<Byte>,
    dataArrayM: array<Byte>,
    rmsLRaw: real,
    rmsRRaw: real,
    rmsMRaw: real,
    rmsL: real,
    rmsR: real,
    rmsM: real,
    mode: int,
    img: AlbumImage,
    fn: DrawFn,
    programPresent: bool,
    albumImageTexture: Option<TexParams>)

  predicate RecordValid(v: PlayerVis)
  {
    && ValidFftSize(v.fftSize)
    && v.bufferLength == v.fftSize / 2
    && v.dataArrayL.Length == v.bufferLength
    && v.dataArrayR.Length == v.bufferLength
    && v.dataArrayM.Length == v.bufferLength
    && v.dataArrayL != v.dataArrayR && v.dataArrayL != v.dataArrayM && v.dataArrayR != v.dataArrayM
    && 0 <= v.mode < |MODE_MAP|
    && 0.0 <= v.rmsLRaw <= 1.0 && 0.0 <= v.rmsRRaw <= 1.0 && 0.0 <= v.rmsMRaw <= 1.0
    && 0.0 <= v.rmsL <= 1.0 && 0.0 <= v.rmsR <= 1.0 && 0.0 <= v.rmsM <= 1.0
  }

  /** A track element's classes after the highlight loop visits it. */
  function Highlighted(classes: set<string>, playing: bool): (r: set<string>)
    ensures PLAYING_CLASS in r <==> playing
    ensures r - {PLAYING_CLASS} == classes - {PLAYING_CLASS}
  {
    if playing then classes - {PLAYING_CLASS} + {PLAYING_CLASS} else classes - {PLAYING_CLASS}
  }

  class Asa {
    /** Whether the album canvas yields a WebGL context. */
    const webglAvailable: bool

    /** `meta.master` and `meta.playlists`. */
    var master: Option<MasterList>
    var playlists: Option<PlaylistList>
    var playlist: seq<TrackMeta>
    var trackIndex: TrackPos
    /** The class lists of `el.tracks`. */
    var tracks: seq<set<string>>
    /** Whether `initPlayer` has built the audio element and the album canvas. */
    var playerBuilt: bool
    /**
     * Whether the current audio element already feeds a `MediaElementAudioSourceNode`; the
     * browser refuses a second one for the same element.
     */
    var sourceAttached: bool
    var vis: Option<PlayerVis>

    ghost predicate Valid()
      reads this
    {
      vis.Some? ==>
        && playerBuilt
        && RecordValid(vis.value)
        && (!webglAvailable ==> !vis.value.programPresent && vis.value.albumImageTexture.None?)
    }

    function Arrays(): set<object>
      reads this
    {
      if vis.Some? then {vis.value.dataArrayL, vis.value.dataArrayR, vis.value.dataArrayM} else {}
    }

    constructor(webglAvailable: bool)
      ensures Valid() && this.webglAvailable == webglAvailable
      ensures master.None? && playlists.None? && playlist == [] && trackIndex == Index(0)
      ensures tracks == [] && !playerBuilt && !sourceAttached && vis.None?
    {
      this.webglAvailable := webglAvailable;
      master := None;
      playlists := None;
      playlist := [];
      trackIndex := Index(0);
      tracks := [];
      playerBuilt := false;
      sourceAttached := false;
      vis := None;
    }

    /**
     * `fetchMetadata()` with the two responses as parameters: a failed master fetch is
     * rethrown and changes nothing; otherwise the master list is replaced by the JSON value,
     * and the playlist list too unless its fetch failed, which is only reported.
     */
    method FetchMetadata(masterJson: Result<Option<MasterList>>, playlistsJson: Result<Option<PlaylistList>>)
      returns (o: Outcome)
      requires Valid()
      modifies this
      ensures Valid()
      ensures masterJson.Err? ==> o == Fail(masterJson.msg) && master == old(master) && playlists == old(playlists)
      ensures masterJson.Ok? ==> o.Pass? && master == masterJson.value
      ensures masterJson.Ok? ==> playlists == if playlistsJson.Ok? then playlistsJson.value else old(playlists)
      ensures playlist == old(playlist) && trackIndex == old(trackIndex) && tracks == old(tracks)
      ensures playerBuilt == old(playerBuilt) && sourceAttached == old(sourceAttached) && vis == old(vis)
    {
      if masterJson.Err? {
        return Fail(masterJson.msg);
      }
      master := masterJson.value;
      if playlistsJson.Ok? {
        playlists := playlistsJson.value;
      }
      o := Pass;
    }

    /** The track elements `initPlayer` pushes, one per playlist entry, each with the class `asa-track`. */
    method InitPlayer()
      requires Valid()
      modifies this
      ensures Valid() && playerBuilt && !sourceAttached
      ensures |tracks| == |old(tracks)| + |playlist|
      ensures tracks[..|old(tracks)|] == old(tracks)
      ensures forall k :: |old(tracks)| <= k < |tracks| ==> tracks[k] == {TRACK_CLASS}
      ensures master == old(master) && playlists == old(playlists) && playlist == old(playlist)
      ensures trackIndex == old(trackIndex) && vis == old(vis)
    {
      var k := 0;
      while k < |playlist|
        invariant 0 <= k <= |playlist|
        invariant |tracks| == |old(tracks)| + k
        invariant tracks[..|old(tracks)|] == old(tracks)
        invariant forall j :: |old(tracks)| <= j < |tracks| ==> tracks[j] == {TRACK_CLASS}
        invariant master == old(master) && playlists == old(playlists) && playlist == old(playlist)
        invariant trackIndex == old(trackIndex) && vis == old(vis)
      {
        tracks := tracks + [{TRACK_CLASS}];
        k := k + 1;
      }
      // a new audio element, not yet connected to any audio graph
      sourceAttached := false;
      playerBuilt := true;
    }

    /**
     * The highlight loop of `updateTrack`: every track element loses `asa-track-playing`
     * and only the one at the given position gets it back; no other class changes.
     */
    method Highlight(index: TrackPos)
      modifies this
      ensures |tracks| == |old(tracks)|
      ensures forall k :: 0 <= k < |tracks| ==> (PLAYING_CLASS in tracks[k] <==> index == Index(k))
      ensures forall k :: 0 <= k < |tracks| ==> tracks[k] - {PLAYING_CLASS} == old(tracks)[k] - {PLAYING_CLASS}
      ensures master == old(master) && playlists == old(playlists) && playlist == old(playlist)
      ensures trackIndex == old(trackIndex) && playerBuilt == old(playerBuilt) && vis == old(vis)
      ensures sourceAttached == old(sourceAttached)
    {
      var k := 0;
      while k < |tracks|
        invariant 0 <= k <= |tracks| && |tracks| == |old(tracks)|
        invariant forall j :: 0 <= j < k ==> tracks[j] == Highlighted(old(tracks)[j], index == Index(j))
        invariant forall j :: k <= j < |tracks| ==> tracks[j] == old(tracks)[j]
        invariant master == old(master) && playlists == old(playlists) && playlist == old(playlist)
        invariant trackIndex == old(trackIndex) && playerBuilt == old(playerBuilt) && vis == old(vis)
        invariant sourceAttached == old(sourceAttached)
      {
        var classes := tracks[k] - {PLAYING_CLASS};
        if index == Index(k) {
          classes := classes + {PLAYING_CLASS};
        }
        tracks := tracks[k := classes];
        k := k + 1;
      }
    }

    /**
     * `updateTrack(index)`: nothing without a visualization; the image's `onload` is set;
     * a position outside the playlist is only reported; otherwise a track without album art
     * shows the placeholder and the track's element is the one highlighted. Returns the
     * track shown.
     */
    method UpdateTrack(index: TrackPos) returns (shown: Option<TrackMeta>)
      requires Valid()
      modifies this
      ensures Valid()
      ensures old(vis).None? ==> shown.None? && tracks == old(tracks) && vis == old(vis)
      ensures old(vis).Some? ==>
        vis == Some(old(vis).value.(img := old(vis).value.img.(
          onloadSet := true,
          src := if shown.Some? && shown.value.albumImageUri == "" then PLACEHOLDER_SRC else old(vis).value.img.src)))
      ensures shown.Some? <==> old(vis).Some? && index.Index? && index.i < |playlist|
      ensures shown.None? ==> tracks == old(tracks)
      ensures shown.Some? ==>
        && shown.value == playlist[index.i]
        && |tracks| == |old(tracks)|
        && (forall k :: 0 <= k < |tracks| ==> (PLAYING_CLASS in tracks[k] <==> k == index.i))
        && (forall k :: 0 <= k < |tracks| ==> tracks[k] - {PLAYING_CLASS} == old(tracks)[k] - {PLAYING_CLASS})
      ensures master == old(master) && playlists == old(playlists) && playlist == old(playlist)
      ensures trackIndex == old(trackIndex) && playerBuilt == old(playerBuilt) && sourceAttached == old(sourceAttached)
    {
      if vis.None? {
        return None;
      }
      vis := Some(vis.value.(img := vis.value.img.(onloadSet := true)));
      if index.NaN? || index.i >= |playlist| {
        // console.error: track not found
        return None;
      }
      var track := playlist[index.i];
      if track.albumImageUri == "" {
        vis := Some(vis.value.(img := vis.value.img.(src := PLACEHOLDER_SRC)));
      }
      Highlight(index);
      shown := Some(track);
    }

    /** `nextTrack(current)`: the position moves one forward, wrapping, and that track is shown. */
    method NextTrack(current: TrackPos) returns (shown: Option<TrackMeta>)
      requires Valid()
      modifies this
      ensures Valid()
      ensures trackIndex == NextIndex(current, |playlist|)
      ensures shown.Some? <==> old(vis).Some? && trackIndex.Index? && trackIndex.i < |playlist|
      ensures shown.Some? ==>
        && shown.value == playlist[trackIndex.i]
        && |tracks| == |old(tracks)|
        && (forall k :: 0 <= k < |tracks| ==> (PLAYING_CLASS in tracks[k] <==> k == trackIndex.i))
        && (forall k :: 0 <= k < |tracks| ==> tracks[k] - {PLAYING_CLASS} == old(tracks)[k] - {PLAYING_CLASS})
      ensures shown.None? ==> tracks == old(tracks)
      ensures old(vis).None? ==> vis == old(vis)
      ensures old(vis).Some? ==>
        vis == Some(old(vis).value.(img := old(vis).value.img.(
          onloadSet := true,
          src := if shown.Some? && shown.value.albumImageUri == "" then PLACEHOLDER_SRC else old(vis).value.img.src)))
      ensures master == old(master) && playlists == old(playlists) && playlist == old(playlist)
      ensures playerBuilt == old(playerBuilt) && sourceAttached == old(sourceAttached)
    {
      trackIndex := NextIndex(current, |playlist|);
      shown := UpdateTrack(trackIndex);
    }

    /** `prevTrack(current)`: the position moves one back, wrapping, and that track is shown. */
    method PrevTrack(current: TrackPos) returns (shown: Option<TrackMeta>)
      requires Valid()
      modifies this
      ensures Valid()
      ensures trackIndex == PrevIndex(current, |playlist|)
      ensures shown.Some? <==> old(vis).Some? && trackIndex.Index? && trackIndex.i < |playlist|
      ensures shown.Some? ==>
        && shown.value == playlist[trackIndex.i]
        && |tracks| == |old(tracks)|
        && (forall k :: 0 <= k < |tracks| ==> (PLAYING_CLASS in tracks[k] <==> k == trackIndex.i))
        && (forall k :: 0 <= k < |tracks| ==> tracks[k] - {PLAYING_CLASS} == old(tracks)[k] - {PLAYING_CLASS})
      ensures shown.None? ==> tracks == old(tracks)
      ensures old(vis).None? ==> vis == old(vis)
      ensures old(vis).Some? ==>
        vis == Some(old(vis).value.(img := old(vis).value.img.(
          onloadSet := true,
          src := if shown.Some? && shown.value.albumImageUri == "" then PLACEHOLDER_SRC else old(vis).value.img.src)))
      ensures master == old(master) && playlists == old(playlists) && playlist == old(playlist)
      ensures playerBuilt == old(playerBuilt) && sourceAttached == old(sourceAttached)
    {
      trackIndex := PrevIndex(current, |playlist|);
      shown := UpdateTrack(trackIndex);
    }

    /**
     * `setupVisContext(fftSize)`: nothing before the player is built. Otherwise the old audio
     * context is closed and a new one opened, whose `createMediaElementSource` the browser
     * rejects when the audio element already has a source node: the call then throws and the
     * record is kept. Without a source node it builds a new record with zeroed arrays of
     * `fftSize / 2` samples and zeroed loudness, keeping the mode (5 for a first record) and
     * the image, with no program and, given WebGL, the placeholder texture.
     */
    method SetupVisContext(fftSize: nat) returns (o: Outcome)
      requires Valid() && ValidFftSize(fftSize)
      modifies this
      ensures Valid()
      ensures o.Fail? <==> playerBuilt && old(sourceAttached)
      ensures o.Fail? ==> o.msg == MSG_SOURCE_TAKEN
      ensures !(playerBuilt && !old(sourceAttached)) ==> vis == old(vis) && sourceAttached == old(sourceAttached)
      ensures playerBuilt && !old(sourceAttached) ==>
        && sourceAttached && vis.Some?
        && vis.value.fftSize == fftSize && vis.value.bufferLength == fftSize / 2
        && fresh(vis.value.dataArrayL) && fresh(vis.value.dataArrayR) && fresh(vis.value.dataArrayM)
        && Silent(vis.value.dataArrayL) && Silent(vis.value.dataArrayR) && Silent(vis.value.dataArrayM)
        && vis.value.rmsLRaw == 0.0 && vis.value.rmsRRaw == 0.0 && vis.value.rmsMRaw == 0.0
        && vis.value.rmsL == 0.0 && vis.value.rmsR == 0.0 && vis.value.rmsM == 0.0
        && vis.value.mode == (if old(vis).Some? then old(vis).value.mode else DEFAULT_MODE)
        && vis.value.img == (if old(vis).Some? then old(vis).value.img else BLANK_IMAGE)
        && !vis.value.programPresent && vis.value.fn == Draw0
        && vis.value.albumImageTexture == (if webglAvailable then Some(PLACEHOLDER_TEXTURE) else None)
      ensures master == old(master) && playlists == old(playlists) && playlist == old(playlist)
      ensures trackIndex == old(trackIndex) && tracks == old(tracks) && playerBuilt == old(playerBuilt)
    {
      if !playerBuilt {
        return Pass;
      }
      if sourceAttached {
        // createMediaElementSource: InvalidStateError
        return Fail(MSG_SOURCE_TAKEN);
      }
      sourceAttached := true;
      var bufferLength := fftSize / 2;
      var arrayL := new Byte[bufferLength](_ => 0);
      var arrayR := new Byte[bufferLength](_ => 0);
      var arrayM := new Byte[bufferLength](_ => 0);
      assert Silent(arrayL) && Silent(arrayR) && Silent(arrayM);
      var mode := if vis.Some? then vis.value.mode else DEFAULT_MODE;
      var img := if vis.Some? then vis.value.img else BLANK_IMAGE;
      var texture := if webglAvailable then Some(PLACEHOLDER_TEXTURE) else None;
      vis := Some(PlayerVis(fftSize, bufferLength, arrayL, arrayR, arrayM, 0.0, 0.0, 0.0, 0.0, 0.0, 0.0,
                            mode, img, Draw0, false, texture));
      o := Pass;
    }

    /** `updateShaderTexture()`: without a record or WebGL nothing; otherwise the album-art parameters for the image's size. */
    method UpdateShaderTexture()
      requires Valid()
      modifies this
      ensures Valid()
      ensures !(old(vis).Some? && webglAvailable) ==> vis == old(vis)
      ensures old(vis).Some? && webglAvailable ==>
        vis == Some(old(vis).value.(albumImageTexture :=
          Some(PlayerTexture(old(vis).value.img.width, old(vis).value.img.height))))
      ensures master == old(master) && playlists == old(playlists) && playlist == old(playlist)
      ensures trackIndex == old(trackIndex) && tracks == old(tracks) && playerBuilt == old(playerBuilt)
      ensures sourceAttached == old(sourceAttached)
    {
      if vis.None? || !webglAvailable {
        return;
      }
      var img := vis.value.img;
      vis := Some(vis.value.(albumImageTexture := Some(PlayerTexture(img.width, img.height))));
    }

    /**
     * `updateVisMode()`: without a record or WebGL nothing. Otherwise the program is
     * dropped, and the context is rebuilt for the FFT size of the mode's entry of the table
     * (entry 0 for an unknown mode). That rebuild throws when the audio element already has
     * a source node, leaving the record without a program; otherwise the program is built
     * for the entry and the texture is set for the image.
     */
    method UpdateVisMode() returns (o: Outcome)
      requires Valid()
      modifies this
      ensures Valid()
      ensures o.Fail? <==> old(vis).Some? && webglAvailable && old(sourceAttached)
      ensures o.Fail? ==> o.msg == MSG_SOURCE_TAKEN && vis == Some(old(vis).value.(programPresent := false))
      ensures !(old(vis).Some? && webglAvailable) ==> vis == old(vis)
      ensures old(vis).Some? && webglAvailable && !old(sourceAttached) ==>
        var cfg := ModeConfigFor(old(vis).value.mode);
        && vis.Some? && vis.value.mode == old(vis).value.mode && vis.value.img == old(vis).value.img
        && vis.value.programPresent && vis.value.fn == cfg.fn
        && vis.value.fftSize == cfg.fftSize && vis.value.bufferLength == cfg.fftSize / 2
        && vis.value.rmsL == 0.0 && vis.value.rmsR == 0.0 && vis.value.rmsM == 0.0
        && vis.value.albumImageTexture == Some(PlayerTexture(vis.value.img.width, vis.value.img.height))
      ensures sourceAttached == (old(sourceAttached) || (old(vis).Some? && webglAvailable))
      ensures master == old(master) && playlists == old(playlists) && playlist == old(playlist)
      ensures trackIndex == old(trackIndex) && tracks == old(tracks) && playerBuilt == old(playerBuilt)
    {
      if vis.None? || !webglAvailable {
        return Pass;
      }
      if vis.value.programPresent {
        // deleteProgram, deleteBuffer
        vis := Some(vis.value.(programPresent := false));
      }
      var cfg := ModeConfigFor(vis.value.mode);
      o := SetupVisContext(cfg.fftSize);
      if o.Fail? {
        return;
      }
      vis := Some(vis.value.(fn := cfg.fn, programPresent := true));
      UpdateShaderTexture();
    }

    /**
     * `onAlbumImageClick()`: without a record nothing; otherwise the next mode of six, and
     * its program, whose rebuild throws as `updateVisMode` does.
     */
    method OnAlbumImageClick() returns (o: Outcome)
      requires Valid()
      modifies this
      ensures Valid()
      ensures o.Fail? <==> old(vis).Some? && webglAvailable && old(sourceAttached)
      ensures o.Fail? ==> o.msg == MSG_SOURCE_TAKEN
      ensures old(vis).None? ==> vis == old(vis)
      ensures old(vis).Some? ==> vis.Some? && vis.value.mode == NextMode(old(vis).value.mode)
      ensures o.Fail? ==>
        vis == Some(old(vis).value.(mode := NextMode(old(vis).value.mode), programPresent := false))
      ensures old(vis).Some? && webglAvailable && o.Pass? ==>
        vis.value.programPresent && vis.value.fn == MODE_MAP[vis.value.mode].fn
        && vis.value.bufferLength == MODE_MAP[vis.value.mode].fftSize / 2
        && vis.value.img == old(vis).value.img
        && vis.value.albumImageTexture == Some(PlayerTexture(vis.value.img.width, vis.value.img.height))
      ensures old(vis).Some? && !webglAvailable ==> vis == Some(old(vis).value.(mode := NextMode(old(vis).value.mode)))
      ensures master == old(master) && playlists == old(playlists) && playlist == old(playlist)
      ensures trackIndex == old(trackIndex) && tracks == old(tracks) && playerBuilt == old(playerBuilt)
    {
      if vis.None? {
        return Pass;
      }
      vis := Some(vis.value.(mode := NextMode(vis.value.mode)));
      o := UpdateVisMode();
    }

    /**
     * The analysis part of `draw()`: without a record nothing; otherwise the channel arrays
     * receive the frequency data, the mono array their merge, the raw loudness the roots of
     * the mean squares (mono: their mean), and each smoothed loudness one step of the
     * moving average.
     */
    method Draw(freqL: seq<Byte>, freqR: seq<Byte>, tdL: seq<Byte>, tdR: seq<Byte>, rootL: real, rootR: real)
      requires Valid()
      requires vis.Some? ==> AnalyserReadings(vis.value.bufferLength, freqL, freqR, tdL, tdR, rootL, rootR)
      modifies this, Arrays()
      ensures Valid()
      ensures old(vis).None? ==> vis == old(vis)
      ensures old(vis).Some? ==>
        var v := old(vis).value;
        var rawM := MonoLoudness(rootL, rootR);
        && vis == Some(v.(rmsLRaw := rootL, rmsRRaw := rootR, rmsMRaw := rawM,
                          rmsL := Smooth(v.rmsL, rootL), rmsR := Smooth(v.rmsR, rootR), rmsM := Smooth(v.rmsM, rawM)))
        && v.dataArrayL[..] == freqL && v.dataArrayR[..] == freqR
        && v.dataArrayM[..] == MonoMerge(freqL, freqR)
      ensures master == old(master) && playlists == old(playlists) && playlist == old(playlist)
      ensures trackIndex == old(trackIndex) && tracks == old(tracks) && playerBuilt == old(playerBuilt)
      ensures sourceAttached == old(sourceAttached)
    {
      if vis.None? {
        return;
      }
      var v := vis.value;
      CopyInto(freqL, v.dataArrayL);
      CopyInto(freqR, v.dataArrayR);
      MergeInto(v.dataArrayL, v.dataArrayR, v.dataArrayM);
      var timeDomainL := ArrayOf(tdL);
      var timeDomainR := ArrayOf(tdR);
      var msL := MeanSquareOf(timeDomainL);
      var msR := MeanSquareOf(timeDomainR);
      // Math.sqrt of each mean square
      RootBounded(rootL, msL);
      RootBounded(rootR, msR);
      var rawM := MonoLoudness(rootL, rootR);
      vis := Some(v.(rmsLRaw := rootL, rmsRRaw := rootR, rmsMRaw := rawM,
                     rmsL := Smooth(v.rmsL, rootL), rmsR := Smooth(v.rmsR, rootR), rmsM := Smooth(v.rmsM, rawM)));
    }

    /**
     * The resolution part of `yeet(arg)`: the metadata is fetched when the master list is
     * absent; a failed fetch or a still absent master list fails with nothing reset.
     * Otherwise the position is reset to 0 and the track elements cleared before the
     * playlist is resolved, so a failed resolution leaves that reset behind.
     */
    method Resolution(arg: YeetArg, masterJson: Result<Option<MasterList>>, playlistsJson: Result<Option<PlaylistList>>)
      returns (o: Outcome)
      requires Valid()
      modifies this
      ensures Valid()
      ensures old(master).None? && masterJson.Err? ==>
        o == Fail(masterJson.msg) && trackIndex == old(trackIndex) && tracks == old(tracks) && playlist == old(playlist)
      ensures old(master).None? && masterJson == Ok(None) ==>
        o == Fail(MSG_NO_MASTER) && trackIndex == old(trackIndex) && tracks == old(tracks) && playlist == old(playlist)
      ensures master.Some? <==> old(master).Some? || (masterJson.Ok? && masterJson.value.Some?)
      ensures master.Some? ==>
        var r := Resolve(master.value, playlists, arg);
        && trackIndex == Index(0) && tracks == []
        && (o.Fail? <==> r.Err?)
        && (r.Err? ==> o.msg == r.msg && playlist == old(playlist))
        && (r.Ok? ==> playlist == r.value)
      ensures old(master).Some? ==> master == old(master) && playlists == old(playlists)
      ensures playerBuilt == old(playerBuilt) && sourceAttached == old(sourceAttached) && vis == old(vis)
    {
      if master.None? {
        o := FetchMetadata(masterJson, playlistsJson);
        if o.Fail? {
          return;
        }
      }
      if master.None? {
        return Fail(MSG_NO_MASTER);
      }
      trackIndex := Index(0);
      tracks := [];
      match arg {
        case Given(p) =>
          playlist := MakePlaylistInternal(master.value, p);
        case Id(id) =>
          if playlists.None? {
            return Fail(MSG_NO_PLAYLISTS);
          }
          var found := Lookup(playlists.value, id);
          if found.None? {
            return Fail(NotFoundMessage(id));
          }
          playlist := MakePlaylistInternal(master.value, Full(found.value));
      }
      o := Pass;
    }

    /**
     * `yeet(arg)`: after a successful resolution the player is built with one element per
     * track and the visualization is set up for the current mode. Without WebGL the first
     * track is then shown and highlighted. With WebGL the second context rebuild inside
     * `updateVisMode` throws, so `yeet` rejects before `updateTrack(0)`: the elements exist,
     * none is highlighted, and the record has no program.
     */
    method Yeet(arg: YeetArg, masterJson: Result<Option<MasterList>>, playlistsJson: Result<Option<PlaylistList>>)
      returns (o: Outcome)
      requires Valid()
      modifies this
      ensures Valid()
      ensures o.Pass? <==> master.Some? && Resolve(master.value, playlists, arg).Ok? && !webglAvailable
      ensures master.Some? && Resolve(master.value, playlists, arg).Ok? ==>
        && playlist == Resolve(master.value, playlists, arg).value
        && trackIndex == Index(0) && playerBuilt && sourceAttached && vis.Some?
        && |tracks| == |playlist|
        && (forall k :: 0 <= k < |tracks| ==> TRACK_CLASS in tracks[k])
      ensures o.Pass? ==> forall k :: 0 <= k < |tracks| ==> (PLAYING_CLASS in tracks[k] <==> k == 0)
      ensures master.Some? && Resolve(master.value, playlists, arg).Ok? && webglAvailable ==>
        && o == Fail(MSG_SOURCE_TAKEN)
        && (forall k :: 0 <= k < |tracks| ==> tracks[k] == {TRACK_CLASS})
        && !vis.value.programPresent && vis.value.albumImageTexture == Some(PLACEHOLDER_TEXTURE)
      ensures !(master.Some? && Resolve(master.value, playlists, arg).Ok?) ==>
        && o.Fail? && vis == old(vis) && playerBuilt == old(playerBuilt)
        && (master.Some? ==> trackIndex == Index(0) && tracks == [])
        && (master.None? ==> trackIndex == old(trackIndex) && tracks == old(tracks))
    {
      o := Resolution(arg, masterJson, playlistsJson);
      if o.Fail? {
        return;
      }
      o := BuildPlayer();
      if o.Fail? {
        return;
      }
      ghost var built := tracks;
      var shown := UpdateTrack(Index(0));
      assert forall k :: 0 <= k < |tracks| ==> TRACK_CLASS in built[k] - {PLAYING_CLASS};
    }

    /**
     * The middle of `yeet`: build the track list on a new audio element, set up the
     * visualization context, then the program; with WebGL the program's context rebuild
     * throws on the element the first setup connected.
     */
    method BuildPlayer() returns (o: Outcome)
      requires Valid() && tracks == []
      modifies this
      ensures Valid() && playerBuilt && sourceAttached && vis.Some?
      ensures o.Fail? <==> webglAvailable
      ensures o.Fail? ==> o.msg == MSG_SOURCE_TAKEN
      ensures webglAvailable ==> !vis.value.programPresent && vis.value.albumImageTexture == Some(PLACEHOLDER_TEXTURE)
      ensures |tracks| == |playlist| && forall k :: 0 <= k < |tracks| ==> tracks[k] == {TRACK_CLASS}
      ensures master == old(master) && playlists == old(playlists) && playlist == old(playlist)
      ensures trackIndex == old(trackIndex)
    {
      InitPlayer();
      var setup := SetupVisContext(DEFAULT_FFT_SIZE);
      o := UpdateVisMode();
    }
  }
}
