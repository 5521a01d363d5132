/**
 * The visualization controller of `src/vis.ts`, class `AsaVis`: the context record it
 * rebuilds, the mode table and mode changes, the per-tick audio analysis, the album-art
 * texture parameters and the non-reentrant update scheduler.
 *
 * GPU objects, audio contexts and intervals are modelled as integer handles drawn from one
 * counter; the sets of live handles stand for what the browser holds. The presence of the
 * canvas, of the audio element and of a WebGL context are fixed inputs.
 */
module Vis {
  import opened Wrappers
  import opened JsNumbers
  import opened Analysis
  import opened WebGl

  /** The shader programs the mode table names. */
  datatype ShaderId = Nothing | SpectrumAnalyzer | StereoCAHalf

  datatype ModeConfig = ModeConfig(fftSize: nat, shader: ShaderId)

  /** `modeMap`. */
  const MODE_MAP: seq<ModeConfig> := [ModeConfig(32, Nothing), ModeConfig(2048, SpectrumAnalyzer), ModeConfig(32, StereoCAHalf)]

  /** The default argument of `setupVisContext`. */
  const DEFAULT_FFT_SIZE: nat := 2048

  const MSG_NO_ELEMENTS: string := "Album image canvas or audio player not initialized"
  const MSG_NO_CONTEXT: string := "Visualization context not initialized"
  const MSG_NO_WEBGL: string := "WebGL context not initialized"
  const MSG_BAD_MODE: string := "Invalid visualization mode"

  /** The message of the Error that `error(msg)` throws. */
  function ErrorText(msg: string): string
  {
    "Asa Player Error: " + msg
  }

  /** `modeMap[mode] ?? modeMap[0]`. */
  function ModeConfigFor(mode: int): (cfg: ModeConfig)
    ensures cfg in MODE_MAP && ValidFftSize(cfg.fftSize)
    ensures 0 <= mode < |MODE_MAP| ==> cfg == MODE_MAP[mode]
  {
    assert PowerOfTwo(32) && PowerOfTwo(2048);
    if 0 <= mode < |MODE_MAP| then MODE_MAP[mode] else MODE_MAP[0]
  }

  /** The mode `changeVisMode` moves to: the next entry of the table, wrapping around. */
  function NextVisMode(mode: nat): (next: nat)
    ensures next < |MODE_MAP|
    ensures mode < |MODE_MAP| - 1 ==> next == mode + 1
    ensures mode == |MODE_MAP| - 1 ==> next == 0
  {
    (mode + 1) % |MODE_MAP|
  }

  /** The mode after k mode changes. */
  function AfterChanges(mode: nat, k: nat): nat
    decreases k
  {
    if k == 0 then mode else NextVisMode(AfterChanges(mode, k - 1))
  }

  /** k mode changes advance the mode by k places around the table. */
  lemma {:induction false} AfterChangesValue(mode: nat, k: nat)
    requires mode < |MODE_MAP|
    ensures AfterChanges(mode, k) == (mode + k) % |MODE_MAP|
    decreases k
  {
    if k > 0 {
      AfterChangesValue(mode, k - 1);
    }
  }

  /** As many mode changes as the table has entries lead back to the starting mode. */
  lemma ChangesCycle(mode: nat)
    requires mode < |MODE_MAP|
    ensures AfterChanges(mode, |MODE_MAP|) == mode
  {
    AfterChangesValue(mode, |MODE_MAP|);
  }

  /** The 1x1 placeholder texture `setupVisContext` creates. */
  const PLACEHOLDER_TEXTURE: TexParams := TexParams(false, Nearest, Nearest, ClampToEdge, ClampToEdge)

  /**
   * The parameters `updateShaderTexture` gives the album art: mipmapped and repeating when
   * both sides pass the bit test (a power of two, or 0 for an image that has not loaded),
   * otherwise nearest-filtered and clamped; magnification is always nearest.
   */
  function VisTexture(width: Uint32, height: Uint32): (t: TexParams)
    ensures t.magFilter == Nearest
    ensures t.mipmap ==> t.minFilter == LinearMipmapNearest && t.wrapS == Repeat && t.wrapT == Repeat
    ensures !t.mipmap ==> t.minFilter == Nearest && t.wrapS == ClampToEdge && t.wrapT == ClampToEdge
  {
    if SidePasses(width) && SidePasses(height) then TexParams(true, LinearMipmapNearest, Nearest, Repeat, Repeat)
    else TexParams(false, Nearest, Nearest, ClampToEdge, ClampToEdge)
  }

  /** The texture is mipmapped exactly when both sides pass the source's bit test `(v & (v - 1)) === 0`. */
  lemma VisTextureBitTest(width: Uint32, height: Uint32)
    ensures VisTexture(width, height).mipmap <==> IsPowerOf2(width) && IsPowerOf2(height)
  {
    SideBitTest(width);
    SideBitTest(height);
  }

  /** A 256x256 cover is mipmapped and repeats; a 300x200 cover is clamped. */
  lemma TextureExamples()
    ensures VisTexture(256, 256).mipmap && VisTexture(256, 256).wrapS == Repeat
    ensures !VisTexture(300, 200).mipmap && VisTexture(300, 200).wrapS == ClampToEdge
  {
    assert PowerOfTwo(256);
    assert !PowerOfTwo(75);
    assert !PowerOfTwo(300);
  }

  /** The album-art `Image` element: its source, its loaded size and whether `onload` is set. */
  datatype Image = Image(src: string, width: Uint32, height: Uint32, onloadSet: bool)

  /** `new Image()`. */
  const BLANK_IMAGE: Image := Image("", 0, 0, false)

  /** An `AudioContext` and the media element source node created in it. */
  datatype AudioGraph = AudioGraph(context: nat, source: nat)

  /** `AsaVisData`, the visualization context record. */
  datatype VisData = VisData(
    graph: AudioGraph,
    fftSize: nat,
    drawProgram: Option<nat>,
    drawBuf: Option<nat>,
    albumImageTexture: Option<TexParams>,
    bufferLength: nat,
    dataArrayL: array<Byte>,
    dataArrayR: array<Byte>,
    dataArrayM: array<Byte>,
    rmsL: real,
    rmsR: real,
    rmsM: real,
    mode: int,
    img: Image,
    shader: Option<ShaderId>)

  /** The record's own consistency: buffer sizing, three distinct arrays, a valid mode and bounded loudness. */
  predicate RecordValid(d: VisData)
  {
    && ValidFftSize(d.fftSize)
    && d.bufferLength == d.fftSize / 2
    && d.dataArrayL.Length == d.bufferLength
    && d.dataArrayR.Length == d.bufferLength
    && d.dataArrayM.Length == d.bufferLength
    && d.dataArrayL != d.dataArrayR && d.dataArrayL != d.dataArrayM && d.dataArrayR != d.dataArrayM
    && 0 <= d.mode < |MODE_MAP|
    && 0.0 <= d.rmsL <= 1.0 && 0.0 <= d.rmsR <= 1.0 && 0.0 <= d.rmsM <= 1.0
  }

  function OptSet(h: Option<nat>): set<nat>
  {
    if h.Some? then {h.value} else {}
  }

  /**
   * A program rebuild from record d0 to record d: the image and audio graph are kept, the old
   * program is released together with its draw buffer, and exactly one new program and one
   * new draw buffer, both allocated after `handle`, are live; the album art takes the
   * parameters of the image's size.
   */
  predicate ProgramSwapped(d0: VisData, d: VisData, handle: nat,
                           programs0: set<nat>, programs: set<nat>, buffers0: set<nat>, buffers: set<nat>)
  {
    && d.img == d0.img && d.graph == d0.graph
    && d.drawProgram.Some? && d.drawProgram.value >= handle
    && programs == programs0 - OptSet(d0.drawProgram) + {d.drawProgram.value}
    && d.drawBuf.Some? && d.drawBuf.value >= handle
    && buffers == buffers0 - (if d0.drawProgram.Some? then OptSet(d0.drawBuf) else {}) + {d.drawBuf.value}
    && d.albumImageTexture == Some(VisTexture(d0.img.width, d0.img.height))
  }

  class AsaVis {
    /** Whether `el.albumImage` and `el.audioPlayer` are present, and whether the canvas yields a WebGL context. */
    const canvasPresent: bool
    const audioPresent: bool
    const webglAvailable: bool

    var data: Option<VisData>
    /** `shaderUpdateIntervalId` and `shaderUpdataIntervalRunning`. */
    var intervalId: Option<nat>
    var running: bool

    /** The next unused handle, and the handles the browser holds live. */
    var nextHandle: nat
    var openContexts: set<nat>
    var livePrograms: set<nat>
    var liveBuffers: set<nat>
    var liveIntervals: set<nat>

    ghost predicate Valid()
      reads this
    {
      && (forall h :: h in openContexts ==> h < nextHandle)
      && (forall h :: h in livePrograms ==> h < nextHandle)
      && (forall h :: h in liveBuffers ==> h < nextHandle)
      && (forall h :: h in liveIntervals ==> h < nextHandle)
      && liveIntervals == OptSet(intervalId)
      && (intervalId.None? ==> !running)
      && (data.None? ==> openContexts == {})
      && (data.Some? ==>
            var d := data.value;
            && canvasPresent && audioPresent
            && RecordValid(d)
            && openContexts == {d.graph.context}
            && d.graph.source < nextHandle
            && (d.drawProgram.Some? ==> d.drawProgram.value in livePrograms)
            && (d.drawBuf.Some? ==> d.drawBuf.value in liveBuffers)
            && (!webglAvailable ==> d.drawProgram.None? && d.drawBuf.None? && d.albumImageTexture.None?))
    }

    /** The three sample arrays of the current record. */
    function Arrays(): set<object>
      reads this
    {
      if data.Some? then {data.value.dataArrayL, data.value.dataArrayR, data.value.dataArrayM} else {}
    }

    /** `getVisMode()`. */
    function GetVisMode(): (r: Result<int>)
      reads this
      ensures data.None? <==> r.Err?
      ensures r.Err? ==> r.msg == ErrorText(MSG_NO_CONTEXT)
      ensures data.Some? ==> r == Ok(data.value.mode)
    {
      if data.None? then Err(ErrorText(MSG_NO_CONTEXT)) else Ok(data.value.mode)
    }

    constructor(canvasPresent: bool, audioPresent: bool, webglAvailable: bool)
      ensures Valid()
      ensures this.canvasPresent == canvasPresent && this.audioPresent == audioPresent && this.webglAvailable == webglAvailable
      ensures data.None? && intervalId.None? && !running
      ensures openContexts == {} && livePrograms == {} && liveBuffers == {} && liveIntervals == {}
    {
      this.canvasPresent := canvasPresent;
      this.audioPresent := audioPresent;
      this.webglAvailable := webglAvailable;
      data := None;
      intervalId := None;
      running := false;
      nextHandle := 1;
      openContexts := {};
      livePrograms := {};
      liveBuffers := {};
      liveIntervals := {};
    }

    /**
     * `setupVisContext(fftSize)`: fails without the canvas or the audio element; otherwise
     * replaces the record, keeping the audio graph, mode and image of an existing one, with
     * fresh zeroed arrays of `fftSize / 2` samples and zeroed loudness. Without WebGL it
     * fails after the record has been replaced.
     */
    method SetupVisContext(fftSize: nat) returns (o: Outcome)
      requires Valid() && ValidFftSize(fftSize)
      modifies this
      ensures Valid()
      ensures !(canvasPresent && audioPresent) ==>
        o == Fail(ErrorText(MSG_NO_ELEMENTS)) && data == old(data) && nextHandle == old(nextHandle)
        && openContexts == old(openContexts) && liveBuffers == old(liveBuffers)
      ensures canvasPresent && audioPresent ==>
        && data.Some?
        && o == (if webglAvailable then Pass else Fail(ErrorText(MSG_NO_WEBGL)))
        && data.value.fftSize == fftSize && data.value.bufferLength == fftSize / 2
        && fresh(data.value.dataArrayL) && fresh(data.value.dataArrayR) && fresh(data.value.dataArrayM)
        && Silent(data.value.dataArrayL) && Silent(data.value.dataArrayR) && Silent(data.value.dataArrayM)
        && data.value.rmsL == 0.0 && data.value.rmsR == 0.0 && data.value.rmsM == 0.0
        && data.value.mode == (if old(data).Some? then old(data).value.mode else 0)
        && data.value.img == (if old(data).Some? then old(data).value.img else BLANK_IMAGE)
        && data.value.drawProgram.None? && data.value.shader.None?
        && (old(data).Some? ==> data.value.graph == old(data).value.graph && openContexts == old(openContexts))
        && (old(data).None? ==> data.value.graph.context >= old(nextHandle) && openContexts == {data.value.graph.context})
        && (webglAvailable ==>
              && data.value.drawBuf.Some? && data.value.drawBuf.value >= old(nextHandle)
              && liveBuffers == old(liveBuffers) + {data.value.drawBuf.value}
              && data.value.albumImageTexture == Some(PLACEHOLDER_TEXTURE))
        && (!webglAvailable ==> liveBuffers == old(liveBuffers))
      ensures nextHandle >= old(nextHandle)
      ensures livePrograms == old(livePrograms) && intervalId == old(intervalId)
      ensures running == old(running) && liveIntervals == old(liveIntervals)
    {
      if !(canvasPresent && audioPresent) {
        return Fail(ErrorText(MSG_NO_ELEMENTS));
      }
      ReplaceRecord(fftSize);
      if !webglAvailable {
        return Fail(ErrorText(MSG_NO_WEBGL));
      }
      AttachBuffer();
      o := Pass;
    }

    /**
     * The record-building part of `setupVisContext`: the audio graph of an existing record is
     * reused (a new context and source otherwise), the arrays are allocated zeroed for half the
     * FFT size, the loudness is zeroed, mode and image carry over, and no GPU object is attached.
     */
    method ReplaceRecord(fftSize: nat)
      requires Valid() && ValidFftSize(fftSize) && canvasPresent && audioPresent
      modifies this
      ensures Valid() && data.Some?
      ensures data.value.fftSize == fftSize && data.value.bufferLength == fftSize / 2
      ensures fresh(data.value.dataArrayL) && fresh(data.value.dataArrayR) && fresh(data.value.dataArrayM)
      ensures Silent(data.value.dataArrayL) && Silent(data.value.dataArrayR) && Silent(data.value.dataArrayM)
      ensures data.value.rmsL == 0.0 && data.value.rmsR == 0.0 && data.value.rmsM == 0.0
      ensures data.value.mode == (if old(data).Some? then old(data).value.mode else 0)
      ensures data.value.img == (if old(data).Some? then old(data).value.img else BLANK_IMAGE)
      ensures data.value.drawProgram.None? && data.value.drawBuf.None?
      ensures data.value.albumImageTexture.None? && data.value.shader.None?
      ensures old(data).Some? ==> data.value.graph == old(data).value.graph && openContexts == old(openContexts)
      ensures old(data).None? ==> data.value.graph.context >= old(nextHandle) && openContexts == {data.value.graph.context}
      ensures nextHandle >= old(nextHandle) && livePrograms == old(livePrograms) && liveBuffers == old(liveBuffers)
      ensures intervalId == old(intervalId) && running == old(running) && liveIntervals == old(liveIntervals)
    {
      // `analyserL.frequencyBinCount` is half the FFT size.
      var bufferLength := fftSize / 2;
      var arrayL := new Byte[bufferLength](_ => 0);
      var arrayR := new Byte[bufferLength](_ => 0);
      var arrayM := new Byte[bufferLength](_ => 0);
      assert Silent(arrayL) && Silent(arrayR) && Silent(arrayM);
      var graph: AudioGraph;
      if data.Some? {
        // Reuse the context and source node; the source is only disconnected.
        graph := data.value.graph;
      } else {
        graph := AudioGraph(nextHandle, nextHandle + 1);
        nextHandle := nextHandle + 2;
        openContexts := {graph.context};
      }
      var mode := if data.Some? then data.value.mode else 0;
      var img := if data.Some? then data.value.img else BLANK_IMAGE;
      data := Some(VisData(graph, fftSize, None, None, None, bufferLength, arrayL, arrayR, arrayM,
                           0.0, 0.0, 0.0, mode, img, None));
    }

    /** The GPU part of `setupVisContext`: a new draw buffer and the placeholder album-art texture. */
    method AttachBuffer()
      requires Valid() && data.Some? && webglAvailable
      modifies this
      ensures Valid() && data.Some?
      ensures data.value.drawBuf.Some? && data.value.drawBuf.value >= old(nextHandle)
      ensures data == Some(old(data).value.(drawBuf := data.value.drawBuf, albumImageTexture := Some(PLACEHOLDER_TEXTURE)))
      ensures liveBuffers == old(liveBuffers) + {data.value.drawBuf.value}
      ensures nextHandle > old(nextHandle) && openContexts == old(openContexts) && livePrograms == old(livePrograms)
      ensures intervalId == old(intervalId) && running == old(running) && liveIntervals == old(liveIntervals)
    {
      var buf := nextHandle;
      nextHandle := nextHandle + 1;
      liveBuffers := liveBuffers + {buf};
      data := Some(data.value.(drawBuf := Some(buf), albumImageTexture := Some(PLACEHOLDER_TEXTURE)));
    }

    /**
     * `updateShaderTexture()`: fails without a record or WebGL; otherwise the album-art
     * texture takes the parameters the image's size selects. Nothing else changes.
     */
    method UpdateShaderTexture() returns (o: Outcome)
      requires Valid()
      modifies this
      ensures Valid()
      ensures old(data).None? ==> o == Fail(ErrorText(MSG_NO_CONTEXT)) && data == old(data)
      ensures old(data).Some? && !webglAvailable ==> o == Fail(ErrorText(MSG_NO_WEBGL)) && data == old(data)
      ensures old(data).Some? && webglAvailable ==>
        o.Pass? && data == Some(old(data).value.(albumImageTexture :=
          Some(VisTexture(old(data).value.img.width, old(data).value.img.height))))
      ensures nextHandle == old(nextHandle) && openContexts == old(openContexts)
      ensures livePrograms == old(livePrograms) && liveBuffers == old(liveBuffers)
      ensures intervalId == old(intervalId) && running == old(running) && liveIntervals == old(liveIntervals)
    {
      if data.None? {
        return Fail(ErrorText(MSG_NO_CONTEXT));
      }
      if !webglAvailable {
        return Fail(ErrorText(MSG_NO_WEBGL));
      }
      var img := data.value.img;
      data := Some(data.value.(albumImageTexture := Some(VisTexture(img.width, img.height))));
      o := Pass;
    }

    /**
     * `updateVisMode()`: fails without a record or WebGL; otherwise deletes the current
     * program (and its buffer), rebuilds the context for the mode's FFT size, and finishes
     * with exactly one new live program for the mode's shader and the album-art texture set.
     */
    method UpdateVisMode() returns (o: Outcome)
      requires Valid()
      modifies this
      ensures Valid()
      ensures old(data).None? ==> o == Fail(ErrorText(MSG_NO_CONTEXT)) && data == old(data)
      ensures old(data).Some? && !webglAvailable ==> o == Fail(ErrorText(MSG_NO_WEBGL)) && data == old(data)
      ensures !(old(data).Some? && webglAvailable) ==>
        nextHandle == old(nextHandle) && livePrograms == old(livePrograms) && liveBuffers == old(liveBuffers)
      ensures old(data).Some? && webglAvailable ==>
        var d0 := old(data).value;
        var cfg := ModeConfigFor(d0.mode);
        && o.Pass? && data.Some?
        && data.value.mode == d0.mode
        && data.value.fftSize == cfg.fftSize && data.value.bufferLength == cfg.fftSize / 2
        && data.value.shader == Some(cfg.shader)
        && data.value.rmsL == 0.0 && data.value.rmsR == 0.0 && data.value.rmsM == 0.0
        && ProgramSwapped(d0, data.value, old(nextHandle), old(livePrograms), livePrograms, old(liveBuffers), liveBuffers)
      ensures openContexts == old(openContexts)
      ensures intervalId == old(intervalId) && running == old(running) && liveIntervals == old(liveIntervals)
    {
      if data.None? {
        return Fail(ErrorText(MSG_NO_CONTEXT));
      }
      if !webglAvailable {
        return Fail(ErrorText(MSG_NO_WEBGL));
      }
      DeleteProgram();
      var cfg := ModeConfigFor(data.value.mode);
      o := SetupVisContext(cfg.fftSize);
      assert o.Pass?;
      AttachProgram(cfg.shader);
      o := UpdateShaderTexture();
    }

    /**
     * The deletion step of `updateVisMode`: an existing program is deleted together with the draw buffer.
     * The source leaves the deleted buffer's handle in the record; it is dropped here, which no caller
     * can observe, because the record is replaced by `setupVisContext` right after.
     */
    method DeleteProgram()
      requires Valid() && data.Some?
      modifies this
      ensures Valid() && data.Some?
      ensures old(data).value.drawProgram.Some? ==>
        data == Some(old(data).value.(drawProgram := None, drawBuf := None))
        && livePrograms == old(livePrograms) - OptSet(old(data).value.drawProgram)
        && liveBuffers == old(liveBuffers) - OptSet(old(data).value.drawBuf)
      ensures old(data).value.drawProgram.None? ==>
        data == old(data) && livePrograms == old(livePrograms) && liveBuffers == old(liveBuffers)
      ensures nextHandle == old(nextHandle) && openContexts == old(openContexts)
      ensures intervalId == old(intervalId) && running == old(running) && liveIntervals == old(liveIntervals)
    {
      var d := data.value;
      if d.drawProgram.Some? {
        livePrograms := livePrograms - {d.drawProgram.value};
        liveBuffers := liveBuffers - OptSet(d.drawBuf);
        data := Some(d.(drawProgram := None, drawBuf := None));
      }
    }

    /** The program step of `updateVisMode`: a new program for the shader becomes the record's. */
    method AttachProgram(shader: ShaderId)
      requires Valid() && data.Some? && webglAvailable
      modifies this
      ensures Valid() && data.Some?
      ensures data.value.drawProgram.Some? && data.value.drawProgram.value >= old(nextHandle)
      ensures data == Some(old(data).value.(shader := Some(shader), drawProgram := data.value.drawProgram))
      ensures livePrograms == old(livePrograms) + {data.value.drawProgram.value}
      ensures nextHandle > old(nextHandle) && openContexts == old(openContexts) && liveBuffers == old(liveBuffers)
      ensures intervalId == old(intervalId) && running == old(running) && liveIntervals == old(liveIntervals)
    {
      var prog := nextHandle;
      nextHandle := nextHandle + 1;
      livePrograms := livePrograms + {prog};
      data := Some(data.value.(shader := Some(shader), drawProgram := Some(prog)));
    }

    /**
     * `updateShaderData()`: fails without a record; otherwise the channel arrays receive the
     * analyser's frequency data, the mono array their merge, and each smoothed loudness one
     * step of the moving average towards its raw reading (the mono reading is the mean of the
     * channel readings).
     */
    method UpdateShaderData(freqL: seq<Byte>, freqR: seq<Byte>, tdL: seq<Byte>, tdR: seq<Byte>, rootL: real, rootR: real)
      returns (o: Outcome)
      requires Valid()
      requires data.Some? ==> AnalyserReadings(data.value.bufferLength, freqL, freqR, tdL, tdR, rootL, rootR)
      modifies this, Arrays()
      ensures Valid()
      ensures old(data).None? ==> o == Fail(ErrorText(MSG_NO_CONTEXT)) && data == old(data)
      ensures old(data).Some? ==>
        var d0 := old(data).value;
        && o.Pass?
        && 0.0 <= rootL <= 1.0 && 0.0 <= rootR <= 1.0
        && data == Some(d0.(rmsL := Smooth(d0.rmsL, rootL), rmsR := Smooth(d0.rmsR, rootR),
                            rmsM := Smooth(d0.rmsM, MonoLoudness(rootL, rootR))))
        && d0.dataArrayL[..] == freqL && d0.dataArrayR[..] == freqR
        && d0.dataArrayM[..] == MonoMerge(freqL, freqR)
      ensures nextHandle == old(nextHandle) && openContexts == old(openContexts)
      ensures livePrograms == old(livePrograms) && liveBuffers == old(liveBuffers)
      ensures intervalId == old(intervalId) && running == old(running) && liveIntervals == old(liveIntervals)
    {
      if data.None? {
        return Fail(ErrorText(MSG_NO_CONTEXT));
      }
      var d := data.value;
      // getByteFrequencyData, then the merge
      CopyInto(freqL, d.dataArrayL);
      CopyInto(freqR, d.dataArrayR);
      MergeInto(d.dataArrayL, d.dataArrayR, d.dataArrayM);
      // getByteTimeDomainData into fresh buffers
      var timeDomainL := ArrayOf(tdL);
      var timeDomainR := ArrayOf(tdR);
      var msL := MeanSquareOf(timeDomainL);
      var msR := MeanSquareOf(timeDomainR);
      // Math.sqrt of each mean square
      RootBounded(rootL, msL);
      RootBounded(rootR, msR);
      var rmsLRaw := rootL;
      var rmsRRaw := rootR;
      var rmsMRaw := MonoLoudness(rmsLRaw, rmsRRaw);
      data := Some(d.(rmsL := Smooth(d.rmsL, rmsLRaw), rmsR := Smooth(d.rmsR, rmsRRaw), rmsM := Smooth(d.rmsM, rmsMRaw)));
      o := Pass;
    }

    /**
     * One run of the interval callback: a tick that finds the flag set does nothing; otherwise
     * it sets the flag, runs the update, and clears the flag only when the update returns.
     * An update that throws leaves the flag set, so every later tick does nothing until `init`.
     */
    method Tick(freqL: seq<Byte>, freqR: seq<Byte>, tdL: seq<Byte>, tdR: seq<Byte>, rootL: real, rootR: real)
      returns (o: Outcome)
      requires Valid() && intervalId.Some?
      requires data.Some? ==> AnalyserReadings(data.value.bufferLength, freqL, freqR, tdL, tdR, rootL, rootR)
      modifies this, Arrays()
      ensures Valid()
      ensures old(running) ==> o.Pass? && running && data == old(data)
      ensures old(running) && old(data).Some? ==>
        old(data).value.dataArrayL[..] == old(data.value.dataArrayL[..])
        && old(data).value.dataArrayR[..] == old(data.value.dataArrayR[..])
        && old(data).value.dataArrayM[..] == old(data.value.dataArrayM[..])
      ensures !old(running) ==> (o.Pass? <==> old(data).Some?) && (running <==> o.Fail?)
      ensures !old(running) && old(data).Some? ==>
        var d0 := old(data).value;
        data == Some(d0.(rmsL := Smooth(d0.rmsL, rootL), rmsR := Smooth(d0.rmsR, rootR),
                         rmsM := Smooth(d0.rmsM, MonoLoudness(rootL, rootR))))
        && d0.dataArrayM[..] == MonoMerge(freqL, freqR)
      ensures intervalId == old(intervalId) && liveIntervals == old(liveIntervals)
    {
      if running {
        return Pass;
      }
      running := true;
      o := UpdateShaderData(freqL, freqR, tdL, tdR, rootL, rootR);
      if o.Pass? {
        running := false;
      }
    }

    /**
     * `init()`: sets up the context with the default FFT size and the mode's program, then
     * replaces any running interval by a new one with the overlap flag cleared. It fails, with
     * the interval untouched, when setting up fails.
     */
    method Init() returns (o: Outcome)
      requires Valid()
      modifies this
      ensures Valid()
      ensures o.Pass? <==> canvasPresent && audioPresent && webglAvailable
      ensures o.Pass? ==>
        && intervalId.Some? && intervalId.value >= old(nextHandle)
        && liveIntervals == {intervalId.value} && !running
        && data.Some? && data.value.drawProgram.Some?
        && data.value.mode == (if old(data).Some? then old(data).value.mode else 0)
        && data.value.shader == Some(ModeConfigFor(data.value.mode).shader)
      ensures o.Fail? ==> intervalId == old(intervalId) && running == old(running) && liveIntervals == old(liveIntervals)
    {
      o := SetupVisContext(DEFAULT_FFT_SIZE);
      if o.Fail? {
        return;
      }
      o := UpdateVisMode();
      assert o.Pass?;
      RestartInterval();
    }

    /** The scheduling part of `init`: any running interval is cleared, with its flag, and a new one started. */
    method RestartInterval()
      requires Valid()
      modifies this
      ensures Valid()
      ensures intervalId.Some? && intervalId.value >= old(nextHandle) && liveIntervals == {intervalId.value} && !running
      ensures data == old(data) && nextHandle > old(nextHandle) && openContexts == old(openContexts)
      ensures livePrograms == old(livePrograms) && liveBuffers == old(liveBuffers)
    {
      if intervalId.Some? {
        // clearInterval(shaderUpdateIntervalId)
        liveIntervals := liveIntervals - {intervalId.value};
        running := false;
      }
      var id := nextHandle;
      nextHandle := nextHandle + 1;
      intervalId := Some(id);
      liveIntervals := liveIntervals + {id};
    }

    /** `clearContext()`: closes the audio context and drops the record; the interval keeps running. */
    method ClearContext()
      requires Valid()
      modifies this
      ensures Valid()
      ensures data.None? && openContexts == {}
      ensures nextHandle == old(nextHandle) && livePrograms == old(livePrograms) && liveBuffers == old(liveBuffers)
      ensures intervalId == old(intervalId) && running == old(running) && liveIntervals == old(liveIntervals)
    {
      if data.Some? {
        openContexts := openContexts - {data.value.graph.context};
        data := None;
      }
    }

    /**
     * `changeVisMode()`: fails without a record; otherwise moves to the next mode of the
     * table, wrapping around, and rebuilds the program for it (which fails without WebGL,
     * after the mode has moved).
     */
    method ChangeVisMode() returns (o: Outcome)
      requires Valid()
      modifies this
      ensures Valid()
      ensures old(data).None? ==> o == Fail(ErrorText(MSG_NO_CONTEXT)) && data == old(data)
      ensures old(data).Some? ==>
        && data.Some? && data.value.mode == NextVisMode(old(data).value.mode)
        && (o.Pass? <==> webglAvailable)
        && (o.Pass? ==>
              && data.value.drawProgram.Some?
              && data.value.shader == Some(MODE_MAP[data.value.mode].shader)
              && data.value.bufferLength == MODE_MAP[data.value.mode].fftSize / 2)
      ensures old(data).Some? && !webglAvailable ==>
        data == Some(old(data).value.(mode := NextVisMode(old(data).value.mode)))
        && nextHandle == old(nextHandle) && livePrograms == old(livePrograms) && liveBuffers == old(liveBuffers)
      ensures old(data).Some? && webglAvailable ==> ProgramSwapped(old(data).value, data.value,
        old(nextHandle), old(livePrograms), livePrograms, old(liveBuffers), liveBuffers)
      ensures openContexts == old(openContexts)
      ensures intervalId == old(intervalId) && running == old(running) && liveIntervals == old(liveIntervals)
    {
      if data.None? {
        return Fail(ErrorText(MSG_NO_CONTEXT));
      }
      data := Some(data.value.(mode := NextVisMode(data.value.mode)));
      o := UpdateVisMode();
    }

    /**
     * `setVisMode(mode)`: fails without a record, and fails without touching the mode when
     * it is outside the table; otherwise sets it, so that `getVisMode()` returns it, and
     * rebuilds the program for it.
     */
    method SetVisMode(mode: int) returns (o: Outcome)
      requires Valid()
      modifies this
      ensures Valid()
      ensures old(data).None? ==> o == Fail(ErrorText(MSG_NO_CONTEXT)) && data == old(data)
      ensures old(data).Some? && !(0 <= mode < |MODE_MAP|) ==>
        o == Fail(ErrorText(MSG_BAD_MODE)) && data == old(data) && GetVisMode() == old(GetVisMode())
      ensures old(data).Some? && 0 <= mode < |MODE_MAP| ==>
        && GetVisMode() == Ok(mode)
        && (o.Pass? <==> webglAvailable)
        && (o.Pass? ==>
              && data.value.drawProgram.Some?
              && data.value.shader == Some(MODE_MAP[mode].shader)
              && data.value.bufferLength == MODE_MAP[mode].fftSize / 2)
      ensures old(data).Some? && 0 <= mode < |MODE_MAP| && !webglAvailable ==>
        data == Some(old(data).value.(mode := mode))
        && nextHandle == old(nextHandle) && livePrograms == old(livePrograms) && liveBuffers == old(liveBuffers)
      ensures old(data).Some? && 0 <= mode < |MODE_MAP| && webglAvailable ==> ProgramSwapped(old(data).value, data.value,
        old(nextHandle), old(livePrograms), livePrograms, old(liveBuffers), liveBuffers)
      ensures !(old(data).Some? && 0 <= mode < |MODE_MAP|) ==>
        nextHandle == old(nextHandle) && livePrograms == old(livePrograms) && liveBuffers == old(liveBuffers)
      ensures openContexts == old(openContexts)
      ensures intervalId == old(intervalId) && running == old(running) && liveIntervals == old(liveIntervals)
    {
      if data.None? {
        return Fail(ErrorText(MSG_NO_CONTEXT));
      }
      if mode < 0 || mode >= |MODE_MAP| {
        return Fail(ErrorText(MSG_BAD_MODE));
      }
      data := Some(data.value.(mode := mode));
      o := UpdateVisMode();
    }

    /** `setupVisImg()`: fails without a record; otherwise the image's `onload` is set to update the texture. */
    method SetupVisImg() returns (o: Outcome)
      requires Valid()
      modifies this
      ensures Valid()
      ensures old(data).None? ==> o == Fail(ErrorText(MSG_NO_CONTEXT)) && data == old(data)
      ensures old(data).Some? ==> o.Pass? && data == Some(old(data).value.(img := old(data).value.img.(onloadSet := true)))
      ensures nextHandle == old(nextHandle) && livePrograms == old(livePrograms) && liveBuffers == old(liveBuffers)
      ensures intervalId == old(intervalId) && running == old(running) && liveIntervals == old(liveIntervals)
    {
      if data.None? {
        return Fail(ErrorText(MSG_NO_CONTEXT));
      }
      data := Some(data.value.(img := data.value.img.(onloadSet := true)));
      o := Pass;
    }

    /** `setVisImg(src)`: fails without a record; otherwise the image starts loading from `src`. */
    method SetVisImg(src: string) returns (o: Outcome)
      requires Valid()
      modifies this
      ensures Valid()
      ensures old(data).None? ==> o == Fail(ErrorText(MSG_NO_CONTEXT)) && data == old(data)
      ensures old(data).Some? ==> o.Pass? && data == Some(old(data).value.(img := old(data).value.img.(src := src)))
      ensures nextHandle == old(nextHandle) && livePrograms == old(livePrograms) && liveBuffers == old(liveBuffers)
      ensures intervalId == old(intervalId) && running == old(running) && liveIntervals == old(liveIntervals)
    {
      if data.None? {
        return Fail(ErrorText(MSG_NO_CONTEXT));
      }
      data := Some(data.value.(img := data.value.img.(src := src)));
      o := Pass;
    }

    /**
     * The browser finishing a load of the current image at the given size: with `onload`
     * set, the texture is updated for the new size.
     */
    method OnImageLoad(width: Uint32, height: Uint32) returns (o: Outcome)
      requires Valid() && data.Some?
      modifies this
      ensures Valid() && data.Some?
      ensures data.value.img == old(data).value.img.(width := width, height := height)
      ensures o.Pass? <==> !old(data).value.img.onloadSet || webglAvailable
      ensures old(data).value.img.onloadSet && webglAvailable ==>
        data.value.albumImageTexture == Some(VisTexture(width, height))
      ensures !old(data).value.img.onloadSet ==> data.value.albumImageTexture == old(data).value.albumImageTexture
    {
      data := Some(data.value.(img := data.value.img.(width := width, height := height)));
      if data.value.img.onloadSet {
        o := UpdateShaderTexture();
      } else {
        o := Pass;
      }
    }
  }

  /** Three mode changes in a row bring a visualizer with WebGL back to its starting mode. */
  method ChangeModeThrice(v: AsaVis) returns (o: Outcome)
    requires v.Valid() && v.data.Some? && v.webglAvailable
    modifies v
    ensures v.Valid() && o.Pass?
    ensures v.GetVisMode() == old(v.GetVisMode())
  {
    ghost var start: nat := v.data.value.mode;
    o := v.ChangeVisMode();
    o := v.ChangeVisMode();
    o := v.ChangeVisMode();
    assert v.data.value.mode == AfterChanges(start, 3);
    ChangesCycle(start);
  }
}
