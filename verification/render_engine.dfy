/** The state `VulkanBackend` keeps between calls, and the integer and
    sequence bookkeeping of `render`, `makeLoader`, `bakeProbe` and `bake`
    with the Vulkan work removed. What the GPU is asked to do is recorded as
    a list of dispatches; the pixels it computes are not modelled, except
    that a baked probe's texture is the parameter `gpu` applied to the
    probe's grid cell. */
module RenderEngine {
  import opened Config
  import opened FramebufferLayout
  import opened Queues
  import opened GridIndex
  import opened AdaptiveTiles
  import opened RenderPacking
  import opened ByteCodec
  import opened ProbeFile
  import opened ProbeBake

  /** `(x + 1) & 1`: the other index of a ping-pong pair. */
  function Toggle(x: nat): (y: nat)
    ensures y < 2
    ensures x < 2 ==> y == 1 - x
  {
    (x + 1) % 2
  }

  /** The index after k frames. */
  function Toggled(x: nat, k: nat): nat
  {
    if k == 0 then x else Toggle(Toggled(x, k - 1))
  }

  /** Consecutive frames alternate between the two descriptor sets and the
      two render queues: after k frames the index is the start index
      shifted by k, modulo 2. */
  lemma {:induction false} ToggledAlternates(x: nat, k: nat)
    requires x < 2
    ensures Toggled(x, k) == (x + k) % 2
  {
    if k > 0 {
      ToggledAlternates(x, k - 1);
      ParityStep(x + k - 1);
    }
  }

  /** Toggling the parity of n gives the parity of n + 1. */
  lemma ParityStep(n: nat)
    ensures Toggle(n % 2) == (n + 1) % 2
  {
    var q := n / 2;
    if n % 2 == 0 {
      assert n + 1 == 2 * q + 1;
    } else {
      assert n + 1 == 2 * (q + 1);
    }
  }

  /** `max_adaptive_iters`. */
  const MaxAdaptiveIters: nat := 10000

  /** `64`: the sample stride of bakeProbe's dispatch loop. */
  const BakeSampleStride: nat := 64

  /** A dispatch recorded into the command buffer, with the integers it
      carries. */
  datatype Dispatch =
    | TileDispatch(numTiles: nat)                 // adaptive pass: one workgroup per work-list entry
    | GridDispatch(size: LaunchSize)              // full-frame path tracing
    | DenoisePass                                 // the external denoiser
    | ExposureDispatch(images: nat)
    | TonemapDispatch(size: LaunchSize)
    | BakeDispatch(probeIdx: nat, size: LaunchSize)

  /** What one `render` call did: the descriptor set and queue it used, the
      packing it wrote, the adaptive work list, how many refine passes ran,
      the dispatches in order, and how many command buffers it submitted. */
  datatype FrameTrace = FrameTrace(
    rtSet: nat,
    queue: nat,
    packing: Packing,
    workList: seq<InputTile>,
    refinePasses: nat,
    dispatches: seq<Dispatch>,
    submits: nat)

  /** What one `bakeProbe` call did. */
  datatype ProbeTrace = ProbeTrace(rtSet: nat, packing: Packing, dispatches: seq<Dispatch>)

  /** The dispatches of bakeProbe's loop: one per 64 samples, the push
      constant `probeIdx` set to `i * 64` for sample offset `i`. */
  function BurstDispatches(spp: nat, size: LaunchSize): (ds: seq<Dispatch>)
    ensures |ds| == LaunchesPerTile(spp, BakeSampleStride)
  {
    seq(LaunchesPerTile(spp, BakeSampleStride),
        j requires 0 <= j < LaunchesPerTile(spp, BakeSampleStride) =>
          BakeDispatch(j * BakeSampleStride * BakeSampleStride, size))
  }

  /** Every sample offset below spp on a multiple of 64 gets a dispatch, and
      no other: the push constants step by 64 * 64. */
  lemma BurstCoversSamples(spp: nat, size: LaunchSize, i: nat)
    ensures i % BakeSampleStride == 0 && i < spp ==>
      BakeDispatch(i * BakeSampleStride, size) in BurstDispatches(spp, size)
    ensures forall d :: d in BurstDispatches(spp, size) ==>
      d.BakeDispatch? && d.probeIdx % (BakeSampleStride * BakeSampleStride) == 0 &&
      d.probeIdx < (spp + BakeSampleStride) * BakeSampleStride
  {
    var n := LaunchesPerTile(spp, BakeSampleStride);
    var ds := BurstDispatches(spp, size);
    if i % BakeSampleStride == 0 && i < spp {
      var j := i / BakeSampleStride;
      assert j * BakeSampleStride == i;
      assert j < n;
      assert ds[j] == BakeDispatch(i * BakeSampleStride, size);
    }
    forall d | d in ds
      ensures d.BakeDispatch? && d.probeIdx % (BakeSampleStride * BakeSampleStride) == 0 &&
              d.probeIdx < (spp + BakeSampleStride) * BakeSampleStride
    {
      var j :| 0 <= j < |ds| && ds[j] == d;
      assert j * BakeSampleStride < spp;
    }
  }

  /** The per-batch state of a `VulkanBatch` (or of the probe generator's
      batch) that the model tracks: which of its two descriptor sets the
      next frame binds. */
  class BatchBackend {
    var curBuffer: nat

    constructor()
      ensures curBuffer == 0
    {
      curBuffer := 0;
    }
  }

  class Backend {
    const cfg: RenderConfig
    const vk: VulkanConfig
    const sizes: StructSizes
    const fbCfg: FramebufferConfig
    const launchSize: LaunchSize
    const numComputeQueues: nat
    const numTransferQueues: nat
    /** `cfg_.denoise && rcfg_.mode == RenderMode::PathTracer`. */
    const denoise: bool

    var numLoaders: nat
    var curQueue: nat
    var frameCounter: nat
    var probes: seq<ProbeBytes>
    var probeGen: BatchBackend?

    predicate Valid()
      reads this
    {
      && vk.Valid() && cfg.batchSize > 0
      && numComputeQueues >= 2 && numTransferQueues > 0
      && curQueue < 2
    }

    /** The planes `render` reads exist. The adaptive readback copies the
        illuminance plane, allocated only when tonemapping, and the denoiser
        reads the albedo and normal planes, allocated only with auxiliary
        outputs; their slots are -1 otherwise, and indexing the outputs with
        -1 is undefined. */
    predicate PlanesRead()
      reads this
    {
      && (cfg.adaptiveSampling ==> cfg.tonemap)
      && (denoise ==> cfg.auxiliaryOutputs)
    }

    /** The constructor: no loader yet, queue 0, frame counter 0, no probes. */
    constructor(cfg: RenderConfig, vk: VulkanConfig, sizes: StructSizes,
                numComputeQueues: nat, numTransferQueues: nat, denoise: bool)
      requires vk.Valid() && cfg.batchSize > 0
      requires numComputeQueues >= 2 && numTransferQueues > 0
      ensures Valid()
      ensures fbCfg == FramebufferConfigOf(cfg, vk, sizes) && launchSize == GetLaunchSize(cfg, vk)
      ensures this.cfg == cfg && this.vk == vk && this.sizes == sizes && this.denoise == denoise
      ensures this.numComputeQueues == numComputeQueues && this.numTransferQueues == numTransferQueues
      ensures numLoaders == 0 && curQueue == 0 && frameCounter == 0 && probes == [] && probeGen == null
    {
      this.cfg := cfg;
      this.vk := vk;
      this.sizes := sizes;
      this.fbCfg := FramebufferConfigOf(cfg, vk, sizes);
      this.launchSize := GetLaunchSize(cfg, vk);
      this.numComputeQueues := numComputeQueues;
      this.numTransferQueues := numTransferQueues;
      this.denoise := denoise;
      numLoaders := 0;
      curQueue := 0;
      frameCounter := 0;
      probes := [];
      probeGen := null;
    }

    // -------------------------------------------------------------------
    // makeLoader

    /** makeLoader: take the next loader index (the counter moves even when
        the assert then fails) and pick its transfer and compute queues. */
    method MakeLoader() returns (r: Result<LoaderQueues>)
      requires Valid()
      modifies this
      ensures Valid()
      ensures numLoaders == old(numLoaders) + 1
      ensures curQueue == old(curQueue) && frameCounter == old(frameCounter)
      ensures probes == old(probes) && probeGen == old(probeGen)
      ensures old(numLoaders) < cfg.numLoaders ==>
        r == Ok(PickLoaderQueues(old(numLoaders), numComputeQueues, numTransferQueues))
      ensures old(numLoaders) >= cfg.numLoaders ==> r.Err?
    {
      var loaderIdx := numLoaders;
      numLoaders := numLoaders + 1;
      if loaderIdx >= cfg.numLoaders {
        return Err("loader index reaches maxLoaders");
      }
      r := Ok(PickLoaderQueues(loaderIdx, numComputeQueues, numTransferQueues));
    }

    // -------------------------------------------------------------------
    // render

    /** The refine loop of the adaptive branch: each pass advances the frame
        counter, re-examines every tile and stops once no tile is queued. As
        written, processAdaptiveTile never queues one, so exactly one pass
        runs and nothing more is dispatched or submitted. */
    method RefineAdaptive() returns (passes: nat, dispatches: seq<Dispatch>, submits: nat)
      requires Valid()
      modifies this
      ensures Valid()
      ensures passes == 1 && dispatches == [] && submits == 0
      ensures frameCounter == old(frameCounter) + cfg.batchSize
      ensures curQueue == old(curQueue) && numLoaders == old(numLoaders)
      ensures probes == old(probes) && probeGen == old(probeGen)
    {
      passes := 0;
      dispatches := [];
      submits := 0;
      var adaptiveIter := 0;
      var done := false;
      while adaptiveIter < MaxAdaptiveIters && !done
        invariant Valid()
        invariant adaptiveIter == 0
        invariant passes == (if done then 1 else 0)
        invariant frameCounter == old(frameCounter) + (if done then cfg.batchSize else 0)
        invariant dispatches == [] && submits == 0
        invariant curQueue == old(curQueue) && numLoaders == old(numLoaders)
        invariant probes == old(probes) && probeGen == old(probeGen)
        decreases if done then 0 else 1
      {
        frameCounter := frameCounter + cfg.batchSize;
        passes := passes + 1;
        var visited, queued := ProcessAllTiles(cfg.batchSize, fbCfg.numTilesTall, fbCfg.numTilesWide);
        var numTiles: nat := |queued|;
        done := numTiles == 0;
        dispatches := dispatches + (if done then [] else [TileDispatch(numTiles)]);
        submits := submits + (if done then 0 else 1);
        adaptiveIter := adaptiveIter + (if done then 0 else 1);
      }
    }

    /** The dispatch of the frame proper: the adaptive work list and its
        refine loop, or one full-frame launch. */
    method RenderPasses() returns (workList: seq<InputTile>, passes: nat,
                                   dispatches: seq<Dispatch>, submits: nat)
      requires Valid() && PlanesRead()
      modifies this
      ensures Valid()
      ensures frameCounter == old(frameCounter) + cfg.batchSize
      ensures curQueue == old(curQueue) && numLoaders == old(numLoaders)
      ensures probes == old(probes) && probeGen == old(probeGen)
      ensures cfg.adaptiveSampling ==>
        && WorkListUpTo(workList,
             cfg.batchSize * fbCfg.numTilesTall * fbCfg.numTilesWide
               * LaunchesPerTile(cfg.spp, vk.adaptiveSamplesPerThread),
             LaunchesPerTile(cfg.spp, vk.adaptiveSamplesPerThread),
             fbCfg.numTilesWide, fbCfg.numTilesTall, vk.adaptiveSamplesPerThread)
        && passes == 1 && dispatches == [TileDispatch(|workList|)] && submits == 1
      ensures !cfg.adaptiveSampling ==>
        workList == [] && passes == 0 && dispatches == [GridDispatch(launchSize)] && submits == 0
    {
      if cfg.adaptiveSampling {
        workList := BuildWorkList(cfg.batchSize, fbCfg.numTilesTall, fbCfg.numTilesWide,
                                  cfg.spp, vk.adaptiveSamplesPerThread);
        dispatches := [TileDispatch(|workList|)];
        submits := 1;
        var refineDispatches, refineSubmits;
        passes, refineDispatches, refineSubmits := RefineAdaptive();
        dispatches := dispatches + refineDispatches;
        submits := submits + refineSubmits;
      } else {
        workList := [];
        passes := 0;
        dispatches := [GridDispatch(launchSize)];
        submits := 0;
        frameCounter := frameCounter + cfg.batchSize;
      }
    }

    /** render: TLAS pass, packing, the frame's dispatches, the optional
        denoise and tonemap passes, the final submit on the current queue,
        then both ping-pong indices move on. */
    method Render(batch: BatchBackend, envs: array<EnvState>) returns (trace: FrameTrace)
      requires Valid() && PlanesRead() && envs.Length == cfg.batchSize
      modifies this, batch, envs
      ensures Valid()
      ensures envs[..] == SettleAll(old(envs[..]))
      ensures trace.packing == Pack(old(envs[..]), None)
      ensures trace.rtSet == old(batch.curBuffer) && trace.queue == old(curQueue)
      ensures batch.curBuffer == Toggle(old(batch.curBuffer)) && curQueue == Toggle(old(curQueue))
      ensures frameCounter == old(frameCounter) + cfg.batchSize
      ensures numLoaders == old(numLoaders) && probes == old(probes) && probeGen == old(probeGen)
      ensures cfg.adaptiveSampling ==>
        && WorkListUpTo(trace.workList,
             cfg.batchSize * fbCfg.numTilesTall * fbCfg.numTilesWide
               * LaunchesPerTile(cfg.spp, vk.adaptiveSamplesPerThread),
             LaunchesPerTile(cfg.spp, vk.adaptiveSamplesPerThread),
             fbCfg.numTilesWide, fbCfg.numTilesTall, vk.adaptiveSamplesPerThread)
        && trace.refinePasses == 1
      ensures !cfg.adaptiveSampling ==> trace.workList == [] && trace.refinePasses == 0
      ensures trace.dispatches ==
        [if cfg.adaptiveSampling then TileDispatch(|trace.workList|) else GridDispatch(launchSize)]
        + (if denoise then [DenoisePass] else [])
        + (if cfg.tonemap then [ExposureDispatch(cfg.batchSize), TonemapDispatch(launchSize)] else [])
      ensures trace.submits == (if cfg.adaptiveSampling then 1 else 0) + (if denoise then 1 else 0) + 1
    {
      var rtSet := batch.curBuffer;
      var queue := curQueue;
      ghost var input := envs[..];
      BuildTlases(envs);
      assert envs[..] == TlasPass(input);
      var packing := PackEnvironments(envs, None);
      PackIgnoresTlasPass(input, None);
      var workList, passes, dispatches, submits := RenderPasses();
      if denoise {
        submits := submits + 1;
        dispatches := dispatches + [DenoisePass];
      }
      if cfg.tonemap {
        dispatches := dispatches + [ExposureDispatch(cfg.batchSize), TonemapDispatch(launchSize)];
      }
      submits := submits + 1;
      batch.curBuffer := Toggle(batch.curBuffer);
      curQueue := Toggle(curQueue);
      trace := FrameTrace(rtSet, queue, packing, workList, passes, dispatches, submits);
    }

    // -------------------------------------------------------------------
    // bakeProbe and bake

    /** The dispatch loop of bakeProbe: `for (i = 0; i < spp; i += 64)` with
        `probeIdx = i * 64`. */
    method BurstLoop() returns (dispatches: seq<Dispatch>)
      requires Valid()
      ensures dispatches == BurstDispatches(cfg.spp, launchSize)
    {
      var n := LaunchesPerTile(cfg.spp, BakeSampleStride);
      dispatches := [];
      var i := 0;
      ghost var k: nat := 0;
      while i < cfg.spp
        invariant i == k * BakeSampleStride
        invariant k == 0 || i < cfg.spp + BakeSampleStride
        invariant k <= n
        invariant dispatches == BurstDispatches(cfg.spp, launchSize)[..k]
        decreases cfg.spp - i
      {
        assert k < n;
        dispatches := dispatches + [BakeDispatch(i * BakeSampleStride, launchSize)];
        i := i + BakeSampleStride;
        k := k + 1;
      }
      assert k == 0 || (k - 1) * BakeSampleStride < cfg.spp;
      LaunchCountUnique(k, cfg.spp, BakeSampleStride);
    }

    /** bakeProbe: on the probe generator's batch, bind descriptor set 0
        whatever the batch's ping-pong index, run the TLAS pass and pack
        every environment with the probe camera at `cell`, dispatch the
        sample loop, advance the frame counter, and put the batch's index
        back. The queue index does not move. */
    method BakeProbe(gen: BatchBackend, envs: array<EnvState>, cell: Cell, gpu: Cell -> ProbeBytes)
      returns (probe: ProbeBytes, trace: ProbeTrace)
      requires Valid() && envs.Length == cfg.batchSize
      modifies this, gen, envs
      ensures Valid()
      ensures probe == gpu(cell)
      ensures gen.curBuffer == old(gen.curBuffer)
      ensures trace.rtSet == 0
      ensures trace.packing == Pack(old(envs[..]), Some(ProbeCamera(cell)))
      ensures trace.dispatches == BurstDispatches(cfg.spp, launchSize)
      ensures envs[..] == SettleAll(old(envs[..]))
      ensures frameCounter == old(frameCounter) + cfg.batchSize
      ensures curQueue == old(curQueue) && numLoaders == old(numLoaders)
      ensures probes == old(probes) && probeGen == old(probeGen)
    {
      var prevCurBuffer := gen.curBuffer;
      gen.curBuffer := 0;
      var rtSet := gen.curBuffer;
      ghost var input := envs[..];
      BuildTlases(envs);
      assert envs[..] == TlasPass(input);
      var packing := PackEnvironments(envs, Some(ProbeCamera(cell)));
      PackIgnoresTlasPass(input, Some(ProbeCamera(cell)));
      var dispatches := BurstLoop();
      frameCounter := frameCounter + cfg.batchSize;
      probe := gpu(cell);
      gen.curBuffer := prevCurBuffer;
      trace := ProbeTrace(rtSet, packing, dispatches);
    }

    /** The load loop of `bake`, pushing what it reads onto `probes_`. */
    method LoadLoop(body: seq<Byte>, unread: ProbeBytes)
      requires Valid()
      modifies this
      ensures Valid()
      ensures probes == old(probes) + Materialise(LoadLoopAsWritten(body), unread)
      ensures numLoaders == old(numLoaders) && curQueue == old(curQueue)
      ensures frameCounter == old(frameCounter) && probeGen == old(probeGen)
    {
      var pushed := ReadAllProbes(body, unread);
      PendingIsLoadLoop(body, unread);
      probes := probes + pushed;
    }

    /** The load branch of `bake` on an existing file: read the dims, check
        them against PROBE_DIM (an assert in the source), then the load loop. */
    method LoadFile(file: seq<Byte>, unread: ProbeBytes) returns (err: Option<string>)
      requires Valid()
      modifies this
      ensures Valid()
      ensures var loaded := LoadProbeFileAsWritten(file);
        && (loaded.Err? ==> err == Some(loaded.msg) && probes == old(probes))
        && (loaded.Ok? ==> err == None && probes == old(probes) + Materialise(loaded.value, unread))
      ensures numLoaders == old(numLoaders) && curQueue == old(curQueue)
      ensures frameCounter == old(frameCounter) && probeGen == old(probeGen)
    {
      if |file| < HeaderBytes {
        return Some("probe file shorter than its dims header");
      }
      var dims := DecodeHeader(file[..HeaderBytes]);
      if dims != ProbeDim {
        return Some("probe file dims differ from PROBE_DIM");
      }
      LoadLoop(file[HeaderBytes..], unread);
      err := None;
    }

    /** The grid cells of the probes left: `idx = start + i` split into
        x, y and z. */
    method ProbePositions(start: nat, left: nat) returns (cells: seq<Cell>)
      ensures cells == ProbeCells(start, left)
    {
      cells := [];
      for i := 0 to left
        invariant cells == ProbeCells(start, i)
      {
        var idx := start + i;
        cells := cells + [Delinear(idx, ProbeDimX, ProbeDimY, ProbeDimZ)];
      }
    }

    /** One pass of the bake loop: `probes_.push_back(bakeProbe(...))`, then
        `serializeProbeToFile(file, probes_[i])`. */
    method BakeStep(gen: BatchBackend, envs: array<EnvState>, cell: Cell, gpu: Cell -> ProbeBytes,
                    i: nat, header: seq<Byte>, file: seq<Byte>)
      returns (out: seq<Byte>)
      requires Valid() && envs.Length == cfg.batchSize
      requires i <= |probes| && file == header + EncodeRecords(probes[..i])
      modifies this, gen, envs
      ensures Valid()
      ensures probes == old(probes) + [gpu(cell)]
      ensures out == header + EncodeRecords(probes[..i + 1])
      ensures envs[..] == SettleAll(old(envs[..]))
      ensures frameCounter == old(frameCounter) + cfg.batchSize
      ensures curQueue == old(curQueue) && numLoaders == old(numLoaders)
      ensures probeGen == old(probeGen) && gen.curBuffer == old(gen.curBuffer)
    {
      var p, trace := BakeProbe(gen, envs, cell, gpu);
      ghost var written := probes[..i];
      probes := probes + [p];
      assert probes[..i] == written;
      assert probes[..i + 1] == written + [probes[i]];
      AppendRecord(header, written, probes[i]);
      out := file + EncodeRecord(probes[i]);
    }

    /** The bake loop of `bake`: for each position bake a probe, push it,
        and append the record of `probes_[i]` to the file. */
    method BakeEach(gen: BatchBackend, envs: array<EnvState>, cells: seq<Cell>,
                    header: seq<Byte>, gpu: Cell -> ProbeBytes)
      returns (out: seq<Byte>)
      requires Valid() && envs.Length == cfg.batchSize
      requires cells == ProbeCells(|probes|, |cells|)
      modifies this, gen, envs
      ensures Valid()
      ensures probes == old(probes) + BakedProbes(|old(probes)|, |cells|, gpu)
      ensures out == header + EncodeRecords(probes[..|cells|])
      ensures frameCounter == old(frameCounter) + |cells| * cfg.batchSize
      ensures envs[..] == if |cells| == 0 then old(envs[..]) else SettleAll(old(envs[..]))
      ensures numLoaders == old(numLoaders) && curQueue == old(curQueue)
      ensures probeGen == old(probeGen) && gen.curBuffer == old(gen.curBuffer)
    {
      out := header;
      ghost var start := |probes|;
      ghost var before := probes;
      ghost var input := envs[..];
      var b := cfg.batchSize;
      for i := 0 to |cells|
        invariant Valid()
        invariant probes == before + BakedProbes(start, i, gpu)
        invariant out == header + EncodeRecords(probes[..i])
        invariant frameCounter == old(frameCounter) + i * b
        invariant envs[..] == if i == 0 then input else SettleAll(input)
        invariant numLoaders == old(numLoaders) && curQueue == old(curQueue)
        invariant probeGen == old(probeGen) && gen.curBuffer == old(gen.curBuffer)
      {
        out := BakeStep(gen, envs, cells[i], gpu, i, header, out);
        SettleAllIdempotent(input);
        BakedProbesStep(start, i, gpu);
        assert (i + 1) * b == i * b + b;
      }
    }

    /** The baking half of `bake`: create the probe generator, list the
        positions of the probes left, append a dims header to the file and
        run the bake loop. */
    method BakeRemaining(envs: array<EnvState>, file: seq<Byte>, gpu: Cell -> ProbeBytes)
      returns (out: seq<Byte>, baked: nat)
      requires Valid() && envs.Length == cfg.batchSize
      modifies this, envs
      ensures Valid()
      ensures BakeOutcome(probes, out, baked) == AppendAsWritten(file, old(probes), gpu)
      ensures frameCounter == old(frameCounter) + baked * cfg.batchSize
      ensures envs[..] == if baked == 0 then old(envs[..]) else SettleAll(old(envs[..]))
      ensures numLoaders == old(numLoaders) && curQueue == old(curQueue)
      ensures probeGen != null && fresh(probeGen) && probeGen.curBuffer == 0
    {
      var gen := new BatchBackend();
      probeGen := gen;
      var start := |probes|;
      var left := LeftAsWritten(ProbeCount, start);
      var cells := ProbePositions(start, left);
      out := BakeEach(gen, envs, cells, file + EncodeHeader(ProbeDim), gpu);
      baked := left;
    }

    /** bake: load the existing probe file if there is one, then bake the
        probes left and append them to the file. Returns the new file. */
    method Bake(envs: array<EnvState>, existing: Option<seq<Byte>>, gpu: Cell -> ProbeBytes,
                unread: ProbeBytes)
      returns (r: Result<seq<Byte>>)
      requires Valid() && envs.Length == cfg.batchSize
      modifies this, envs
      ensures Valid()
      ensures var spec := BakeAsWritten(existing, old(probes), gpu, unread);
        && (spec.Err? ==> r == Err(spec.msg))
        && (spec.Ok? ==> r == Ok(spec.value.file) && probes == spec.value.probes
                         && frameCounter == old(frameCounter) + spec.value.baked * cfg.batchSize)
        && (spec.Ok? ==> envs[..] == if spec.value.baked == 0 then old(envs[..]) else SettleAll(old(envs[..])))
      ensures numLoaders == old(numLoaders) && curQueue == old(curQueue)
    {
      var file: seq<Byte> := [];
      if existing.Some? {
        var err := LoadFile(existing.value, unread);
        if err.Some? {
          return Err(err.value);
        }
        file := existing.value;
      } else {
        assert old(probes) + Materialise([], unread) == probes;
      }
      var out, baked := BakeRemaining(envs, file, gpu);
      r := Ok(out);
    }
  }
}
