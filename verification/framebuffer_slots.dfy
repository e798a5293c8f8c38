/** Output-buffer slots of a framebuffer (makeFramebuffer): the slot numbers
    the renderer uses to find each plane, and the buffers actually allocated,
    in allocation order. */
module FramebufferSlots {
  import opened Config
  import opened FramebufferLayout

  datatype Plane = Output | Hdr | Normal | Albedo | Illuminance | Adaptive

  /** One dedicated device buffer, tagged with the plane it holds. */
  datatype Buffer = Buffer(plane: Plane, bytes: nat)

  datatype FramebufferState = FramebufferState(
    outputs: seq<Buffer>,
    exported: seq<Buffer>,
    reservoirs: seq<nat>,
    adaptiveReadbackBytes: nat,
    exposureReadbackBytes: nat,
    hasReadbacks: bool,
    outputIdx: int,
    hdrIdx: int,
    normalIdx: int,
    albedoIdx: int,
    illuminanceIdx: int,
    adaptiveIdx: int)

  /** Whether a plane is allocated under the given feature flags. */
  predicate Enabled(cfg: RenderConfig, p: Plane)
  {
    match p
    case Output => true
    case Hdr => true
    case Normal => cfg.auxiliaryOutputs
    case Albedo => cfg.auxiliaryOutputs
    case Illuminance => cfg.tonemap
    case Adaptive => cfg.adaptiveSampling
  }

  /** Bytes of a plane's buffer in the framebuffer layout. */
  function PlaneBytes(fb: FramebufferConfig, p: Plane): nat
  {
    match p
    case Output => fb.outputBytes
    case Hdr => fb.hdrBytes
    case Normal => fb.normalBytes
    case Albedo => fb.albedoBytes
    case Illuminance => fb.illuminanceBytes
    case Adaptive => fb.adaptiveBytes
  }

  /** The slot number recorded for a plane (-1 when it is not allocated). */
  function SlotOf(st: FramebufferState, p: Plane): int
  {
    match p
    case Output => st.outputIdx
    case Hdr => st.hdrIdx
    case Normal => st.normalIdx
    case Albedo => st.albedoIdx
    case Illuminance => st.illuminanceIdx
    case Adaptive => st.adaptiveIdx
  }

  /** One plane's slot agrees with the allocation: when the plane is enabled
      its slot names the buffer allocated for it, with the layout's size;
      when it is disabled its slot is -1. */
  predicate SlotOk(st: FramebufferState, cfg: RenderConfig, fb: FramebufferConfig, p: Plane)
  {
    if Enabled(cfg, p) then Placed(st.outputs, fb, p, SlotOf(st, p))
    else
      SlotOf(st, p) == -1
  }

  /** Buffer `idx` of `outputs` holds plane `p` with the layout's size. */
  predicate Placed(outputs: seq<Buffer>, fb: FramebufferConfig, p: Plane, idx: int)
  {
    0 <= idx < |outputs| && outputs[idx] == Buffer(p, PlaneBytes(fb, p))
  }

  /** Every allocated buffer holds a plane the flags enable. */
  predicate AllEnabled(outputs: seq<Buffer>, cfg: RenderConfig)
  {
    forall i :: 0 <= i < |outputs| ==> Enabled(cfg, outputs[i].plane)
  }

  /** Position of a plane in makeFramebuffer's allocation order. */
  function AllocationRank(p: Plane): nat
  {
    match p
    case Output => 0
    case Hdr => 1
    case Normal => 2
    case Albedo => 3
    case Illuminance => 4
    case Adaptive => 5
  }

  /** Buffers appear in allocation order, so no plane is allocated twice. */
  predicate InAllocationOrder(outputs: seq<Buffer>)
  {
    forall i, j :: 0 <= i < j < |outputs| ==>
      AllocationRank(outputs[i].plane) < AllocationRank(outputs[j].plane)
  }

  lemma AppendInOrder(outputs: seq<Buffer>, b: Buffer)
    requires InAllocationOrder(outputs)
    requires |outputs| > 0 ==> AllocationRank(outputs[|outputs| - 1].plane) < AllocationRank(b.plane)
    ensures InAllocationOrder(outputs + [b])
  {
  }

  /** Every plane's slot agrees with the allocation, every allocated buffer
      holds an enabled plane, and buffers are in allocation order (so no
      plane is allocated twice). */
  predicate SlotsMatch(st: FramebufferState, cfg: RenderConfig, fb: FramebufferConfig)
  {
    && SlotOk(st, cfg, fb, Output) && SlotOk(st, cfg, fb, Hdr)
    && SlotOk(st, cfg, fb, Normal) && SlotOk(st, cfg, fb, Albedo)
    && SlotOk(st, cfg, fb, Illuminance) && SlotOk(st, cfg, fb, Adaptive)
    && AllEnabled(st.outputs, cfg)
    && InAllocationOrder(st.outputs)
  }

  /** SlotsMatch, restated for an arbitrary plane. */
  lemma SlotOkAll(st: FramebufferState, cfg: RenderConfig, fb: FramebufferConfig, p: Plane)
    requires SlotsMatch(st, cfg, fb)
    ensures SlotOk(st, cfg, fb, p)
  {
  }

  /** Number of output buffers (num_buffers) under the given flags. */
  function NumBuffers(cfg: RenderConfig): nat
  {
    2 + (if cfg.auxiliaryOutputs then 2 else 0) + (if cfg.tonemap then 1 else 0)
      + (if cfg.adaptiveSampling then 1 else 0)
  }

  /** makeFramebuffer. Slot numbers are handed out first, by incrementing
      `numBuffers`; the buffers are then allocated in the same order. */
  method MakeFramebuffer(cfg: RenderConfig, fb: FramebufferConfig) returns (st: FramebufferState)
    ensures SlotsMatch(st, cfg, fb)
    ensures |st.outputs| == NumBuffers(cfg)
    ensures st.outputIdx == 0 && st.hdrIdx == 1
    ensures st.normalIdx == (if cfg.auxiliaryOutputs then 2 else -1)
    ensures st.albedoIdx == (if cfg.auxiliaryOutputs then 3 else -1)
    ensures st.illuminanceIdx ==
              (if cfg.tonemap then (if cfg.auxiliaryOutputs then 4 else 2) else -1)
    ensures st.adaptiveIdx == (if cfg.adaptiveSampling then NumBuffers(cfg) - 1 else -1)
    ensures st.exported == [Buffer(Output, fb.outputBytes)] +
              (if cfg.auxiliaryOutputs
               then [Buffer(Normal, fb.normalBytes), Buffer(Albedo, fb.albedoBytes)] else [])
    ensures st.reservoirs == [fb.reservoirBytes, fb.reservoirBytes]
    ensures st.hasReadbacks == cfg.adaptiveSampling
    ensures st.adaptiveReadbackBytes == (if cfg.adaptiveSampling then fb.adaptiveBytes else 0)
    ensures st.exposureReadbackBytes == (if cfg.adaptiveSampling then fb.illuminanceBytes else 0)
  {
    var numBuffers := 2;
    var numExportedBuffers := 1;
    var outputIdx, hdrIdx := 0, 1;
    var normalIdx, albedoIdx, illuminanceIdx, adaptiveIdx := -1, -1, -1, -1;
    if cfg.auxiliaryOutputs {
      numBuffers := numBuffers + 2;
      numExportedBuffers := numExportedBuffers + 2;
      normalIdx, albedoIdx := 2, 3;
    }
    if cfg.tonemap {
      illuminanceIdx := numBuffers;
      numBuffers := numBuffers + 1;
    }
    if cfg.adaptiveSampling {
      adaptiveIdx := numBuffers;
      numBuffers := numBuffers + 1;
    }

    var outputs: seq<Buffer> := [];
    var exported: seq<Buffer> := [];
    outputs := outputs + [Buffer(Output, fb.outputBytes)];
    exported := exported + [Buffer(Output, fb.outputBytes)];
    outputs := outputs + [Buffer(Hdr, fb.hdrBytes)];
    if cfg.auxiliaryOutputs {
      outputs := outputs + [Buffer(Normal, fb.normalBytes)];
      exported := exported + [Buffer(Normal, fb.normalBytes)];
      outputs := outputs + [Buffer(Albedo, fb.albedoBytes)];
      exported := exported + [Buffer(Albedo, fb.albedoBytes)];
    }
    assert outputs == FixedOutputs(cfg, fb);
    if cfg.tonemap {
      outputs := outputs + [Buffer(Illuminance, fb.illuminanceBytes)];
    }
    var adaptiveReadback, exposureReadback := 0, 0;
    if cfg.adaptiveSampling {
      outputs := outputs + [Buffer(Adaptive, fb.adaptiveBytes)];
      adaptiveReadback, exposureReadback := fb.adaptiveBytes, fb.illuminanceBytes;
    }
    assert outputs == AllocatedOutputs(cfg, fb);
    // the reservoir pair, each of reservoirBytes
    var reservoirs := [fb.reservoirBytes, fb.reservoirBytes];

    st := FramebufferState(outputs, exported, reservoirs, adaptiveReadback, exposureReadback,
                           cfg.adaptiveSampling, outputIdx, hdrIdx, normalIdx, albedoIdx,
                           illuminanceIdx, adaptiveIdx);
    AllocationMatchesSlots(cfg, fb, st);
  }

  /** The buffers allocated for the planes every configuration has, plus the
      auxiliary pair. */
  function FixedOutputs(cfg: RenderConfig, fb: FramebufferConfig): seq<Buffer>
  {
    [Buffer(Output, fb.outputBytes), Buffer(Hdr, fb.hdrBytes)] +
    (if cfg.auxiliaryOutputs
     then [Buffer(Normal, fb.normalBytes), Buffer(Albedo, fb.albedoBytes)] else [])
  }

  /** All buffers makeFramebuffer allocates, in allocation order. */
  function AllocatedOutputs(cfg: RenderConfig, fb: FramebufferConfig): seq<Buffer>
  {
    FixedOutputs(cfg, fb) +
    (if cfg.tonemap then [Buffer(Illuminance, fb.illuminanceBytes)] else []) +
    (if cfg.adaptiveSampling then [Buffer(Adaptive, fb.adaptiveBytes)] else [])
  }

  /** The slot numbers handed out by counting agree with where the
      allocation puts each plane. */
  lemma AllocationMatchesSlots(cfg: RenderConfig, fb: FramebufferConfig, st: FramebufferState)
    requires st.outputs == AllocatedOutputs(cfg, fb)
    requires st.outputIdx == 0 && st.hdrIdx == 1
    requires st.normalIdx == (if cfg.auxiliaryOutputs then 2 else -1)
    requires st.albedoIdx == (if cfg.auxiliaryOutputs then 3 else -1)
    requires st.illuminanceIdx ==
               (if cfg.tonemap then (if cfg.auxiliaryOutputs then 4 else 2) else -1)
    requires st.adaptiveIdx == (if cfg.adaptiveSampling then NumBuffers(cfg) - 1 else -1)
    ensures SlotsMatch(st, cfg, fb) && |st.outputs| == NumBuffers(cfg)
  {
    AllocationInOrder(cfg, fb);
    var fixed := FixedOutputs(cfg, fb);
    var withIllum := fixed + (if cfg.tonemap then [Buffer(Illuminance, fb.illuminanceBytes)] else []);
    assert Placed(fixed, fb, Output, 0) && Placed(fixed, fb, Hdr, 1);
    assert cfg.auxiliaryOutputs ==> Placed(fixed, fb, Normal, 2) && Placed(fixed, fb, Albedo, 3);
    assert cfg.tonemap ==> Placed(withIllum, fb, Illuminance, st.illuminanceIdx);
    assert st.outputs == withIllum +
      (if cfg.adaptiveSampling then [Buffer(Adaptive, fb.adaptiveBytes)] else []);
  }

  /** The allocation holds only enabled planes, in allocation order, one
      buffer per slot handed out. */
  lemma AllocationInOrder(cfg: RenderConfig, fb: FramebufferConfig)
    ensures var outputs := AllocatedOutputs(cfg, fb);
      InAllocationOrder(outputs) && AllEnabled(outputs, cfg) && |outputs| == NumBuffers(cfg)
  {
    var fixed := FixedOutputs(cfg, fb);
    var withIllum := fixed + (if cfg.tonemap then [Buffer(Illuminance, fb.illuminanceBytes)] else []);
    assert InAllocationOrder(fixed) && AllEnabled(fixed, cfg);
    if cfg.tonemap {
      AppendInOrder(fixed, Buffer(Illuminance, fb.illuminanceBytes));
    }
    assert InAllocationOrder(withIllum) && AllEnabled(withIllum, cfg);
    if cfg.adaptiveSampling {
      AppendInOrder(withIllum, Buffer(Adaptive, fb.adaptiveBytes));
    }
  }

  /** Distinct planes get distinct slots, each below the buffer count: no two
      enabled planes share a buffer. */
  lemma SlotsDistinct(st: FramebufferState, cfg: RenderConfig, fb: FramebufferConfig,
                      p: Plane, q: Plane)
    requires SlotsMatch(st, cfg, fb)
    requires Enabled(cfg, p) && Enabled(cfg, q) && p != q
    ensures SlotOf(st, p) != SlotOf(st, q)
    ensures SlotOf(st, p) < |st.outputs|
  {
    SlotOkAll(st, cfg, fb, p);
    SlotOkAll(st, cfg, fb, q);
    assert st.outputs[SlotOf(st, p)].plane == p;
    assert st.outputs[SlotOf(st, q)].plane == q;
  }

}
