/** Descriptor writes of a batch's per-batch state (makePerBatchState): which
    resource every binding of the two ray-tracing sets, the exposure set and
    the tonemap set ends up pointing at. */
module DescriptorWiring {
  import opened Config
  import opened ParamLayout
  import opened FramebufferLayout
  import opened FramebufferSlots

  datatype DescSet = RtSet(index: nat) | ExposureSet | TonemapSet

  /** The precomputed lookup textures bound at bindings 6..10. */
  datatype Lut = DiffuseAverage | DiffuseDirectional | GgxAverage | GgxDirectional | GgxInverse

  datatype Resource =
    | ParamRange(offset: nat, bytes: nat)   // a range of the device parameter buffer
    | LutTexture(lut: Lut)
    | OutputSlot(slot: int, bytes: nat)     // framebuffer output buffer `slot`
    | ReservoirBuffer(which: nat, bytes: nat)
    | TileInput(bytes: nat)

  datatype Key = Key(descSet: DescSet, binding: nat)

  datatype Write = Write(key: Key, resource: Resource)

  /** What makePerBatchState reads. */
  datatype Inputs = Inputs(
    cfg: RenderConfig,
    param: ParamBufferConfig,
    fb: FramebufferConfig,
    st: FramebufferState,
    inputTileSize: nat,
    maxTiles: nat)

  /** Bytes of the adaptive tile-input buffer: two full tile lists. */
  function TileInputBytes(inp: Inputs): nat
  {
    inp.inputTileSize * inp.maxTiles * 2
  }

  /** The resource bound at binding `b` of ray-tracing set `i` (0 or 1). */
  function RtBinding(inp: Inputs, i: nat, b: nat): Option<Resource>
    requires i < 2
  {
    var p := inp.param;
    var st := inp.st;
    var fb := inp.fb;
    if b == 0 then Some(ParamRange(0, p.totalTransformBytes))
    else if b == 1 then Some(ParamRange(p.materialIndicesOffset, p.totalMaterialIndexBytes))
    else if b == 2 then Some(ParamRange(p.lightsOffset, p.totalLightParamBytes))
    else if b == 3 then Some(ParamRange(p.envOffset, p.totalEnvParamBytes))
    else if b == 6 then Some(LutTexture(DiffuseAverage))
    else if b == 7 then Some(LutTexture(DiffuseDirectional))
    else if b == 8 then Some(LutTexture(GgxAverage))
    else if b == 9 then Some(LutTexture(GgxDirectional))
    else if b == 10 then Some(LutTexture(GgxInverse))
    else if b == 11 then Some(ReservoirBuffer(i, fb.reservoirBytes))
    else if b == 12 then Some(ReservoirBuffer(if i == 0 then 1 else 0, fb.reservoirBytes))
    else if b == 13 then Some(OutputSlot(st.hdrIdx, fb.hdrBytes))
    else if b == 14 && inp.cfg.auxiliaryOutputs then Some(OutputSlot(st.normalIdx, fb.normalBytes))
    else if b == 15 && inp.cfg.auxiliaryOutputs then Some(OutputSlot(st.albedoIdx, fb.albedoBytes))
    else if b == 16 && inp.cfg.tonemap then Some(OutputSlot(st.illuminanceIdx, fb.illuminanceBytes))
    else if b == 17 && inp.cfg.adaptiveSampling then Some(TileInput(TileInputBytes(inp)))
    else if b == 18 && inp.cfg.adaptiveSampling then Some(OutputSlot(st.adaptiveIdx, fb.adaptiveBytes))
    else None
  }

  /** The binding table of the shaders' interface: the resource each binding
      of each set must point at under the configured features. */
  function Table(inp: Inputs, k: Key): Option<Resource>
  {
    var st := inp.st;
    var fb := inp.fb;
    match k.descSet
    case RtSet(i) => if i < 2 then RtBinding(inp, i, k.binding) else None
    case ExposureSet =>
      if !inp.cfg.tonemap then None
      else if k.binding == 0 then Some(OutputSlot(st.illuminanceIdx, fb.illuminanceBytes))
      else if k.binding == 1 then Some(OutputSlot(st.hdrIdx, fb.hdrBytes))
      else None
    case TonemapSet =>
      if !inp.cfg.tonemap then None
      else if k.binding == 0 then Some(OutputSlot(st.illuminanceIdx, fb.illuminanceBytes))
      else if k.binding == 1 then Some(OutputSlot(st.hdrIdx, fb.hdrBytes))
      else if k.binding == 2 then Some(OutputSlot(st.outputIdx, fb.outputBytes))
      else None
  }

  /** The descriptor writes realise the table: each write agrees with it,
      no binding is written twice, and every binding in it is written. */
  ghost predicate Realises(inp: Inputs, ws: seq<Write>)
  {
    && (forall j :: 0 <= j < |ws| ==> Table(inp, ws[j].key) == Some(ws[j].resource))
    && (forall i, j :: 0 <= i < j < |ws| ==> ws[i].key != ws[j].key)
    && (forall k: Key :: Table(inp, k).Some? ==> Write(k, Table(inp, k).value) in ws)
  }

  /** The resource a binding points at once all writes are applied: the
      last write to that binding wins. */
  function Bound(ws: seq<Write>, k: Key): (r: Option<Resource>)
    ensures r.Some? ==> Write(k, r.value) in ws
    ensures r.None? ==> forall j :: 0 <= j < |ws| ==> ws[j].key != k
  {
    if ws == [] then None
    else if ws[|ws| - 1].key == k then Some(ws[|ws| - 1].resource)
    else Bound(ws[..|ws| - 1], k)
  }

  /** Once the writes realise the table, every binding points at exactly the
      resource the table names, and an unlisted binding at nothing. */
  lemma BoundIsTable(inp: Inputs, ws: seq<Write>, k: Key)
    requires Realises(inp, ws)
    ensures Bound(ws, k) == Table(inp, k)
  {
    var r := Bound(ws, k);
    if r.Some? {
      var j :| 0 <= j < |ws| && ws[j] == Write(k, r.value);
      assert Table(inp, ws[j].key) == Some(ws[j].resource);
    }
  }

  /** Ping-pong reservoirs: what set 0 reads as the current reservoir
      (binding 11) set 1 reads as the previous one (binding 12), and the
      other way round; within one set the two bindings differ. */
  lemma ReservoirsCrossBound(inp: Inputs, ws: seq<Write>)
    requires Realises(inp, ws)
    ensures Bound(ws, Key(RtSet(0), 11)) == Bound(ws, Key(RtSet(1), 12)) ==
            Some(ReservoirBuffer(0, inp.fb.reservoirBytes))
    ensures Bound(ws, Key(RtSet(0), 12)) == Bound(ws, Key(RtSet(1), 11)) ==
            Some(ReservoirBuffer(1, inp.fb.reservoirBytes))
  {
    ReservoirBound(inp, ws, 0, 11);
    ReservoirBound(inp, ws, 1, 12);
    ReservoirBound(inp, ws, 0, 12);
    ReservoirBound(inp, ws, 1, 11);
  }

  /** A reservoir binding of a ray-tracing set holds the reservoir the table names. */
  lemma ReservoirBound(inp: Inputs, ws: seq<Write>, i: nat, b: nat)
    requires Realises(inp, ws) && i < 2 && (b == 11 || b == 12)
    ensures Bound(ws, Key(RtSet(i), b)) ==
            Some(ReservoirBuffer(if (b == 11) == (i == 0) then 0 else 1, inp.fb.reservoirBytes))
  {
    BoundIsTable(inp, ws, Key(RtSet(i), b));
  }

  /** Apart from the reservoir pair, the two ray-tracing sets are wired
      identically. */
  lemma SetsAgreeOutsideReservoirs(inp: Inputs, ws: seq<Write>, b: nat)
    requires Realises(inp, ws)
    requires b != 11 && b != 12
    ensures Bound(ws, Key(RtSet(0), b)) == Bound(ws, Key(RtSet(1), b))
  {
    BoundIsTable(inp, ws, Key(RtSet(0), b));
    BoundIsTable(inp, ws, Key(RtSet(1), b));
  }

  /** The framebuffer plane each output binding is meant to see. */
  function PlaneOfBinding(k: Key): Option<Plane>
  {
    match k.descSet
    case RtSet(_) =>
      if k.binding == 13 then Some(Hdr)
      else if k.binding == 14 then Some(Normal)
      else if k.binding == 15 then Some(Albedo)
      else if k.binding == 16 then Some(Illuminance)
      else if k.binding == 18 then Some(Adaptive)
      else None
    case ExposureSet =>
      if k.binding == 0 then Some(Illuminance) else if k.binding == 1 then Some(Hdr) else None
    case TonemapSet =>
      if k.binding == 0 then Some(Illuminance) else if k.binding == 1 then Some(Hdr)
      else if k.binding == 2 then Some(Output) else None
  }

  /** A table entry naming an output slot names the slot and size of the
      plane the binding is meant for, and that plane is enabled. */
  lemma TableOutputSlot(inp: Inputs, k: Key)
    requires Table(inp, k).Some? && Table(inp, k).value.OutputSlot?
    ensures PlaneOfBinding(k).Some?
    ensures var plane := PlaneOfBinding(k).value;
      && Enabled(inp.cfg, plane)
      && Table(inp, k).value == OutputSlot(SlotOf(inp.st, plane), PlaneBytes(inp.fb, plane))
  {
  }

  /** With the slots makeFramebuffer hands out, every binding that points at
      an output slot points at an allocated buffer holding the plane the
      binding is meant for, over that buffer's full size. */
  lemma BoundOutputsHoldTheirPlanes(inp: Inputs, ws: seq<Write>, k: Key)
    requires Realises(inp, ws)
    requires SlotsMatch(inp.st, inp.cfg, inp.fb)
    requires Bound(ws, k).Some? && Bound(ws, k).value.OutputSlot?
    ensures var slot := Bound(ws, k).value.slot;
      && 0 <= slot < |inp.st.outputs|
      && PlaneOfBinding(k).Some?
      && inp.st.outputs[slot].plane == PlaneOfBinding(k).value
      && inp.st.outputs[slot].bytes == Bound(ws, k).value.bytes
  {
    BoundIsTable(inp, ws, k);
    TableOutputSlot(inp, k);
    SlotOkAll(inp.st, inp.cfg, inp.fb, PlaneOfBinding(k).value);
  }

  /** The four parameter-buffer bindings of a ray-tracing set cover aligned,
      disjoint ranges inside the parameter buffer, in layout order. */
  lemma ParamBindingsDisjoint(inp: Inputs, ws: seq<Write>, alignment: nat, i: nat, b1: nat, b2: nat)
    requires Realises(inp, ws) && alignment > 0 && WellLaidOut(inp.param, alignment)
    requires i < 2 && b1 < b2 < 4
    ensures Bound(ws, Key(RtSet(i), b1)).Some? && Bound(ws, Key(RtSet(i), b2)).Some?
    ensures var r1 := Bound(ws, Key(RtSet(i), b1)).value;
      var r2 := Bound(ws, Key(RtSet(i), b2)).value;
      && r1.ParamRange? && r2.ParamRange?
      && r1.offset % alignment == 0
      && r1.offset + r1.bytes <= r2.offset
      && r2.offset + r2.bytes <= inp.param.totalParamBytes
  {
    BoundIsTable(inp, ws, Key(RtSet(i), b1));
    BoundIsTable(inp, ws, Key(RtSet(i), b2));
    SectionsDisjointAndAligned(inp.param, alignment);
    var secs := Sections(inp.param);
    assert Table(inp, Key(RtSet(i), b1)) == Some(ParamRange(secs[b1].start, secs[b1].size));
    assert Table(inp, Key(RtSet(i), b2)) == Some(ParamRange(secs[b2].start, secs[b2].size));
  }

  // ---- Proof bookkeeping: the order in which makePerBatchState issues
  // ---- writes when every feature is on.

  /** Position of a base binding (0..3, 6..10, 13) within one set's block. */
  function BaseOffset(b: nat): nat
  {
    if b <= 3 then b else if 6 <= b <= 10 then b - 2 else if b == 13 then 9 else 100
  }

  /** Position of a key in the issue order; 100 for keys never written. */
  function Rank(k: Key): nat
  {
    var b := k.binding;
    match k.descSet
    case RtSet(i) =>
      if i >= 2 then 100
      else if BaseOffset(b) < 100 then 10 * i + BaseOffset(b)
      else if b == 11 then (if i == 0 then 20 else 23)
      else if b == 12 then (if i == 0 then 22 else 21)
      else if b == 14 || b == 15 then 24 + 2 * i + (b - 14)
      else if b == 16 then 28 + i
      else if b == 17 || b == 18 then 35 + 2 * i + (b - 17)
      else 100
    case ExposureSet => if b <= 1 then 30 + b else 100
    case TonemapSet => if b <= 2 then 32 + b else 100
  }

  /** Binding at position `o` (0..9) of one set's block of base bindings. */
  function BaseBinding(o: nat): nat
  {
    if o <= 3 then o else if o <= 8 then o + 2 else 13
  }

  /** The key issued at position `q` (the inverse of Rank). */
  function KeyAt(q: nat): Key
  {
    if q < 10 then Key(RtSet(0), BaseBinding(q))
    else if q < 20 then Key(RtSet(1), BaseBinding(q - 10))
    else if q == 20 then Key(RtSet(0), 11)
    else if q == 21 then Key(RtSet(1), 12)
    else if q == 22 then Key(RtSet(0), 12)
    else if q == 23 then Key(RtSet(1), 11)
    else if q < 26 then Key(RtSet(0), q - 10)
    else if q < 28 then Key(RtSet(1), q - 12)
    else if q < 30 then Key(RtSet(q - 28), 16)
    else if q < 32 then Key(ExposureSet, q - 30)
    else if q < 35 then Key(TonemapSet, q - 32)
    else if q < 37 then Key(RtSet(0), q - 18)
    else Key(RtSet(1), q - 20)
  }

  lemma KeyAtRank(k: Key)
    requires Rank(k) < 100
    ensures KeyAt(Rank(k)) == k
  {
    match k.descSet
    case RtSet(i) =>
      if BaseOffset(k.binding) < 100 {
        assert BaseBinding(BaseOffset(k.binding)) == k.binding;
      }
    case ExposureSet =>
    case TonemapSet =>
  }

  lemma RankInjective(k1: Key, k2: Key)
    requires Rank(k1) < 100 && Rank(k1) == Rank(k2)
    ensures k1 == k2
  {
    KeyAtRank(k1);
    KeyAtRank(k2);
  }

  lemma RankOfEntry(inp: Inputs, k: Key)
    requires Table(inp, k).Some?
    ensures Rank(k) < 39
  {
  }

  /** The writes so far agree with the table, are issued in strictly
      increasing rank below `r`, and cover every table entry ranked below `r`. */
  ghost predicate Issued(inp: Inputs, ws: seq<Write>, r: nat)
  {
    && (forall j :: 0 <= j < |ws| ==> Table(inp, ws[j].key) == Some(ws[j].resource) && Rank(ws[j].key) < r)
    && (forall i, j :: 0 <= i < j < |ws| ==> Rank(ws[i].key) < Rank(ws[j].key))
    && (forall k: Key :: Table(inp, k).Some? && Rank(k) < r ==> Write(k, Table(inp, k).value) in ws)
  }

  lemma IssueNext(inp: Inputs, ws: seq<Write>, r: nat, w: Write)
    requires Issued(inp, ws, r) && Rank(w.key) == r
    requires Table(inp, w.key) == Some(w.resource)
    ensures Issued(inp, ws + [w], r + 1)
  {
    RankOfEntry(inp, w.key);
    forall k: Key | Table(inp, k).Some? && Rank(k) < Rank(w.key) + 1
      ensures Write(k, Table(inp, k).value) in ws + [w]
    {
      if Rank(k) == Rank(w.key) {
        RankInjective(w.key, k);
      }
    }
  }

  /** A block of writes with consecutive ranks from `r`, each agreeing
      with the table, extends the writes issued so far. */
  lemma IssueBlock(inp: Inputs, ws: seq<Write>, r: nat, block: seq<Write>)
    requires Issued(inp, ws, r)
    requires forall j :: 0 <= j < |block| ==>
               Rank(block[j].key) == r + j && Table(inp, block[j].key) == Some(block[j].resource)
    ensures Issued(inp, ws + block, r + |block|)
  {
    var all := ws + block;
    forall j | 0 <= j < |all|
      ensures Table(inp, all[j].key) == Some(all[j].resource) && Rank(all[j].key) < r + |block|
    {
      if j >= |ws| {
        assert all[j] == block[j - |ws|];
      }
    }
    forall i, j | 0 <= i < j < |all|
      ensures Rank(all[i].key) < Rank(all[j].key)
    {
      if j >= |ws| {
        assert all[j] == block[j - |ws|];
        if i >= |ws| {
          assert all[i] == block[i - |ws|];
        }
      }
    }
    forall k: Key | Table(inp, k).Some? && Rank(k) < r + |block|
      ensures Write(k, Table(inp, k).value) in all
    {
      if Rank(k) >= r {
        var j := Rank(k) - r;
        RankOfEntry(inp, k);
        RankInjective(k, block[j].key);
        assert all[|ws| + j] == block[j];
      }
    }
  }

  /** Which keys hold the ranks of each optional group. */
  lemma RankGroups(k: Key)
    ensures 24 <= Rank(k) < 28 ==>
              k.descSet.RtSet? && k.descSet.index < 2 && (k.binding == 14 || k.binding == 15)
    ensures 28 <= Rank(k) < 35 ==>
              (k.descSet.RtSet? && k.descSet.index < 2 && k.binding == 16) || !k.descSet.RtSet?
    ensures 35 <= Rank(k) < 39 ==>
              k.descSet.RtSet? && k.descSet.index < 2 && (k.binding == 17 || k.binding == 18)
  {
  }

  /** Skipping the ranks of a disabled feature's group keeps the writes
      complete, since the table has no entry there. */
  lemma SkipAuxiliary(inp: Inputs, ws: seq<Write>)
    requires Issued(inp, ws, 24) && !inp.cfg.auxiliaryOutputs
    ensures Issued(inp, ws, 28)
  {
    forall k: Key | Table(inp, k).Some? && Rank(k) < 28
      ensures Write(k, Table(inp, k).value) in ws
    {
      RankGroups(k);
    }
  }

  lemma SkipTonemap(inp: Inputs, ws: seq<Write>)
    requires Issued(inp, ws, 28) && !inp.cfg.tonemap
    ensures Issued(inp, ws, 35)
  {
    forall k: Key | Table(inp, k).Some? && Rank(k) < 35
      ensures Write(k, Table(inp, k).value) in ws
    {
      RankGroups(k);
    }
  }

  lemma SkipAdaptive(inp: Inputs, ws: seq<Write>)
    requires Issued(inp, ws, 35) && !inp.cfg.adaptiveSampling
    ensures Issued(inp, ws, 39)
  {
    forall k: Key | Table(inp, k).Some? && Rank(k) < 39
      ensures Write(k, Table(inp, k).value) in ws
    {
      RankGroups(k);
    }
  }

  lemma IssuedAll(inp: Inputs, ws: seq<Write>)
    requires Issued(inp, ws, 39)
    ensures Realises(inp, ws)
  {
    forall k: Key | Table(inp, k).Some?
      ensures Write(k, Table(inp, k).value) in ws
    {
      RankOfEntry(inp, k);
    }
  }

  /** The descriptor update batch: writes are queued in order and applied
      together by `update`. */
  class DescriptorUpdates {
    var writes: seq<Write>

    constructor()
      ensures writes == []
    {
      writes := [];
    }

    method Buffer(ds: DescSet, info: Resource, binding: nat)
      modifies this
      ensures writes == old(writes) + [Write(Key(ds, binding), info)]
    {
      writes := writes + [Write(Key(ds, binding), info)];
    }

    /** One texture descriptor (every call here binds a single texture). */
    method Textures(ds: DescSet, info: Resource, binding: nat)
      modifies this
      ensures writes == old(writes) + [Write(Key(ds, binding), info)]
    {
      writes := writes + [Write(Key(ds, binding), info)];
    }
  }

  /** Descriptor writes of makePerBatchState, in the order it issues them.
      Each group of writes is a step below, so that each is checked on its own. */
  method MakePerBatchWrites(inp: Inputs) returns (ws: seq<Write>)
    ensures Realises(inp, ws)
  {
    var du := new DescriptorUpdates();
    BindSceneAndLuts(inp, du);
    BindReservoirs(inp, du);
    BindAuxiliary(inp, du);
    BindTonemap(inp, du);
    BindAdaptive(inp, du);
    IssuedAll(inp, du.writes);
    ws := du.writes;
  }

  /** Parameter ranges, lookup textures and the HDR plane, in both sets. */
  method BindSceneAndLuts(inp: Inputs, du: DescriptorUpdates)
    modifies du
    requires Issued(inp, du.writes, 0)
    ensures Issued(inp, du.writes, 20)
  {
    for i := 0 to 2
      invariant Issued(inp, du.writes, 10 * i)
    {
      BindSceneAndLutsOf(inp, du, i);
    }
  }

  /** One iteration of the loop above: the writes for ray-tracing set `i`. */
  method BindSceneAndLutsOf(inp: Inputs, du: DescriptorUpdates, i: nat)
    modifies du
    requires i < 2 && Issued(inp, du.writes, 10 * i)
    ensures Issued(inp, du.writes, 10 * i + 10)
  {
    var p := inp.param;
    var transformInfo := ParamRange(0, p.totalTransformBytes);
    var matInfo := ParamRange(p.materialIndicesOffset, p.totalMaterialIndexBytes);
    var lightInfo := ParamRange(p.lightsOffset, p.totalLightParamBytes);
    var envInfo := ParamRange(p.envOffset, p.totalEnvParamBytes);
    var hdrInfo := OutputSlot(inp.st.hdrIdx, inp.fb.hdrBytes);
    var ds := RtSet(i);
    ghost var start := du.writes;
    du.Buffer(ds, transformInfo, 0);
    du.Buffer(ds, matInfo, 1);
    du.Buffer(ds, lightInfo, 2);
    du.Buffer(ds, envInfo, 3);
    du.Textures(ds, LutTexture(DiffuseAverage), 6);
    du.Textures(ds, LutTexture(DiffuseDirectional), 7);
    du.Textures(ds, LutTexture(GgxAverage), 8);
    du.Textures(ds, LutTexture(GgxDirectional), 9);
    du.Textures(ds, LutTexture(GgxInverse), 10);
    du.Buffer(ds, hdrInfo, 13);
    assert du.writes == start + SceneBlock(inp, i);
    SceneBlockAgrees(inp, i);
    IssueBlock(inp, start, 10 * i, SceneBlock(inp, i));
  }

  /** The writes one iteration of the scene loop issues for set `i`. */
  function SceneBlock(inp: Inputs, i: nat): seq<Write>
  {
    var p := inp.param;
    var ds := RtSet(i);
    [Write(Key(ds, 0), ParamRange(0, p.totalTransformBytes)),
     Write(Key(ds, 1), ParamRange(p.materialIndicesOffset, p.totalMaterialIndexBytes)),
     Write(Key(ds, 2), ParamRange(p.lightsOffset, p.totalLightParamBytes)),
     Write(Key(ds, 3), ParamRange(p.envOffset, p.totalEnvParamBytes)),
     Write(Key(ds, 6), LutTexture(DiffuseAverage)),
     Write(Key(ds, 7), LutTexture(DiffuseDirectional)),
     Write(Key(ds, 8), LutTexture(GgxAverage)),
     Write(Key(ds, 9), LutTexture(GgxDirectional)),
     Write(Key(ds, 10), LutTexture(GgxInverse)),
     Write(Key(ds, 13), OutputSlot(inp.st.hdrIdx, inp.fb.hdrBytes))]
  }

  lemma SceneBlockAgrees(inp: Inputs, i: nat)
    requires i < 2
    ensures var block := SceneBlock(inp, i);
      forall j :: 0 <= j < |block| ==>
        Rank(block[j].key) == 10 * i + j && Table(inp, block[j].key) == Some(block[j].resource)
  {
  }

  /** Reservoir 0 at binding 11 of set 0 and 12 of set 1; reservoir 1 the
      other way round. */
  method BindReservoirs(inp: Inputs, du: DescriptorUpdates)
    modifies du
    requires Issued(inp, du.writes, 20)
    ensures Issued(inp, du.writes, 24)
  {
    var curReservoirInfo := ReservoirBuffer(0, inp.fb.reservoirBytes);
    IssueNext(inp, du.writes, 20, Write(Key(RtSet(0), 11), curReservoirInfo));
    du.Buffer(RtSet(0), curReservoirInfo, 11);
    IssueNext(inp, du.writes, 21, Write(Key(RtSet(1), 12), curReservoirInfo));
    du.Buffer(RtSet(1), curReservoirInfo, 12);
    var prevReservoirInfo := ReservoirBuffer(1, inp.fb.reservoirBytes);
    IssueNext(inp, du.writes, 22, Write(Key(RtSet(0), 12), prevReservoirInfo));
    du.Buffer(RtSet(0), prevReservoirInfo, 12);
    IssueNext(inp, du.writes, 23, Write(Key(RtSet(1), 11), prevReservoirInfo));
    du.Buffer(RtSet(1), prevReservoirInfo, 11);
  }

  method BindAuxiliary(inp: Inputs, du: DescriptorUpdates)
    modifies du
    requires Issued(inp, du.writes, 24)
    ensures Issued(inp, du.writes, 28)
  {
    if inp.cfg.auxiliaryOutputs {
      for i := 0 to 2
        invariant Issued(inp, du.writes, 24 + 2 * i)
      {
        BindAuxiliaryOf(inp, du, i);
      }
    } else {
      SkipAuxiliary(inp, du.writes);
    }
  }

  /** One iteration of the loop above: normal and albedo planes of set `i`. */
  method BindAuxiliaryOf(inp: Inputs, du: DescriptorUpdates, i: nat)
    modifies du
    requires i < 2 && inp.cfg.auxiliaryOutputs && Issued(inp, du.writes, 24 + 2 * i)
    ensures Issued(inp, du.writes, 26 + 2 * i)
  {
    var normalInfo := OutputSlot(inp.st.normalIdx, inp.fb.normalBytes);
    var albedoInfo := OutputSlot(inp.st.albedoIdx, inp.fb.albedoBytes);
    IssueNext(inp, du.writes, 24 + 2 * i, Write(Key(RtSet(i), 14), normalInfo));
    du.Buffer(RtSet(i), normalInfo, 14);
    IssueNext(inp, du.writes, 25 + 2 * i, Write(Key(RtSet(i), 15), albedoInfo));
    du.Buffer(RtSet(i), albedoInfo, 15);
  }

  method BindTonemap(inp: Inputs, du: DescriptorUpdates)
    modifies du
    requires Issued(inp, du.writes, 28)
    ensures Issued(inp, du.writes, 35)
  {
    if inp.cfg.tonemap {
      var illuminanceInfo := OutputSlot(inp.st.illuminanceIdx, inp.fb.illuminanceBytes);
      for i := 0 to 2
        invariant Issued(inp, du.writes, 28 + i)
      {
        IssueNext(inp, du.writes, 28 + i, Write(Key(RtSet(i), 16), illuminanceInfo));
        du.Buffer(RtSet(i), illuminanceInfo, 16);
      }
      BindExposureAndTonemap(inp, du);
    } else {
      SkipTonemap(inp, du.writes);
    }
  }

  /** The exposure set and the tonemap set, after the illuminance planes. */
  method BindExposureAndTonemap(inp: Inputs, du: DescriptorUpdates)
    modifies du
    requires inp.cfg.tonemap && Issued(inp, du.writes, 30)
    ensures Issued(inp, du.writes, 35)
  {
    var outInfo := OutputSlot(inp.st.outputIdx, inp.fb.outputBytes);
    var hdrInfo := OutputSlot(inp.st.hdrIdx, inp.fb.hdrBytes);
    var illuminanceInfo := OutputSlot(inp.st.illuminanceIdx, inp.fb.illuminanceBytes);
    ghost var start := du.writes;
    du.Buffer(ExposureSet, illuminanceInfo, 0);
    du.Buffer(ExposureSet, hdrInfo, 1);
    du.Buffer(TonemapSet, illuminanceInfo, 0);
    du.Buffer(TonemapSet, hdrInfo, 1);
    du.Buffer(TonemapSet, outInfo, 2);
    assert du.writes == start + TonemapBlock(inp);
    IssueBlock(inp, start, 30, TonemapBlock(inp));
  }

  /** The writes of the exposure and tonemap sets, in issue order. */
  function TonemapBlock(inp: Inputs): seq<Write>
  {
    var st := inp.st;
    var fb := inp.fb;
    [Write(Key(ExposureSet, 0), OutputSlot(st.illuminanceIdx, fb.illuminanceBytes)),
     Write(Key(ExposureSet, 1), OutputSlot(st.hdrIdx, fb.hdrBytes)),
     Write(Key(TonemapSet, 0), OutputSlot(st.illuminanceIdx, fb.illuminanceBytes)),
     Write(Key(TonemapSet, 1), OutputSlot(st.hdrIdx, fb.hdrBytes)),
     Write(Key(TonemapSet, 2), OutputSlot(st.outputIdx, fb.outputBytes))]
  }

  method BindAdaptive(inp: Inputs, du: DescriptorUpdates)
    modifies du
    requires Issued(inp, du.writes, 35)
    ensures Issued(inp, du.writes, 39)
  {
    if inp.cfg.adaptiveSampling {
      for i := 0 to 2
        invariant Issued(inp, du.writes, 35 + 2 * i)
      {
        BindAdaptiveOf(inp, du, i);
      }
    } else {
      SkipAdaptive(inp, du.writes);
    }
  }

  /** One iteration of the loop above: tile list and adaptive plane of set `i`. */
  method BindAdaptiveOf(inp: Inputs, du: DescriptorUpdates, i: nat)
    modifies du
    requires i < 2 && inp.cfg.adaptiveSampling && Issued(inp, du.writes, 35 + 2 * i)
    ensures Issued(inp, du.writes, 37 + 2 * i)
  {
    var tileInputInfo := TileInput(TileInputBytes(inp));
    var adaptiveInfo := OutputSlot(inp.st.adaptiveIdx, inp.fb.adaptiveBytes);
    IssueNext(inp, du.writes, 35 + 2 * i, Write(Key(RtSet(i), 17), tileInputInfo));
    du.Buffer(RtSet(i), tileInputInfo, 17);
    IssueNext(inp, du.writes, 36 + 2 * i, Write(Key(RtSet(i), 18), adaptiveInfo));
    du.Buffer(RtSet(i), adaptiveInfo, 18);
  }
}
