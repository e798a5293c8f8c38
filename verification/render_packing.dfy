/** Per-batch packing at the start of `render`: the TLAS pass over dirty
    environments, then the loop that appends every environment's instance
    transforms, material indices and lights to three flat arrays and records
    where each environment's slice starts. */
module RenderPacking {
  import opened Config
  import opened ParamLayout
  import opened GridIndex

  /** A camera pose. Its floating-point contents are not modelled: cameras
      are only copied and compared. `ProbeCamera` is the fixed-direction
      camera bakeProbe places at the position of a probe grid cell. */
  datatype Camera = Camera(id: nat) | ProbeCamera(cell: Cell)

  /** The part of an environment (front end plus Vulkan backend) that the
      packing reads or writes. */
  datatype EnvState = EnvState(
    sceneId: nat,
    camera: Camera,
    prevCam: Camera,
    dirty: bool,
    tlasBuilds: nat,          // how many times this environment's TLAS was rebuilt
    transforms: seq<int>,     // one InstanceTransform per instance
    materials: seq<nat>,      // one material index per instance
    lights: seq<nat>)         // PackedLight records

  /** PackedEnv as the shader reads it: `data` is (scene id, first material
      index, first light, light count). */
  datatype PackedEnv = PackedEnv(
    cam: Camera,
    prevCam: Camera,
    sceneId: nat,
    materialOffset: nat,
    lightOffset: nat,
    numLights: nat)

  // ---------------------------------------------------------------------
  // Concatenation and prefix offsets

  function Concat<T>(xs: seq<seq<T>>): (r: seq<T>)
    decreases |xs|
  {
    if xs == [] then [] else Concat(xs[..|xs| - 1]) + xs[|xs| - 1]
  }

  /** Where the `i`-th slice starts once all slices are concatenated. */
  function OffsetOf<T>(xs: seq<seq<T>>, i: nat): (r: nat)
    requires i <= |xs|
  {
    |Concat(xs[..i])|
  }

  /** Each slice's offset is the previous offset plus the previous length. */
  lemma {:induction false} OffsetStep<T>(xs: seq<seq<T>>, i: nat)
    requires i < |xs|
    ensures OffsetOf(xs, i + 1) == OffsetOf(xs, i) + |xs[i]|
    ensures OffsetOf(xs, 0) == 0
  {
    assert xs[..i + 1][..i] == xs[..i];
  }

  /** Slice `i` sits at its offset inside the concatenation of any prefix
      that contains it. */
  lemma {:induction false} ConcatSlice<T>(xs: seq<seq<T>>, i: nat, n: nat)
    requires i < n <= |xs|
    ensures OffsetOf(xs, i) + |xs[i]| <= |Concat(xs[..n])|
    ensures Concat(xs[..n])[OffsetOf(xs, i) .. OffsetOf(xs, i) + |xs[i]|] == xs[i]
    decreases n
  {
    var prefix := xs[..n];
    assert prefix[..n - 1] == xs[..n - 1];
    assert Concat(prefix) == Concat(xs[..n - 1]) + xs[n - 1];
    if i == n - 1 {
      assert xs[..n - 1] == xs[..i];
    } else {
      ConcatSlice(xs, i, n - 1);
    }
  }

  function TransformsOf(envs: seq<EnvState>): (r: seq<seq<int>>)
    ensures |r| == |envs| && forall i :: 0 <= i < |envs| ==> r[i] == envs[i].transforms
  {
    seq(|envs|, i requires 0 <= i < |envs| => envs[i].transforms)
  }

  function MaterialsOf(envs: seq<EnvState>): (r: seq<seq<nat>>)
    ensures |r| == |envs| && forall i :: 0 <= i < |envs| ==> r[i] == envs[i].materials
  {
    seq(|envs|, i requires 0 <= i < |envs| => envs[i].materials)
  }

  function LightsOf(envs: seq<EnvState>): (r: seq<seq<nat>>)
    ensures |r| == |envs| && forall i :: 0 <= i < |envs| ==> r[i] == envs[i].lights
  {
    seq(|envs|, i requires 0 <= i < |envs| => envs[i].lights)
  }

  // ---------------------------------------------------------------------
  // TLAS pass

  /** One environment after the TLAS pass: rebuilt and clean if it was dirty,
      untouched otherwise. */
  function AfterTlasPass(e: EnvState): (r: EnvState)
    ensures !r.dirty
    ensures r.tlasBuilds == e.tlasBuilds + (if e.dirty then 1 else 0)
    ensures r.(dirty := e.dirty, tlasBuilds := e.tlasBuilds) == e
  {
    if e.dirty then e.(dirty := false, tlasBuilds := e.tlasBuilds + 1) else e
  }

  /** The TLAS loop of `render`: only dirty environments are rebuilt, and
      each has its dirty flag cleared. */
  method BuildTlases(envs: array<EnvState>)
    modifies envs
    ensures forall i :: 0 <= i < envs.Length ==> envs[i] == AfterTlasPass(old(envs[i]))
  {
    for batchIdx := 0 to envs.Length
      invariant forall i :: 0 <= i < batchIdx ==> envs[i] == AfterTlasPass(old(envs[i]))
      invariant forall i :: batchIdx <= i < envs.Length ==> envs[i] == old(envs[i])
    {
      if envs[batchIdx].dirty {
        envs[batchIdx] := envs[batchIdx].(dirty := false, tlasBuilds := envs[batchIdx].tlasBuilds + 1);
      }
    }
  }

  /** A second TLAS pass right after the first rebuilds nothing. */
  lemma TlasPassIdempotent(e: EnvState)
    ensures AfterTlasPass(AfterTlasPass(e)) == AfterTlasPass(e)
    ensures AfterTlasPass(AfterTlasPass(e)).tlasBuilds == AfterTlasPass(e).tlasBuilds
  {
  }

  /** The TLAS pass over a whole batch. */
  function TlasPass(envs: seq<EnvState>): (r: seq<EnvState>)
    ensures |r| == |envs| && forall i :: 0 <= i < |envs| ==> r[i] == AfterTlasPass(envs[i])
  {
    seq(|envs|, i requires 0 <= i < |envs| => AfterTlasPass(envs[i]))
  }

  /** An environment after a whole frame: TLAS pass, then prevCam set to the
      camera it was rendered with. */
  function Settled(e: EnvState): (r: EnvState)
    ensures !r.dirty && r.prevCam == e.camera
    ensures r.(dirty := e.dirty, tlasBuilds := e.tlasBuilds, prevCam := e.prevCam) == e
  {
    AfterTlasPass(e).(prevCam := e.camera)
  }

  // ---------------------------------------------------------------------
  // Packing loop

  /** The camera packed for an environment: its own, or the probe camera
      bakeProbe substitutes for every environment of the batch. */
  function ViewOf(e: EnvState, view: Option<Camera>): Camera
  {
    if view.Some? then view.value else e.camera
  }

  /** The packed record of environment `i`. */
  function PackedOf(envs: seq<EnvState>, view: Option<Camera>, i: nat): (p: PackedEnv)
    requires i < |envs|
  {
    PackedEnv(ViewOf(envs[i], view), envs[i].prevCam, envs[i].sceneId,
              OffsetOf(MaterialsOf(envs), i), OffsetOf(LightsOf(envs), i), |envs[i].lights|)
  }

  /** The result of the packing loop: one record per environment and the
      three flat arrays as written from offset 0. */
  datatype Packing = Packing(
    packed: seq<PackedEnv>,
    transforms: seq<int>,
    materials: seq<nat>,
    lights: seq<nat>)

  function Pack(envs: seq<EnvState>, view: Option<Camera>): (r: Packing)
    ensures |r.packed| == |envs|
  {
    Packing(seq(|envs|, i requires 0 <= i < |envs| => PackedOf(envs, view, i)),
            Concat(TransformsOf(envs)), Concat(MaterialsOf(envs)), Concat(LightsOf(envs)))
  }

  /** The packing state after the first `n` environments. */
  predicate PackedUpTo(envs: seq<EnvState>, view: Option<Camera>, n: nat, r: Packing)
    requires n <= |envs|
  {
    && |r.packed| == n
    && (forall i :: 0 <= i < n ==> r.packed[i] == PackedOf(envs, view, i))
    && r.transforms == Concat(TransformsOf(envs)[..n])
    && r.materials == Concat(MaterialsOf(envs)[..n])
    && r.lights == Concat(LightsOf(envs)[..n])
  }

  /** Appending environment `n` extends the packing state by one. */
  lemma PackStep(envs: seq<EnvState>, view: Option<Camera>, n: nat, r: Packing)
    requires n < |envs| && PackedUpTo(envs, view, n, r)
    ensures PackedUpTo(envs, view, n + 1,
      Packing(r.packed + [PackedOf(envs, view, n)], r.transforms + envs[n].transforms,
              r.materials + envs[n].materials, r.lights + envs[n].lights))
  {
    assert TransformsOf(envs)[..n + 1][..n] == TransformsOf(envs)[..n];
    assert MaterialsOf(envs)[..n + 1][..n] == MaterialsOf(envs)[..n];
    assert LightsOf(envs)[..n + 1][..n] == LightsOf(envs)[..n];
  }

  /** The packing loop of `render`. The running offsets are the lengths of
      the flat arrays so far; each environment's prevCam becomes its camera. */
  method PackEnvironments(envs: array<EnvState>, view: Option<Camera>) returns (r: Packing)
    modifies envs
    ensures r == Pack(old(envs[..]), view)
    ensures forall i :: 0 <= i < envs.Length ==> envs[i] == old(envs[i]).(prevCam := old(envs[i]).camera)
  {
    ghost var input := envs[..];
    var instOffset := 0;
    var materialOffset := 0;
    var lightOffset := 0;
    r := Packing([], [], [], []);
    for batchIdx := 0 to envs.Length
      invariant PackedUpTo(input, view, batchIdx, r)
      invariant instOffset == |r.transforms| && materialOffset == |r.materials| &&
                lightOffset == |r.lights|
      invariant forall i :: 0 <= i < batchIdx ==> envs[i] == input[i].(prevCam := input[i].camera)
      invariant forall i :: batchIdx <= i < envs.Length ==> envs[i] == input[i]
    {
      var env := envs[batchIdx];
      assert OffsetOf(MaterialsOf(input), batchIdx) == materialOffset;
      assert OffsetOf(LightsOf(input), batchIdx) == lightOffset;
      var packedEnv := PackedEnv(ViewOf(env, view), env.prevCam, env.sceneId, materialOffset,
                                 lightOffset, |env.lights|);
      envs[batchIdx] := env.(prevCam := env.camera);
      PackStep(input, view, batchIdx, r);
      r := Packing(r.packed + [packedEnv], r.transforms + env.transforms,
                   r.materials + env.materials, r.lights + env.lights);
      instOffset := instOffset + |env.transforms|;
      materialOffset := materialOffset + |env.materials|;
      lightOffset := lightOffset + |env.lights|;
    }
    assert TransformsOf(input)[..envs.Length] == TransformsOf(input);
    assert MaterialsOf(input)[..envs.Length] == MaterialsOf(input);
    assert LightsOf(input)[..envs.Length] == LightsOf(input);
  }

  // ---------------------------------------------------------------------
  // Properties of the packing

  /** data.y and data.z are running sums: the first environment starts at 0
      and each next one starts where the previous one's materials and lights
      end; data.w is the environment's own light count. */
  lemma PackedOffsetsArePrefixSums(envs: seq<EnvState>, view: Option<Camera>, i: nat)
    requires i + 1 < |envs|
    ensures Pack(envs, view).packed[0].materialOffset == 0 && Pack(envs, view).packed[0].lightOffset == 0
    ensures Pack(envs, view).packed[i + 1].materialOffset ==
            Pack(envs, view).packed[i].materialOffset + |envs[i].materials|
    ensures Pack(envs, view).packed[i + 1].lightOffset ==
            Pack(envs, view).packed[i].lightOffset + Pack(envs, view).packed[i].numLights
    ensures Pack(envs, view).packed[i].numLights == |envs[i].lights|
  {
    OffsetStep(MaterialsOf(envs), i);
    OffsetStep(LightsOf(envs), i);
  }

  /** The shader finds exactly environment `i`'s materials and lights at the
      offsets recorded in its PackedEnv, and its transforms at the running
      instance offset. */
  lemma PackedSlicesAreTheEnvironments(envs: seq<EnvState>, view: Option<Camera>, i: nat)
    requires i < |envs|
    ensures var p := Pack(envs, view);
      && p.packed[i].materialOffset + |envs[i].materials| <= |p.materials|
      && p.packed[i].lightOffset + p.packed[i].numLights <= |p.lights|
      && OffsetOf(TransformsOf(envs), i) + |envs[i].transforms| <= |p.transforms|
      && p.materials[p.packed[i].materialOffset .. p.packed[i].materialOffset + |envs[i].materials|]
         == envs[i].materials
      && p.lights[p.packed[i].lightOffset .. p.packed[i].lightOffset + p.packed[i].numLights]
         == envs[i].lights
      && p.transforms[OffsetOf(TransformsOf(envs), i) .. OffsetOf(TransformsOf(envs), i) + |envs[i].transforms|]
         == envs[i].transforms
  {
    assert MaterialsOf(envs)[..|envs|] == MaterialsOf(envs);
    assert LightsOf(envs)[..|envs|] == LightsOf(envs);
    assert TransformsOf(envs)[..|envs|] == TransformsOf(envs);
    ConcatSlice(MaterialsOf(envs), i, |envs|);
    ConcatSlice(LightsOf(envs), i, |envs|);
    ConcatSlice(TransformsOf(envs), i, |envs|);
  }

  /** When the batch holds no more instances and lights than the capacities
      the parameter blob was sized for, every memcpy of the packing loop
      stays inside its own section (the source does not check this). */
  lemma PackingFitsSections(envs: seq<EnvState>, view: Option<Camera>, batchSize: nat, vk: VulkanConfig,
                            sizes: StructSizes, alignment: nat)
    requires alignment > 0
    requires |Concat(TransformsOf(envs))| <= vk.maxInstances
    requires |Concat(MaterialsOf(envs))| <= vk.maxInstances
    requires |Concat(LightsOf(envs))| <= vk.maxLights
    requires |envs| <= batchSize
    ensures var p := GetParamBufferConfig(batchSize, vk, sizes, alignment);
      && sizes.instanceTransform * |Pack(envs, view).transforms| <= p.totalTransformBytes
      && SizeOfU32 * |Pack(envs, view).materials| <= p.totalMaterialIndexBytes
      && sizes.packedLight * |Pack(envs, view).lights| <= p.totalLightParamBytes
      && sizes.packedEnv * |Pack(envs, view).packed| <= p.totalEnvParamBytes
  {
    MulMono(sizes.instanceTransform, |Concat(TransformsOf(envs))|, vk.maxInstances);
    MulMono(SizeOfU32, |Concat(MaterialsOf(envs))|, vk.maxInstances);
    MulMono(sizes.packedLight, |Concat(LightsOf(envs))|, vk.maxLights);
    MulMono(sizes.packedEnv, |envs|, batchSize);
  }

  lemma MulMono(a: nat, b: nat, c: nat)
    requires b <= c
    ensures a * b <= a * c
  {
  }

  /** The TLAS pass changes nothing the packing reads, so packing before or
      after it gives the same records and arrays. */
  lemma PackIgnoresTlasPass(envs: seq<EnvState>, view: Option<Camera>)
    ensures Pack(TlasPass(envs), view) == Pack(envs, view)
  {
    var t := TlasPass(envs);
    assert TransformsOf(t) == TransformsOf(envs);
    assert MaterialsOf(t) == MaterialsOf(envs);
    assert LightsOf(t) == LightsOf(envs);
    assert Pack(t, view).packed == Pack(envs, view).packed;
  }

  /** Settling twice is settling once: the second frame rebuilds nothing
      and keeps the previous camera. */
  lemma SettledIdempotent(e: EnvState)
    ensures Settled(Settled(e)) == Settled(e)
  {
  }

  /** Every environment of a batch settled by one frame. */
  function SettleAll(envs: seq<EnvState>): (r: seq<EnvState>)
    ensures |r| == |envs| && forall i :: 0 <= i < |envs| ==> r[i] == Settled(envs[i])
  {
    seq(|envs|, i requires 0 <= i < |envs| => Settled(envs[i]))
  }

  /** A batch settled twice is settled once. */
  lemma SettleAllIdempotent(envs: seq<EnvState>)
    ensures SettleAll(SettleAll(envs)) == SettleAll(envs)
  {
    forall i | 0 <= i < |envs|
      ensures SettleAll(SettleAll(envs))[i] == SettleAll(envs)[i]
    {
      SettledIdempotent(envs[i]);
    }
  }

  /** A second frame over settled environments rebuilds no TLAS and packs,
      as each previous camera, the camera of the frame before. */
  lemma NextFrameSeesThisCamera(envs: seq<EnvState>, i: nat)
    requires i < |envs|
    ensures var next := seq(|envs|, j requires 0 <= j < |envs| => Settled(envs[j]));
      && TlasPass(next)[i].tlasBuilds == next[i].tlasBuilds
      && Pack(next, None).packed[i].prevCam == envs[i].camera
      && Pack(next, None).packed[i].cam == envs[i].camera
  {
  }
}
