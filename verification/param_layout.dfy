/** Layout of the flat per-batch parameter blob (getParamBufferConfig):
    instance transforms, then material indices, then lights, then one packed
    record per environment of the batch, each section starting on the
    device's storage-buffer alignment. */
module ParamLayout {
  import opened Config
  import opened Align

  datatype ParamBufferConfig = ParamBufferConfig(
    totalTransformBytes: nat,
    materialIndicesOffset: nat,
    totalMaterialIndexBytes: nat,
    lightsOffset: nat,
    totalLightParamBytes: nat,
    envOffset: nat,
    totalEnvParamBytes: nat,
    totalParamBytes: nat)

  /** `start` is the first storage-aligned offset at or after `prevEnd`. */
  predicate FirstAlignedAfter(start: nat, prevEnd: nat, alignment: nat)
    requires alignment > 0
  {
    start % alignment == 0 && prevEnd <= start < prevEnd + alignment
  }

  /** The layout guarantees: every section starts aligned right after the
      previous one ends, and the total is aligned and covers the last section. */
  predicate WellLaidOut(p: ParamBufferConfig, alignment: nat)
    requires alignment > 0
  {
    && FirstAlignedAfter(p.materialIndicesOffset, p.totalTransformBytes, alignment)
    && FirstAlignedAfter(p.lightsOffset, p.materialIndicesOffset + p.totalMaterialIndexBytes, alignment)
    && FirstAlignedAfter(p.envOffset, p.lightsOffset + p.totalLightParamBytes, alignment)
    && FirstAlignedAfter(p.totalParamBytes, p.envOffset + p.totalEnvParamBytes, alignment)
  }

  /** getParamBufferConfig: section sizes come from the instance and light
      capacities and the batch size; offsets are chained through AlignUp. */
  function GetParamBufferConfig(batchSize: nat, vk: VulkanConfig, sizes: StructSizes,
                                alignment: nat): (p: ParamBufferConfig)
    requires alignment > 0
    ensures WellLaidOut(p, alignment)
    ensures p.totalTransformBytes == sizes.instanceTransform * vk.maxInstances
    ensures p.totalMaterialIndexBytes == SizeOfU32 * vk.maxInstances
    ensures p.totalLightParamBytes == sizes.packedLight * vk.maxLights
    ensures p.totalEnvParamBytes == sizes.packedEnv * batchSize
  {
    var transformBytes := sizes.instanceTransform * vk.maxInstances;
    var materialOffset := AlignUp(transformBytes, alignment);
    var materialBytes := SizeOfU32 * vk.maxInstances;
    var lightsOffset := AlignUp(materialOffset + materialBytes, alignment);
    var lightBytes := sizes.packedLight * vk.maxLights;
    var envOffset := AlignUp(lightsOffset + lightBytes, alignment);
    var envBytes := sizes.packedEnv * batchSize;
    ParamBufferConfig(transformBytes, materialOffset, materialBytes, lightsOffset,
                      lightBytes, envOffset, envBytes,
                      AlignUp(envOffset + envBytes, alignment))
  }

  /** A byte range [start, start + size) of the blob. */
  datatype Section = Section(start: nat, size: nat)
  {
    function End(): nat { start + size }
  }

  function Sections(p: ParamBufferConfig): seq<Section>
  {
    [Section(0, p.totalTransformBytes),
     Section(p.materialIndicesOffset, p.totalMaterialIndexBytes),
     Section(p.lightsOffset, p.totalLightParamBytes),
     Section(p.envOffset, p.totalEnvParamBytes)]
  }

  /** The four sections appear in order, never overlap, start aligned, and all
      fit inside `totalParamBytes`, whose own size is aligned and at least the
      sum of the section sizes. */
  lemma SectionsDisjointAndAligned(p: ParamBufferConfig, alignment: nat)
    requires alignment > 0
    requires WellLaidOut(p, alignment)
    ensures forall i :: 0 <= i < 4 ==> Sections(p)[i].start % alignment == 0
    ensures forall i, j :: 0 <= i < j < 4 ==> Sections(p)[i].End() <= Sections(p)[j].start
    ensures forall i :: 0 <= i < 4 ==> Sections(p)[i].End() <= p.totalParamBytes
    ensures p.totalParamBytes % alignment == 0
    ensures p.totalParamBytes >= p.totalTransformBytes + p.totalMaterialIndexBytes
                                 + p.totalLightParamBytes + p.totalEnvParamBytes
  {
    var s := Sections(p);
    assert 0 % alignment == 0;
    assert s[0].End() <= s[1].start <= s[1].End() <= s[2].start <= s[2].End()
           <= s[3].start <= s[3].End() <= p.totalParamBytes;
  }

  /** Each section start is the least aligned offset after the previous
      section: no layout with aligned, non-overlapping sections in this order
      places any section earlier. */
  lemma LayoutIsTight(batchSize: nat, vk: VulkanConfig, sizes: StructSizes, alignment: nat,
                      other: seq<nat>)
    requires alignment > 0
    requires |other| == 4
    requires forall i :: 0 <= i < 4 ==> other[i] % alignment == 0
    requires other[0] >= sizes.instanceTransform * vk.maxInstances
    requires other[1] >= other[0] + SizeOfU32 * vk.maxInstances
    requires other[2] >= other[1] + sizes.packedLight * vk.maxLights
    requires other[3] >= other[2] + sizes.packedEnv * batchSize
    ensures var p := GetParamBufferConfig(batchSize, vk, sizes, alignment);
            p.materialIndicesOffset <= other[0] && p.lightsOffset <= other[1] &&
            p.envOffset <= other[2] && p.totalParamBytes <= other[3]
  {
    var p := GetParamBufferConfig(batchSize, vk, sizes, alignment);
    AlignUpIsLeast(p.totalTransformBytes, alignment, other[0]);
    AlignUpIsLeast(p.materialIndicesOffset + p.totalMaterialIndexBytes, alignment, other[1]);
    AlignUpIsLeast(p.lightsOffset + p.totalLightParamBytes, alignment, other[2]);
    AlignUpIsLeast(p.envOffset + p.totalEnvParamBytes, alignment, other[3]);
  }
}
