/** Configuration records shared by the layout and render modules.
    `VulkanConfig` and the structure sizes come from headers that are not
    part of this model, so they are carried as values instead of literals. */
module Config {

  /** Compile-time constants of the Vulkan backend (namespace VulkanConfig). */
  datatype VulkanConfig = VulkanConfig(
    maxInstances: nat,
    maxLights: nat,
    localWorkgroupX: nat,
    localWorkgroupY: nat,
    localWorkgroupZ: nat,
    minibatchDivisor: nat,
    adaptiveSamplesPerThread: nat)
  {
    /** Every divisor and step the backend uses is positive. */
    predicate Valid()
    {
      localWorkgroupX > 0 && localWorkgroupY > 0 && localWorkgroupZ > 0 &&
      minibatchDivisor > 0 && adaptiveSamplesPerThread > 0
    }
  }

  /** `sizeof` of the structures packed into device buffers. */
  datatype StructSizes = StructSizes(
    instanceTransform: nat,
    packedLight: nat,
    packedEnv: nat,
    reservoir: nat,
    adaptiveTile: nat)

  /** The part of the user-facing render configuration the core reads. */
  datatype RenderConfig = RenderConfig(
    imgWidth: nat,
    imgHeight: nat,
    batchSize: nat,
    spp: nat,
    numLoaders: nat,
    auxiliaryOutputs: bool,
    tonemap: bool,
    adaptiveSampling: bool)

  /** Byte sizes of the scalar types written into planes and records. */
  const SizeOfU16: nat := 2
  const SizeOfU32: nat := 4
  const SizeOfFloat: nat := 4
  const SizeOfU64: nat := 8

  const U32Limit: nat := 0x1_0000_0000

  /** A product stored into a `uint32_t`: reduced modulo 2^32. */
  function U32(x: nat): (r: nat)
    ensures r < U32Limit
    ensures x < U32Limit ==> r == x
  {
    x % U32Limit
  }

  datatype Option<T> = None | Some(value: T)

  datatype Result<T> = Ok(value: T) | Err(msg: string)
}
