/** Framebuffer tiling and plane sizes (getFramebufferConfig,
    getProbeFramebufferConfig, getLaunchSize). `batchSize` images are laid out
    side by side in one physical framebuffer; the number of images per row is
    the least divisor of `batchSize` that is at least the ceiling of its
    square root. */
module FramebufferLayout {
  import opened Config
  import opened Align

  datatype FramebufferConfig = FramebufferConfig(
    imgWidth: nat,
    imgHeight: nat,
    miniBatchSize: nat,
    numImagesWidePerMiniBatch: nat,
    numImagesTallPerMiniBatch: nat,
    numImagesWidePerBatch: nat,
    numImagesTallPerBatch: nat,
    frameWidth: nat,
    frameHeight: nat,
    numTilesWide: nat,
    numTilesTall: nat,
    outputBytes: nat,
    hdrBytes: nat,
    normalBytes: nat,
    albedoBytes: nat,
    reservoirBytes: nat,
    illuminanceBytes: nat,
    adaptiveBytes: nat)

  // ---- the width search ---------------------------------------------------

  /** `ceil(sqrt(n))`, the least `r` with `r * r >= n`. The source computes it
      in floating point, which is exact for every 32-bit `n`. */
  function CeilSqrt(n: nat): (r: nat)
    ensures r * r >= n
    ensures r == 0 || (r - 1) * (r - 1) < n
  {
    CeilSqrtFrom(n, 0)
  }

  function CeilSqrtFrom(n: nat, k: nat): (r: nat)
    requires k == 0 || (k - 1) * (k - 1) < n
    ensures r * r >= n
    ensures r == 0 || (r - 1) * (r - 1) < n
    decreases n - k
  {
    if k * k >= n then k
    else
      assert k < n by {
        if k >= 1 { assert k <= k * k by { MulAtLeast(k, k); } }
      }
      CeilSqrtFrom(n, k + 1)
  }

  lemma CeilSqrtBounds(n: nat)
    requires n > 0
    ensures 1 <= CeilSqrt(n) <= n
  {
    var r := CeilSqrt(n);
    if r > n {
      assert r - 1 >= n >= 1;
      MulAtLeast(r - 1, r - 1);
    }
  }

  /** `d` divides `n`. */
  predicate Divides(d: nat, n: nat)
  {
    d > 0 && n % d == 0
  }

  /** The least divisor of `n` that is at least `k`; exists because `n` divides itself. */
  function SmallestDivisorFrom(n: nat, k: nat): (r: nat)
    requires 1 <= k <= n
    ensures k <= r <= n && Divides(r, n)
    ensures forall j :: k <= j < r ==> !Divides(j, n)
    decreases n - k
  {
    if n % k == 0 then k
    else
      assert k != n by { assert n % n == 0 by { DivModUnique(n, n, 1, 0); } }
      SmallestDivisorFrom(n, k + 1)
  }

  /** Number of images per framebuffer row, as the source's loop computes it. */
  function ImagesWide(batchSize: nat): (r: nat)
    requires batchSize > 0
    ensures 1 <= r <= batchSize && Divides(r, batchSize)
  {
    CeilSqrtBounds(batchSize);
    SmallestDivisorFrom(batchSize, CeilSqrt(batchSize))
  }

  /** `ImagesWide` is the least divisor of the batch size that is not below
      its square root, so the grid is as close to square as divisibility allows. */
  lemma ImagesWideIsNearSquare(batchSize: nat)
    requires batchSize > 0
    ensures var w := ImagesWide(batchSize);
            Divides(w, batchSize) && w * w >= batchSize &&
            forall j: nat :: j * j >= batchSize && j < w ==> !Divides(j, batchSize)
  {
    var w := ImagesWide(batchSize);
    var c := CeilSqrt(batchSize);
    CeilSqrtBounds(batchSize);
    assert w >= c;
    assert w * w >= c * c by { MulMono(c, w); }
    forall j: nat | j * j >= batchSize && j < w
      ensures !Divides(j, batchSize)
    {
      if j < c {
        assert j <= c - 1;
        MulMono(j, c - 1);
        assert false;
      }
    }
  }

  lemma MulMono(a: nat, b: nat)
    requires a <= b
    ensures a * a <= b * b
  {
    assert a * a <= a * b <= b * b;
  }

  // ---- the configuration ----------------------------------------------------

  /** The grid facts the source asserts. */
  predicate GridSound(fb: FramebufferConfig, cfg: RenderConfig)
  {
    && fb.numImagesWidePerBatch * fb.numImagesTallPerBatch == cfg.batchSize
    && fb.numImagesWidePerMiniBatch * fb.numImagesTallPerMiniBatch == fb.miniBatchSize
    && fb.miniBatchSize > 0 && cfg.batchSize % fb.miniBatchSize == 0
  }

  /** The frame is the image grid, each side stored in a `uint32_t`. */
  predicate FrameSizes(fb: FramebufferConfig, cfg: RenderConfig)
  {
    && fb.frameWidth == U32(cfg.imgWidth * fb.numImagesWidePerBatch)
    && fb.frameHeight == U32(cfg.imgHeight * fb.numImagesTallPerBatch)
  }

  /** Bytes of every output plane, per pixel of the whole frame or per tile.
      The pixel count and every byte count are stored in a `uint32_t`, so
      each is reduced modulo 2^32. */
  predicate PlaneSizes(fb: FramebufferConfig, cfg: RenderConfig, sizes: StructSizes)
  {
    var pixels := U32(fb.frameWidth * fb.frameHeight);
    var tiles := fb.numTilesWide * fb.numTilesTall * cfg.batchSize;
    && fb.outputBytes == U32(4 * SizeOfU16 * pixels)
    && fb.hdrBytes == U32(4 * SizeOfFloat * pixels)
    && fb.normalBytes == U32(3 * SizeOfU16 * pixels)
    && fb.albedoBytes == U32(3 * SizeOfU16 * pixels)
    && fb.reservoirBytes == U32(sizes.reservoir * pixels)
    && fb.illuminanceBytes == U32(SizeOfFloat * tiles)
    && fb.adaptiveBytes == U32(sizes.adaptiveTile * tiles)
  }

  /** How a batch is arranged: the minibatch sub-grid and the batch grid. */
  datatype BatchGrid = BatchGrid(
    miniBatchSize: nat,
    miniWide: nat,
    miniTall: nat,
    wide: nat,
    tall: nat)

  /** The grid part of getFramebufferConfig, with the loop replaced by
      `ImagesWide`. The minibatch size is `max(batchSize / divisor, batchSize)`. */
  function BatchGridOf(batchSize: nat, minibatchDivisor: nat): (g: BatchGrid)
    requires batchSize > 0 && minibatchDivisor > 0
  {
    var b := batchSize;
    var minibatch := if b / minibatchDivisor >= b then b / minibatchDivisor else b;
    var wide := ImagesWide(b);
    if wide >= minibatch then BatchGrid(minibatch, minibatch, 1, wide, b / wide)
    else BatchGrid(minibatch, wide, minibatch / wide, wide, b / wide)
  }

  /** The assertions of getFramebufferConfig hold: the minibatch is the whole
      batch, it divides the batch, a row at least a minibatch wide is a whole
      number of minibatches, and both grids multiply out to their sizes. */
  lemma {:induction false} BatchGridSound(batchSize: nat, minibatchDivisor: nat)
    requires batchSize > 0 && minibatchDivisor > 0
    ensures var g := BatchGridOf(batchSize, minibatchDivisor);
            && g.miniBatchSize == batchSize
            && batchSize % g.miniBatchSize == 0
            && g.wide == ImagesWide(batchSize)
            && (g.wide >= g.miniBatchSize ==> g.wide % g.miniBatchSize == 0)
            && g.wide * g.tall == batchSize
            && g.miniWide * g.miniTall == g.miniBatchSize
  {
    var b := batchSize;
    QuotientAtMost(b, minibatchDivisor);
    assert b % b == 0 by { DivModUnique(b, b, 1, 0); }
    DividesExactly(ImagesWide(b), b);
  }

  lemma QuotientAtMost(n: nat, d: nat)
    requires d > 0
    ensures n / d <= n
  {
    var q := n / d;
    assert n == q * d + n % d;
    if q > n {
      MulAtLeast(d, q);
    }
  }

  lemma DividesExactly(d: nat, n: nat)
    requires Divides(d, n)
    ensures d * (n / d) == n
  {
    assert n == (n / d) * d + n % d;
  }

  /** getFramebufferConfig as a value: grid, frame, tile grid and plane sizes. */
  function FramebufferConfigOf(cfg: RenderConfig, vk: VulkanConfig, sizes: StructSizes)
    : (fb: FramebufferConfig)
    requires vk.Valid() && cfg.batchSize > 0
  {
    var g := BatchGridOf(cfg.batchSize, vk.minibatchDivisor);
    Assemble(cfg, g, DivideRoundUp(cfg.imgWidth, vk.localWorkgroupX),
             DivideRoundUp(cfg.imgHeight, vk.localWorkgroupY), sizes)
  }

  /** Frame size and plane byte sizes for a given grid and tile grid. */
  function Assemble(cfg: RenderConfig, g: BatchGrid, tilesWide: nat, tilesTall: nat,
                    sizes: StructSizes): (fb: FramebufferConfig)
    ensures PlaneSizes(fb, cfg, sizes) && FrameSizes(fb, cfg)
    ensures fb.miniBatchSize == g.miniBatchSize && fb.numImagesWidePerMiniBatch == g.miniWide
    ensures fb.numImagesTallPerMiniBatch == g.miniTall
    ensures fb.numImagesWidePerBatch == g.wide && fb.numImagesTallPerBatch == g.tall
    ensures fb.numTilesWide == tilesWide && fb.numTilesTall == tilesTall
  {
    var fbWidth := U32(cfg.imgWidth * g.wide);
    var fbHeight := U32(cfg.imgHeight * g.tall);
    var pixels := U32(fbWidth * fbHeight);
    var tiles := tilesWide * tilesTall * cfg.batchSize;
    FramebufferConfig(
      cfg.imgWidth, cfg.imgHeight, g.miniBatchSize, g.miniWide, g.miniTall, g.wide, g.tall,
      fbWidth, fbHeight, tilesWide, tilesTall,
      U32(4 * SizeOfU16 * pixels), U32(4 * SizeOfFloat * pixels),
      U32(3 * SizeOfU16 * pixels), U32(3 * SizeOfU16 * pixels),
      U32(sizes.reservoir * pixels),
      U32(SizeOfFloat * tiles),
      U32(sizes.adaptiveTile * tiles))
  }

  /** getFramebufferConfig. The width search is the source's `while` loop. */
  method GetFramebufferConfig(cfg: RenderConfig, vk: VulkanConfig, sizes: StructSizes)
    returns (fb: FramebufferConfig)
    requires vk.Valid() && cfg.batchSize > 0
    ensures fb == FramebufferConfigOf(cfg, vk, sizes)
    ensures GridSound(fb, cfg) && FrameSizes(fb, cfg) && PlaneSizes(fb, cfg, sizes)
    ensures fb.miniBatchSize == cfg.batchSize
  {
    var batchSize := cfg.batchSize;
    var minibatchSize := if batchSize / vk.minibatchDivisor >= batchSize
                         then batchSize / vk.minibatchDivisor else batchSize;
    CeilSqrtBounds(batchSize);
    var wide := CeilSqrt(batchSize);
    while batchSize % wide != 0
      invariant CeilSqrt(batchSize) <= wide <= batchSize
      invariant SmallestDivisorFrom(batchSize, wide) == ImagesWide(batchSize)
      decreases batchSize - wide
    {
      wide := wide + 1;
    }
    var g;
    if wide >= minibatchSize {
      g := BatchGrid(minibatchSize, minibatchSize, 1, wide, batchSize / wide);
    } else {
      g := BatchGrid(minibatchSize, wide, minibatchSize / wide, wide, batchSize / wide);
    }
    assert g == BatchGridOf(batchSize, vk.minibatchDivisor);
    var tilesWide := DivideRoundUp(cfg.imgWidth, vk.localWorkgroupX);
    var tilesTall := DivideRoundUp(cfg.imgHeight, vk.localWorkgroupY);
    fb := Assemble(cfg, g, tilesWide, tilesTall, sizes);
    FramebufferConfigSound(cfg, vk, sizes);
  }

  /** The whole configuration satisfies the grid, frame and plane-size facts,
      with every stored product reduced modulo 2^32 as its `uint32_t` is. */
  lemma FramebufferConfigSound(cfg: RenderConfig, vk: VulkanConfig, sizes: StructSizes)
    requires vk.Valid() && cfg.batchSize > 0
    ensures var fb := FramebufferConfigOf(cfg, vk, sizes);
            GridSound(fb, cfg) && FrameSizes(fb, cfg) && PlaneSizes(fb, cfg, sizes)
            && fb.miniBatchSize == cfg.batchSize
  {
    BatchGridSound(cfg.batchSize, vk.minibatchDivisor);
  }

  /** While the HDR plane, at 16 bytes a pixel the largest fixed-size plane,
      fits in 32 bits, nothing wraps: the frame holds exactly the pixels of
      `batchSize` images and every plane has its exact size. */
  lemma SizesExactWhileTheyFit(cfg: RenderConfig, vk: VulkanConfig, sizes: StructSizes)
    requires vk.Valid() && cfg.batchSize > 0 && cfg.imgWidth > 0 && cfg.imgHeight > 0
    requires 16 * (cfg.imgWidth * cfg.imgHeight * cfg.batchSize) < U32Limit
    ensures var fb := FramebufferConfigOf(cfg, vk, sizes);
            var pixels := cfg.imgWidth * cfg.imgHeight * cfg.batchSize;
            var tiles := fb.numTilesWide * fb.numTilesTall * cfg.batchSize;
            && fb.frameWidth * fb.frameHeight == pixels
            && fb.outputBytes == 8 * pixels && fb.hdrBytes == 16 * pixels
            && fb.normalBytes == 6 * pixels && fb.albedoBytes == 6 * pixels
            && fb.illuminanceBytes == 4 * tiles
            && (sizes.reservoir * pixels < U32Limit ==> fb.reservoirBytes == sizes.reservoir * pixels)
            && (sizes.adaptiveTile * tiles < U32Limit ==> fb.adaptiveBytes == sizes.adaptiveTile * tiles)
  {
    var g := BatchGridOf(cfg.batchSize, vk.minibatchDivisor);
    BatchGridSound(cfg.batchSize, vk.minibatchDivisor);
    FramebufferConfigSound(cfg, vk, sizes);
    var fb := FramebufferConfigOf(cfg, vk, sizes);
    var pixels := cfg.imgWidth * cfg.imgHeight * cfg.batchSize;
    GridPixels(cfg.imgWidth, cfg.imgHeight, cfg.batchSize, g.wide, g.tall);
    assert fb.frameWidth * fb.frameHeight == pixels;
    CoverAtMost(cfg.imgWidth, vk.localWorkgroupX);
    CoverAtMost(cfg.imgHeight, vk.localWorkgroupY);
    ProductMono(fb.numTilesWide, fb.numTilesTall, cfg.batchSize,
                cfg.imgWidth, cfg.imgHeight, cfg.batchSize);
  }

  /** The frame sides of a `wide` x `tall` grid of images, when its pixels
      fit in 32 bits, do not wrap and multiply out to the batch's pixels. */
  lemma GridPixels(iw: nat, ih: nat, b: nat, wide: nat, tall: nat)
    requires iw > 0 && ih > 0 && wide * tall == b && b > 0
    requires iw * ih * b < U32Limit
    ensures U32(iw * wide) * U32(ih * tall) == iw * ih * b
  {
    var w, h := iw * wide, ih * tall;
    assert w * h == iw * ih * b by {
      calc {
        w * h;
        (iw * wide) * (ih * tall);
        iw * ih * (wide * tall);
      }
    }
    assert wide >= 1 && tall >= 1;
    assert w >= 1 by { MulAtLeast(wide, iw); }
    assert h >= 1 by { MulAtLeast(tall, ih); }
    assert w <= w * h by { MulAtLeast(h, w); }
    assert h <= w * h by { MulAtLeast(w, h); }
  }

  /** A ceiling quotient is at most the dividend. */
  lemma CoverAtMost(n: nat, d: nat)
    requires d > 0
    ensures DivideRoundUp(n, d) <= n
  {
    var r := DivideRoundUp(n, d);
    if r > 0 && r - 1 > 0 {
      MulAtLeast(d, r - 1);
    }
  }

  lemma ProductMono(a: nat, b: nat, c: nat, x: nat, y: nat, z: nat)
    requires a <= x && b <= y && c <= z
    ensures a * b * c <= x * y * z
  {
    ScaleLe(a, x, b);
    ScaleLe(b, y, x);
    ScaleLe(a * b, x * y, c);
    ScaleLe(c, z, x * y);
  }

  lemma ScaleLe(p: nat, q: nat, r: nat)
    requires p <= q
    ensures p * r <= q * r && r * p <= r * q
  {
    assert q * r == p * r + (q - p) * r;
  }

  /** CeilSqrt is characterised by its contract: exactly one `r` has
      `r * r >= n > (r - 1) * (r - 1)`. */
  lemma CeilSqrtIs(n: nat, r: nat)
    requires r * r >= n && (r == 0 || (r - 1) * (r - 1) < n)
    ensures CeilSqrt(n) == r
  {
    var c := CeilSqrt(n);
    if c < r {
      MulMono(c, r - 1);
    } else if c > r {
      MulMono(r, c - 1);
    }
  }

  /** A batch of 4096 images of 256 x 256 pixels is a 64 x 64 grid of 2^28
      pixels: the 8-byte-a-pixel output plane still fits in 32 bits, but the
      16-byte-a-pixel HDR plane wraps to 0 bytes. */
  lemma HdrPlaneWrapsExample(vk: VulkanConfig, sizes: StructSizes)
    requires vk.Valid()
    ensures var fb := FramebufferConfigOf(RenderConfig(256, 256, 4096, 1, 0, false, false, false), vk, sizes);
            && fb.numImagesWidePerBatch == 64 && fb.numImagesTallPerBatch == 64
            && fb.frameWidth == 16384 && fb.frameHeight == 16384
            && fb.outputBytes == 0x8000_0000 && fb.hdrBytes == 0
  {
    CeilSqrtIs(4096, 64);
    assert ImagesWide(4096) == 64;
  }

  /** getProbeFramebufferConfig: a single image of the probe resolution. */
  function ProbeFramebufferConfig(width: nat, height: nat, sizes: StructSizes)
    : (fb: FramebufferConfig)
    ensures GridSound(fb, RenderConfig(width, height, 1, 0, 0, false, false, false))
    ensures fb.frameWidth == width && fb.frameHeight == height
    ensures fb.numTilesWide == 1 && fb.numTilesTall == 1
    ensures fb.illuminanceBytes == SizeOfFloat && fb.adaptiveBytes == sizes.adaptiveTile
  {
    var pixels := U32(width * height);
    FramebufferConfig(
      width, height, 1, 1, 1, 1, 1, width, height, 1, 1,
      U32(4 * SizeOfU16 * pixels), U32(4 * SizeOfFloat * pixels),
      U32(3 * SizeOfU16 * pixels), U32(3 * SizeOfU16 * pixels),
      U32(sizes.reservoir * pixels), SizeOfFloat, sizes.adaptiveTile)
  }

  /** The probe layout is the general layout of a one-image batch, except
      that it always counts a single tile. */
  lemma ProbeConfigIsSingleImageBatch(width: nat, height: nat, vk: VulkanConfig,
                                      sizes: StructSizes)
    requires vk.Valid() && width < U32Limit && height < U32Limit
    ensures var cfg := RenderConfig(width, height, 1, 0, 0, false, false, false);
            var general := FramebufferConfigOf(cfg, vk, sizes);
            ProbeFramebufferConfig(width, height, sizes) ==
              general.(numTilesWide := 1, numTilesTall := 1,
                       illuminanceBytes := SizeOfFloat, adaptiveBytes := sizes.adaptiveTile)
  {
    assert CeilSqrt(1) == 1;
    assert ImagesWide(1) == 1;
  }

  /** Workgroup counts of one path-tracing dispatch (getLaunchSize). */
  datatype LaunchSize = LaunchSize(x: nat, y: nat, z: nat)

  function GetLaunchSize(cfg: RenderConfig, vk: VulkanConfig): (l: LaunchSize)
    requires vk.Valid()
    ensures l.x * vk.localWorkgroupX >= cfg.imgWidth
    ensures l.y * vk.localWorkgroupY >= cfg.imgHeight
    ensures l.z * vk.localWorkgroupZ >= cfg.batchSize
    ensures l.x == 0 || (l.x - 1) * vk.localWorkgroupX < cfg.imgWidth
    ensures l.y == 0 || (l.y - 1) * vk.localWorkgroupY < cfg.imgHeight
    ensures l.z == 0 || (l.z - 1) * vk.localWorkgroupZ < cfg.batchSize
  {
    LaunchSize(DivideRoundUp(cfg.imgWidth, vk.localWorkgroupX),
               DivideRoundUp(cfg.imgHeight, vk.localWorkgroupY),
               DivideRoundUp(cfg.batchSize, vk.localWorkgroupZ))
  }

  /** The launch grid in x and y is exactly the framebuffer's tile grid, so a
      full launch covers every adaptive tile of one image. */
  lemma LaunchMatchesTiles(cfg: RenderConfig, vk: VulkanConfig, sizes: StructSizes)
    requires vk.Valid() && cfg.batchSize > 0
    ensures var l := GetLaunchSize(cfg, vk);
            var fb := FramebufferConfigOf(cfg, vk, sizes);
            l.x == fb.numTilesWide && l.y == fb.numTilesTall
  {
  }

  /** Worked examples: four 64x64 images form a 2x2 grid of 128x128 pixels;
      six form a 3x2 grid of 192x128 pixels. */
  lemma TilingExamples(vk: VulkanConfig, sizes: StructSizes)
    requires vk.Valid()
    ensures var fb := FramebufferConfigOf(RenderConfig(64, 64, 4, 1, 0, false, false, false), vk, sizes);
            fb.numImagesWidePerBatch == 2 && fb.numImagesTallPerBatch == 2 &&
            fb.frameWidth == 128 && fb.frameHeight == 128
    ensures var fb := FramebufferConfigOf(RenderConfig(64, 64, 6, 1, 0, false, false, false), vk, sizes);
            fb.numImagesWidePerBatch == 3 && fb.numImagesTallPerBatch == 2 &&
            fb.frameWidth == 192 && fb.frameHeight == 128
  {
    assert CeilSqrtFrom(4, 2) == 2;
    assert CeilSqrt(4) == 2;
    assert ImagesWide(4) == 2;
    assert CeilSqrtFrom(6, 3) == 3;
    assert CeilSqrt(6) == 3;
    assert ImagesWide(6) == 3;
  }
}
