/** The adaptive-sampling work list of `render`: one InputTile per launch of
    `adaptiveSamplesPerThread` samples, for every tile of every image, written
    in batch / tile-row / tile-column / sample order; and the readback index of
    a tile (processAdaptiveTile). */
module AdaptiveTiles {
  import opened Align
  import opened GridIndex

  datatype InputTile = InputTile(batchIdx: nat, xOffset: nat, yOffset: nat, sampleOffset: nat)

  /** Launches per tile: sample offsets 0, step, 2 * step, ... below spp. */
  function LaunchesPerTile(spp: nat, step: nat): (n: nat)
    requires step > 0
    ensures n * step >= spp && (n == 0 || (n - 1) * step < spp)
  {
    DivideRoundUp(spp, step)
  }

  /** The launch count is the only count with that property, so the sample
      loop stops exactly after LaunchesPerTile launches. */
  lemma LaunchCountUnique(k: nat, spp: nat, step: nat)
    requires step > 0
    requires k * step >= spp && (k == 0 || (k - 1) * step < spp)
    ensures k == LaunchesPerTile(spp, step)
  {
    var n := LaunchesPerTile(spp, step);
    if k < n {
      MulLe(step, k, n - 1);
    } else if k > n {
      MulLe(step, n, k - 1);
    }
  }

  /** The entry at position `p` of the work list: `p` is read as the
      mixed-radix number (batch, tile row, tile column, launch). */
  function EntryAt(p: nat, launches: nat, tilesWide: nat, tilesTall: nat, step: nat): InputTile
  {
    if launches == 0 || tilesWide == 0 || tilesTall == 0 then InputTile(0, 0, 0, 0)
    else
      var k := p % launches;
      var t := p / launches;
      InputTile(t / (tilesWide * tilesTall), t % tilesWide, (t / tilesWide) % tilesTall, k * step)
  }

  /** Position of a launch in the work list. */
  function Position(b: nat, y: nat, x: nat, k: nat, launches: nat, tilesWide: nat, tilesTall: nat): nat
  {
    Linear(Cell(x, y, b), tilesWide, tilesTall) * launches + k
  }

  /** Reading a position back gives the launch that was written there. */
  lemma EntryAtPosition(b: nat, y: nat, x: nat, k: nat, launches: nat, tilesWide: nat,
                        tilesTall: nat, step: nat)
    requires x < tilesWide && y < tilesTall && k < launches
    ensures EntryAt(Position(b, y, x, k, launches, tilesWide, tilesTall), launches, tilesWide,
                    tilesTall, step) == InputTile(b, x, y, k * step)
  {
    var c := Cell(x, y, b);
    var t := Linear(c, tilesWide, tilesTall);
    DivModUnique(t * launches + k, launches, t, k);
    DelinearOfLinear(c, tilesWide, tilesTall, b + 1);
  }

  /** The work list so far holds exactly the entries before position `count`. */
  predicate WorkListUpTo(tiles: seq<InputTile>, count: nat, launches: nat, tilesWide: nat,
                         tilesTall: nat, step: nat)
  {
    |tiles| == count &&
    forall p :: 0 <= p < |tiles| ==> tiles[p] == EntryAt(p, launches, tilesWide, tilesTall, step)
  }

  /** Stepping to the next tile column adds one to the row-major tile index. */
  lemma NextColumn(x: nat, y: nat, b: nat, tilesWide: nat, tilesTall: nat)
    ensures Linear(Cell(x + 1, y, b), tilesWide, tilesTall) == Linear(Cell(x, y, b), tilesWide, tilesTall) + 1
  {
  }

  /** One past the last column of a row is the first column of the next row,
      and one past the last row of an image is the first row of the next one. */
  lemma RowAndImageEnds(y: nat, b: nat, tilesWide: nat, tilesTall: nat)
    ensures Linear(Cell(tilesWide, y, b), tilesWide, tilesTall) == Linear(Cell(0, y + 1, b), tilesWide, tilesTall)
    ensures Linear(Cell(0, tilesTall, b), tilesWide, tilesTall) == Linear(Cell(0, 0, b + 1), tilesWide, tilesTall)
  {
  }

  lemma FirstTileOf(b: nat, tilesWide: nat, tilesTall: nat)
    ensures Linear(Cell(0, 0, b), tilesWide, tilesTall) == b * tilesTall * tilesWide
  {
  }

  /** The innermost loop of the work list: writeTile for each sample offset
      of one tile, starting a launch every `step` samples. */
  method WriteTileLaunches(tiles: seq<InputTile>, batchIdx: nat, tileY: nat, tileX: nat,
                           tilesTall: nat, tilesWide: nat, spp: nat, step: nat, ghost t: nat)
    returns (tiles': seq<InputTile>)
    requires step > 0 && tileX < tilesWide && tileY < tilesTall
    requires t == Linear(Cell(tileX, tileY, batchIdx), tilesWide, tilesTall)
    requires WorkListUpTo(tiles, t * LaunchesPerTile(spp, step), LaunchesPerTile(spp, step),
                          tilesWide, tilesTall, step)
    ensures WorkListUpTo(tiles', t * LaunchesPerTile(spp, step) + LaunchesPerTile(spp, step),
                         LaunchesPerTile(spp, step), tilesWide, tilesTall, step)
  {
    ghost var n := LaunchesPerTile(spp, step);
    tiles' := tiles;
    var sampleIdx := 0;
    ghost var k: nat := 0;
    while sampleIdx < spp
      invariant sampleIdx == k * step
      invariant k == 0 || sampleIdx < spp + step
      invariant WorkListUpTo(tiles', t * n + k, n, tilesWide, tilesTall, step)
      decreases spp - sampleIdx
    {
      assert k < n by {
        if k >= n { MulLe(step, n, k); }
      }
      EntryAtPosition(batchIdx, tileY, tileX, k, n, tilesWide, tilesTall, step);
      tiles' := tiles' + [InputTile(batchIdx, tileX, tileY, sampleIdx)];
      sampleIdx := sampleIdx + step;
      k := k + 1;
    }
    assert k == 0 || (k - 1) * step < spp by {
      if k > 0 { assert (k - 1) * step == k * step - step; }
    }
    LaunchCountUnique(k, spp, step);
  }

  /** The initial work list of the adaptive branch of `render`: writeTile
      called for every image, tile row, tile column and sample offset. */
  method BuildWorkList(batchSize: nat, tilesTall: nat, tilesWide: nat, spp: nat, step: nat)
    returns (tiles: seq<InputTile>)
    requires step > 0
    ensures WorkListUpTo(tiles, batchSize * tilesTall * tilesWide * LaunchesPerTile(spp, step),
                         LaunchesPerTile(spp, step), tilesWide, tilesTall, step)
  {
    ghost var n := LaunchesPerTile(spp, step);
    ghost var t: nat := 0;  // row-major index of the current tile
    tiles := [];
    var curTileIdx := 0;
    for batchIdx := 0 to batchSize
      invariant curTileIdx == |tiles|
      invariant t == Linear(Cell(0, 0, batchIdx), tilesWide, tilesTall)
      invariant WorkListUpTo(tiles, t * n, n, tilesWide, tilesTall, step)
    {
      for tileY := 0 to tilesTall
        invariant curTileIdx == |tiles|
        invariant t == Linear(Cell(0, tileY, batchIdx), tilesWide, tilesTall)
        invariant WorkListUpTo(tiles, t * n, n, tilesWide, tilesTall, step)
      {
        for tileX := 0 to tilesWide
          invariant curTileIdx == |tiles|
          invariant t == Linear(Cell(tileX, tileY, batchIdx), tilesWide, tilesTall)
          invariant WorkListUpTo(tiles, t * n, n, tilesWide, tilesTall, step)
        {
          tiles := WriteTileLaunches(tiles, batchIdx, tileY, tileX, tilesTall, tilesWide, spp, step, t);
          curTileIdx := |tiles|;
          assert t * n + n == (t + 1) * n;
          NextColumn(tileX, tileY, batchIdx, tilesWide, tilesTall);
          t := t + 1;
        }
        RowAndImageEnds(tileY, batchIdx, tilesWide, tilesTall);
      }
      RowAndImageEnds(tilesTall, batchIdx, tilesWide, tilesTall);
    }
    FirstTileOf(batchSize, tilesWide, tilesTall);
  }

  /** Every entry of the work list names a tile inside the batch and a
      sample offset below spp on a launch boundary. */
  lemma EntryInRange(p: nat, batchSize: nat, tilesTall: nat, tilesWide: nat, spp: nat, step: nat)
    requires step > 0
    requires p < batchSize * tilesTall * tilesWide * LaunchesPerTile(spp, step)
    ensures var e := EntryAt(p, LaunchesPerTile(spp, step), tilesWide, tilesTall, step);
      && e.batchIdx < batchSize && e.xOffset < tilesWide && e.yOffset < tilesTall
      && e.sampleOffset < spp && e.sampleOffset % step == 0
  {
    var n := LaunchesPerTile(spp, step);
    var k := p % n;
    var t := p / n;
    assert t < batchSize * tilesTall * tilesWide by {
      assert batchSize * tilesTall * tilesWide * n == (batchSize * tilesTall * tilesWide) * n;
      QuotientBelow(p, n, batchSize * tilesTall * tilesWide);
    }
    var c := Delinear(t, tilesWide, tilesTall, batchSize);
    LinearOfDelinear(t, tilesWide, tilesTall, batchSize);
    assert t / (tilesWide * tilesTall) == c.z by {
      DelinearOfLinear(c, tilesWide, tilesTall, batchSize);
    }
    assert k * step < spp by {
      MulLe(step, k, n - 1);
    }
    DivModUnique(k * step, step, k, 0);
  }

  /** Every launch of every tile is on the list, at its own position, so the
      list covers each tile's samples 0 .. spp once. */
  lemma EveryLaunchListed(b: nat, y: nat, x: nat, k: nat, batchSize: nat, tilesTall: nat,
                          tilesWide: nat, spp: nat, step: nat)
    requires step > 0
    requires b < batchSize && y < tilesTall && x < tilesWide && k * step < spp
    ensures var n := LaunchesPerTile(spp, step);
      && k < n
      && Position(b, y, x, k, n, tilesWide, tilesTall) < batchSize * tilesTall * tilesWide * n
      && EntryAt(Position(b, y, x, k, n, tilesWide, tilesTall), n, tilesWide, tilesTall, step)
           == InputTile(b, x, y, k * step)
  {
    var n := LaunchesPerTile(spp, step);
    assert k < n by {
      if k >= n { MulLe(step, n, k); }
    }
    EntryAtPosition(b, y, x, k, n, tilesWide, tilesTall, step);
    var c := Cell(x, y, b);
    LinearInRange(c, tilesWide, tilesTall, batchSize);
    PositionBelow(Linear(c, tilesWide, tilesTall), k, n, tilesWide * tilesTall * batchSize);
    ProductOrder(batchSize, tilesTall, tilesWide, n);
  }

  lemma ProductOrder(a: nat, b: nat, c: nat, n: nat)
    ensures c * b * a * n == a * b * c * n
  {
  }

  lemma PositionBelow(t: nat, k: nat, n: nat, m: nat)
    requires t < m && k < n
    ensures t * n + k < m * n
  {
    MulLe(n, t, m - 1);
  }

  /** processAdaptiveTile as written: it computes the tile's readback index
      and returns before the variance test, so it never re-queues a tile. */
  datatype TileDecision = TileDecision(linearIdx: nat, requeued: seq<InputTile>)

  function ProcessAdaptiveTile(b: nat, x: nat, y: nat, tilesTall: nat, tilesWide: nat)
    : (d: TileDecision)
    ensures d.requeued == []
  {
    TileDecision(b * tilesTall * tilesWide + y * tilesWide + x, [])
  }

  /** The readback index is the tile's row-major index, lies inside the
      readback buffer (one AdaptiveTile per tile of the batch), and no two
      tiles share it. */
  lemma ReadbackIndexSound(b: nat, x: nat, y: nat, batchSize: nat, tilesTall: nat, tilesWide: nat)
    requires b < batchSize && x < tilesWide && y < tilesTall
    ensures var idx := ProcessAdaptiveTile(b, x, y, tilesTall, tilesWide).linearIdx;
      && idx == Linear(Cell(x, y, b), tilesWide, tilesTall)
      && idx < tilesWide * tilesTall * batchSize
  {
    var c := Cell(x, y, b);
    assert b * tilesTall * tilesWide + y * tilesWide + x == x + tilesWide * (y + tilesTall * b);
    LinearInRange(c, tilesWide, tilesTall, batchSize);
  }

  lemma ReadbackIndexInjective(b1: nat, x1: nat, y1: nat, b2: nat, x2: nat, y2: nat,
                               batchSize: nat, tilesTall: nat, tilesWide: nat)
    requires b1 < batchSize && x1 < tilesWide && y1 < tilesTall
    requires b2 < batchSize && x2 < tilesWide && y2 < tilesTall
    requires ProcessAdaptiveTile(b1, x1, y1, tilesTall, tilesWide).linearIdx ==
             ProcessAdaptiveTile(b2, x2, y2, tilesTall, tilesWide).linearIdx
    ensures b1 == b2 && x1 == x2 && y1 == y2
  {
    ReadbackIndexSound(b1, x1, y1, batchSize, tilesTall, tilesWide);
    ReadbackIndexSound(b2, x2, y2, batchSize, tilesTall, tilesWide);
    LinearInjective(Cell(x1, y1, b1), Cell(x2, y2, b2), tilesWide, tilesTall, batchSize);
  }

  /** One refine pass over the readback: processAdaptiveTile for every
      image, tile row and tile column. The tiles are visited in the order of
      their readback records, and none is queued again. */
  method ProcessAllTiles(batchSize: nat, tilesTall: nat, tilesWide: nat)
    returns (visited: seq<nat>, queued: seq<InputTile>)
    ensures |visited| == batchSize * tilesTall * tilesWide
    ensures forall j :: 0 <= j < |visited| ==> visited[j] == j
    ensures queued == []
  {
    visited := [];
    queued := [];
    for batchIdx := 0 to batchSize
      invariant |visited| == Linear(Cell(0, 0, batchIdx), tilesWide, tilesTall)
      invariant forall j :: 0 <= j < |visited| ==> visited[j] == j
      invariant queued == []
    {
      for tileY := 0 to tilesTall
        invariant |visited| == Linear(Cell(0, tileY, batchIdx), tilesWide, tilesTall)
        invariant forall j :: 0 <= j < |visited| ==> visited[j] == j
        invariant queued == []
      {
        for tileX := 0 to tilesWide
          invariant |visited| == Linear(Cell(tileX, tileY, batchIdx), tilesWide, tilesTall)
          invariant forall j :: 0 <= j < |visited| ==> visited[j] == j
          invariant queued == []
        {
          var d := ProcessAdaptiveTile(batchIdx, tileX, tileY, tilesTall, tilesWide);
          ReadbackIndexSound(batchIdx, tileX, tileY, batchIdx + 1, tilesTall, tilesWide);
          visited := visited + [d.linearIdx];
          queued := queued + d.requeued;
          NextColumn(tileX, tileY, batchIdx, tilesWide, tilesTall);
        }
        RowAndImageEnds(tileY, batchIdx, tilesWide, tilesTall);
      }
      RowAndImageEnds(tilesTall, batchIdx, tilesWide, tilesTall);
    }
    FirstTileOf(batchSize, tilesWide, tilesTall);
  }
}
