/** The bookkeeping of `bake`: how many probes are left, which grid cells
    they sit at, and what the probe file holds afterwards, both as the code
    is written and as it is evidently meant to work. The GPU render of a
    probe is a parameter `gpu` from grid cell to texture bytes; a probe built
    from a read that hit end of file has contents nobody chose, given as the
    parameter `unread`. */
module ProbeBake {
  import opened Config
  import opened ByteCodec
  import opened GridIndex
  import opened ProbeFile

  /** PROBE_COUNT = PROBE_DIM.x * PROBE_DIM.y * PROBE_DIM.z. */
  const ProbeCount: nat := 27
  const ProbeDimX: nat := 3
  const ProbeDimY: nat := 3
  const ProbeDimZ: nat := 3

  /** The grid cell of probe `idx`: x = idx % dx, y = (idx / dx) % dy,
      z = (idx / (dx * dy)) % dz. */
  function ProbeCell(idx: nat): (c: Cell)
    ensures InGrid(c, ProbeDimX, ProbeDimY, ProbeDimZ)
  {
    Delinear(idx, ProbeDimX, ProbeDimY, ProbeDimZ)
  }

  /** The cells of probes start, start + 1, ..., start + count - 1. */
  function ProbeCells(start: nat, count: nat): (cs: seq<Cell>)
    ensures |cs| == count && forall i :: 0 <= i < count ==> cs[i] == ProbeCell(start + i)
  {
    seq(count, i requires 0 <= i < count => ProbeCell(start + i))
  }

  /** Resuming at `start` visits the cells whose linear index is start, ...,
      ProbeCount - 1 in that order, and every such cell is visited. */
  lemma ResumeCoversRemainingCells(start: nat)
    requires start <= ProbeCount
    ensures var cs := ProbeCells(start, ProbeCount - start);
      forall i :: 0 <= i < |cs| ==> Linear(cs[i], ProbeDimX, ProbeDimY) == start + i
    ensures var cs := ProbeCells(start, ProbeCount - start);
      forall c :: InGrid(c, ProbeDimX, ProbeDimY, ProbeDimZ) && Linear(c, ProbeDimX, ProbeDimY) >= start ==>
        cs[Linear(c, ProbeDimX, ProbeDimY) - start] == c
  {
    var cs := ProbeCells(start, ProbeCount - start);
    forall i | 0 <= i < |cs|
      ensures Linear(cs[i], ProbeDimX, ProbeDimY) == start + i
    {
      LinearOfDelinear(start + i, ProbeDimX, ProbeDimY, ProbeDimZ);
    }
    forall c | InGrid(c, ProbeDimX, ProbeDimY, ProbeDimZ) && Linear(c, ProbeDimX, ProbeDimY) >= start
      ensures cs[Linear(c, ProbeDimX, ProbeDimY) - start] == c
    {
      LinearInRange(c, ProbeDimX, ProbeDimY, ProbeDimZ);
      DelinearOfLinear(c, ProbeDimX, ProbeDimY, ProbeDimZ);
    }
  }

  /** `uint32_t left = probe_count - probes_.size()`: the difference taken
      modulo 2^32. */
  function LeftAsWritten(count: nat, size: nat): (left: nat)
    ensures left < U32Limit
    ensures size <= count < U32Limit ==> left == count - size
    ensures count < size < count + U32Limit ==> left == U32Limit - (size - count)
  {
    (count - size) % U32Limit
  }

  /** The probes rendered for cells start, ..., start + count - 1. */
  function BakedProbes(start: nat, count: nat, gpu: Cell -> ProbeBytes): (ps: seq<ProbeBytes>)
    ensures |ps| == count && forall i :: 0 <= i < count ==> ps[i] == gpu(ProbeCell(start + i))
  {
    seq<ProbeBytes>(count, i requires 0 <= i < count => gpu(ProbeCell(start + i)))
  }

  lemma BakedProbesStep(start: nat, i: nat, gpu: Cell -> ProbeBytes)
    ensures BakedProbes(start, i + 1, gpu) == BakedProbes(start, i, gpu) + [gpu(ProbeCell(start + i))]
  {
  }

  lemma BakedProbesSplit(k: nat, n: nat, gpu: Cell -> ProbeBytes)
    requires k <= n
    ensures BakedProbes(0, k, gpu) + BakedProbes(k, n - k, gpu) == BakedProbes(0, n, gpu)
    ensures BakedProbes(0, n, gpu)[..k] == BakedProbes(0, k, gpu)
  {
  }

  /** The probes the load loop pushes, with the unread ones filled in. */
  function Materialise(ls: seq<LoadedProbe>, unread: ProbeBytes): (ps: seq<ProbeBytes>)
    ensures |ps| == |ls|
    ensures forall i :: 0 <= i < |ls| ==> ps[i] == (if ls[i].Complete? then ls[i].bytes else unread)
  {
    seq(|ls|, i requires 0 <= i < |ls| => if ls[i].Complete? then ls[i].bytes else unread)
  }

  lemma MaterialiseAppend(ls: seq<LoadedProbe>, ms: seq<LoadedProbe>, unread: ProbeBytes)
    ensures Materialise(ls + ms, unread) == Materialise(ls, unread) + Materialise(ms, unread)
  {
    var a := Materialise(ls + ms, unread);
    var b := Materialise(ls, unread) + Materialise(ms, unread);
    forall i | 0 <= i < |a|
      ensures a[i] == b[i]
    {
      if i < |ls| {
        assert (ls + ms)[i] == ls[i];
      } else {
        assert (ls + ms)[i] == ms[i - |ls|];
      }
    }
  }

  /** The probes the load loop pushes from the stream position `rest` on:
      each whole record, then the unread probe of the read that comes up
      short. */
  function Pending(rest: seq<Byte>, unread: ProbeBytes): (ps: seq<ProbeBytes>)
    ensures |ps| >= 1 && ps[|ps| - 1] == unread
    decreases |rest|
  {
    match ReadProbe(rest)
    case None => [unread]
    case Some(rd) => [rd.probe] + Pending(rd.rest, unread)
  }

  /** Pending is the load loop's output with its truncated probe made the
      unread one. */
  lemma {:induction false} PendingIsLoadLoop(rest: seq<Byte>, unread: ProbeBytes)
    ensures Pending(rest, unread) == Materialise(LoadLoopAsWritten(rest), unread)
    decreases |rest|
  {
    match ReadProbe(rest)
    case None =>
    case Some(rd) =>
      PendingIsLoadLoop(rd.rest, unread);
      MaterialiseAppend([Complete(rd.probe)], LoadLoopAsWritten(rd.rest), unread);
      assert Materialise([Complete(rd.probe)], unread) == [rd.probe];
  }

  /** One record read moves its probe from the pending tail onto the pushed prefix. */
  lemma PendingStep(pushed: seq<ProbeBytes>, rest: seq<Byte>, unread: ProbeBytes)
    requires ReadProbe(rest).Some?
    ensures pushed + Pending(rest, unread)
         == (pushed + [ReadProbe(rest).value.probe]) + Pending(ReadProbe(rest).value.rest, unread)
  {
    var rd := ReadProbe(rest).value;
    assert Pending(rest, unread) == [rd.probe] + Pending(rd.rest, unread);
  }

  /** The load loop of `bake`: `while (!file.eof())` read one probe with
      deserializeProbeFromFile and push it. A read that comes up short sets
      eof, and its unread probe is pushed too. */
  method ReadAllProbes(body: seq<Byte>, unread: ProbeBytes) returns (pushed: seq<ProbeBytes>)
    ensures pushed == Pending(body, unread)
  {
    var rest := body;
    var rd := ReadProbe(rest);
    pushed := [];
    while rd.Some?
      invariant rd == ReadProbe(rest)
      invariant Pending(body, unread) == pushed + Pending(rest, unread)
      decreases |rest|
    {
      PendingStep(pushed, rest, unread);
      pushed := pushed + [rd.value.probe];
      rest := rd.value.rest;
      rd := ReadProbe(rest);
    }
    pushed := pushed + [unread];
  }

  /** What a bake leaves behind: the probes in memory, the probe file, and
      how many probes it rendered. */
  datatype BakeOutcome = BakeOutcome(probes: seq<ProbeBytes>, file: seq<Byte>, baked: nat)

  function FileOrEmpty(existing: Option<seq<Byte>>): seq<Byte>
  {
    if existing.Some? then existing.value else []
  }

  /** `bake` as written: load whatever the file holds, bake `left` probes
      from index `start = probes_.size()`, append a dims header to the file,
      then in iteration i append the record of `probes_[i]`. */
  function BakeAsWritten(existing: Option<seq<Byte>>, probes: seq<ProbeBytes>,
                         gpu: Cell -> ProbeBytes, unread: ProbeBytes): (r: Result<BakeOutcome>)
    ensures r.Ok? ==> |probes| <= |r.value.probes| && r.value.probes[..|probes|] == probes
  {
    var loaded := if existing.Some? then LoadProbeFileAsWritten(existing.value) else Ok([]);
    if loaded.Err? then Err(loaded.msg)
    else Ok(AppendAsWritten(FileOrEmpty(existing), probes + Materialise(loaded.value, unread), gpu))
  }

  /** The baking and writing half of `bake` as written, once `before` is in
      memory and `file` holds what was there. */
  function AppendAsWritten(file: seq<Byte>, before: seq<ProbeBytes>, gpu: Cell -> ProbeBytes): (o: BakeOutcome)
    ensures o.baked == LeftAsWritten(ProbeCount, |before|)
    ensures |o.probes| == |before| + o.baked
    ensures o.probes[..|before|] == before
  {
    var start := |before|;
    var left := LeftAsWritten(ProbeCount, start);
    var after := before + BakedProbes(start, left, gpu);
    BakeOutcome(after, file + EncodeHeader(ProbeDim) + EncodeRecords(after[..left]), left)
  }

  /** `bake` as intended: the load reads whole records only, the count left
      never wraps, the header is written once when the file is created, and
      iteration i appends the probe it just baked, `probes_[start + i]`. */
  function BakeCorrected(existing: Option<seq<Byte>>, probes: seq<ProbeBytes>,
                         gpu: Cell -> ProbeBytes): (r: Result<BakeOutcome>)
    ensures r.Ok? ==> |probes| <= |r.value.probes| && r.value.probes[..|probes|] == probes
  {
    var loaded := if existing.Some? then LoadProbeFile(existing.value) else Ok([]);
    if loaded.Err? then Err(loaded.msg)
    else
      var file := if existing.Some? then existing.value else EncodeHeader(ProbeDim);
      Ok(AppendCorrected(file, probes + loaded.value, gpu))
  }

  /** The baking and writing half of the corrected `bake`. */
  function AppendCorrected(file: seq<Byte>, before: seq<ProbeBytes>, gpu: Cell -> ProbeBytes): (o: BakeOutcome)
    ensures o.baked == if |before| <= ProbeCount then ProbeCount - |before| else 0
    ensures |o.probes| == |before| + o.baked
    ensures o.probes[..|before|] == before
  {
    var start := |before|;
    var left := if start <= ProbeCount then ProbeCount - start else 0;
    var after := before + BakedProbes(start, left, gpu);
    BakeOutcome(after, file + EncodeRecords(after[start..]), left)
  }

  // ---------------------------------------------------------------------
  // The corrected bake

  /** A first bake renders every cell in order and writes a file that loads
      back to exactly those probes. */
  lemma CorrectedFreshBake(gpu: Cell -> ProbeBytes)
    ensures BakeCorrected(None, [], gpu) ==
      Ok(BakeOutcome(BakedProbes(0, ProbeCount, gpu),
                     EncodeHeader(ProbeDim) + EncodeRecords(BakedProbes(0, ProbeCount, gpu)),
                     ProbeCount))
    ensures LoadProbeFile(EncodeHeader(ProbeDim) + EncodeRecords(BakedProbes(0, ProbeCount, gpu)))
            == Ok(BakedProbes(0, ProbeCount, gpu))
  {
    var all := BakedProbes(0, ProbeCount, gpu);
    assert [] + all == all && all[0..] == all;
    ProbeFileRoundTrip(all);
  }

  /** Resuming from a file that holds the first k probes bakes exactly the
      remaining cells, ends with the whole grid in memory, and leaves a file
      that loads back to the same probes; resuming from a run interrupted
      under the same renderer gives the same result as one full bake. */
  lemma CorrectedResumeCompletesGrid(ps: seq<ProbeBytes>, gpu: Cell -> ProbeBytes)
    requires |ps| <= ProbeCount
    ensures var r := BakeCorrected(Some(EncodeHeader(ProbeDim) + EncodeRecords(ps)), [], gpu);
      && r.Ok?
      && r.value.probes == ps + BakedProbes(|ps|, ProbeCount - |ps|, gpu)
      && |r.value.probes| == ProbeCount
      && r.value.file == EncodeHeader(ProbeDim) + EncodeRecords(r.value.probes)
      && LoadProbeFile(r.value.file) == Ok(r.value.probes)
      && (ps == BakedProbes(0, ProbeCount, gpu)[..|ps|] ==> r.value.probes == BakedProbes(0, ProbeCount, gpu))
  {
    BakeCorrectedOnFile(ps, gpu);
    CorrectedAppendCompletesGrid(ps, gpu);
  }

  lemma CorrectedAppendCompletesGrid(ps: seq<ProbeBytes>, gpu: Cell -> ProbeBytes)
    requires |ps| <= ProbeCount
    ensures var o := AppendCorrected(EncodeHeader(ProbeDim) + EncodeRecords(ps), ps, gpu);
      && o.probes == ps + BakedProbes(|ps|, ProbeCount - |ps|, gpu)
      && |o.probes| == ProbeCount
      && o.file == EncodeHeader(ProbeDim) + EncodeRecords(o.probes)
      && LoadProbeFile(o.file) == Ok(o.probes)
      && (ps == BakedProbes(0, ProbeCount, gpu)[..|ps|] ==> o.probes == BakedProbes(0, ProbeCount, gpu))
  {
    var h := EncodeHeader(ProbeDim);
    var file := h + EncodeRecords(ps);
    var baked := BakedProbes(|ps|, ProbeCount - |ps|, gpu);
    ResumeAppendCorrected(file, ps, gpu);
    calc {
      file + EncodeRecords(baked);
      h + (EncodeRecords(ps) + EncodeRecords(baked));
      { EncodeRecordsAppend(ps, baked); }
      h + EncodeRecords(ps + baked);
    }
    ProbeFileRoundTrip(ps + baked);
    BakedProbesSplit(|ps|, ProbeCount, gpu);
  }

  /** What the corrected bake does on a file of one header and the records
      `ps`: exactly those probes are in memory before baking starts. */
  lemma BakeCorrectedOnFile(ps: seq<ProbeBytes>, gpu: Cell -> ProbeBytes)
    ensures var file := EncodeHeader(ProbeDim) + EncodeRecords(ps);
      BakeCorrected(Some(file), [], gpu) == Ok(AppendCorrected(file, ps, gpu))
  {
    ProbeFileRoundTrip(ps);
    assert [] + ps == ps;
  }

  lemma ResumeAppendCorrected(file: seq<Byte>, before: seq<ProbeBytes>, gpu: Cell -> ProbeBytes)
    requires |before| <= ProbeCount
    ensures var o := AppendCorrected(file, before, gpu);
      && o.probes == before + BakedProbes(|before|, ProbeCount - |before|, gpu)
      && o.file == file + EncodeRecords(BakedProbes(|before|, ProbeCount - |before|, gpu))
  {
    var baked := BakedProbes(|before|, ProbeCount - |before|, gpu);
    assert (before + baked)[|before|..] == baked;
  }

  // ---------------------------------------------------------------------
  // The bake as written

  /** On a first run the code as written is right: start is 0, so
      `probes_[i]` is the probe just baked and there is one header. */
  lemma FreshBakeAsWrittenAgrees(gpu: Cell -> ProbeBytes, unread: ProbeBytes)
    ensures BakeAsWritten(None, [], gpu, unread) == BakeCorrected(None, [], gpu)
  {
    assert BakeAsWritten(None, [], gpu, unread) == Ok(AppendAsWritten([], [], gpu)) by {
      assert [] + Materialise([], unread) == [];
    }
    assert BakeCorrected(None, [], gpu) == Ok(AppendCorrected(EncodeHeader(ProbeDim), [], gpu)) by {
      var none: seq<ProbeBytes> := [];
      assert none + none == none;
    }
    FreshAppendsAgree(gpu);
  }

  lemma FreshAppendsAgree(gpu: Cell -> ProbeBytes)
    ensures AppendAsWritten([], [], gpu) == AppendCorrected(EncodeHeader(ProbeDim), [], gpu)
  {
    var all := BakedProbes(0, ProbeCount, gpu);
    assert [] + all == all;
    assert all[..ProbeCount] == all == all[0..];
    assert [] + EncodeHeader(ProbeDim) == EncodeHeader(ProbeDim);
  }

  /** What the code as written does on a file of one header and the
      records `ps`: everything loaded, plus the unread probe, is in memory
      before baking starts. */
  lemma BakeAsWrittenOnFile(ps: seq<ProbeBytes>, gpu: Cell -> ProbeBytes, unread: ProbeBytes)
    ensures var file := EncodeHeader(ProbeDim) + EncodeRecords(ps);
      BakeAsWritten(Some(file), [], gpu, unread) == Ok(AppendAsWritten(file, ps + [unread], gpu))
  {
    var file := EncodeHeader(ProbeDim) + EncodeRecords(ps);
    var loaded := LoadProbeFileAsWritten(file);
    LoadedAsWritten(ps, unread);
    var before := [] + Materialise(loaded.value, unread);
    assert before == ps + [unread];
    assert FileOrEmpty(Some(file)) == file;
  }

  /** Loading a complete file pushes one probe too many (the read at end of
      file), so `probe_count - probes_.size()` is -1 and wraps to 2^32 - 1
      probes left to bake. */
  lemma CompleteFileReloadWrapsLeft(ps: seq<ProbeBytes>, gpu: Cell -> ProbeBytes, unread: ProbeBytes)
    requires |ps| == ProbeCount
    ensures var r := BakeAsWritten(Some(EncodeHeader(ProbeDim) + EncodeRecords(ps)), [], gpu, unread);
      && r.Ok?
      && r.value.baked == U32Limit - 1
      && |r.value.probes| == ProbeCount + 1 + (U32Limit - 1)
      && r.value.probes[..ProbeCount + 1] == ps + [unread]
  {
    BakeAsWrittenOnFile(ps, gpu, unread);
    assert LeftAsWritten(ProbeCount, ProbeCount + 1) == U32Limit - 1;
  }

  /** What the load branch as written pushes for a file of one header and
      the records `ps`. */
  lemma LoadedAsWritten(ps: seq<ProbeBytes>, unread: ProbeBytes)
    ensures var file := EncodeHeader(ProbeDim) + EncodeRecords(ps);
      && LoadProbeFileAsWritten(file).Ok?
      && Materialise(LoadProbeFileAsWritten(file).value, unread) == ps + [unread]
  {
    var file := EncodeHeader(ProbeDim) + EncodeRecords(ps);
    assert file[..HeaderBytes] == EncodeHeader(ProbeDim);
    assert file[HeaderBytes..] == EncodeRecords(ps);
    HeaderRoundTrip(ProbeDim);
    LoadLoopAddsTruncatedProbe(ps);
    var ls := AsComplete(ps) + [Truncated];
    assert LoadProbeFileAsWritten(file).value == ls;
    MaterialiseLoaded(ps, unread);
  }

  lemma MaterialiseLoaded(ps: seq<ProbeBytes>, unread: ProbeBytes)
    ensures Materialise(AsComplete(ps) + [Truncated], unread) == ps + [unread]
  {
    var m := Materialise(AsComplete(ps) + [Truncated], unread);
    assert |m| == |ps + [unread]|;
    forall i | 0 <= i < |m|
      ensures m[i] == (ps + [unread])[i]
    {
      if i < |ps| {
        assert (AsComplete(ps) + [Truncated])[i] == Complete(ps[i]);
      }
    }
  }

  /** Resuming from a file with k < PROBE_COUNT records, the code as written
      counts the unread probe, so probe k is that one and cell k is never
      rendered; it appends a second dims header; and the records it appends
      are those of `probes_[0 .. left)`, which start with the k probes already
      in the file and the unread one. A baked probe i (k < i < PROBE_COUNT)
      is written only when i < left, so the last min(k + 1, left) probes
      baked are never written. */
  lemma ResumeAsWrittenLayout(ps: seq<ProbeBytes>, gpu: Cell -> ProbeBytes, unread: ProbeBytes)
    requires |ps| < ProbeCount
    ensures var k := |ps|;
      var r := BakeAsWritten(Some(EncodeHeader(ProbeDim) + EncodeRecords(ps)), [], gpu, unread);
      && r.Ok?
      && r.value.baked == ProbeCount - k - 1
      && r.value.probes == ps + [unread] + BakedProbes(k + 1, ProbeCount - k - 1, gpu)
      && r.value.file == EncodeHeader(ProbeDim) + EncodeRecords(ps) + EncodeHeader(ProbeDim)
                         + EncodeRecords(r.value.probes[..ProbeCount - k - 1])
      && r.value.probes[k] == unread
      && (forall i :: k < i < |r.value.probes| ==> r.value.probes[i] == gpu(ProbeCell(i)))
  {
    BakeAsWrittenOnFile(ps, gpu, unread);
    ResumeAppendAsWritten(EncodeHeader(ProbeDim) + EncodeRecords(ps), ps + [unread], gpu);
  }

  lemma ResumeAppendAsWritten(file: seq<Byte>, before: seq<ProbeBytes>, gpu: Cell -> ProbeBytes)
    requires 0 < |before| <= ProbeCount
    ensures var o := AppendAsWritten(file, before, gpu);
      && o.probes == before + BakedProbes(|before|, ProbeCount - |before|, gpu)
      && o.file == file + EncodeHeader(ProbeDim) + EncodeRecords(o.probes[..ProbeCount - |before|])
      && (forall i :: |before| <= i < |o.probes| ==> o.probes[i] == gpu(ProbeCell(i)))
  {
    var k := |before|;
    assert LeftAsWritten(ProbeCount, k) == ProbeCount - k;
    var o := AppendAsWritten(file, before, gpu);
    var baked := BakedProbes(k, ProbeCount - k, gpu);
    forall i | k <= i < |o.probes|
      ensures o.probes[i] == gpu(ProbeCell(i))
    {
      assert o.probes[i] == baked[i - k];
    }
  }

  /** A second dims header after the records makes the file unreadable: its
      first eight bytes are taken for a record size of 3 + 3 * 2^32. */
  lemma SecondHeaderBreaksLoad(ps: seq<ProbeBytes>, qs: seq<ProbeBytes>)
    requires HeaderBytes - SizeFieldBytes + |EncodeRecords(qs)| < 12884901891
    ensures LoadProbeFile(EncodeHeader(ProbeDim) + EncodeRecords(ps) + EncodeHeader(ProbeDim)
                          + EncodeRecords(qs)).Err?
  {
    var h := EncodeHeader(ProbeDim);
    var tail := h + EncodeRecords(qs);
    var file := h + EncodeRecords(ps) + h + EncodeRecords(qs);
    assert ReadRecords(EncodeRecords(ps) + tail) == None by {
      HeaderReadAsSize(EncodeRecords(qs));
      ReadRecordsAfter(ps, tail);
    }
    BodyAfterHeader(h, EncodeRecords(ps), tail, EncodeRecords(qs));
    BrokenBodyRefused(file);
  }

  /** The loader as written does not stop at a second dims header: it
      pushes the records before it, takes the header's first eight bytes for
      a size of 3 + 3 * 2^32, comes up short, pushes the probe of that failed
      read and ends, so every record after the second header is dropped
      without an error. */
  lemma SecondHeaderDropsRecordsAsWritten(ps: seq<ProbeBytes>, qs: seq<ProbeBytes>)
    requires HeaderBytes - SizeFieldBytes + |EncodeRecords(qs)| < 12884901891
    ensures LoadProbeFileAsWritten(EncodeHeader(ProbeDim) + EncodeRecords(ps) + EncodeHeader(ProbeDim)
                                   + EncodeRecords(qs)) == Ok(AsComplete(ps) + [Truncated])
  {
    var h := EncodeHeader(ProbeDim);
    var tail := h + EncodeRecords(qs);
    var body := EncodeRecords(ps) + tail;
    var file := h + EncodeRecords(ps) + h + EncodeRecords(qs);
    assert file == h + body by {
      ConcatAssoc(h + EncodeRecords(ps), h, EncodeRecords(qs));
      ConcatAssoc(h, EncodeRecords(ps), tail);
    }
    HeaderEndsLoadLoop(EncodeRecords(qs));
    LoadLoopAfter(ps, tail);
    assert file[..HeaderBytes] == h && file[HeaderBytes..] == body;
    HeaderRoundTrip(ProbeDim);
  }

  /** A read that starts at a dims header comes up short, so the load loop
      pushes the probe of that read and ends there. */
  lemma HeaderEndsLoadLoop(rest: seq<Byte>)
    requires HeaderBytes - SizeFieldBytes + |rest| < 12884901891
    ensures ReadProbe(EncodeHeader(ProbeDim) + rest) == None
    ensures LoadLoopAsWritten(EncodeHeader(ProbeDim) + rest) == [Truncated]
  {
    HeaderSizeField(rest);
  }

  /** The load loop runs through well-formed records unchanged, then
      continues on what follows them. */
  lemma {:induction false} LoadLoopAfter(ps: seq<ProbeBytes>, tail: seq<Byte>)
    ensures LoadLoopAsWritten(EncodeRecords(ps) + tail) == AsComplete(ps) + LoadLoopAsWritten(tail)
  {
    if ps == [] {
      assert EncodeRecords(ps) + tail == tail;
      assert AsComplete(ps) == [];
    } else {
      var rest := EncodeRecords(ps[1..]) + tail;
      assert EncodeRecords(ps) + tail == EncodeRecord(ps[0]) + rest;
      LoadLoopStep(ps[0], rest);
      LoadLoopAfter(ps[1..], tail);
      AsCompleteCons(ps);
      ConcatAssoc([Complete(ps[0])], AsComplete(ps[1..]), LoadLoopAsWritten(tail));
    }
  }

  lemma AsCompleteCons(ps: seq<ProbeBytes>)
    requires ps != []
    ensures AsComplete(ps) == [Complete(ps[0])] + AsComplete(ps[1..])
  {
  }

  lemma ConcatAssoc<T>(x: seq<T>, y: seq<T>, z: seq<T>)
    ensures x + (y + z) == (x + y) + z
  {
  }

  /** One record in front of `rest` is pushed whole, then the loop goes on. */
  lemma LoadLoopStep(p: ProbeBytes, rest: seq<Byte>)
    ensures LoadLoopAsWritten(EncodeRecord(p) + rest) == [Complete(p)] + LoadLoopAsWritten(rest)
  {
    ReadProbeOfRecord(p, rest);
  }

  lemma BodyAfterHeader(h: seq<Byte>, a: seq<Byte>, tail: seq<Byte>, b: seq<Byte>)
    requires |h| == HeaderBytes && tail == h + b
    ensures (h + a + h + b)[HeaderBytes..] == a + tail
  {
    calc {
      h + a + h + b;
      (h + a + h) + b;
      (h + a) + tail;
      h + (a + tail);
    }
  }

  /** Reading records continues past a well-formed prefix unchanged. */
  lemma {:induction false} ReadRecordsAfter(ps: seq<ProbeBytes>, tail: seq<Byte>)
    ensures ReadRecords(EncodeRecords(ps) + tail) ==
      (match ReadRecords(tail) case None => None case Some(qs) => Some(ps + qs))
  {
    if ps != [] {
      assert EncodeRecords(ps) + tail == EncodeRecord(ps[0]) + (EncodeRecords(ps[1..]) + tail);
      ReadRecordStep(ps[0], EncodeRecords(ps[1..]) + tail);
      ReadRecordsAfter(ps[1..], tail);
      if ReadRecords(tail).Some? {
        var qs := ReadRecords(tail).value;
        calc {
          [ps[0]] + (ps[1..] + qs);
          ([ps[0]] + ps[1..]) + qs;
          { assert [ps[0]] + ps[1..] == ps; }
          ps + qs;
        }
      }
    } else {
      assert EncodeRecords(ps) + tail == tail;
      if ReadRecords(tail).Some? {
        assert ps + ReadRecords(tail).value == ReadRecords(tail).value;
      }
    }
  }

  lemma HeaderReadAsSize(rest: seq<Byte>)
    requires HeaderBytes - SizeFieldBytes + |rest| < 12884901891
    ensures ReadRecords(EncodeHeader(ProbeDim) + rest) == None
  {
    var bs := EncodeHeader(ProbeDim) + rest;
    HeaderSizeField(rest);
    ShortRecordRefused(bs);
  }

  /** The size field a reader finds where a dims header starts. */
  lemma HeaderSizeField(rest: seq<Byte>)
    ensures DecodeU64((EncodeHeader(ProbeDim) + rest)[..SizeFieldBytes]) == 12884901891
  {
    var bs := EncodeHeader(ProbeDim) + rest;
    var three := EncodeI32(3);
    var six := three + three;
    calc {
      bs;
      (six + three) + rest;
      six + (three + rest);
    }
    assert bs[..SizeFieldBytes] == six;
    HeaderPrefixAsSize();
  }

  lemma ZeroBytes()
    ensures EncodeLE(0, 3) == [0, 0, 0]
  {
    assert EncodeLE(0, 0) == [];
    assert EncodeLE(0, 1) == [0] + EncodeLE(0, 0);
    assert EncodeLE(0, 2) == [0] + EncodeLE(0, 1);
    assert EncodeLE(0, 3) == [0] + EncodeLE(0, 2);
  }

  /** The first eight header bytes, read as a `VkDeviceSize`. */
  lemma HeaderPrefixAsSize()
    ensures DecodeU64(EncodeI32(3) + EncodeI32(3)) == 12884901891
  {
    ZeroBytes();
    assert EncodeI32(3) == [3, 0, 0, 0];
    assert EncodeLE(12884901891, 8) == [3] + EncodeLE(50331648, 7);
    assert EncodeLE(50331648, 7) == [0] + EncodeLE(196608, 6);
    assert EncodeLE(196608, 6) == [0] + EncodeLE(768, 5);
    assert EncodeLE(768, 5) == [0] + EncodeLE(3, 4);
    assert EncodeLE(12884901891, 8) == EncodeI32(3) + EncodeI32(3);
    DecodeEncodeLE(12884901891, 8);
  }
}
