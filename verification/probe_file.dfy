/** The probe cache file `probes.bin`: a 12-byte dims header (three 32-bit
    ints) followed by records of an 8-byte `VkDeviceSize` size and that many
    probe bytes. Files are byte sequences; a reader works on the bytes that
    remain after the stream position. */
module ProbeFile {
  import opened Config
  import opened ByteCodec

  datatype Dims = Dims(x: int, y: int, z: int)

  /** PROBE_DIM: a 3 x 3 x 3 probe grid. */
  const ProbeDim: Dims := Dims(3, 3, 3)

  /** Bytes of one probe texture; `pr.size` is a `VkDeviceSize`. */
  type ProbeBytes = s: seq<Byte> | |s| < U64Limit

  const HeaderBytes: nat := 12
  const SizeFieldBytes: nat := 8

  predicate DimsFit(d: Dims)
  {
    IsI32(d.x) && IsI32(d.y) && IsI32(d.z)
  }

  /** `file.write(&PROBE_DIM, sizeof(PROBE_DIM))`. */
  function EncodeHeader(d: Dims): (bs: seq<Byte>)
    requires DimsFit(d)
    ensures |bs| == HeaderBytes
  {
    EncodeI32(d.x) + EncodeI32(d.y) + EncodeI32(d.z)
  }

  /** `file.read(&dim, sizeof(dim))` on a complete header. */
  function DecodeHeader(bs: seq<Byte>): (d: Dims)
    requires |bs| == HeaderBytes
    ensures DimsFit(d)
  {
    Dims(DecodeI32(bs[0..4]), DecodeI32(bs[4..8]), DecodeI32(bs[8..12]))
  }

  lemma HeaderRoundTrip(d: Dims)
    requires DimsFit(d)
    ensures DecodeHeader(EncodeHeader(d)) == d
  {
    var bs := EncodeHeader(d);
    assert bs[0..4] == EncodeI32(d.x);
    assert bs[4..8] == EncodeI32(d.y);
    assert bs[8..12] == EncodeI32(d.z);
    I32RoundTrip(d.x);
    I32RoundTrip(d.y);
    I32RoundTrip(d.z);
  }

  /** serializeProbeToFile: the size field, then the bytes. */
  function EncodeRecord(p: ProbeBytes): (bs: seq<Byte>)
    ensures |bs| == SizeFieldBytes + |p|
  {
    EncodeU64(|p|) + p
  }

  function EncodeRecords(ps: seq<ProbeBytes>): (bs: seq<Byte>)
  {
    if ps == [] then [] else EncodeRecord(ps[0]) + EncodeRecords(ps[1..])
  }

  lemma {:induction false} EncodeRecordsAppend(ps: seq<ProbeBytes>, qs: seq<ProbeBytes>)
    ensures EncodeRecords(ps + qs) == EncodeRecords(ps) + EncodeRecords(qs)
  {
    if ps != [] {
      assert (ps + qs)[1..] == ps[1..] + qs;
      EncodeRecordsAppend(ps[1..], qs);
    } else {
      assert ps + qs == qs;
    }
  }

  /** Writing one more record appends its encoding to the file. */
  lemma EncodeRecordsSnoc(ps: seq<ProbeBytes>, p: ProbeBytes)
    ensures EncodeRecords(ps + [p]) == EncodeRecords(ps) + EncodeRecord(p)
  {
    EncodeRecordsAppend(ps, [p]);
    assert [p][1..] == [];
  }

  /** Appending one record to a file that ends in a record list extends
      that list. */
  lemma AppendRecord(prefix: seq<Byte>, ps: seq<ProbeBytes>, p: ProbeBytes)
    ensures prefix + EncodeRecords(ps) + EncodeRecord(p) == prefix + EncodeRecords(ps + [p])
  {
    EncodeRecordsSnoc(ps, p);
  }

  // ---------------------------------------------------------------------
  // The reader as written

  /** What one read of deserializeProbeFromFile yields: the probe bytes and
      the bytes after them. */
  datatype Read = Read(probe: ProbeBytes, rest: seq<Byte>)

  /** deserializeProbeFromFile: read the size field, then that many bytes.
      None when either read runs past the end of the file. */
  function ReadProbe(bs: seq<Byte>): (r: Option<Read>)
    ensures r.Some? ==> |r.value.rest| < |bs|
  {
    if |bs| < SizeFieldBytes then None
    else
      var size := DecodeU64(bs[..SizeFieldBytes]);
      if |bs| - SizeFieldBytes < size then None
      else Some(Read(bs[SizeFieldBytes..SizeFieldBytes + size], bs[SizeFieldBytes + size..]))
  }

  /** What a read accepts is exactly one record followed by the rest. */
  lemma ReadProbeExact(bs: seq<Byte>)
    requires ReadProbe(bs).Some?
    ensures bs == EncodeRecord(ReadProbe(bs).value.probe) + ReadProbe(bs).value.rest
  {
    var size := DecodeU64(bs[..SizeFieldBytes]);
    U64BytesRoundTrip(bs[..SizeFieldBytes]);
    assert bs == bs[..SizeFieldBytes] + bs[SizeFieldBytes..SizeFieldBytes + size]
                 + bs[SizeFieldBytes + size..];
  }

  /** A record in front of any bytes reads back as that record, leaving the
      bytes after it. */
  lemma ReadProbeOfRecord(p: ProbeBytes, rest: seq<Byte>)
    ensures ReadProbe(EncodeRecord(p) + rest) == Some(Read(p, rest))
  {
    var bs := EncodeRecord(p) + rest;
    assert bs[..SizeFieldBytes] == EncodeU64(|p|);
    U64RoundTrip(|p|);
    assert bs[SizeFieldBytes..SizeFieldBytes + |p|] == p;
    assert bs[SizeFieldBytes + |p|..] == rest;
  }

  /** A probe pushed by the load loop: the bytes of a complete record, or a
      probe made from a read that hit end of file (its size field or its
      bytes were not in the file). */
  datatype LoadedProbe = Complete(bytes: ProbeBytes) | Truncated

  /** `while (!file.eof()) probes_.push_back(deserializeProbeFromFile(file))`.
      A read that takes exactly the remaining bytes does not set eof, so
      the loop ends only after a read comes up short, and that read's probe
      is pushed too. */
  function LoadLoopAsWritten(rest: seq<Byte>): (r: seq<LoadedProbe>)
    ensures |r| >= 1 && r[|r| - 1] == Truncated
    ensures forall i :: 0 <= i < |r| - 1 ==> r[i].Complete?
    decreases |rest|
  {
    match ReadProbe(rest)
    case None => [Truncated]
    case Some(rd) => [Complete(rd.probe)] + LoadLoopAsWritten(rd.rest)
  }

  function AsComplete(ps: seq<ProbeBytes>): (r: seq<LoadedProbe>)
    ensures |r| == |ps| && forall i :: 0 <= i < |ps| ==> r[i] == Complete(ps[i])
  {
    seq(|ps|, i requires 0 <= i < |ps| => Complete(ps[i]))
  }

  /** Reading back a well-formed record list pushes every record and then
      one more probe from the failed read at end of file. */
  lemma {:induction false} LoadLoopAddsTruncatedProbe(ps: seq<ProbeBytes>)
    ensures LoadLoopAsWritten(EncodeRecords(ps)) == AsComplete(ps) + [Truncated]
  {
    if ps != [] {
      ReadProbeOfRecord(ps[0], EncodeRecords(ps[1..]));
      LoadLoopAddsTruncatedProbe(ps[1..]);
      assert AsComplete(ps) == [Complete(ps[0])] + AsComplete(ps[1..]);
    }
  }

  /** The load branch of `bake`: read the dims, assert they are PROBE_DIM,
      then run the load loop. A file shorter than the header, or with other
      dims, stops the load. */
  function LoadProbeFileAsWritten(file: seq<Byte>): (r: Result<seq<LoadedProbe>>)
    ensures r.Ok? ==> |file| >= HeaderBytes && DecodeHeader(file[..HeaderBytes]) == ProbeDim
  {
    if |file| < HeaderBytes then Err("probe file shorter than its dims header")
    else if DecodeHeader(file[..HeaderBytes]) != ProbeDim then Err("probe file dims differ from PROBE_DIM")
    else Ok(LoadLoopAsWritten(file[HeaderBytes..]))
  }

  // ---------------------------------------------------------------------
  // The reader as intended

  /** Reads records until the bytes run out; a short record is an error. */
  function ReadRecords(rest: seq<Byte>): (r: Option<seq<ProbeBytes>>)
    decreases |rest|
  {
    if rest == [] then Some([])
    else match ReadProbe(rest)
      case None => None
      case Some(rd) =>
        match ReadRecords(rd.rest)
        case None => None
        case Some(ps) => Some([rd.probe] + ps)
  }

  /** Reading a record in front of `rest` yields that record, then whatever
      `rest` yields. */
  lemma ReadRecordStep(p: ProbeBytes, rest: seq<Byte>)
    ensures ReadRecords(EncodeRecord(p) + rest) ==
      (match ReadRecords(rest) case None => None case Some(qs) => Some([p] + qs))
  {
    ReadProbeOfRecord(p, rest);
  }

  /** A size field larger than the bytes after it is refused. */
  lemma ShortRecordRefused(bs: seq<Byte>)
    requires |bs| >= SizeFieldBytes && |bs| - SizeFieldBytes < DecodeU64(bs[..SizeFieldBytes])
    ensures ReadRecords(bs) == None
  {
  }

  /** Every record written is read back with the same size and bytes. */
  lemma {:induction false} ReadRecordsRoundTrip(ps: seq<ProbeBytes>)
    ensures ReadRecords(EncodeRecords(ps)) == Some(ps)
  {
    if ps != [] {
      ReadRecordStep(ps[0], EncodeRecords(ps[1..]));
      ReadRecordsRoundTrip(ps[1..]);
      assert [ps[0]] + ps[1..] == ps;
    }
  }

  /** Conversely, whatever the reader accepts is exactly the encoding of
      what it returns. */
  lemma {:induction false} ReadRecordsExact(rest: seq<Byte>, ps: seq<ProbeBytes>)
    requires ReadRecords(rest) == Some(ps)
    ensures EncodeRecords(ps) == rest
    decreases |rest|
  {
    if rest != [] {
      var rd := ReadProbe(rest).value;
      ReadProbeExact(rest);
      var qs := ReadRecords(rd.rest).value;
      assert ps == [rd.probe] + qs;
      ReadRecordsExact(rd.rest, qs);
      assert ps[0] == rd.probe && ps[1..] == qs;
    }
  }

  /** The load branch as intended: the dims must be PROBE_DIM and the rest
      of the file must be whole records. */
  function LoadProbeFile(file: seq<Byte>): (r: Result<seq<ProbeBytes>>)
    ensures r.Ok? ==> |file| >= HeaderBytes && DecodeHeader(file[..HeaderBytes]) == ProbeDim
  {
    if |file| < HeaderBytes then Err("probe file shorter than its dims header")
    else if DecodeHeader(file[..HeaderBytes]) != ProbeDim then Err("probe file dims differ from PROBE_DIM")
    else match ReadRecords(file[HeaderBytes..])
      case None => Err("probe file ends inside a record")
      case Some(ps) => Ok(ps)
  }

  lemma BrokenBodyRefused(file: seq<Byte>)
    requires |file| >= HeaderBytes && ReadRecords(file[HeaderBytes..]) == None
    ensures LoadProbeFile(file).Err?
  {
  }

  /** A file written as one header and a record list loads back to exactly
      those probes. */
  lemma ProbeFileRoundTrip(ps: seq<ProbeBytes>)
    ensures LoadProbeFile(EncodeHeader(ProbeDim) + EncodeRecords(ps)) == Ok(ps)
  {
    var file := EncodeHeader(ProbeDim) + EncodeRecords(ps);
    assert file[..HeaderBytes] == EncodeHeader(ProbeDim);
    assert file[HeaderBytes..] == EncodeRecords(ps);
    HeaderRoundTrip(ProbeDim);
    ReadRecordsRoundTrip(ps);
  }

  /** A header with other dims is refused, whatever follows it, by both
      readers. */
  lemma OtherDimsRefused(d: Dims, body: seq<Byte>)
    requires DimsFit(d) && d != ProbeDim
    ensures LoadProbeFile(EncodeHeader(d) + body).Err?
    ensures LoadProbeFileAsWritten(EncodeHeader(d) + body).Err?
  {
    var file := EncodeHeader(d) + body;
    assert file[..HeaderBytes] == EncodeHeader(d);
    HeaderRoundTrip(d);
  }
}
