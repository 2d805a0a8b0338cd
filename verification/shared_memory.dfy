/**
 * `readMemory` (Form1.cs lines 257-281): the header of the sensor region and
 * the schedule by which reading records are cut out of it. Record `i` is
 * the `dwSizeOfReadingElement` bytes at `dwOffsetOfReadingSection +
 * i * dwSizeOfReadingElement`, that address computed in `uint` arithmetic.
 * Any exception on the way makes the whole read fail.
 */
module SharedMemory {
  import opened Wrappers
  import opened Int32Arith

  type byte = x: int | 0 <= x < 256

  /** Marshal.SizeOf(HWiNFO_SHARED_MEM): three uints, a long and six uints, packed. */
  const HeaderSize: int := 44

  /** HWiNFO_SHARED_MEM, lines 149-162. */
  datatype Header = Header(
    signature: u32,
    version: u32,
    revision: u32,
    pollTime: int,
    sensorOffset: u32,
    sensorSize: u32,
    sensorCount: u32,
    readingOffset: u32,
    readingSize: u32,
    readingCount: u32)

  /** Little-endian `uint` at byte `at`. */
  function U32At(b: seq<byte>, at: nat): u32
    requires at + 4 <= |b|
  {
    (b[at] as int) + 0x100 * (b[at + 1] as int) + 0x1_0000 * (b[at + 2] as int) + 0x100_0000 * (b[at + 3] as int)
  }

  /** Little-endian two's-complement `long` at byte `at`. */
  function I64At(b: seq<byte>, at: nat): (x: int)
    requires at + 8 <= |b|
    ensures -0x8000_0000_0000_0000 <= x < 0x8000_0000_0000_0000
  {
    var u := U32At(b, at) + TwoTo32 * U32At(b, at + 4);
    if u < 0x8000_0000_0000_0000 then u else u - 0x1_0000_0000_0000_0000
  }

  /** The four bytes a `uint` is stored as, least significant first. */
  function U32Bytes(x: u32): (b: seq<byte>)
    ensures |b| == 4
  {
    [x % 0x100, x / 0x100 % 0x100, x / 0x1_0000 % 0x100, x / 0x100_0000]
  }

  /** Reading a stored `uint` back gives the value stored. */
  lemma U32RoundTrip(x: u32, pre: seq<byte>, post: seq<byte>)
    ensures U32At(pre + U32Bytes(x) + post, |pre|) == x
  {
    var b := pre + U32Bytes(x) + post;
    var u := U32Bytes(x);
    assert b[|pre|] == u[0] && b[|pre| + 1] == u[1] && b[|pre| + 2] == u[2] && b[|pre| + 3] == u[3];
    U32BytesValue(x);
  }

  lemma U32BytesValue(x: u32)
    ensures var u := U32Bytes(x);
      (u[0] as int) + 0x100 * (u[1] as int) + 0x1_0000 * (u[2] as int) + 0x100_0000 * (u[3] as int) == x
  {
    var a1 := x / 0x100;
    var a2 := a1 / 0x100;
    var a3 := a2 / 0x100;
    assert x == 0x100 * a1 + x % 0x100;
    assert a1 == 0x100 * a2 + a1 % 0x100;
    assert a2 == 0x100 * a3 + a2 % 0x100;
    DivDiv(x);
  }

  lemma DivDiv(x: nat)
    ensures x / 0x100 / 0x100 == x / 0x1_0000
    ensures x / 0x1_0000 / 0x100 == x / 0x100_0000
  {
  }

  /** Line 261: the header at offset 0 of the region. */
  function ReadHeader(b: seq<byte>): Header
    requires |b| >= HeaderSize
  {
    Header(U32At(b, 0), U32At(b, 4), U32At(b, 8), I64At(b, 12), U32At(b, 20), U32At(b, 24),
      U32At(b, 28), U32At(b, 32), U32At(b, 36), U32At(b, 40))
  }

  /** Line 265: where record `i` starts, with `uint` multiplication and addition wrapping. */
  function ElementOffset(h: Header, i: nat): u32
  {
    WrapU32(h.readingOffset + WrapU32(i * h.readingSize))
  }

  /** Wrapping the product and then the sum is wrapping the exact address once. */
  lemma ElementOffsetModulo(h: Header, i: nat)
    ensures ElementOffset(h, i) == (h.readingOffset + i * h.readingSize) % TwoTo32
  {
    var p := i * h.readingSize;
    assert (h.readingOffset + p % TwoTo32) % TwoTo32 == (h.readingOffset + p) % TwoTo32;
  }

  /** The view of record `i` lies inside the region, so CreateViewStream does not throw. */
  predicate ElementFits(region: seq<byte>, h: Header, i: nat)
  {
    ElementOffset(h, i) + h.readingSize <= |region|
  }

  /** Record `i` as the schedule cuts it out of the region. */
  function Element(region: seq<byte>, h: Header, i: nat): (e: seq<byte>)
    requires ElementFits(region, h, i)
    ensures |e| == h.readingSize
  {
    region[ElementOffset(h, i)..ElementOffset(h, i) + h.readingSize]
  }

  datatype ReadError =
    | RegionUnavailable           // OpenExisting throws: the producer has not published the region
    | HeaderOutOfRange            // the region is shorter than the header view
    | ElementOutOfRange(index: nat) // CreateViewStream throws for record `index`
    | ElementTooLarge             // IntPtr.ToInt32 throws on the record size

  /** Records `index` onward are readable. */
  predicate ReadableFrom(region: seq<byte>, h: Header, index: nat)
  {
    && (forall i: nat :: index <= i < h.readingCount ==> ElementFits(region, h, i))
    && (index < h.readingCount ==> h.readingSize <= Int32Max)
  }

  /**
   * Lines 263-274 from record `index` on: each record's view must lie in
   * the region and its size must pass IntPtr.ToInt32, else the read stops
   * with the first failure.
   */
  function ReadFrom(region: seq<byte>, h: Header, index: nat): Result<seq<seq<byte>>, ReadError>
    requires index <= h.readingCount
    decreases h.readingCount - index
  {
    if index == h.readingCount then Success([])
    else if !ElementFits(region, h, index) then Failure(ElementOutOfRange(index))
    else if h.readingSize > Int32Max then Failure(ElementTooLarge)
    else Prepend([Element(region, h, index)], ReadFrom(region, h, index + 1))
  }

  /** Reading from record `index` on succeeds exactly when every remaining record is readable. */
  lemma {:induction false} ReadFromSucceeds(region: seq<byte>, h: Header, index: nat)
    requires index <= h.readingCount
    ensures ReadFrom(region, h, index).Success? <==> ReadableFrom(region, h, index)
    decreases h.readingCount - index
  {
    if index < h.readingCount && ElementFits(region, h, index) && h.readingSize <= Int32Max {
      ReadFromSucceeds(region, h, index + 1);
    }
  }

  /** `rs` are the records the schedule cuts out from index `index` on. */
  predicate RecordsFrom(region: seq<byte>, h: Header, index: nat, rs: seq<seq<byte>>)
  {
    forall i: nat :: index <= i < index + |rs| ==> ElementFits(region, h, i) && rs[i - index] == Element(region, h, i)
  }

  lemma RecordsCons(region: seq<byte>, h: Header, index: nat, rs: seq<seq<byte>>)
    requires ElementFits(region, h, index) && RecordsFrom(region, h, index + 1, rs)
    ensures RecordsFrom(region, h, index, [Element(region, h, index)] + rs)
  {
    var all := [Element(region, h, index)] + rs;
    forall i: nat | index <= i < index + |all|
      ensures ElementFits(region, h, i) && all[i - index] == Element(region, h, i)
    {
      if i > index {
        assert all[i - index] == rs[i - (index + 1)];
      }
    }
  }

  /** A successful read from record `index` on yields the remaining records, in order. */
  lemma {:induction false} ReadFromRecords(region: seq<byte>, h: Header, index: nat)
    requires index <= h.readingCount
    ensures var r := ReadFrom(region, h, index);
      r.Success? ==> |r.value| == h.readingCount - index && RecordsFrom(region, h, index, r.value)
    decreases h.readingCount - index
  {
    if index < h.readingCount && ElementFits(region, h, index) && h.readingSize <= Int32Max {
      ReadFromRecords(region, h, index + 1);
      var rest := ReadFrom(region, h, index + 1);
      if rest.Success? {
        RecordsCons(region, h, index, rest.value);
      }
    }
  }

  /** An out-of-range failure names a remaining record whose view does not fit. */
  lemma {:induction false} ReadFromOutOfRange(region: seq<byte>, h: Header, index: nat)
    requires index <= h.readingCount
    ensures var r := ReadFrom(region, h, index);
      r.Failure? && r.error.ElementOutOfRange? ==>
        index <= r.error.index < h.readingCount && !ElementFits(region, h, r.error.index)
    decreases h.readingCount - index
  {
    if index < h.readingCount && ElementFits(region, h, index) && h.readingSize <= Int32Max {
      ReadFromOutOfRange(region, h, index + 1);
    }
  }

  /** Puts records already read in front of the outcome of reading the rest. */
  function Prepend(done: seq<seq<byte>>, rest: Result<seq<seq<byte>>, ReadError>): Result<seq<seq<byte>>, ReadError>
  {
    match rest
    case Success(more) => Success(done + more)
    case Failure(e) => Failure(e)
  }

  lemma PrependAssoc(a: seq<seq<byte>>, b: seq<seq<byte>>, rest: Result<seq<seq<byte>>, ReadError>)
    ensures Prepend(a, Prepend(b, rest)) == Prepend(a + b, rest)
  {
    if rest.Success? {
      assert a + (b + rest.value) == (a + b) + rest.value;
    }
  }

  /**
   * Lines 257-281. `region` is the named shared memory, absent when it cannot
   * be opened. Succeeds exactly when the header fits and every scheduled
   * record can be read, and then yields the records in index order.
   */
  function ReadRecords(region: Option<seq<byte>>): (r: Result<seq<seq<byte>>, ReadError>)
    ensures region.None? ==> r == Failure(RegionUnavailable)
    ensures region.Some? && |region.value| < HeaderSize ==> r == Failure(HeaderOutOfRange)
  {
    if region.None? then Failure(RegionUnavailable)
    else if |region.value| < HeaderSize then Failure(HeaderOutOfRange)
    else ReadFrom(region.value, ReadHeader(region.value), 0)
  }

  /**
   * A read succeeds exactly when the header fits and every scheduled record
   * can be read, and then yields `dwNumReadingElements` records, record `i`
   * cut from its scheduled offset.
   */
  lemma ReadRecordsSpec(region: Option<seq<byte>>)
    ensures var r := ReadRecords(region);
      && (r.Success? <==>
           region.Some? && |region.value| >= HeaderSize && ReadableFrom(region.value, ReadHeader(region.value), 0))
      && (r.Success? ==>
           var h := ReadHeader(region.value);
           && |r.value| == h.readingCount
           && forall i :: 0 <= i < |r.value| ==>
                ElementFits(region.value, h, i) && r.value[i] == Element(region.value, h, i))
  {
    if region.Some? && |region.value| >= HeaderSize {
      var h := ReadHeader(region.value);
      ReadFromSucceeds(region.value, h, 0);
      ReadFromRecords(region.value, h, 0);
      var r := ReadRecords(region);
      if r.Success? {
        forall i | 0 <= i < |r.value|
          ensures ElementFits(region.value, h, i) && r.value[i] == Element(region.value, h, i)
        {
          assert r.value[i - 0] == r.value[i];
        }
      }
    }
  }

  /** Lines 257-281 as written, with the record loop. */
  method ReadMemory(region: Option<seq<byte>>) returns (r: Result<seq<seq<byte>>, ReadError>)
    ensures r == ReadRecords(region)
  {
    if region.None? {
      return Failure(RegionUnavailable);
    }
    var mem := region.value;
    if |mem| < HeaderSize {
      return Failure(HeaderOutOfRange);
    }
    var h := ReadHeader(mem);
    var records: seq<seq<byte>> := [];
    var index := 0;
    var whole := ReadFrom(mem, h, 0);
    if whole.Success? {
      assert [] + whole.value == whole.value;
    }
    while index < h.readingCount
      invariant 0 <= index <= h.readingCount
      invariant ReadFrom(mem, h, 0) == Prepend(records, ReadFrom(mem, h, index))
    {
      var offset := ElementOffset(h, index);
      if offset + h.readingSize > |mem| {
        assert ReadFrom(mem, h, index) == Failure(ElementOutOfRange(index));
        return Failure(ElementOutOfRange(index));
      }
      if h.readingSize > Int32Max {
        assert ReadFrom(mem, h, index) == Failure(ElementTooLarge);
        return Failure(ElementTooLarge);
      }
      var element := mem[offset..offset + h.readingSize];
      assert element == Element(mem, h, index);
      assert ReadFrom(mem, h, index) == Prepend([element], ReadFrom(mem, h, index + 1));
      PrependAssoc(records, [element], ReadFrom(mem, h, index + 1));
      records := records + [element];
      index := index + 1;
    }
    assert records + [] == records;
    return Success(records);
  }

  /**
   * In a region smaller than 4 GiB the `uint` wrap-around never takes effect
   * on a successful read: every record starts at its unwrapped address.
   */
  lemma {:induction false} NoWrapInSmallRegion(region: seq<byte>, h: Header, i: nat)
    requires |region| < TwoTo32
    requires forall k: nat :: k < h.readingCount ==> ElementFits(region, h, k)
    requires i < h.readingCount
    ensures ElementOffset(h, i) == h.readingOffset + i * h.readingSize
  {
    ElementOffsetModulo(h, i);
    if i > 0 {
      NoWrapInSmallRegion(region, h, i - 1);
      assert ElementFits(region, h, i - 1);
      assert h.readingOffset + (i - 1) * h.readingSize + h.readingSize < TwoTo32;
      assert i * h.readingSize == (i - 1) * h.readingSize + h.readingSize;
    }
  }
}
