/** What `add_config_lines`, `get_config_count` and `get_config_line`
    promise about the account bytes, proved of the ledger model. */
module LedgerProofs {
  import opened CandyTypes
  import opened Borsh
  import opened ConfigLedger

  /** A line decodes to exactly what was encoded. */
  lemma DecodeLineRoundTrip(l: ConfigLine)
    requires Encodable(l)
    ensures DecodeLine(EncodeLine(l)) == Success(l)
  {
    var slot := EncodeLine(l);
    DecodeEncodedString([], l.name, EncodeString(l.uri));
    assert slot == [] + EncodeString(l.name) + EncodeString(l.uri);
    DecodeEncodedString(EncodeString(l.name), l.uri, []);
    assert slot == EncodeString(l.name) + EncodeString(l.uri) + [];
  }

  /** The k-th 240-byte window of a run of encoded fixed lines is the k-th line. */
  lemma {:induction false} EncodedLinesWindow(ls: seq<ConfigLine>, k: nat)
    requires forall i :: 0 <= i < |ls| ==> IsFixed(ls[i])
    requires k < |ls|
    ensures EncodeLines(ls)[k * CONFIG_LINE_SIZE..(k + 1) * CONFIG_LINE_SIZE] == EncodeLine(ls[k])
  {
    assert IsFixed(ls[0]);
    var head := EncodeLine(ls[0]);
    var rest := EncodeLines(ls[1..]);
    assert EncodeLines(ls) == head + rest;
    if k == 0 {
      assert (head + rest)[..CONFIG_LINE_SIZE] == head;
    } else {
      EncodedLinesWindow(ls[1..], k - 1);
      assert ls[1..][k - 1] == ls[k];
      var lo := (k - 1) * CONFIG_LINE_SIZE;
      assert k * CONFIG_LINE_SIZE == CONFIG_LINE_SIZE + lo;
      assert (k + 1) * CONFIG_LINE_SIZE == CONFIG_LINE_SIZE + lo + CONFIG_LINE_SIZE;
      SliceAfterPrefix(head, rest, lo, lo + CONFIG_LINE_SIZE);
    }
  }

  /** A slice lying past the prefix of a concatenation is a slice of the rest. */
  lemma SliceAfterPrefix(head: seq<u8>, rest: seq<u8>, lo: nat, hi: nat)
    requires lo <= hi <= |rest|
    ensures (head + rest)[|head| + lo..|head| + hi] == rest[lo..hi]
  {
    var whole := head + rest;
    assert whole[|head|..] == rest;
    assert whole[|head| + lo..|head| + hi] == whole[|head|..][lo..hi];
  }

  /** The vector serialisation with its element count dropped (`[4..]`) is
      the lines' encodings back to back. */
  lemma SerializedTail(ls: seq<ConfigLine>)
    requires |ls| < U32_LIMIT
    requires forall i :: 0 <= i < |ls| ==> IsFixed(ls[i])
    ensures SerializeVec(ls)[4..] == EncodeLines(ls)
  {
  }

  /** A window inside the copied range reads the copied bytes. */
  lemma SpliceWindow(data: seq<u8>, at: nat, bytes: seq<u8>, lo: nat, hi: nat)
    requires at + |bytes| <= |data| && lo <= hi <= |bytes|
    ensures Splice(data, at, bytes)[at + lo..at + hi] == bytes[lo..hi]
  {
    var r := Splice(data, at, bytes);
    assert r[at + lo..at + hi] == r[at..at + |bytes|][lo..hi];
  }

  /** A window disjoint from the copied range is untouched. */
  lemma SpliceOutside(data: seq<u8>, at: nat, bytes: seq<u8>, lo: nat, hi: nat)
    requires at + |bytes| <= |data| && lo <= hi <= |data|
    requires hi <= at || at + |bytes| <= lo
    ensures Splice(data, at, bytes)[lo..hi] == data[lo..hi]
  {
    var r := Splice(data, at, bytes);
    if hi <= at {
      assert r[lo..hi] == r[..at][lo..hi];
      assert data[lo..hi] == data[..at][lo..hi];
    } else {
      var end := at + |bytes|;
      assert r[lo..hi] == r[end..][lo - end..hi - end];
      assert data[lo..hi] == data[end..][lo - end..hi - end];
    }
  }

  /** A byte outside the copied range is untouched. */
  lemma SplicePoint(data: seq<u8>, at: nat, bytes: seq<u8>, p: nat)
    requires at + |bytes| <= |data| && p < |data|
    requires !(at <= p < at + |bytes|)
    ensures Splice(data, at, bytes)[p] == data[p]
  {
    SpliceOutside(data, at, bytes, p, p + 1);
    assert Splice(data, at, bytes)[p..p + 1][0] == data[p..p + 1][0];
  }

  /** Slot `index + k` lies `k` slots after slot `index`. */
  lemma SlotOffsetShift(index: nat, k: nat)
    ensures SlotOffset(index + k) == SlotOffset(index) + k * CONFIG_LINE_SIZE
  {
    assert (index + k) * CONFIG_LINE_SIZE == index * CONFIG_LINE_SIZE + k * CONFIG_LINE_SIZE;
  }

  /** What a successful append consists of: every check passed, and the
      account is the old one with the encoded padded lines copied at slot
      `index` and the new count copied over the header. */
  lemma AddConfigLinesShape(data: seq<u8>, max: u32, index: u32, lines: seq<ConfigLine>)
    requires AfterAddConfigLines(data, max, index, lines).Success?
    ensures GetConfigCount(data).Success?
    ensures 1 <= max && index <= max - 1 && AllFit(lines) && |lines| < U32_LIMIT
    ensures SlotOffset(index + |lines|) <= |data|
    ensures AfterAddConfigLines(data, max, index, lines).value
            == Splice(Splice(data, SlotOffset(index), EncodedBatch(lines)),
                      CONFIG_ARRAY_START, U32Le((GetConfigCount(data).value + |lines|) % U32_LIMIT))
  {
    SerializedTail(FixLines(lines));
  }

  /** `IndexGreaterThanLength` is reported exactly when the index is past the
      last slot the config allows. */
  lemma AddConfigLinesIndexCheck(data: seq<u8>, max: u32, index: u32, lines: seq<ConfigLine>)
    ensures AfterAddConfigLines(data, max, index, lines) == Failure(Custom(IndexGreaterThanLength))
            <==> |data| >= CONFIG_ARRAY_START + 4 && max >= 1 && index > max - 1
  {
  }

  /** On an account sized for `max` slots, appending succeeds exactly when
      the index is in range, every string fits its width, and the lines end
      within the account. */
  lemma AddConfigLinesSucceedsIff(data: seq<u8>, max: u32, index: u32, lines: seq<ConfigLine>)
    requires |data| == SlotOffset(max)
    ensures AfterAddConfigLines(data, max, index, lines).Success?
            <==> 1 <= max && index <= max - 1 && AllFit(lines) && index + |lines| <= max
  {
    if AfterAddConfigLines(data, max, index, lines).Success? {
      SuccessStaysWithinCapacity(data, max, index, lines);
    }
    if 1 <= max && index <= max - 1 && AllFit(lines) && index + |lines| <= max {
      SucceedsWithinCapacity(data, max, index, lines);
    }
  }

  lemma SuccessStaysWithinCapacity(data: seq<u8>, max: u32, index: u32, lines: seq<ConfigLine>)
    requires |data| == SlotOffset(max)
    requires AfterAddConfigLines(data, max, index, lines).Success?
    ensures 1 <= max && index <= max - 1 && AllFit(lines) && index + |lines| <= max
  {
    AddConfigLinesPassedChecks(data, max, index, lines);
    assert SlotOffset(index + |lines|) <= SlotOffset(max);
  }

  /** A successful append passed every check of the instruction. */
  lemma AddConfigLinesPassedChecks(data: seq<u8>, max: u32, index: u32, lines: seq<ConfigLine>)
    requires AfterAddConfigLines(data, max, index, lines).Success?
    ensures GetConfigCount(data).Success?
    ensures 1 <= max && index <= max - 1 && AllFit(lines) && |lines| < U32_LIMIT
    ensures SlotOffset(index + |lines|) <= |data|
  {
    SlotOffsetShift(index, |lines|);
  }

  lemma SucceedsWithinCapacity(data: seq<u8>, max: u32, index: u32, lines: seq<ConfigLine>)
    requires |data| == SlotOffset(max)
    requires 1 <= max && index <= max - 1 && AllFit(lines) && index + |lines| <= max
    ensures AfterAddConfigLines(data, max, index, lines).Success?
  {
    SlotOffsetShift(index, |lines|);
    assert GetConfigCount(data).Success?;
    assert |lines| < U32_LIMIT;
    assert SlotOffset(index) + |lines| * CONFIG_LINE_SIZE <= |data|;
    assert GetConfigCount(data).value + |lines| < U64_LIMIT;
  }

  /** The overflow check on the new count can never fire: the old count is a
      u32 and so is the number of lines, so the sum stays far below 2^64. */
  lemma AddConfigLinesNeverOverflows(data: seq<u8>, max: u32, index: u32, lines: seq<ConfigLine>)
    ensures AfterAddConfigLines(data, max, index, lines) != Failure(Custom(NumericalOverflowError))
  {
  }

  /** After a successful append the count header holds the old count plus
      the number of lines, whatever the index, truncated to 32 bits. */
  lemma AddConfigLinesCount(data: seq<u8>, max: u32, index: u32, lines: seq<ConfigLine>)
    requires AfterAddConfigLines(data, max, index, lines).Success?
    ensures GetConfigCount(data).Success?
    ensures GetConfigCount(AfterAddConfigLines(data, max, index, lines).value)
            == Success((GetConfigCount(data).value + |lines|) % U32_LIMIT)
  {
    AddConfigLinesShape(data, max, index, lines);
    var newCount := (GetConfigCount(data).value + |lines|) % U32_LIMIT;
    HeaderAfterPatch(Splice(data, SlotOffset(index), EncodedBatch(lines)), newCount);
  }

  /** Copying a count over the header makes it the count read back. */
  lemma HeaderAfterPatch(inner: seq<u8>, count: u32)
    requires |inner| >= CONFIG_ARRAY_START + 4
    ensures GetConfigCount(Splice(inner, CONFIG_ARRAY_START, U32Le(count))) == Success(count)
  {
    var after := Splice(inner, CONFIG_ARRAY_START, U32Le(count));
    assert after[CONFIG_ARRAY_START..CONFIG_ARRAY_START + 4] == U32Le(count);
    U32LeRoundTrip(count);
  }

  /** Slot `index + k` of the account after the lines are copied in holds
      line k, padded and encoded. */
  lemma CopiedSlot(data: seq<u8>, index: nat, lines: seq<ConfigLine>, k: nat)
    requires AllFit(lines) && k < |lines|
    requires SlotOffset(index + |lines|) <= |data|
    ensures SlotOffset(index + k + 1) <= |data|
    ensures Splice(data, SlotOffset(index), EncodedBatch(lines))[SlotOffset(index + k)..SlotOffset(index + k + 1)]
            == EncodeLine(FixLine(lines[k]))
  {
    var fixed := FixLines(lines);
    SlotOffsetShift(index, k);
    SlotOffsetShift(index, k + 1);
    SlotOffsetShift(index, |lines|);
    SpliceWindow(data, SlotOffset(index), EncodeLines(fixed), k * CONFIG_LINE_SIZE, (k + 1) * CONFIG_LINE_SIZE);
    EncodedLinesWindow(fixed, k);
  }

  /** Copying the count over the header leaves the slots alone. */
  lemma PatchedSlot(data: seq<u8>, index: nat, lines: seq<ConfigLine>, k: nat, count: u32, after: seq<u8>)
    requires AllFit(lines) && k < |lines|
    requires SlotOffset(index + |lines|) <= |data|
    requires after == Splice(Splice(data, SlotOffset(index), EncodedBatch(lines)),
                             CONFIG_ARRAY_START, U32Le(count))
    ensures SlotOffset(index + k + 1) <= |data|
    ensures after[SlotOffset(index + k)..SlotOffset(index + k + 1)] == EncodeLine(FixLine(lines[k]))
  {
    CopiedSlot(data, index, lines, k);
    var inner := Splice(data, SlotOffset(index), EncodedBatch(lines));
    SpliceOutside(inner, CONFIG_ARRAY_START, U32Le(count), SlotOffset(index + k), SlotOffset(index + k + 1));
  }

  /** Line k of the batch is encoded, padded, in slot `index + k`. */
  lemma AddConfigLinesPlacement(data: seq<u8>, max: u32, index: u32, lines: seq<ConfigLine>, k: nat)
    requires AfterAddConfigLines(data, max, index, lines).Success?
    requires k < |lines|
    ensures AllFit(lines) && SlotOffset(index + k + 1) <= |data|
    ensures AfterAddConfigLines(data, max, index, lines).value[SlotOffset(index + k)..SlotOffset(index + k + 1)]
            == EncodeLine(FixLine(lines[k]))
  {
    AddConfigLinesShape(data, max, index, lines);
    PatchedSlot(data, index, lines, k, (GetConfigCount(data).value + |lines|) % U32_LIMIT,
                AfterAddConfigLines(data, max, index, lines).value);
  }

  /** Every byte outside the count header and the written slots is unchanged. */
  lemma AddConfigLinesFrame(data: seq<u8>, max: u32, index: u32, lines: seq<ConfigLine>, p: nat)
    requires AfterAddConfigLines(data, max, index, lines).Success?
    requires p < |data|
    requires !(CONFIG_ARRAY_START <= p < CONFIG_ARRAY_START + 4)
    requires !(SlotOffset(index) <= p < SlotOffset(index + |lines|))
    ensures AfterAddConfigLines(data, max, index, lines).value[p] == data[p]
  {
    AddConfigLinesShape(data, max, index, lines);
    var encoded := EncodedBatch(lines);
    SlotOffsetShift(index, |lines|);
    SplicePoint(data, SlotOffset(index), encoded, p);
    var count := (GetConfigCount(data).value + |lines|) % U32_LIMIT;
    SplicePoint(Splice(data, SlotOffset(index), encoded), CONFIG_ARRAY_START, U32Le(count), p);
  }

  /** A slot within the count that holds an encoded line reads back as that line. */
  lemma ReadEncodedSlot(data: seq<u8>, index: nat, l: ConfigLine)
    requires Encodable(l)
    requires GetConfigCount(data).Success? && index <= GetConfigCount(data).value
    requires SlotOffset(index + 1) <= |data|
    requires data[SlotOffset(index)..SlotOffset(index + 1)] == EncodeLine(l)
    ensures GetConfigLine(data, index) == Success(l)
  {
    DecodeLineRoundTrip(l);
  }

  /** Round trip: as long as the count covers the new slots and did not wrap,
      reading slot `index + k` back gives line k, padded: its original name
      and uri followed by zero bytes. */
  lemma AddThenGetLine(data: seq<u8>, max: u32, index: u32, lines: seq<ConfigLine>, k: nat)
    requires AfterAddConfigLines(data, max, index, lines).Success?
    requires k < |lines|
    requires GetConfigCount(data).Success?
    requires GetConfigCount(data).value + |lines| < U32_LIMIT
    requires index + k <= GetConfigCount(data).value + |lines|
    ensures AllFit(lines)
    ensures GetConfigLine(AfterAddConfigLines(data, max, index, lines).value, index + k)
            == Success(FixLine(lines[k]))
    ensures var got := FixLine(lines[k]);
            got.name == lines[k].name + Zeros(MAX_NAME_LENGTH - |lines[k].name|) &&
            got.uri == lines[k].uri + Zeros(MAX_URI_LENGTH - |lines[k].uri|)
  {
    AddConfigLinesShape(data, max, index, lines);
    var total := GetConfigCount(data).value + |lines|;
    SmallCountKept(total);
    ReadWrittenSlot(data, index, lines, k, total, AfterAddConfigLines(data, max, index, lines).value);
  }

  /** Lines appended at an index past the count are written, but the count
      does not reach them: reading the first of them is refused. */
  lemma AppendPastCountUnreadable(data: seq<u8>, max: u32, index: u32, lines: seq<ConfigLine>)
    requires AfterAddConfigLines(data, max, index, lines).Success?
    requires GetConfigCount(data).Success? && GetConfigCount(data).value + |lines| < index
    ensures GetConfigLine(AfterAddConfigLines(data, max, index, lines).value, index)
            == Failure(Custom(IndexGreaterThanLength))
  {
    AddConfigLinesCount(data, max, index, lines);
    SmallCountKept(GetConfigCount(data).value + |lines|);
  }

  lemma SmallCountKept(total: nat)
    requires total < U32_LIMIT
    ensures total % U32_LIMIT == total
  {
  }

  /** With the count covering it, a slot written by the copy reads back as
      its padded line. */
  lemma ReadWrittenSlot(data: seq<u8>, index: nat, lines: seq<ConfigLine>, k: nat, count: u32, after: seq<u8>)
    requires AllFit(lines) && k < |lines|
    requires SlotOffset(index + |lines|) <= |data|
    requires after == Splice(Splice(data, SlotOffset(index), EncodedBatch(lines)),
                             CONFIG_ARRAY_START, U32Le(count))
    requires index + k <= count
    ensures GetConfigLine(after, index + k) == Success(FixLine(lines[k]))
  {
    PatchedSlot(data, index, lines, k, count, after);
    HeaderAfterPatch(Splice(data, SlotOffset(index), EncodedBatch(lines)), count);
    ReadEncodedSlot(after, index + k, FixLine(lines[k]));
  }

  /** A freshly allocated, all-zero account has no readable line 0: the
      count is 0 so index 0 passes the count check, but the zero slot does
      not decode (or, with no slots at all, lies outside the account). */
  lemma FreshLedgerHasNoLineZero(max: u32)
    ensures GetConfigLine(Zeros(SlotOffset(max)), 0).Failure?
    ensures GetConfigLine(Zeros(SlotOffset(max)), 0) != Failure(Custom(IndexGreaterThanLength))
    ensures max == 0 ==> GetConfigLine(Zeros(SlotOffset(max)), 0) == Failure(Panic)
    ensures max > 0 ==> GetConfigLine(Zeros(SlotOffset(max)), 0) == Failure(BorshIoError)
  {
    var data := Zeros(SlotOffset(max));
    var header := data[CONFIG_ARRAY_START..CONFIG_ARRAY_START + 4];
    assert header == [0, 0, 0, 0];
    assert GetConfigCount(data) == Success(0);
    if max > 0 {
      SlotOffsetShift(1, max - 1);
      var slot := data[SlotOffset(0)..SlotOffset(1)];
      assert slot == Zeros(CONFIG_LINE_SIZE);
      assert slot[0..4] == [0, 0, 0, 0];
      assert slot[4..4 + 4] == [0, 0, 0, 0];
      assert DecodeString(slot, 0) == Success(([], 4));
      assert DecodeString(slot, 4) == Success(([], 8));
      assert DecodeLine(slot) == Failure(BorshIoError);
      assert GetConfigLine(data, 0) == DecodeLine(slot);
    } else {
      assert |data| == SlotOffset(0) < SlotOffset(1);
      assert GetConfigLine(data, 0) == Failure(Panic);
    }
  }

  /** The count is not clamped to the capacity: rewriting slot 0 of a full
      ledger still raises the count past `max`. */
  lemma RewriteRaisesCountPastCapacity(data: seq<u8>, max: u32, line: ConfigLine)
    requires |data| == SlotOffset(max) && max >= 1 && max + 1 < U32_LIMIT
    requires GetConfigCount(data) == Success(max)
    requires Fits(line)
    ensures AfterAddConfigLines(data, max, 0, [line]).Success?
    ensures GetConfigCount(AfterAddConfigLines(data, max, 0, [line]).value) == Success(max + 1)
  {
    assert AllFit([line]);
    SucceedsWithinCapacity(data, max, 0, [line]);
    AddConfigLinesCount(data, max, 0, [line]);
    SmallCountKept(max + 1);
  }
}
