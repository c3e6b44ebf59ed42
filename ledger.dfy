/** The config-line ledger: the raw bytes of a `Config` account, read and
    patched at computed offsets without deserialising the whole account.

    Layout: the Borsh-encoded config header, then at `CONFIG_ARRAY_START` a
    4-byte little-endian count of lines, then fixed-size slots of
    `CONFIG_LINE_SIZE` bytes. A well-formed slot is the Borsh encoding of a
    name zero-padded to `MAX_NAME_LENGTH` bytes and a uri zero-padded to
    `MAX_URI_LENGTH` bytes. */
module ConfigLedger {
  import opened CandyTypes
  import opened Borsh

  // Widths fixed by the token-metadata program.
  const MAX_NAME_LENGTH: nat := 32
  const MAX_SYMBOL_LENGTH: nat := 10
  const MAX_URI_LENGTH: nat := 200
  const MAX_CREATOR_LIMIT: nat := 5
  const MAX_CREATOR_LEN: nat := 32 + 1 + 1

  /** Room reserved for the config header: bump, authority, uuid, symbol,
      royalty, creators, max supply, the two flags and the line capacity. */
  const CONFIG_ARRAY_START: nat :=
    1 + 32 + 4 + 6 + 4 + MAX_SYMBOL_LENGTH + 2 + 1 + 4 + MAX_CREATOR_LIMIT * MAX_CREATOR_LEN + 8 + 1 + 1 + 4

  /** One slot: a length prefix and a padded name, a length prefix and a padded uri. */
  const CONFIG_LINE_SIZE: nat := 4 + MAX_NAME_LENGTH + 4 + MAX_URI_LENGTH

  /** A template line; strings are the bytes of their UTF-8 text. */
  datatype ConfigLine = ConfigLine(name: seq<u8>, uri: seq<u8>)

  /** Where slot `index` starts. The account holding `n` slots is exactly
      `SlotOffset(n)` bytes long. */
  function SlotOffset(index: nat): (offset: nat)
    ensures offset >= CONFIG_ARRAY_START + 4
  {
    CONFIG_ARRAY_START + 4 + index * CONFIG_LINE_SIZE
  }

  function Zeros(n: nat): (z: seq<u8>)
    ensures |z| == n && forall i :: 0 <= i < n ==> z[i] == 0
  {
    seq(n, _ => 0)
  }

  /** `s` right-padded with zero bytes to exactly `width` bytes. */
  function Padded(s: seq<u8>, width: nat): (p: seq<u8>)
    requires |s| <= width
    ensures |p| == width && p[..|s|] == s
    ensures forall i :: |s| <= i < width ==> p[i] == 0
  {
    s + Zeros(width - |s|)
  }

  /** The padding loop: grow a vector of zeros until it makes up the missing
      width. `width - |s|` is an unsigned subtraction, so a string longer
      than `width` panics instead of being truncated. */
  method PadToWidth(s: seq<u8>, width: nat) returns (r: Result<seq<u8>>)
    ensures |s| <= width ==> r.Success? && |r.value| == width && r.value[..|s|] == s
    ensures |s| <= width ==> r == Success(Padded(s, width))
    ensures |s| > width ==> r == Failure(Panic)
  {
    if |s| > width {
      return Failure(Panic);
    }
    var zeros: seq<u8> := [];
    while |zeros| < width - |s|
      invariant |zeros| <= width - |s|
      invariant zeros == Zeros(|zeros|)
    {
      zeros := zeros + [0];
    }
    r := Success(s + zeros);
  }

  predicate Fits(l: ConfigLine)
  {
    |l.name| <= MAX_NAME_LENGTH && |l.uri| <= MAX_URI_LENGTH
  }

  predicate AllFit(lines: seq<ConfigLine>)
  {
    forall i :: 0 <= i < |lines| ==> Fits(lines[i])
  }

  /** A line whose strings have exactly the fixed widths. */
  predicate IsFixed(l: ConfigLine)
  {
    |l.name| == MAX_NAME_LENGTH && |l.uri| == MAX_URI_LENGTH
  }

  /** A line with its name and uri padded to the fixed widths. */
  function FixLine(l: ConfigLine): (f: ConfigLine)
    requires Fits(l)
    ensures IsFixed(f)
  {
    ConfigLine(Padded(l.name, MAX_NAME_LENGTH), Padded(l.uri, MAX_URI_LENGTH))
  }

  function FixLines(lines: seq<ConfigLine>): (fixed: seq<ConfigLine>)
    requires AllFit(lines)
    ensures |fixed| == |lines|
  {
    seq(|lines|, i requires 0 <= i < |lines| => FixLine(lines[i]))
  }

  /** The loop of `add_config_lines` that pads every line of the batch;
      the first string too long for its width panics. */
  method PadLines(lines: seq<ConfigLine>) returns (r: Result<seq<ConfigLine>>)
    ensures AllFit(lines) ==> r == Success(FixLines(lines))
    ensures !AllFit(lines) ==> r == Failure(Panic)
  {
    var fixed: seq<ConfigLine> := [];
    for i := 0 to |lines|
      invariant AllFit(lines[..i])
      invariant fixed == FixLines(lines[..i])
    {
      var name := PadToWidth(lines[i].name, MAX_NAME_LENGTH);
      if name.Failure? {
        return Failure(name.fault);
      }
      var uri := PadToWidth(lines[i].uri, MAX_URI_LENGTH);
      if uri.Failure? {
        return Failure(uri.fault);
      }
      assert lines[..i + 1] == lines[..i] + [lines[i]];
      fixed := fixed + [ConfigLine(name.value, uri.value)];
    }
    assert lines[..|lines|] == lines;
    r := Success(fixed);
  }

  predicate Encodable(l: ConfigLine)
  {
    |l.name| < U32_LIMIT && |l.uri| < U32_LIMIT
  }

  /** Borsh encoding of one line. */
  function EncodeLine(l: ConfigLine): (b: seq<u8>)
    requires Encodable(l)
    ensures |b| == 8 + |l.name| + |l.uri|
    ensures IsFixed(l) ==> |b| == CONFIG_LINE_SIZE
  {
    EncodeString(l.name) + EncodeString(l.uri)
  }

  /** The encodings of `ls`, one after another. */
  function EncodeLines(ls: seq<ConfigLine>): (b: seq<u8>)
    requires forall i :: 0 <= i < |ls| ==> IsFixed(ls[i])
    ensures |b| == |ls| * CONFIG_LINE_SIZE
  {
    if ls == [] then []
    else
      assert IsFixed(ls[0]);
      EncodeLine(ls[0]) + EncodeLines(ls[1..])
  }

  /** The bytes a batch of lines occupies once padded and encoded. */
  function EncodedBatch(lines: seq<ConfigLine>): (b: seq<u8>)
    requires AllFit(lines)
    ensures |b| == |lines| * CONFIG_LINE_SIZE
  {
    EncodeLines(FixLines(lines))
  }

  /** `try_to_vec` of a vector of fixed lines: the element count as a u32,
      then the elements. */
  function SerializeVec(ls: seq<ConfigLine>): (b: seq<u8>)
    requires |ls| < U32_LIMIT
    requires forall i :: 0 <= i < |ls| ==> IsFixed(ls[i])
    ensures |b| == 4 + |ls| * CONFIG_LINE_SIZE
  {
    U32Le(|ls|) + EncodeLines(ls)
  }

  /** `ConfigLine::try_from_slice`: two Borsh strings that must use up the
      slot exactly. Decoding and `EncodeLine` are inverse on success. */
  function DecodeLine(slot: seq<u8>): (r: Result<ConfigLine>)
    ensures r.Failure? ==> r.fault == BorshIoError
    ensures r.Success? ==> Encodable(r.value) && EncodeLine(r.value) == slot
  {
    match DecodeString(slot, 0)
    case Failure(f) => Failure(f)
    case Success((name, p)) =>
      match DecodeString(slot, p)
      case Failure(f) => Failure(f)
      case Success((uri, q)) =>
        if q != |slot| then Failure(BorshIoError)
        else
          assert slot == slot[0..p] + slot[p..q];
          Success(ConfigLine(name, uri))
  }

  /** `data` with `bytes` copied over the range starting at `at`. */
  function Splice(data: seq<u8>, at: nat, bytes: seq<u8>): (r: seq<u8>)
    requires at + |bytes| <= |data|
    ensures |r| == |data| && r[at..at + |bytes|] == bytes
    ensures r[..at] == data[..at] && r[at + |bytes|..] == data[at + |bytes|..]
  {
    data[..at] + bytes + data[at + |bytes|..]
  }

  /** `copy_from_slice` into the sub-slice of `a` starting at `at`. */
  method CopyInto(a: array<u8>, at: nat, bytes: seq<u8>)
    requires at + |bytes| <= a.Length
    modifies a
    ensures a[..] == Splice(old(a[..]), at, bytes)
  {
    var k := 0;
    while k < |bytes|
      invariant 0 <= k <= |bytes|
      invariant a[..at] == old(a[..at])
      invariant a[at..at + k] == bytes[..k]
      invariant a[at + k..] == old(a[at + k..])
    {
      a[at + k] := bytes[k];
      k := k + 1;
    }
    assert a[..] == a[..at] + a[at..at + |bytes|] + a[at + |bytes|..];
  }

  /** `get_config_count`: the four little-endian bytes at
      `CONFIG_ARRAY_START`; an account too short to hold them panics. */
  function GetConfigCount(data: seq<u8>): (r: Result<u32>)
    ensures r.Success? <==> |data| >= CONFIG_ARRAY_START + 4
    ensures r.Failure? ==> r.fault == Panic
    ensures r.Success? ==> U32Le(r.value) == data[CONFIG_ARRAY_START..CONFIG_ARRAY_START + 4]
  {
    if |data| < CONFIG_ARRAY_START + 4 then Failure(Panic)
    else
      var b := data[CONFIG_ARRAY_START..CONFIG_ARRAY_START + 4];
      DecodeU32LeInverse(b);
      Success(DecodeU32Le(b))
  }

  /** `get_config_line`: rejects only an index strictly above the count, so
      the slot at the count itself is read too; a slot outside the account
      panics, and a slot that is not a well-formed line is a decoding error. */
  function GetConfigLine(data: seq<u8>, index: nat): (r: Result<ConfigLine>)
    ensures r == Failure(Custom(IndexGreaterThanLength)) <==>
              GetConfigCount(data).Success? && index > GetConfigCount(data).value
    ensures r == Failure(Panic) <==>
              GetConfigCount(data).Failure? ||
              (index <= GetConfigCount(data).value && SlotOffset(index + 1) > |data|)
    ensures r.Failure? ==> r.fault in {Custom(IndexGreaterThanLength), Panic, BorshIoError}
    ensures r.Success? ==>
              GetConfigCount(data).Success? && index <= GetConfigCount(data).value &&
              SlotOffset(index + 1) <= |data| &&
              Encodable(r.value) &&
              EncodeLine(r.value) == data[SlotOffset(index)..SlotOffset(index + 1)]
  {
    match GetConfigCount(data)
    case Failure(f) => Failure(f)
    case Success(total) =>
      if index > total then Failure(Custom(IndexGreaterThanLength))
      else if SlotOffset(index + 1) > |data| then Failure(Panic)
      else DecodeLine(data[SlotOffset(index)..SlotOffset(index + 1)])
  }

  /** The account bytes after `add_config_lines(index, lines)` on an account
      whose config allows `maxNumberOfLines` lines, checked in the order the
      instruction checks them. On success the padded lines are encoded at
      slot `index` onwards and the count becomes `count + |lines|`, truncated
      to 32 bits when it is written back. */
  function AfterAddConfigLines(data: seq<u8>, maxNumberOfLines: u32, index: u32, lines: seq<ConfigLine>)
    : (r: Result<seq<u8>>)
    ensures r.Success? ==> |r.value| == |data|
  {
    match GetConfigCount(data)
    case Failure(f) => Failure(f)
    case Success(count) =>
      if maxNumberOfLines == 0 then Failure(Panic)       // `max_number_of_lines - 1` underflows
      else if index > maxNumberOfLines - 1 then Failure(Custom(IndexGreaterThanLength))
      else if !AllFit(lines) then Failure(Panic)         // `MAX_*_LENGTH - len` underflows
      else if |lines| >= U32_LIMIT then Failure(BorshIoError)
      else
        var serialized := SerializeVec(FixLines(lines))[4..];
        var position := SlotOffset(index);
        if position + |lines| * CONFIG_LINE_SIZE > |data| then Failure(Panic)
        else if count + |lines| >= U64_LIMIT then Failure(Custom(NumericalOverflowError))
        else
          var newCount := (count + |lines|) % U32_LIMIT;
          Success(Splice(Splice(data, position, serialized), CONFIG_ARRAY_START, U32Le(newCount)))
  }

  /** The bytes `add_config_lines` copies into the account: the encoded
      lines at `position`, and the new count over the header. */
  datatype Patch = Patch(position: nat, bytes: seq<u8>, count: u32)

  /** The checks of `add_config_lines`, in its order, on the account bytes
      as they are before the instruction; on success, the patch it then
      applies. Applying the patch gives exactly `AfterAddConfigLines`. */
  method PlanAddConfigLines(data: seq<u8>, maxNumberOfLines: u32, index: u32, lines: seq<ConfigLine>)
    returns (r: Result<Patch>)
    ensures r.Failure? ==> AfterAddConfigLines(data, maxNumberOfLines, index, lines) == Failure(r.fault)
    ensures r.Success? ==>
              CONFIG_ARRAY_START + 4 <= |data| && r.value.position + |r.value.bytes| <= |data| &&
              AfterAddConfigLines(data, maxNumberOfLines, index, lines)
              == Success(Splice(Splice(data, r.value.position, r.value.bytes), CONFIG_ARRAY_START, U32Le(r.value.count)))
  {
    var count := GetConfigCount(data);
    if count.Failure? {
      return Failure(count.fault);
    }
    var currentCount := count.value;
    if maxNumberOfLines == 0 {
      return Failure(Panic);  // `max_number_of_lines - 1` underflows
    }
    if index > maxNumberOfLines - 1 {
      return Failure(Custom(IndexGreaterThanLength));
    }
    var padded := PadLines(lines);
    if padded.Failure? {
      return Failure(padded.fault);
    }
    var fixedConfigLines := padded.value;
    if |fixedConfigLines| >= U32_LIMIT {
      return Failure(BorshIoError);
    }
    var asVec := SerializeVec(fixedConfigLines);
    // drop the vector's own length prefix: the count header is kept separately
    var serialized := asVec[4..];
    var position := SlotOffset(index);
    if position + |fixedConfigLines| * CONFIG_LINE_SIZE > |data| {
      return Failure(Panic);
    }
    if currentCount + |fixedConfigLines| >= U64_LIMIT {
      return Failure(Custom(NumericalOverflowError));
    }
    var newCount := currentCount + |fixedConfigLines|;
    r := Success(Patch(position, serialized, newCount % U32_LIMIT));
  }
}
