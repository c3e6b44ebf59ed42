/** The `Config` account: the sale configuration written once by
    `initialize_config`, followed in the same account by the config-line
    ledger that `add_config_lines` patches in place. */
module ConfigAccount {
  import opened CandyTypes
  import opened Borsh
  import opened ConfigLedger
  import opened LedgerProofs

  /** A royalty creator; `share` is a percentage. */
  datatype Creator = Creator(address: Pubkey, verified: bool, share: u8)

  datatype ConfigData = ConfigData(
    uuid: seq<u8>,
    symbol: seq<u8>,
    sellerFeeBasisPoints: u16,
    creators: seq<Creator>,
    maxSupply: u64,
    isMutable: bool,
    retainAuthority: bool,
    maxNumberOfLines: u32)

  const DefaultConfigData := ConfigData([], [], 0, [], 0, false, false, 0)

  /** What `initialize_config` leaves behind: a 6-byte uuid, a symbol padded
      to its full width, and room for the candy machine itself in the
      creator list. */
  ghost predicate WellFormedConfigData(d: ConfigData)
  {
    |d.uuid| == 6 && |d.symbol| == MAX_SYMBOL_LENGTH && |d.creators| <= MAX_CREATOR_LIMIT - 1
  }

  class Config {
    /** The account's address. */
    const key: Pubkey
    var bump: u8
    var authority: Pubkey
    var data: ConfigData
    /** The account's raw bytes: the header, the count, the slots. */
    const buf: array<u8>

    /** The account is as large as its declared capacity requires. A
        successful `initialize_config` on an account allocated for its
        capacity establishes it; on such an account `add_config_lines`
        succeeds exactly under the capacity conditions. */
    ghost predicate Valid()
      reads this
    {
      buf.Length == SlotOffset(data.maxNumberOfLines)
    }

    /** The runtime's allocation for `initialize_config`: a zero-filled
        account of `SlotOffset(maxNumberOfLines)` bytes holding default
        field values. */
    constructor Allocate(key: Pubkey, maxNumberOfLines: u32)
      ensures this.key == key && bump == 0 && data == DefaultConfigData
      ensures fresh(buf) && buf[..] == Zeros(SlotOffset(maxNumberOfLines))
    {
      this.key := key;
      bump := 0;
      authority := Pubkey([]);
      data := DefaultConfigData;
      buf := new u8[SlotOffset(maxNumberOfLines)](_ => 0);
    }

    /** `initialize_config`: checks the uuid length, pads the symbol to
        `MAX_SYMBOL_LENGTH` (panicking when it is longer), and refuses more
        than `MAX_CREATOR_LIMIT - 1` creators. A failed instruction leaves
        the account as it was. */
    method InitializeConfig(bump: u8, authority: Pubkey, newData: ConfigData) returns (r: Result<()>)
      requires buf.Length == SlotOffset(newData.maxNumberOfLines)
      modifies this
      ensures |newData.uuid| != 6 ==> r == Failure(Custom(UuidMustBeExactly6Length))
      ensures |newData.uuid| == 6 && |newData.symbol| > MAX_SYMBOL_LENGTH ==> r == Failure(Panic)
      ensures |newData.uuid| == 6 && |newData.symbol| <= MAX_SYMBOL_LENGTH && |newData.creators| > MAX_CREATOR_LIMIT - 1
              ==> r == Failure(Custom(TooManyCreators))
      ensures r.Success? <==>
                |newData.uuid| == 6 && |newData.symbol| <= MAX_SYMBOL_LENGTH && |newData.creators| <= MAX_CREATOR_LIMIT - 1
      ensures r.Success? ==>
                this.bump == bump && this.authority == authority &&
                data == newData.(symbol := Padded(newData.symbol, MAX_SYMBOL_LENGTH)) &&
                data.symbol[..|newData.symbol|] == newData.symbol &&
                WellFormedConfigData(data) && Valid()
      ensures r.Failure? ==> unchanged(this)
    {
      if |newData.uuid| != 6 {
        return Failure(Custom(UuidMustBeExactly6Length));
      }
      var symbol := PadToWidth(newData.symbol, MAX_SYMBOL_LENGTH);
      if symbol.Failure? {
        return Failure(symbol.fault);
      }
      // one creator slot stays free for the candy machine itself
      if |newData.creators| > MAX_CREATOR_LIMIT - 1 {
        return Failure(Custom(TooManyCreators));
      }
      this.bump := bump;
      this.authority := authority;
      data := newData.(symbol := symbol.value);
      r := Success(());
    }

    /** `add_config_lines`: the account bytes become exactly
        `AfterAddConfigLines` of the old bytes, or stay as they were when
        the instruction fails. All checks, including the checked addition of
        the count, are done by `PlanAddConfigLines` before the copies; since a
        failed instruction's writes are discarded, this order has the same
        effect as the instruction's own order, where the checked addition
        comes after the copy. */
    method AddConfigLines(index: u32, configLines: seq<ConfigLine>) returns (r: Result<()>)
      modifies buf
      ensures var after := AfterAddConfigLines(old(buf[..]), data.maxNumberOfLines, index, configLines);
              (after.Success? ==> r == Success(()) && buf[..] == after.value) &&
              (after.Failure? ==> r == Failure(after.fault) && buf[..] == old(buf[..]))
      ensures Valid() ==>
                (r.Success? <==> 1 <= data.maxNumberOfLines && index <= data.maxNumberOfLines - 1 &&
                                 AllFit(configLines) && index + |configLines| <= data.maxNumberOfLines)
    {
      if Valid() {
        AddConfigLinesSucceedsIff(buf[..], data.maxNumberOfLines, index, configLines);
      }
      var plan := PlanAddConfigLines(buf[..], data.maxNumberOfLines, index, configLines);
      if plan.Failure? {
        return Failure(plan.fault);
      }
      CopyInto(buf, plan.value.position, plan.value.bytes);
      CopyInto(buf, CONFIG_ARRAY_START, U32Le(plan.value.count));
      r := Success(());
    }
  }
}
