/** The `CandyMachine` account and the two instructions that act on it:
    `initialize_candy_machine`, which binds it to a config, and `mint_nft`,
    which checks the sale window and the supply, takes payment, counts the
    redemption and asks the token-metadata program to issue the item. */
module Minting {
  import opened CandyTypes
  import opened ConfigLedger
  import opened ConfigAccount

  datatype CandyMachineData = CandyMachineData(
    uuid: seq<u8>,
    price: u64,
    itemsAvailable: u64,
    goLiveDate: Option<i64>)

  const DefaultMachineData := CandyMachineData([], 0, 0, None)

  /** The fields of a `CandyMachine` account, as a value. */
  datatype MachineState = MachineState(
    authority: Pubkey,
    wallet: Pubkey,
    tokenMint: Option<Pubkey>,
    config: Pubkey,
    data: CandyMachineData,
    itemsRedeemed: u64,
    bump: u8)

  const DefaultMachine := MachineState(Pubkey([]), Pubkey([]), None, Pubkey([]), DefaultMachineData, 0, 0)

  /** The mint account offered to `initialize_candy_machine`, and the mint
      recorded in the wallet's token account. */
  datatype MintAccounts = MintAccounts(mint: Pubkey, walletMint: Pubkey)

  /** A payer's token account offered as payment (its address, mint and
      balance) and the authority allowed to move funds out of it. */
  datatype TokenPayment = TokenPayment(account: Pubkey, mint: Pubkey, amount: u64, transferAuthority: Pubkey)

  /** The inputs of one `mint_nft` call: who pays, the payer's lamports, the
      clock, the token accounts when supplied, and the update authority
      account. */
  datatype MintRequest = MintRequest(
    payer: Pubkey,
    payerLamports: u64,
    now: i64,
    tokenPayment: Option<TokenPayment>,
    updateAuthority: Pubkey)

  /** Whether each cross-program call accepts what it is sent: the payment
      transfer, metadata creation and master-edition creation. */
  datatype Services = Services(transferAccepted: bool, metadataAccepted: bool, editionAccepted: bool)

  datatype Transfer =
    | NativeTransfer(from: Pubkey, to: Pubkey, lamports: u64)
    | TokenTransfer(source: Pubkey, destination: Pubkey, authority: Pubkey, amount: u64)
  {
    /** The account credited. */
    function Recipient(): Pubkey
    {
      match this
      case NativeTransfer(_, to, _) => to
      case TokenTransfer(_, destination, _, _) => destination
    }

    /** The quantity moved, in lamports or in token units. */
    function Amount(): u64
    {
      match this
      case NativeTransfer(_, _, lamports) => lamports
      case TokenTransfer(_, _, _, amount) => amount
    }
  }

  /** What `mint_nft` asks the token-metadata program to record. */
  datatype Issuance = Issuance(
    name: seq<u8>,
    symbol: seq<u8>,
    uri: seq<u8>,
    creators: seq<Creator>,
    sellerFeeBasisPoints: u16,
    updateAuthority: Pubkey,
    updateAuthorityIsSigner: bool,
    isMutable: bool,
    maxSupply: u64)

  datatype Minted = Minted(machine: MachineState, payment: Transfer, issuance: Issuance)

  /** The sale-window rule, stated flat: the authority may always mint,
      anyone else only once a go-live date is set and has been reached. */
  predicate IsLiveFor(m: MachineState, payer: Pubkey, now: int)
  {
    payer == m.authority || (m.data.goLiveDate.Some? && now >= m.data.goLiveDate.value)
  }

  /** The royalty creators of a minted item: the candy machine, verified and
      with no share, then each configured creator, unverified, in order. */
  function CreatorList(machineKey: Pubkey, configured: seq<Creator>): (creators: seq<Creator>)
    ensures |creators| == 1 + |configured|
    ensures creators[0] == Creator(machineKey, true, 0)
    ensures forall i :: 0 <= i < |configured| ==>
              creators[i + 1] == Creator(configured[i].address, false, configured[i].share)
  {
    [Creator(machineKey, true, 0)]
    + seq(|configured|, i requires 0 <= i < |configured| => Creator(configured[i].address, false, configured[i].share))
  }

  /** The loop that assembles the creator list. */
  method BuildCreators(machineKey: Pubkey, configured: seq<Creator>) returns (creators: seq<Creator>)
    ensures creators == CreatorList(machineKey, configured)
  {
    creators := [Creator(machineKey, true, 0)];
    for i := 0 to |configured|
      invariant |creators| == 1 + i
      invariant creators[0] == Creator(machineKey, true, 0)
      invariant forall j :: 0 <= j < i ==>
                  creators[j + 1] == Creator(configured[j].address, false, configured[j].share)
    {
      creators := creators + [Creator(configured[i].address, false, configured[i].share)];
    }
  }

  /** Payment: in the configured token when the machine has a token mint,
      otherwise in lamports. Missing token accounts index past the supplied
      accounts and panic. */
  function Payment(m: MachineState, req: MintRequest): (r: Result<Transfer>)
    ensures r.Success? ==> r.value.Amount() == m.data.price && r.value.Recipient() == m.wallet
    ensures r.Success? <==>
              match m.tokenMint
              case Some(mint) =>
                req.tokenPayment.Some? && req.tokenPayment.value.mint == mint &&
                req.tokenPayment.value.amount >= m.data.price
              case None => req.payerLamports >= m.data.price
  {
    match m.tokenMint
    case Some(mint) =>
      if req.tokenPayment.None? then Failure(Panic)
      else
        var p := req.tokenPayment.value;
        if p.mint != mint then Failure(Custom(MintMismatch))
        else if p.amount < m.data.price then Failure(Custom(NotEnoughTokens))
        else Success(TokenTransfer(p.account, m.wallet, p.transferAuthority, m.data.price))
    case None =>
      if req.payerLamports < m.data.price then Failure(Custom(NotEnoughSOL))
      else Success(NativeTransfer(req.payer, m.wallet, m.data.price))
  }

  /** What `mint_nft` asks the token-metadata program to record for a
      config line: the line's name and uri, the config's symbol, royalty,
      mutability and supply, and the creator list; the machine itself is
      the update authority (and signs) when the config retains authority,
      otherwise the supplied account is (and does not sign). */
  function IssuanceFor(machineKey: Pubkey, config: ConfigData, line: ConfigLine, req: MintRequest): (issued: Issuance)
    ensures ConfigLine(issued.name, issued.uri) == line
    ensures |issued.creators| == 1 + |config.creators| && issued.creators[0] == Creator(machineKey, true, 0)
    ensures WellFormedConfigData(config) ==> |issued.creators| <= MAX_CREATOR_LIMIT
    ensures issued.updateAuthorityIsSigner ==> issued.updateAuthority == machineKey
  {
    var updateAuthority := if config.retainAuthority then machineKey else req.updateAuthority;
    Issuance(line.name, config.symbol, line.uri, CreatorList(machineKey, config.creators),
             config.sellerFeeBasisPoints, updateAuthority, config.retainAuthority,
             config.isMutable, config.maxSupply)
  }

  /** The outcomes `get_config_line(config, 0)` can have: the line, or a
      panic (the account is too short) or a decoding error. Index 0 never
      fails the count check. */
  predicate LineZeroRead(lineZero: Result<ConfigLine>)
  {
    lineZero.Failure? ==> lineZero.fault == Panic || lineZero.fault == BorshIoError
  }

  /** `mint_nft` as a state transition, its checks in the instruction's
      order: sale window, supply, payment, then `Settle`. `lineZero` is what
      reading line 0 of the config ledger gives: the instruction reads line
      0 on every call, whatever has been redeemed. */
  function Mint(m: MachineState, machineKey: Pubkey, config: ConfigData, lineZero: Result<ConfigLine>,
                req: MintRequest, ext: Services): (r: Result<Minted>)
    ensures r.Success? ==>
              IsLiveFor(m, req.payer, req.now) && m.itemsRedeemed < m.data.itemsAvailable &&
              Payment(m, req) == Success(r.value.payment)
    ensures r.Success? ==> r.value.machine.itemsRedeemed <= r.value.machine.data.itemsAvailable
  {
    var notLive :=
      match m.data.goLiveDate
      case None => req.payer != m.authority
      case Some(goLive) => req.now < goLive && req.payer != m.authority;
    if notLive then Failure(Custom(CandyMachineNotLiveYet))
    else if m.itemsRedeemed >= m.data.itemsAvailable then Failure(Custom(CandyMachineEmpty))
    else
      match Payment(m, req)
      case Failure(f) => Failure(f)
      case Success(payment) => Settle(m, machineKey, config, lineZero, req, ext, payment)
  }

  /** The rest of `mint_nft` once payment is possible: the transfer, the
      checked increment of `items_redeemed`, the read of line 0, then the
      issuance request. */
  function Settle(m: MachineState, machineKey: Pubkey, config: ConfigData, lineZero: Result<ConfigLine>,
                  req: MintRequest, ext: Services, payment: Transfer): (r: Result<Minted>)
    ensures r.Success? ==>
              ext.transferAccepted && ext.metadataAccepted && ext.editionAccepted &&
              lineZero == Success(ConfigLine(r.value.issuance.name, r.value.issuance.uri)) &&
              r.value.payment == payment && m.itemsRedeemed + 1 < U64_LIMIT &&
              r.value.machine == m.(itemsRedeemed := m.itemsRedeemed + 1)
    ensures r.Failure? ==> r.fault == CpiRejected || r.fault == Custom(NumericalOverflowError) ||
                           (lineZero.Failure? && r.fault == lineZero.fault)
  {
    if !ext.transferAccepted then Failure(CpiRejected)
    else if m.itemsRedeemed + 1 >= U64_LIMIT then Failure(Custom(NumericalOverflowError))
    else
      match lineZero
      case Failure(f) => Failure(f)
      case Success(line) =>
        if !ext.metadataAccepted || !ext.editionAccepted then Failure(CpiRejected)
        else Success(Minted(m.(itemsRedeemed := m.itemsRedeemed + 1), payment, IssuanceFor(machineKey, config, line, req)))
  }

  /** One mint attempt of a sequence: the call's inputs and the ledger bytes
      at that moment. */
  datatype Attempt = Attempt(request: MintRequest, services: Services, ledger: seq<u8>)
  {
    /** What the attempt reads as line 0. */
    function LineZero(): Result<ConfigLine>
    {
      GetConfigLine(ledger, 0)
    }
  }

  /** The machine after a sequence of mint attempts; a failed attempt
      changes nothing. */
  function Run(m: MachineState, machineKey: Pubkey, config: ConfigData, attempts: seq<Attempt>): MachineState
    decreases |attempts|
  {
    if attempts == [] then m
    else
      var a := attempts[0];
      var next :=
        match Mint(m, machineKey, config, a.LineZero(), a.request, a.services)
        case Success(minted) => minted.machine
        case Failure(_) => m;
      Run(next, machineKey, config, attempts[1..])
  }

  class CandyMachine {
    /** The account's address. */
    const key: Pubkey
    var authority: Pubkey
    var wallet: Pubkey
    var tokenMint: Option<Pubkey>
    var config: Pubkey
    var data: CandyMachineData
    var itemsRedeemed: u64
    var bump: u8

    function State(): MachineState
      reads this
    {
      MachineState(authority, wallet, tokenMint, config, data, itemsRedeemed, bump)
    }

    /** The runtime's allocation for `initialize_candy_machine`: an account
        holding default field values. */
    constructor Allocate(key: Pubkey)
      ensures this.key == key && State() == DefaultMachine
    {
      this.key := key;
      authority := Pubkey([]);
      wallet := Pubkey([]);
      tokenMint := None;
      config := Pubkey([]);
      data := DefaultMachineData;
      itemsRedeemed := 0;
      bump := 0;
    }

    /** `initialize_candy_machine`: checks the uuid length; when a mint
        account is supplied, the wallet must be a token account of that mint
        and the machine then takes payment in it; line 0 of the config must
        be readable: a decoding error is reported as
        `ConfigMustHaveAtleastOneEntry`, while a slot lying outside the account
        panics and aborts the instruction. A failed instruction leaves the
        account as it was. */
    method InitializeCandyMachine(bump: u8, newData: CandyMachineData, wallet: Pubkey, authority: Pubkey,
                                  cfg: Config, mintAccounts: Option<MintAccounts>) returns (r: Result<()>)
      modifies this
      ensures |newData.uuid| != 6 ==> r == Failure(Custom(UuidMustBeExactly6Length))
      ensures |newData.uuid| == 6 && mintAccounts.Some? && mintAccounts.value.walletMint != mintAccounts.value.mint
              ==> r == Failure(Custom(MintMismatch))
      ensures var line := old(GetConfigLine(cfg.buf[..], 0));
              |newData.uuid| == 6 && (mintAccounts.None? || mintAccounts.value.walletMint == mintAccounts.value.mint)
              ==> (r.Success? <==> line.Success?) &&
                  (line == Failure(Panic) ==> r == Failure(Panic)) &&
                  (line == Failure(BorshIoError) ==> r == Failure(Custom(ConfigMustHaveAtleastOneEntry)))
      ensures r.Success? ==>
                State() == old(State()).(authority := authority, wallet := wallet, config := cfg.key,
                                         data := newData, bump := bump,
                                         tokenMint := if mintAccounts.Some? then Some(mintAccounts.value.mint)
                                                      else old(tokenMint))
      ensures r.Failure? ==> unchanged(this)
    {
      if |newData.uuid| != 6 {
        return Failure(Custom(UuidMustBeExactly6Length));
      }
      var newTokenMint := tokenMint;
      if mintAccounts.Some? {
        if mintAccounts.value.walletMint != mintAccounts.value.mint {
          return Failure(Custom(MintMismatch));
        }
        newTokenMint := Some(mintAccounts.value.mint);
      }
      var line := GetConfigLine(cfg.buf[..], 0);
      if line.Failure? {
        if line.fault == Panic {
          // a slice out of range aborts the instruction: the `Err` arm never sees it
          return Failure(Panic);
        }
        return Failure(Custom(ConfigMustHaveAtleastOneEntry));
      }
      this.data := newData;
      this.wallet := wallet;
      this.authority := authority;
      this.config := cfg.key;
      this.bump := bump;
      this.tokenMint := newTokenMint;
      r := Success(());
    }

    /** The payment step of `mint_nft`, run on the account's fields: the
        transfer it requests, or why the payer cannot pay. It walks the same
        branches as `Payment`, which states the step as a value so that the
        lemmas about `Mint` can use it; this method is that step inside the
        instruction. */
    method Charge(req: MintRequest) returns (r: Result<Transfer>)
      ensures r == Payment(State(), req)
    {
      match tokenMint {
        case Some(mint) =>
          if req.tokenPayment.None? {
            return Failure(Panic);  // the token accounts are missing from the supplied accounts
          }
          var tokenAccount := req.tokenPayment.value;
          if tokenAccount.mint != mint {
            return Failure(Custom(MintMismatch));
          }
          if tokenAccount.amount < data.price {
            return Failure(Custom(NotEnoughTokens));
          }
          r := Success(TokenTransfer(tokenAccount.account, wallet, tokenAccount.transferAuthority, data.price));
        case None =>
          if req.payerLamports < data.price {
            return Failure(Custom(NotEnoughSOL));
          }
          r := Success(NativeTransfer(req.payer, wallet, data.price));
      }
    }

    /** `mint_nft`: returns the payment transfer and the issuance request it
        sends out, and counts the redemption, exactly as `Mint` says; a failed
        call changes nothing. The new count is stored last: the runtime keeps
        an instruction's writes only when it succeeds. */
    method MintNft(cfg: Config, req: MintRequest, ext: Services) returns (r: Result<(Transfer, Issuance)>)
      modifies this
      ensures var spec := Mint(old(State()), key, cfg.data, GetConfigLine(cfg.buf[..], 0), req, ext);
              (spec.Success? ==> r == Success((spec.value.payment, spec.value.issuance)) && State() == spec.value.machine) &&
              (spec.Failure? ==> r == Failure(spec.fault) && State() == old(State()))
    {
      match data.goLiveDate {
        case None =>
          if req.payer != authority {
            return Failure(Custom(CandyMachineNotLiveYet));
          }
        case Some(goLive) =>
          if req.now < goLive {
            if req.payer != authority {
              return Failure(Custom(CandyMachineNotLiveYet));
            }
          }
      }

      if itemsRedeemed >= data.itemsAvailable {
        return Failure(Custom(CandyMachineEmpty));
      }

      var payment := Charge(req);
      if payment.Failure? {
        return Failure(payment.fault);
      }
      r := Redeem(cfg.data, cfg.buf[..], req, ext, payment.value);
    }

    /** The steps of `mint_nft` after the payment checks, as `Settle` says;
        a failure changes nothing. */
    method Redeem(config: ConfigData, ledger: seq<u8>, req: MintRequest, ext: Services, payment: Transfer)
      returns (r: Result<(Transfer, Issuance)>)
      modifies this
      ensures var spec := Settle(old(State()), key, config, GetConfigLine(ledger, 0), req, ext, payment);
              (spec.Success? ==> r == Success((spec.value.payment, spec.value.issuance)) && State() == spec.value.machine) &&
              (spec.Failure? ==> r == Failure(spec.fault) && State() == old(State()))
    {
      if !ext.transferAccepted {
        return Failure(CpiRejected);
      }

      if itemsRedeemed + 1 >= U64_LIMIT {
        return Failure(Custom(NumericalOverflowError));
      }
      var redeemed: u64 := itemsRedeemed + 1;

      var configLine := GetConfigLine(ledger, 0);
      if configLine.Failure? {
        return Failure(configLine.fault);
      }

      var creators := BuildCreators(key, config.creators);

      var updateAuthorityIsSigner := true;
      var updateAuthority := key;
      if !config.retainAuthority {
        updateAuthorityIsSigner := false;
        updateAuthority := req.updateAuthority;
      }

      var issuance := Issuance(configLine.value.name, config.symbol, configLine.value.uri, creators,
                               config.sellerFeeBasisPoints, updateAuthority, updateAuthorityIsSigner,
                               config.isMutable, config.maxSupply);
      if !ext.metadataAccepted || !ext.editionAccepted {
        return Failure(CpiRejected);
      }
      itemsRedeemed := redeemed;
      r := Success((payment, issuance));
    }
  }
}
