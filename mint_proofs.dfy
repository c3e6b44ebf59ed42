/** What `mint_nft` promises, proved of the `Mint` transition: when it
    refuses, what it charges, what it counts, what it asks to issue, and
    that a sequence of mints never redeems more than is available. */
module MintProofs {
  import opened CandyTypes
  import opened ConfigLedger
  import opened ConfigAccount
  import opened Minting

  /** Reading line 0 fails only by panicking or by a decoding error: never
      by the count check. */
  lemma GetConfigLineZeroFaults(ledger: seq<u8>)
    ensures LineZeroRead(GetConfigLine(ledger, 0))
  {
  }

  /** A mint is refused as not live exactly when the payer is not the
      authority and the go-live date is unset or still ahead. */
  lemma MintNotLiveYetIff(m: MachineState, key: Pubkey, config: ConfigData, lineZero: Result<ConfigLine>,
                          req: MintRequest, ext: Services)
    requires LineZeroRead(lineZero)
    ensures Mint(m, key, config, lineZero, req, ext) == Failure(Custom(CandyMachineNotLiveYet))
            <==> !IsLiveFor(m, req.payer, req.now)
  {
  }

  /** Past the sale-window check, a mint is refused as empty exactly when
      every available item has been redeemed. */
  lemma MintEmptyIff(m: MachineState, key: Pubkey, config: ConfigData, lineZero: Result<ConfigLine>,
                     req: MintRequest, ext: Services)
    requires IsLiveFor(m, req.payer, req.now)
    requires LineZeroRead(lineZero)
    ensures Mint(m, key, config, lineZero, req, ext) == Failure(Custom(CandyMachineEmpty))
            <==> m.itemsRedeemed >= m.data.itemsAvailable
  {
  }

  /** The payment checks, in the configured asset. */
  lemma MintPaymentChecks(m: MachineState, key: Pubkey, config: ConfigData, lineZero: Result<ConfigLine>,
                          req: MintRequest, ext: Services)
    requires IsLiveFor(m, req.payer, req.now) && m.itemsRedeemed < m.data.itemsAvailable
    ensures m.tokenMint.Some? && req.tokenPayment.None?
            ==> Mint(m, key, config, lineZero, req, ext) == Failure(Panic)
    ensures m.tokenMint.Some? && req.tokenPayment.Some? && req.tokenPayment.value.mint != m.tokenMint.value
            ==> Mint(m, key, config, lineZero, req, ext) == Failure(Custom(MintMismatch))
    ensures m.tokenMint.Some? && req.tokenPayment.Some? && req.tokenPayment.value.mint == m.tokenMint.value &&
            req.tokenPayment.value.amount < m.data.price
            ==> Mint(m, key, config, lineZero, req, ext) == Failure(Custom(NotEnoughTokens))
    ensures m.tokenMint.None? && req.payerLamports < m.data.price
            ==> Mint(m, key, config, lineZero, req, ext) == Failure(Custom(NotEnoughSOL))
  {
  }

  /** A mint succeeds exactly when the payer may mint now, an item is left,
      payment is possible, every called program accepts, and line 0 of the
      ledger was read. The overflow check on the counter never fires: below
      `items_available` there is always room for one more. */
  lemma MintSucceedsIff(m: MachineState, key: Pubkey, config: ConfigData, lineZero: Result<ConfigLine>,
                        req: MintRequest, ext: Services)
    ensures Mint(m, key, config, lineZero, req, ext).Success?
            <==> IsLiveFor(m, req.payer, req.now) && m.itemsRedeemed < m.data.itemsAvailable &&
                 Payment(m, req).Success? && lineZero.Success? &&
                 ext.transferAccepted && ext.metadataAccepted && ext.editionAccepted
    ensures LineZeroRead(lineZero) ==> Mint(m, key, config, lineZero, req, ext) != Failure(Custom(NumericalOverflowError))
  {
  }

  /** A successful mint charges exactly the price into the machine's wallet,
      in the configured token from a token account of that mint holding at
      least the price, or else in lamports from a payer holding at least the
      price; it raises `items_redeemed` by exactly one and changes nothing
      else, so the count stays within `items_available`. */
  lemma MintSuccessEffects(m: MachineState, key: Pubkey, config: ConfigData, lineZero: Result<ConfigLine>,
                           req: MintRequest, ext: Services)
    requires Mint(m, key, config, lineZero, req, ext).Success?
    ensures var minted := Mint(m, key, config, lineZero, req, ext).value;
            minted.machine == m.(itemsRedeemed := m.itemsRedeemed + 1) &&
            minted.machine.itemsRedeemed <= minted.machine.data.itemsAvailable
    ensures var payment := Mint(m, key, config, lineZero, req, ext).value.payment;
            match m.tokenMint
            case Some(mint) =>
              req.tokenPayment.Some? && req.tokenPayment.value.mint == mint &&
              req.tokenPayment.value.amount >= m.data.price &&
              payment == TokenTransfer(req.tokenPayment.value.account, m.wallet,
                                       req.tokenPayment.value.transferAuthority, m.data.price)
            case None =>
              req.payerLamports >= m.data.price &&
              payment == NativeTransfer(req.payer, m.wallet, m.data.price)
  {
  }

  /** What a successful mint asks to issue: the name and uri of ledger line
      0, the config's symbol, royalty, mutability and supply, the machine
      followed by every configured creator, and as update authority either
      the machine itself (signing) or the supplied account (not signing). */
  lemma MintIssuance(m: MachineState, key: Pubkey, config: ConfigData, lineZero: Result<ConfigLine>,
                     req: MintRequest, ext: Services)
    requires Mint(m, key, config, lineZero, req, ext).Success?
    ensures var issued := Mint(m, key, config, lineZero, req, ext).value.issuance;
            lineZero == Success(ConfigLine(issued.name, issued.uri)) &&
            issued.symbol == config.symbol &&
            issued.sellerFeeBasisPoints == config.sellerFeeBasisPoints &&
            issued.isMutable == config.isMutable && issued.maxSupply == config.maxSupply
    ensures var issued := Mint(m, key, config, lineZero, req, ext).value.issuance;
            |issued.creators| == 1 + |config.creators| &&
            issued.creators[0] == Creator(key, true, 0) &&
            (forall i :: 0 <= i < |config.creators| ==>
               issued.creators[i + 1] == Creator(config.creators[i].address, false, config.creators[i].share))
    ensures var issued := Mint(m, key, config, lineZero, req, ext).value.issuance;
            issued.updateAuthorityIsSigner == config.retainAuthority &&
            issued.updateAuthority == (if config.retainAuthority then key else req.updateAuthority)
    ensures WellFormedConfigData(config) ==>
              |Mint(m, key, config, lineZero, req, ext).value.issuance.creators| <= MAX_CREATOR_LIMIT
  {
  }

  /** Every item minted against the same ledger bytes carries the same
      template, line 0, whatever has been redeemed before. */
  lemma EveryMintIssuesLineZero(m1: MachineState, m2: MachineState, key: Pubkey, config: ConfigData,
                                ledger: seq<u8>, req1: MintRequest, req2: MintRequest, ext1: Services, ext2: Services)
    requires Mint(m1, key, config, GetConfigLine(ledger, 0), req1, ext1).Success?
    requires Mint(m2, key, config, GetConfigLine(ledger, 0), req2, ext2).Success?
    ensures var issued := Mint(m1, key, config, GetConfigLine(ledger, 0), req1, ext1).value.issuance;
            GetConfigLine(ledger, 0) == Success(ConfigLine(issued.name, issued.uri))
    ensures var issued1 := Mint(m1, key, config, GetConfigLine(ledger, 0), req1, ext1).value.issuance;
            var issued2 := Mint(m2, key, config, GetConfigLine(ledger, 0), req2, ext2).value.issuance;
            issued1.name == issued2.name && issued1.uri == issued2.uri
  {
    MintIssuance(m1, key, config, GetConfigLine(ledger, 0), req1, ext1);
    MintIssuance(m2, key, config, GetConfigLine(ledger, 0), req2, ext2);
  }

  /** How many attempts of a sequence succeed. */
  function Redemptions(m: MachineState, key: Pubkey, config: ConfigData, attempts: seq<Attempt>): nat
    decreases |attempts|
  {
    if attempts == [] then 0
    else
      var a := attempts[0];
      match Mint(m, key, config, a.LineZero(), a.request, a.services)
      case Success(minted) => 1 + Redemptions(minted.machine, key, config, attempts[1..])
      case Failure(_) => Redemptions(m, key, config, attempts[1..])
  }

  /** Over any sequence of attempts, `items_redeemed` grows by exactly the
      number of successful mints, never passes `items_available`, and no
      other field changes. */
  lemma {:induction false} RunCountsRedemptions(m: MachineState, key: Pubkey, config: ConfigData, attempts: seq<Attempt>)
    requires m.itemsRedeemed <= m.data.itemsAvailable
    ensures Run(m, key, config, attempts).itemsRedeemed == m.itemsRedeemed + Redemptions(m, key, config, attempts)
    ensures Run(m, key, config, attempts).itemsRedeemed <= m.data.itemsAvailable
    ensures Run(m, key, config, attempts) == m.(itemsRedeemed := Run(m, key, config, attempts).itemsRedeemed)
    decreases |attempts|
  {
    if attempts != [] {
      var a := attempts[0];
      var r := Mint(m, key, config, a.LineZero(), a.request, a.services);
      if r.Success? {
        MintSuccessEffects(m, key, config, a.LineZero(), a.request, a.services);
        RunCountsRedemptions(r.value.machine, key, config, attempts[1..]);
      } else {
        RunCountsRedemptions(m, key, config, attempts[1..]);
      }
    }
  }

  /** Once every available item is redeemed, every further attempt fails:
      the payer who may mint is told the machine is empty. */
  lemma SoldOutIsFinal(m: MachineState, key: Pubkey, config: ConfigData, lineZero: Result<ConfigLine>,
                       req: MintRequest, ext: Services)
    requires m.itemsRedeemed == m.data.itemsAvailable
    ensures Mint(m, key, config, lineZero, req, ext).Failure?
    ensures IsLiveFor(m, req.payer, req.now)
            ==> Mint(m, key, config, lineZero, req, ext) == Failure(Custom(CandyMachineEmpty))
  {
  }

  /** A machine freshly set up for `n` items accepts exactly `n` mints: after
      `n` successful attempts the next one fails, as empty whenever its
      payer may mint at that time. */
  lemma NoMintAfterAllRedeemed(m: MachineState, key: Pubkey, config: ConfigData, attempts: seq<Attempt>,
                               next: Attempt)
    requires m.itemsRedeemed == 0
    requires Redemptions(m, key, config, attempts) == m.data.itemsAvailable
    ensures Mint(Run(m, key, config, attempts), key, config, next.LineZero(), next.request, next.services).Failure?
    ensures IsLiveFor(m, next.request.payer, next.request.now)
            ==> Mint(Run(m, key, config, attempts), key, config, next.LineZero(), next.request, next.services)
                == Failure(Custom(CandyMachineEmpty))
  {
    RunCountsRedemptions(m, key, config, attempts);
    SoldOutIsFinal(Run(m, key, config, attempts), key, config, next.LineZero(), next.request, next.services);
  }
}
