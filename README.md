# Candy machine: config-line ledger and mint state machine

This project is a Dafny model of the Solana candy-machine program
(`rust/nft-candy-machine/src/lib.rs`). It covers the program's four instructions
and the two account types they act on.

- **The `Config` account** (`ConfigAccount.Config`). `initialize_config` writes
  the sale configuration: a 6-byte uuid, a symbol padded to 10 bytes, the
  royalty, up to 4 creators, the supply and the flags. The same account then
  holds the *config-line ledger*:
  - at `CONFIG_ARRAY_START` (248), a 4-byte little-endian count;
  - after it, fixed 240-byte slots, each the Borsh encoding of a name padded
    with zeros to 32 bytes and a uri padded to 200 bytes.

  `add_config_lines` patches the account's byte buffer (an `array<u8>`) in
  place. `get_config_count` and `get_config_line` read it at computed offsets
  without decoding the whole account.
- **The `CandyMachine` account** (`Minting.CandyMachine`).
  - `initialize_candy_machine` binds it to a config. Optionally it also binds
    a payment token mint. It needs line 0 of the ledger to be readable.
  - `mint_nft` does these steps in order:
    1. checks the sale window and the supply;
    2. takes payment in the token or in lamports;
    3. increments `items_redeemed` with a checked add;
    4. reads ledger line 0;
    5. assembles the creator list (the machine first);
    6. asks the token-metadata program to create the metadata and the master
       edition.

Modules:

- `CandyTypes`: machine integers, `Pubkey`, the program's `ErrorCode` and a
  `Result` whose `Fault` is one of:
  - a program error;
  - a Borsh I/O error;
  - a panic: an unsigned underflow or a slice out of range;
  - a rejected cross-program call.
- `Borsh`: little-endian u32 and length-prefixed strings, and their round trips.
- `ConfigLedger`: the layout, padding, encoding and decoding of lines, the two
  readers, and `AfterAddConfigLines`, the function that specifies
  `add_config_lines` on the account bytes.
- `LedgerProofs`: what `add_config_lines` guarantees:
  - when it fails;
  - where it writes, and the count it leaves;
  - that nothing else changes;
  - that what it writes reads back.
- `ConfigAccount`: the `Config` class with `initialize_config` and
  `add_config_lines`.
- `Minting`: the `CandyMachine` class with `initialize_candy_machine` and
  `mint_nft`. `Mint` specifies one mint as a value-level transition, and `Run`
  covers a sequence of mints. `Mint` takes the outcome of reading ledger line
  0 as an input; `mint_nft` passes it `GetConfigLine` of the config account's
  bytes.
- `MintProofs`: lemmas about `Mint` and `Run`.

Every instruction either commits all of its writes or none of them, as the
runtime guarantees. The methods therefore validate first and write at the end,
and each method's `ensures` says that a failed call leaves the account as it
was.

### Behaviour of the program worth knowing

- `initialize_config` accepts up to **4** configured creators
  (`MAX_CREATOR_LIMIT - 1`, with `MAX_CREATOR_LIMIT = 5`). One place stays free
  for the candy machine, which `mint_nft` puts first in every creator list.
- `get_config_line` returns the stored strings **with** their zero padding:
  `LedgerProofs.AddThenGetLine` reads back the padded line.
- `get_config_line` rejects only `index > count`, so the slot at `index ==
  count` is read too. A fresh ledger still has no readable line 0, because its
  zero slot does not decode (`LedgerProofs.FreshLedgerHasNoLineZero`).
- With no slots at all (`max_number_of_lines == 0`), reading line 0 slices
  past the end of the account and panics. `initialize_candy_machine` maps only
  the read's errors to `ConfigMustHaveAtleastOneEntry`; this panic aborts the
  instruction instead.
- The new count is `count + |lines|` whatever the start index. It is not
  clamped to the capacity: `LedgerProofs.RewriteRaisesCountPastCapacity` shows
  that rewriting slot 0 of a full ledger pushes the count past the capacity.
- Lines appended at an index past the current count are written, but
  `get_config_line` refuses to read them until the count reaches them
  (`LedgerProofs.AppendPastCountUnreadable`).
- The new count is written back truncated to 32 bits (`as u32`). The
  `checked_add` is on a 64-bit `usize` of two 32-bit values, so it cannot fail
  (`LedgerProofs.AddConfigLinesNeverOverflows`).
- The checked increment of `items_redeemed` in `mint_nft` cannot fail either,
  for another reason: it runs only after `items_redeemed < items_available`
  was checked, so one more still fits in a u64 (`MintProofs.MintSucceedsIff`).
- An over-long name, uri or symbol panics on the unsigned subtraction
  `MAX_* - len` rather than reporting an error.
- `max_number_of_lines == 0` panics on `max_number_of_lines - 1`.
- `mint_nft` always issues line 0 (`MintProofs.EveryMintIssuesLineZero`).

## Model

| member | source | states |
|---|---|---|
| Borsh.U32Le | rust/nft-candy-machine/src/lib.rs:277 | `to_le_bytes` of a u32 is exactly 4 bytes; `U32LeRoundTrip` and `DecodeU32LeInverse` make it the inverse of `DecodeU32Le` |
| Borsh.DecodeU32Le | rust/nft-candy-machine/src/lib.rs:449 | `from_le_bytes` is little-endian: the first byte is the value's low byte and the last byte its high byte |
| Borsh.U32LeRoundTrip | rust/nft-candy-machine/src/lib.rs:448-450 | decoding the little-endian bytes of a u32 gives the u32 back |
| Borsh.DecodeU32LeInverse | rust/nft-candy-machine/src/lib.rs:276-277 | any 4 bytes are the little-endian encoding of the u32 they decode to |
| Borsh.EncodeString | rust/nft-candy-machine/src/lib.rs:263 | a Borsh string is 4 length bytes followed by exactly the string's bytes |
| Borsh.DecodeString | rust/nft-candy-machine/src/lib.rs:465 | decoding either fails with an I/O error or yields a string whose encoding is exactly the bytes consumed, ending inside the buffer |
| Borsh.DecodeEncodedString | rust/nft-candy-machine/src/lib.rs:465 | an encoded string decodes back to itself whatever bytes surround it |
| ConfigLedger.Padded | rust/nft-candy-machine/src/lib.rs:249-259 | a padded string has exactly the field width, starts with the string, and is zero beyond it |
| ConfigLedger.PadToWidth | rust/nft-candy-machine/src/lib.rs:249-253 | the zero-pushing loop yields the string padded to the width, and panics (does not truncate) when the string is longer than the width |
| ConfigLedger.FixLine | rust/nft-candy-machine/src/lib.rs:248-260 | a fitting line padded field by field has exactly the fixed name and uri widths |
| ConfigLedger.FixLines | rust/nft-candy-machine/src/lib.rs:248-261 | the fixed batch has one padded line per input line, in order |
| ConfigLedger.SlotOffset | rust/nft-candy-machine/src/lib.rs:267 | every slot starts after the header and the 4-byte count; `SlotOffsetShift` places slot `index + k` exactly k slot widths further |
| ConfigLedger.PadLines | rust/nft-candy-machine/src/lib.rs:248-261 | the padding loop over the batch yields every line padded to the fixed widths when all fit, and panics as soon as any string is longer than its width |
| ConfigLedger.EncodeLine | rust/nft-candy-machine/src/lib.rs:470-477 | a line's encoding has 8 bytes of prefixes plus its strings, so exactly `CONFIG_LINE_SIZE` bytes for a fixed line |
| ConfigLedger.EncodeLines | rust/nft-candy-machine/src/lib.rs:263-265 | fixed lines encode back to back in exactly one slot each |
| ConfigLedger.SerializeVec | rust/nft-candy-machine/src/lib.rs:263 | the vector's serialisation is a 4-byte count followed by one slot per line |
| ConfigLedger.EncodedBatch | rust/nft-candy-machine/src/lib.rs:263-265 | a batch of fitting lines, padded and encoded, takes exactly one slot per line |
| ConfigLedger.DecodeLine | rust/nft-candy-machine/src/lib.rs:465 | decoding a slot fails with an I/O error or yields the line whose encoding is exactly that slot |
| ConfigLedger.Splice | rust/nft-candy-machine/src/lib.rs:269-271 | copying into a sub-slice gives the bytes in the window and leaves every other byte and the length unchanged |
| ConfigLedger.CopyInto | rust/nft-candy-machine/src/lib.rs:269-271 | the byte-by-byte copy into the account buffer leaves it equal to `Splice` of its old contents |
| ConfigLedger.GetConfigCount | rust/nft-candy-machine/src/lib.rs:448-450 | the count is read exactly when the account reaches past the header, it panics otherwise, and its little-endian bytes are the header bytes |
| ConfigLedger.GetConfigLine | rust/nft-candy-machine/src/lib.rs:452-468 | `IndexGreaterThanLength` exactly when the index exceeds the count; a panic exactly when the count cannot be read or the slot lies past the end of the account; otherwise a decoding error or a line whose encoding is exactly its slot |
| ConfigLedger.AfterAddConfigLines | rust/nft-candy-machine/src/lib.rs:232-280 | a successful append keeps the account size |
| ConfigLedger.PlanAddConfigLines | rust/nft-candy-machine/src/lib.rs:239-274 | the checks of `add_config_lines` in its order: a failure is exactly the failure of `AfterAddConfigLines`, and a success yields the encoded lines, their position and the new count, whose two copies give exactly `AfterAddConfigLines` |
| LedgerProofs.DecodeLineRoundTrip | rust/nft-candy-machine/src/lib.rs:465 | decoding an encoded line gives the line back |
| LedgerProofs.EncodedLinesWindow | rust/nft-candy-machine/src/lib.rs:263-271 | in the encoded batch, slot k holds exactly the encoding of line k |
| LedgerProofs.SerializedTail | rust/nft-candy-machine/src/lib.rs:264-265 | dropping the first 4 bytes of the serialised vector leaves exactly the encoded lines |
| LedgerProofs.SlotOffsetShift | rust/nft-candy-machine/src/lib.rs:267 | slot `index + k` starts k slot widths after slot `index` |
| LedgerProofs.AddConfigLinesShape | rust/nft-candy-machine/src/lib.rs:239-277 | a successful append passed every check and is the old account with the padded lines copied at slot `index` and the new count over the header |
| LedgerProofs.AddConfigLinesIndexCheck | rust/nft-candy-machine/src/lib.rs:244-246 | `IndexGreaterThanLength` exactly when the count is readable, the capacity is at least 1 and the index is past the last slot |
| LedgerProofs.AddConfigLinesSucceedsIff | rust/nft-candy-machine/src/lib.rs:239-277 | on an account sized for its capacity, an append succeeds exactly when the capacity is non-zero, the index is in range, every string fits, and the batch ends within the capacity |
| LedgerProofs.SuccessStaysWithinCapacity | rust/nft-candy-machine/src/lib.rs:239-271 | on an account sized for its capacity, a successful append had a non-zero capacity, an index in range, fitting strings, and a batch ending within the capacity |
| LedgerProofs.SucceedsWithinCapacity | rust/nft-candy-machine/src/lib.rs:239-277 | conversely, those conditions make every check of the append pass |
| LedgerProofs.AddConfigLinesPassedChecks | rust/nft-candy-machine/src/lib.rs:239-271 | a successful append read the count, passed the index and width checks, and its slots end within the account |
| LedgerProofs.AddConfigLinesNeverOverflows | rust/nft-candy-machine/src/lib.rs:272-274 | the checked addition of the new count never reports `NumericalOverflowError` |
| LedgerProofs.AddConfigLinesCount | rust/nft-candy-machine/src/lib.rs:272-277 | after an append the count reads as the old count plus the number of lines, modulo 2^32, whatever the index |
| LedgerProofs.HeaderAfterPatch | rust/nft-candy-machine/src/lib.rs:276-277 | after a count is copied over the header, `get_config_count` reads that count back |
| LedgerProofs.AddConfigLinesPlacement | rust/nft-candy-machine/src/lib.rs:267-271 | line k of the batch is written, padded and encoded, in slot `index + k` |
| LedgerProofs.CopiedSlot | rust/nft-candy-machine/src/lib.rs:267-271 | after the copy of the encoded batch, slot `index + k` holds the encoding of line k padded |
| LedgerProofs.PatchedSlot | rust/nft-candy-machine/src/lib.rs:267-277 | the later copy of the count over the header leaves that slot as it was |
| LedgerProofs.AddConfigLinesFrame | rust/nft-candy-machine/src/lib.rs:269-277 | every byte outside the count header and the written slots keeps its value |
| LedgerProofs.ReadEncodedSlot | rust/nft-candy-machine/src/lib.rs:452-468 | a slot within the count holding an encoded line reads back as that line |
| LedgerProofs.AddThenGetLine | rust/nft-candy-machine/src/lib.rs:232-280 | when the count does not wrap and the new count reaches slot `index + k`, reading that slot after an append gives line k with its name and uri zero-padded |
| LedgerProofs.AppendPastCountUnreadable | rust/nft-candy-machine/src/lib.rs:272-277 | lines appended at an index beyond the old count plus their number are written, but reading the first of them fails with `IndexGreaterThanLength` |
| LedgerProofs.ReadWrittenSlot | rust/nft-candy-machine/src/lib.rs:452-468 | once the count covers it, a slot written by the append reads back as its padded line |
| LedgerProofs.FreshLedgerHasNoLineZero | rust/nft-candy-machine/src/lib.rs:312-315 | in a zero-filled account, line 0 passes the count check but cannot be read: a decoding error when the account has slots, a panic when it has none |
| LedgerProofs.RewriteRaisesCountPastCapacity | rust/nft-candy-machine/src/lib.rs:272-277 | rewriting slot 0 of a full ledger succeeds and raises the count to capacity + 1 |
| ConfigAccount.Config.Allocate | rust/nft-candy-machine/src/lib.rs:342 | a new config account is zero-filled and exactly `SlotOffset(max_number_of_lines)` bytes long |
| ConfigAccount.Config.InitializeConfig | rust/nft-candy-machine/src/lib.rs:203-230 | uuid length error, panic on an over-long symbol, `TooManyCreators` above 4; success exactly when none applies, and then the fields are stored with the symbol zero-padded to its width; a failure changes nothing |
| ConfigAccount.Config.AddConfigLines | rust/nft-candy-machine/src/lib.rs:232-280 | the account bytes become exactly `AfterAddConfigLines` of the old bytes, or stay unchanged with the same error; on an account sized for its capacity, it succeeds exactly when the capacity is non-zero, the index is in range, every string fits and the batch ends within the capacity |
| Minting.BuildCreators | rust/nft-candy-machine/src/lib.rs:110-123 | the creator list is the machine (verified, share 0) followed by every configured creator (unverified, same share), in order |
| Minting.CreatorList | rust/nft-candy-machine/src/lib.rs:110-123 | the creator list has one more entry than the configured creators: the machine first (verified, share 0), then each configured creator in order, unverified, with its share |
| Minting.Payment | rust/nft-candy-machine/src/lib.rs:53-93 | payment is possible exactly when the payer offers a token account of the machine's mint holding at least the price, or, with no token mint, holds at least the price in lamports; the transfer then moves exactly the price to the machine's wallet |
| Minting.IssuanceFor | rust/nft-candy-machine/src/lib.rs:148-198 | the issuance carries the line's name and uri and the machine as its first, verified creator, has at most 5 creators for a well-formed config, and only the machine itself is ever a signing update authority |
| Minting.Mint | rust/nft-candy-machine/src/lib.rs:29-201 | a successful mint passed the sale-window and supply checks, charged exactly `Payment`'s transfer, and leaves `items_redeemed` within `items_available` |
| Minting.Settle | rust/nft-candy-machine/src/lib.rs:68-198 | after payment, success needs every called program to accept and line 0 to read, and then issues that line, passes the payment through and raises `items_redeemed` by one; a failure is a rejected call, the overflow error, or the read's own failure |
| Minting.CandyMachine.Allocate | rust/nft-candy-machine/src/lib.rs:324 | a new machine account holds default field values |
| Minting.CandyMachine.InitializeCandyMachine | rust/nft-candy-machine/src/lib.rs:282-318 | uuid length error, `MintMismatch` when the wallet's mint differs from the offered mint; otherwise success exactly when ledger line 0 reads; a decoding error of line 0 becomes `ConfigMustHaveAtleastOneEntry`, while a panicking read (no slot in the account) stays a panic; on success the fields (and token mint) are set, on failure nothing changes |
| Minting.CandyMachine.MintNft | rust/nft-candy-machine/src/lib.rs:29-201 | the window and supply checks, then `Charge`, then `Redeem`: returns the payment and issuance and sets the machine to exactly what `Mint` says for the account's line 0; a failure returns the same error and changes nothing |
| Minting.CandyMachine.Charge | rust/nft-candy-machine/src/lib.rs:53-93 | the payment step yields exactly the transfer or the refusal that `Payment` specifies |
| Minting.CandyMachine.Redeem | rust/nft-candy-machine/src/lib.rs:68-198 | after payment, the transfer call, the checked increment, the line-0 read, the creator list, the update authority and the two metadata calls, as `Settle` says; a failure changes nothing |
| MintProofs.GetConfigLineZeroFaults | rust/nft-candy-machine/src/lib.rs:452-468 | reading line 0 never fails with `IndexGreaterThanLength`: only by panicking or by a decoding error |
| MintProofs.MintNotLiveYetIff | rust/nft-candy-machine/src/lib.rs:34-47 | a mint fails as not live exactly when the payer is not the authority and the go-live date is unset or still ahead |
| MintProofs.MintEmptyIff | rust/nft-candy-machine/src/lib.rs:49-51 | past the window check, a mint fails as empty exactly when `items_redeemed >= items_available` |
| MintProofs.MintPaymentChecks | rust/nft-candy-machine/src/lib.rs:53-79 | missing token accounts panic, a token account of another mint is `MintMismatch`, too few tokens `NotEnoughTokens`, too few lamports `NotEnoughSOL` |
| MintProofs.MintSucceedsIff | rust/nft-candy-machine/src/lib.rs:29-201 | a mint succeeds exactly when the payer may mint now, an item is left, payment is possible, line 0 reads and every called program accepts; `NumericalOverflowError` never occurs |
| MintProofs.MintSuccessEffects | rust/nft-candy-machine/src/lib.rs:53-98 | a successful mint charges exactly the price to the machine's wallet in the configured asset, from a source holding at least the price, and raises `items_redeemed` by one without exceeding `items_available`, changing no other field |
| MintProofs.MintIssuance | rust/nft-candy-machine/src/lib.rs:100-198 | the issuance carries the name and uri read from line 0, the config's symbol, royalty, mutability and supply, the machine plus every configured creator (at most 5 for a well-formed config), and the update authority and its signer flag chosen by `retain_authority` |
| MintProofs.EveryMintIssuesLineZero | rust/nft-candy-machine/src/lib.rs:100 | any two successful mints against the same ledger issue the same name and uri |
| MintProofs.RunCountsRedemptions | rust/nft-candy-machine/src/lib.rs:49-51 | over any sequence of mint attempts, `items_redeemed` rises by exactly the number of successes, stays within `items_available`, and no other field changes |
| MintProofs.SoldOutIsFinal | rust/nft-candy-machine/src/lib.rs:49-51 | once `items_redeemed == items_available`, every mint fails, as `CandyMachineEmpty` when the payer may mint |
| MintProofs.NoMintAfterAllRedeemed | rust/nft-candy-machine/src/lib.rs:49-51 | starting from zero, after `items_available` successful mints the next one fails, as `CandyMachineEmpty` when its payer may mint |

## Left out

- Cross-program calls are not modelled as programs. The system transfer, the SPL token transfer, `create_metadata_accounts` and `create_master_edition` become the `Transfer` and `Issuance` values that `mint_nft` sends. Whether each call accepts is a `Services` flag, and a rejection is the `CpiRejected` fault.
- `assert_initialized`, `assert_owned_by` and `spl_token_transfer` come from `utils.rs`, which is not part of this model. The token accounts they check are taken as already initialised and owned by the token program. The account data they read is passed in as `TokenPayment` and `MintAccounts` values.
- The Anchor account constraints are not modelled: PDA seeds and bumps, signer checks, `init`, the `wallet` key constraint and the 8-byte account discriminator. The Borsh encoding of the config header before `CONFIG_ARRAY_START` is also not modelled; the header fields are class fields.
- `msg!` logging is left out. The `authority_seeds` signing is left out too: the signer flag is kept in `Issuance`.
- Borsh.DecodeString: does not check that the decoded bytes are valid UTF-8, as Borsh's `String` decoding does; strings are byte sequences here.
- ConfigLedger.DecodeLine: does not check that decoded strings are valid UTF-8. Strings are byte sequences, so an invalid UTF-8 slot reads back here but is a decoding error in the program.
- ConfigAccount.Config.InitializeConfig: the symbol is padded before the creator check, and the fields are written only after all checks pass. A failed instruction's writes are discarded, so this order has the same effect as the code's.
- ConfigAccount.Config.AddConfigLines: every check, including the `checked_add` of the count, runs in `ConfigLedger.PlanAddConfigLines` before the copy of the lines, rather than the `checked_add` after it. This is equivalent for the same reason.
- Minting.CandyMachine.MintNft: `items_redeemed` is written only after the issuance calls succeed, for the same reason. The account list passed to each call (`metadata_infos`, `master_edition_infos`) is not modelled.
- Panics model Rust's unsigned underflow and out-of-range slicing as they behave with overflow checks on: the instruction aborts. A build without overflow checks, where `MAX_* - len` would wrap, is not modelled.
- The clock is an input (`MintRequest.now`), and so are the payer's lamport balance and the accounts supplied.
