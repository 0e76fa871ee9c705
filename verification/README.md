# Atomic swaps and confidential settlement: a verified model

This project models two on-chain programs and proves what their escrow, delegation and signature rules guarantee.

**The swap program** (`swap/src`). Users trade token accounts through records the program owns:

- one-to-one swaps with a vault, and escrowed price bids on them (tags 0-7);
- the fee policy, fee vaults and sweeps (tags 8-11);
- baskets of up to five mints, and bearer baskets claimed by key (tags 12-17);
- escrowless listings sold through a token delegate (tags 26-29);
- sealed orders and bids, signed off chain and spent once (tags 38 and 41).

**The settlement program** (`program/lean`, `program/readable`). A depositor funds an account that names its beneficiary only by
a hash; the beneficiary claims it, or the depositor takes it back. The same machine exists by hand offsets and by Borsh.

## How the model is built

The state of the swap program is a `Ledger.World`: the token accounts (mint, owner, delegate, allowance, amount), the bytes of every
record the program owns, the records closed but not yet reaped, the clock, and the list of transfers the program has made. `Ledger.Env`
holds what does not change: the table of derived addresses, the mints, the hash function, and every message any key has signed.

Each handler has two forms.

- The **specification** is a pure function in `Swaps`, `Offers`, `Baskets`, `Listings`, `Orders` and `FeeConfig`. It tests the accounts
  and the payload against the state, in the source's order and with the source's errors, and lists the primitive effects that follow.
  `Machine.Step` runs such a list whole or not at all.
- The **program** is a method in the `...Handlers` modules over the mutable accounts of `Bank.Bank`. It checks, creates accounts, writes
  records in place at the source's offsets, transfers, closes, and loops over basket legs and royalty creators. Every method is proved
  to do what its specification lists, or to refuse with the specification's error; `Program.Process` also proves that a refused
  instruction leaves no trace.

The theorems are about the specification, so they hold of the program. Each instruction is stated in both directions: the admission
modules say for every input exactly when it is accepted, and with which transfers, without naming the specification it is proved of. Statements over runs quantify over every `Runs.Trace`: any
sequence of the program's instructions with any accounts and payloads, interleaved with anything else that may happen on the chain
(`Runs.Outside`).

| file | content |
|---|---|
| `Prelude`, `Bytes` | results and errors; little-endian integers and in-place writes |
| `Seeds` | seed families and program-derived addresses |
| `Layout` | the byte layout of every record, written and read |
| `Ledger` | token accounts, primitive effects, conservation, balances against the log |
| `Royalty`, `SignedMessages` | the metadata parser, the split, rounding; signed messages and the signature instruction |
| `FeeConfig`, `Payments`, `Swaps`, `Offers`, `Baskets`, `Listings`, `Orders` | the handlers as specifications |
| `Machine`, `Shapes`, `Invariant`, `BasketInvariant`, `Runs` | the state machine, its invariant, runs |
| `Lifecycle`, `Openings`, `Histories`, `Provenance`, `Endings` | records: what opening locks, backing, single endings, terms kept, bearer custody, why a record ends |
| `Authorities`, `Recovery`, `Balances` | whose authority is used, when an escrow can be recovered, the log against the balances over runs |
| `Carry`, `Admission`, `SwapAdmission`, `BidAdmission`, `PolicyAdmission`, `BasketOpening`, `BasketAdmission`, `ListingAdmission`, `OrderAdmission` | exactly when each instruction is accepted, in terms of payload bytes, record bytes, metadata and token accounts alone |
| `OpenedRecords`, `BasketProvenance`, `Gates` | what is recorded byte for byte, baskets keep their terms over runs, the delist and alias gates over runs |
| `Consent`, `Debits`, `Compensation` | who is debited, and what they are paid for it |
| `Effects`, `BasketEffects`, `RoyaltySettlement`, `RoyaltyPayout`, `Shortfalls`, `SealedOrders` | what every settlement moves, when it falls short, signatures spent once |
| `Fees`, `Policies` | fee vaults, sweeps, and where every fee goes under the latest policy |
| `Bank`, `Settle`, `SwapHandlers`, `OfferHandlers`, `BasketHandlers`, `ListingHandlers`, `OrderHandlers`, `ConfigHandlers`, `Program` | the imperative program |
| `Settlement`, `SettlementAdmission`, `SettlementRuns`, `SettlementProgram` | the settlement program: both builds, their agreement, when each accepts, runs, the imperative form |

Assumptions, all stated as hypotheses of the lemmas that use them: derived addresses and hashes do not collide; program addresses
and the zero key sign no transaction; the zero key is no mint; a signature instruction that executed holds only signatures that its
signers made; the token and system programs passed in are the genuine ones; mints are classic and free of transfer fees.

Where the code and its documentation differ, the model follows the code: the named taker of a swap is enforced by `fill` and
`fill_listing` although `swap/README.md` lists it as a reserved layout only; records are 220 and 186 bytes, not 186 and 154;
`expire_offer` exists although the threat model's backlog names it as missing. The threat model also says that funds are never lost
because an offerer can always reclaim; the code moves the recorded amount and then closes the vault, which needs a zero balance, so
a refund is accepted exactly while the vault holds that amount and no more (`Recovery`).

## Model

| member | source | states |
|---|---|---|
| Seeds.FindIsHighest | swap/src/swap.rs:44-51 | The canonical bump of a seed is the highest that names an address, and there is one whenever any bump does |
| Carry.ExecByCarry | swap/src/lib.rs:54-101 | Effects that create no record go through exactly when tests hold, authorities sign, and the token program carries out what is asked in turn; accounts and log are then what it leaves |
| SwapAdmission.OpenSwapAccepted | swap/src/swap.rs:17-84 | open_swap is accepted exactly when payload, signature, clock, alias gate and addresses are right, record and vault are new, and the maker's account can send the give amount, which is then all that moves |
| SwapAdmission.FillAccepted | swap/src/swap.rs:86-150 | In every reachable state fill is accepted exactly when an open unexpired record meets the payload (give equal, want at most the cap), this taker, the derived addresses, the maker's account and the fee destination, and the token program carries out payment, release and closing; accounts and log follow |
| SwapAdmission.OrdinaryFillAccepted | swap/src/swap.rs:86-150 | With a taker's own account and no two accounts alike, the last part is: the taker has the price, maker, fee account and destination have room, and the vault holds just the recorded amount |
| SwapAdmission.CancelSwapAccepted | swap/src/swap.rs:153-193 | In every reachable state cancel_swap is accepted exactly when the maker signs for an open record with its accounts, the delist gate is met, the vault holds just the recorded amount, and the destination has room |
| SwapAdmission.ExpireAccepted | swap/src/swap.rs:198-236 | The same for expire by anyone from the expiry on |
| BidAdmission.MakeOfferAccepted | swap/src/offer.rs:15-86 | make_offer is accepted exactly when payload, signature, alias gate, the record bid on and the addresses are right, record and vault are new, and the bidder can send the bid, which is then all that moves |
| BidAdmission.AcceptAccepted | swap/src/offer.rs:89-196 | In every reachable state accept_offer is accepted exactly when both records are open, unexpired and agree on goods and mints, the four addresses and both parties' accounts are right, the fee goes where the policy says, and the token program carries out payment, hand-over and closings |
| BidAdmission.WithdrawAccepted | swap/src/offer.rs:202-243 | In every reachable state withdraw_offer is accepted exactly when the bidder signs for an open bid with its accounts, the vault holds just the bid, and the destination has room |
| BidAdmission.ExpireBidAccepted | swap/src/offer.rs:247-288 | The same for expire_offer by anyone from the expiry on |
| PolicyAdmission.InitConfigAccepted | swap/src/config.rs:12-40 | init_config is accepted exactly once, by whoever signs, at the config address and a rate of at most 100% |
| PolicyAdmission.UpdateConfigAccepted | swap/src/config.rs:45-74 | update_config is accepted exactly from the recorded admin, at a rate of at most 100% |
| PolicyAdmission.InitFeeVaultAccepted | swap/src/config.rs:81-102 | A shard vault is opened exactly once, at the address of its mint and shard, empty and owned by the config address |
| PolicyAdmission.SweepAccepted | swap/src/config.rs:108-156 | A sweep is accepted exactly when vault, config and wallet account are right and, unless the vault is empty, the token program moves all of it |
| BasketOpening.OpenBasketAccepted | swap/src/basket.rs:19-129 | For every count, open_basket is accepted exactly when its payload and header are admissible, the record is new, every want asks something, every give leg is positive, unwanted and has a new derived vault, and the token program opens and funds the vaults |
| BasketAdmission.FillBasketAccepted | swap/src/basket.rs:137-247 | In every reachable state fill_basket is accepted exactly when the basket is open, normal, unexpired and for this taker, every want leg is payable and every give leg releasable, and the token program carries out all payments and releases; accounts and log follow |
| BasketAdmission.ClaimAccepted | swap/src/basket.rs:254-326 | In every reachable state claim_bearer is accepted exactly when the signing key hashes to the claim value of an open bearer basket, every leg is releasable, and the token program carries out the releases |
| BasketAdmission.RewrapAccepted | swap/src/basket.rs:331-367 | rewrap is accepted exactly when the key that hashes to the claim value signs for an open bearer basket at its address and the next value is not zero |
| BasketAdmission.CancelBasketAccepted | swap/src/basket.rs:375-451 | In every reachable state cancel_basket is accepted exactly when the maker signs for an open basket that is no bearer's, the delist gate is met, every leg returns to an account of the maker, and the token program carries out the releases |
| BasketAdmission.ExpireBasketAccepted | swap/src/basket.rs:457-523 | The same for expire_basket by anyone from the expiry on |
| ListingAdmission.ListAccepted | swap/src/escrowless.rs:16-74 | list is accepted exactly when payload, royalty stance, signature, clock, the maker's account, alias gate and address are right and the record is new |
| ListingAdmission.FillListingAccepted | swap/src/escrowless.rs:79-141 | In every reachable state fill_listing is accepted exactly when an open unexpired listing meets payload and taker, the maker's accounts are right, the metadata's royalty can be paid within the cap, the fee goes where the policy says, and the token program carries out payments and delegated transfer |
| ListingAdmission.ListingRoyaltyIsPaid | swap/src/settle.rs:81-127 | In every mode but none an accepted listing sale has metadata that asks a royalty, its log pays want * bps / 10000 to the creators' own accounts (floors, the last the remainder), and the taker pays the price and what of it the maker does not fund |
| ListingAdmission.CancelListingAccepted | swap/src/escrowless.rs:146-189 | cancel_listing is accepted exactly when the maker signs for an open listing at its address with an own account of the mint, and the delist gate is met |
| ListingAdmission.ExpireListingAccepted | swap/src/escrowless.rs:196-229 | expire_listing is accepted exactly when anyone signs for an open listing of this maker from its expiry on, and changes no token account, so the delegation stays |
| OrderAdmission.OrderAccepted | swap/src/order.rs:83-176 | In every reachable state settle_signed_order is accepted exactly when the maker's signature covers domain, payload and mints, the terms are live and for this taker, the marker is unused, both maker accounts are right, the royalty can be paid, the fee goes where the policy says, and the token program carries out the transfers |
| OrderAdmission.OrderRoyaltyIsPaid | swap/src/settle.rs:81-127 | The royalty of an accepted signed order is paid as that of a listing sale is |
| OrderAdmission.BidAccepted | swap/src/order.rs:376-517 | In every reachable state settle_signed_bid_spl is accepted exactly when the bidder's signature covers domain, payload and mints, one unit is wanted with no royalty terms, the terms are live and for this owner, the marker is unused, the four accounts are right, the fee goes where the policy says, and the token program carries out payment and delivery |
| OrderAdmission.ProofMeans | swap/src/order.rs:45-76 | A signature is proved exactly by the sixteen header bytes 1 0 48 0 255 255 16 0 255 255 112 0 n 0 255 255, the key, any signature, and the message of n bytes |
| RoyaltyPayout.RoyaltyPlanned | swap/src/settle.rs:53-111 | In every reachable state a royalty payment is planned exactly when the policy reads, the metadata asks a royalty and every creator's account is there, and fee, maker's part and cap fit |
| RoyaltyPayout.OneWayToShare | swap/src/royalty.rs:83-97 | Floors for all creators but the last and payouts that sum to the royalty leave one way to share it |
| OpenedRecords.OpenSwapRecords | swap/src/swap.rs:66-80 | open_swap adds one record whose bytes, offset by offset, are its signer, its mints and its payload |
| OpenedRecords.ListRecords | swap/src/escrowless.rs:58-72 | list adds the same, with the two royalty bytes of its payload |
| OpenedRecords.MakeOfferRecords | swap/src/offer.rs:70-81 | make_offer adds one record of its signer, the record bid on, the payload's bid and expiry, and the goods bytes of the record bid on |
| OpenedRecords.OpenBasketRecords | swap/src/basket.rs:37-126 | For every count, open_basket adds one record with expiry, taker, mode and claim hash copied from bytes o, o+8, o+40 and o+41 of the payload, o = 34 + 8 gives + 40 wants, and every give and want entry copied from accounts and payload |
| OpenedRecords.InitConfigRecords | swap/src/config.rs:30-38 | init_config records its signer and then its 75 payload bytes as they are |
| OpenedRecords.UpdateConfigRecords | swap/src/config.rs:66-74 | update_config replaces those 75 bytes and keeps admin and bump |
| OpenedRecords.RewrapRecords | swap/src/basket.rs:331-367 | rewrap replaces the 32 claim bytes and keeps every other byte |
| BasketProvenance.BasketFillsKeepTheirTerms | swap/src/basket.rs:137-190 | In every run a basket fill settles, byte for byte, the maker, gives, wants, expiry and named taker of one earlier open_basket signed by that maker, before that expiry and for that taker |
| Gates.DelistFeesGoToTheWallet | swap/src/swap.rs:181-191 | In every run whoever cancels a swap, basket or listing under a policy payload with a positive delist fee presents that payload's wallet |
| Gates.WithoutDelistFeeAnyWallet | swap/src/swap.rs:181-191 | In every run, while the last policy asks no delist fee, a cancel does the same, to the error, whatever account it presents as the wallet |
| Gates.AliasesAreShown | swap/src/config.rs:205-230 | In every run whoever opens a swap, bid, basket or listing has shown an alias, or bytes 42 to 74 of the last policy payload are zero |
| Gates.WithAliasOrWithoutProgramAnyAlias | swap/src/config.rs:205-230 | In every run, with an alias or under such a payload, an opening does the same, to the error, whatever alias account it presents |
| SettlementAdmission.DepositAccepted | program/lean/src/lib.rs:68-112 | Each build accepts a deposit exactly when its 81 bytes, accounts, address and funds are right, and then moves the amount and stores signer, 48 payload bytes and bump |
| SettlementAdmission.ClaimAccepted | program/lean/src/lib.rs:114-144 | Each build accepts a claim exactly when signer and salt hash to the stored commitment from the unlock time on, and then pays out everything; the readable build also wants a whole record and nothing after the salt |
| SettlementAdmission.ReclaimAccepted | program/lean/src/lib.rs:146-167 | Each build accepts a reclaim exactly from the stored depositor, at any time, and then pays out everything; the readable build also wants a whole record |
| Seeds.PreimageInjective | swap/src/swap.rs:44-51 | Concatenated seeds and bump are injective across all eleven seed families of the program, with no separators |
| Layout.SwapReadsBack | swap/src/swap.rs:66-80 | Every swap written by the offset writes is read back field by field, with the royalty bytes at zero |
| Layout.ListingReadsBack | swap/src/escrowless.rs:58-72 | Every listing written is read back unchanged, royalty stance included: no two fields overlap |
| Layout.OfferReadsBack | swap/src/offer.rs:70-81 | Every bid written is read back unchanged |
| Layout.PolicyReadsBack | swap/src/config.rs:66-74 | A policy update sets exactly the five policy fields and keeps the admin and the bump |
| Layout.RewrapChangesOnlyTheClaim | swap/src/basket.rs:331-367 | Rewrapping changes the claim hash and no other header field or leg entry |
| Layout.WipedReadsOpen | swap/src/cpi.rs:261-268 | A wiped record of each kind still reads as open by its status byte |
| BasketInvariant.BasketReadsBack | swap/src/basket.rs:73-126 | For every give and want count, the header, every want entry and every give entry of a basket are read back as given |
| Ledger.TransferKeepsSupply | swap/src/cpi.rs:223-242 | A checked transfer, self-transfers included, keeps the supply of every mint |
| Ledger.ExecKeepsSupply | swap/src/basket.rs:194-246 | No list of effects creates or loses a token, whatever accounts alias |
| Ledger.ExecKeepsHolding | swap/src/cpi.rs:223-249 | An undelegated account keeps its owner and at least its balance through any effects its owner does not sign |
| Ledger.ExecBalances | swap/src/cpi.rs:223-249 | Any accepted effect list changes every balance by exactly what its transfers bring in less what they take out, under any aliasing, openings and closings included |
| Ledger.NothingLeaves | swap/src/cpi.rs:223-249 | No transfer leaves an undelegated account while its owner does not act |
| Royalty.ParseInvertsPrint | swap/src/royalty.rs:104-127 | Parsing printed metadata gives it back and leaves every trailing byte unread |
| Royalty.AcceptsExactlyTheGrammar | swap/src/royalty.rs:16-79 | The parser succeeds exactly on byte strings that begin with a printed valid metadata, and returns it |
| Royalty.ShorterPrefixesFail | swap/src/royalty.rs:16-79 | Every prefix shorter than what the parser consumes is refused |
| Royalty.ParseTmRoyalty | swap/src/royalty.rs:16-79 | The cursor parser, with all its bounds checks, returns the rate and the creators of the grammar's metadata or refuses |
| Royalty.ReadCreators | swap/src/royalty.rs:64-73 | The creator loop fills the slots with exactly the creators the grammar reads, or refuses a flag that is no boolean |
| Royalty.SplitsAreExact | swap/src/royalty.rs:83-97 | When shares sum to 100 the payouts sum to the total, every one but the last is a floor, and the last is within 99 hundredths of a unit per other creator |
| Royalty.SplitByShare | swap/src/royalty.rs:83-97 | The in-place split loop computes those payouts without underflow and leaves the unused slots at zero |
| Royalty.CutsLowerTheFee | swap/src/basket.rs:212-216 | The rounded fees of k amounts together are at most the fee of their sum, and at most k-1 units less |
| Royalty.BpsFits | swap/src/settle.rs:54 | At rates up to 100% the fee cast never truncates and the fee never exceeds the amount |
| SignedMessages.MessagesUnambiguous | swap/src/order.rs:121-131 | Order and bid messages are each injective in all their terms, and no order message is a bid message |
| SignedMessages.AcceptsExactlyCanonical | swap/src/order.rs:45-76 | Signature data is accepted exactly when it is the canonical builder's output for this signer, this message of at most 65535 bytes, and some 64-byte signature |
| SignedMessages.Ed25519LayoutOk | swap/src/order.rs:45-76 | The in-place header rebuild and the three comparisons decide exactly that layout |
| SignedMessages.AcceptedMeansVerified | swap/src/order.rs:21-76 | On accepted data a reader that follows the offsets finds one signature, by this key, over this message, whatever other instructions exist |
| Machine.ConfinedKeepsInv | swap/src/swap.rs:17-266 | Effects confined to some records and authorities leave every other record in place and backed |
| Invariant.FillKeepsInv | swap/src/swap.rs:86-150 | A fill keeps every vault of every other open record backed |
| Invariant.AcceptOfferKeepsInv | swap/src/offer.rs:89-196 | Settling two records at once keeps every other vault backed |
| BasketInvariant.LockHolds | swap/src/basket.rs:96-127 | After the give loop every leg's vault is the derived one, held by the basket, with the paid amount |
| BasketInvariant.OpenBasketKeepsInv | swap/src/basket.rs:19-129 | Opening a basket of any size keeps the invariant |
| Runs.StepKeepsInv | swap/src/lib.rs:54-101 | Every instruction in scope keeps the invariant |
| Runs.UserTransferIsOutside | swap/src/cpi.rs:223-242 | Every transfer a user makes on their own is a step of the runs considered |
| Runs.RunKeepsInv | swap/src/lib.rs:54-101 | In every state of every run every open record is well formed, sits at the address its fields derive, and is fully backed |
| Histories.OpenSwapIsBacked | swap/src/swap.rs:44-84 | An open swap has a vault at its maker's and nonce's address, owned by the swap, undelegated, holding at least the recorded amount |
| Histories.OpenBidIsBacked | swap/src/offer.rs:54-86 | The same for an open bid |
| Histories.OpenBasketIsBacked | swap/src/basket.rs:96-127 | The same for every leg of an open basket, also when legs share a mint |
| Histories.OpeningsAndEndingsAlternate | swap/src/cpi.rs:18-32 | At every address of every run openings and endings alternate: each record ends at most once |
| Histories.WipedRecordsAreRefused | swap/src/cpi.rs:261-268 | No handler settles, refunds, rewrites or bids on a wiped record, although its status byte reads open |
| Endings.EndingsAreJustified | swap/src/swap.rs:198-236 | In every run a record is settled only before the expiry it names, withdrawn only by the party who opened it, expired only from that time on, and claimed only if it is a bearer basket |
| Endings.ExpiredRecordsOnlyReturn | swap/src/settle.rs:206-212 | In every run a record past its expiry keeps that expiry and is never settled again: only a withdrawal, an expiry or a bearer's claim ends it |
| Lifecycle.StepRecordEffect | swap/src/lib.rs:54-101 | Every instruction opens only absent records, ends and rewrites only live ones, and touches no others |
| Openings.OpenSwapLocks | swap/src/swap.rs:17-84 | open_swap records every term of the payload, reads back as recorded, and moves exactly the give amount into a new vault of the swap |
| Openings.MakeOfferLocks | swap/src/offer.rs:15-86 | make_offer records the payload's bid and the goods the listing shows, and moves exactly the bid into a new vault of the bid |
| Openings.ListDelegates | swap/src/escrowless.rs:16-74 | list records every term of the payload, makes the listing address the delegate for exactly the give amount, and moves no token |
| Openings.CancelListingRevokes | swap/src/escrowless.rs:146-189 | cancel_listing, signed by the maker, clears the delegate and moves no token |
| Openings.OpenBasketLocks | swap/src/basket.rs:96-127 | For every count, each leg's amount, and nothing more, enters the leg's own vault, held by the basket |
| Provenance.FillsKeepTheirTerms | swap/src/settle.rs:192-222 | In every run a fill of a swap or listing keeps to the mints, amounts, expiry and named taker its maker signed at the opening, is signed by that taker if one is named, at the amount the taker expects and within the taker's cap |
| Lifecycle.InitConfigOpens | swap/src/config.rs:12-40 | init_config records the payload's policy with its signer as admin, at a rate of at most 100% |
| Lifecycle.RewritesConfig | swap/src/config.rs:45-74 | Only the recorded admin retunes the policy; the record takes the payload's values and keeps the admin |
| Effects.FillSettles | swap/src/swap.rs:86-150 | A fill moves the fee, the price less the fee to an account of the maker, and exactly the listed amount out of the vault, which is closed |
| Effects.SwapRefunds | swap/src/swap.rs:238-266 | Cancel and expiry move exactly the locked amount to an account of the maker and close the vault |
| Effects.BidRefunds | swap/src/offer.rs:202-288 | Withdrawal and expiry move exactly the escrowed bid to an account of the bidder and close the vault |
| Effects.AcceptSettles | swap/src/offer.rs:89-196 | Accepting moves the escrowed bid as fee and proceeds, exactly the agreed goods to the bidder, and closes both vaults |
| Effects.StepKeepsSupply | swap/src/lib.rs:54-101 | No instruction creates or loses a token of any mint |
| Balances.StepBalances | swap/src/lib.rs:54-101 | Every instruction changes every account by exactly what its logged transfers bring in less what they take out |
| Balances.RunsBalance | swap/src/lib.rs:54-101 | In every run the log and the changes made outside the program account for every balance to the unit |
| Balances.ProgramHoldsItsLog | swap/src/lib.rs:54-101 | In every run an account at a program address holds at least what the log ever moved in less what it moved out |
| BasketEffects.EachVaultPaysItsLeg | swap/src/basket.rs:221-246 | Legs have distinct vaults, so the release loop takes from each vault exactly its own recorded amount |
| BasketEffects.BasketFillSettles | swap/src/basket.rs:137-246 | For all counts and amounts a fill pays the maker every want leg less its fee and, over all transfers of the instruction, exactly the recorded amount leaves every give vault, which is closed |
| BasketEffects.BearerClaimReleases | swap/src/basket.rs:254-326 | A claim is signed by the key that hashes to the claim value and releases every vault exactly |
| BasketEffects.BasketCancelReturns | swap/src/basket.rs:375-451 | A cancel, signed by the maker, returns every leg exactly to accounts of the maker |
| BasketEffects.BasketExpiryReturns | swap/src/basket.rs:457-523 | From expiry on anyone may return every leg exactly to accounts of the maker |
| Authorities.StepSparesOthers | swap/src/cpi.rs:223-249 | No instruction uses the authority of an escrow record it does not end |
| Recovery.EndingsAreExact | swap/src/swap.rs:258-265 | Whatever ends a swap, bid or basket, each of its vaults held exactly the recorded amount |
| Recovery.RefundsAcceptedExactly | swap/src/swap.rs:238-266 | In every reachable state a planned cancel, withdrawal or expiry is accepted exactly when the vault holds just the recorded amount and the destination has room |
| Recovery.OverfundedNeverEnds | swap/THREAT_MODEL.md:108-111 | In every run a record one of whose vaults holds more than it names never ends again |
| Recovery.OneUnitKeepsItOpen | swap/THREAT_MODEL.md:108-111 | From any state with an open record a user's transfer of one unit into a vault is a run that reaches such a state |
| Provenance.BidsKeepTheirGoods | swap/src/offer.rs:38-52 | In every run an accepted bidder receives exactly the mint and amount the listing showed when the bid was made, and maker and fee destination receive exactly the escrowed bid |
| Provenance.BidOrigin | swap/src/offer.rs:70-81 | A live bid goes back to one make_offer and its bytes have not changed since |
| Provenance.ClaimIsTheLatest | swap/src/basket.rs:331-367 | In every run the claim value of an open basket is that of its last opening (the last 32 payload bytes) or rewrap |
| Provenance.RewrapsAreSignedByTheHolder | swap/src/basket.rs:331-367 | Every rewrap is signed by the key that hashes to the value before it |
| Provenance.ClaimsAreSignedByTheHolder | swap/src/basket.rs:254-298 | The claiming key hashes to the most recent claim value of the run |
| Provenance.OnlyTheBearerEnds | swap/src/basket.rs:162-164 | No cancel, expiry or fill ever ends a bearer basket |
| Consent.StepConsented | swap/src/lib.rs:54-101 | Every transfer is signed, or leaves a program-held account, or is the one sale its owner listed or signed |
| Debits.OnlyTheSaleDebits | swap/src/cpi.rs:223-242 | An account whose owner and delegate are silent keeps owner, delegate and balance, unless it is the one account the instruction's sale names |
| Compensation.DebitNeedsConsent | swap/src/escrowless.rs:79-141 | A silent account keeps what it has, or the instruction settles a listing, order or bid of its owner: then exactly the named amount leaves it under the owner's own delegation, and the owner is paid what is due, or delivered the unit, out of an account whose owner or delegate signed |
| Compensation.RunsDebitOnlyWithConsent | swap/src/order.rs:83-176 | The same at every step of every run, where the owner agreed to the bargain in a list signed earlier in that run or in a signed message, and, while all the owner's accounts are silent, none of them funds the payment |
| Compensation.ListingsAreSigned | swap/src/escrowless.rs:16-74 | The bargain a listing sale strikes is that of an earlier list in the run, signed by the maker |
| Effects.ListingSaleIsPaid | swap/src/escrowless.rs:79-141 | A listing sale takes exactly the listed amount and pays the maker the price less fee and maker share in the same step |
| Effects.OrderSaleIsPaid | swap/src/order.rs:145-176 | A signed order takes exactly the signed amount and pays the maker the signed price less fee and maker share |
| Effects.BidSaleIsDelivered | swap/src/order.rs:481-517 | A signed bid takes exactly the signed coins as fee and price and delivers one unit of the named mint to the bidder |
| SealedOrders.SignaturesAreSpentOnce | swap/src/order.rs:138-144 | No two settlements of a run share a maker and a nonce |
| SealedOrders.SettlementsAreSigned | swap/src/order.rs:121-132 | The message of every settlement was signed by the maker it debits |
| SealedOrders.MakersLoseWhatTheySigned | swap/src/order.rs:170-176 | Over every run, for each mint and each source account, what leaves a maker under the order address is the sum of the give amounts of the settled messages |
| RoyaltySettlement.RoyaltySettleConserves | swap/src/settle.rs:53-129 | A royalty settle takes exactly want plus the taker's share from the taker, at most the cap, and it is the fee, the maker's payment and payouts that sum to the royalty |
| RoyaltySettlement.NoRoyaltyIsThePlainLeg | swap/src/settle.rs:136-156 | In every reachable state, in mode NONE within the cap, the royalty path is planned and refused with the plain want leg, makes the same transfers, and does the same to every state, refusals included |
| Shortfalls.ListingShortExactly | swap/src/settle.rs:108-111 | fill_listing returns insufficient funds exactly when it would be planned with the fee waived and, at the rate in force, fee plus the maker's part of the royalty exceed the price |
| Shortfalls.OrderShortExactly | swap/src/order.rs:145-169 | settle_signed_order returns it exactly when it reaches its payment, that payment would be planned with the fee waived, and fee plus maker's part exceed the price |
| Shortfalls.OnlyRoyaltyPaymentsFallShort | swap/src/settle.rs:108-111 | No other instruction ever returns it, from any gate or any effect |
| Shortfalls.NeverInsufficientWithinRates | swap/src/settle.rs:108-111 | In every reachable state no instruction returns it while the fee rate in force and the royalty rate of the metadata are at most 100% together |
| RoyaltySettlement.MakerShareFits | swap/src/settle.rs:81-103 | The maker's share never exceeds the royalty, nor the royalty the price, so the taker's share does not underflow |
| RoyaltySettlement.NoFeeUnderflows | swap/src/config.rs:49-51 | In every reachable state the fee is at most the amount it is taken from |
| Fees.VaultsHoldTheFeesSinceASweep | swap/src/config.rs:81-156 | Between sweeps a shard vault holds at least what it held and every fee routed to it |
| Fees.SweepEmpties | swap/src/config.rs:108-156 | A sweep moves the whole vault to an account of the current fee wallet and, unless that wallet is the config address, leaves it empty |
| Fees.SweepSucceeds | swap/src/config.rs:108-156 | A sweep is accepted for every shard index whatever the shard count now is |
| Fees.FeeVaultsStaySealed | swap/src/config.rs:81-102 | In every reachable state a fee vault belongs to the config address and has no delegate |
| Fees.AcceptedFill | swap/src/basket.rs:137-246 | Every accepted basket fill pays exactly its want legs at the rate in force, within 100%, and releases exactly its give legs |
| Fees.SplittingALegLowersTheFee | swap/src/basket.rs:195-218 | Of two accepted basket fills at one rate, one asking a mint in one leg and one asking the same total in k legs, the second never skims more of that mint and at most k-1 units less |
| Policies.PolicyIsTheLatest | swap/src/config.rs:45-74 | In every state of every run the policy in force is the payload of the last accepted init_config or update_config |
| Policies.FeesFollowTheLatestPolicy | swap/src/config.rs:183-201 | In every run the fee of a fill, accepted bid, listing sale, signed order or signed bid is charged at the latest policy's rate and lands in an account of its wallet or in the shard vault it picks |
| Policies.BasketFeesFollowTheLatestPolicy | swap/src/basket.rs:211-216 | The same for every want leg of every basket fill |
| Bank.CopyInto | swap/src/swap.rs:68-79 | The byte loop of copy_from_slice writes the field and nothing else |
| Bank.Bank.TokenTransfer | swap/src/cpi.rs:223-242 | A transfer changes exactly the two accounts and the log, or refuses and changes nothing |
| Settle.PayWantLeg | swap/src/settle.rs:136-156 | The want leg performs exactly the fee and price transfers of the specification |
| Settle.ResolveRoyalty | swap/src/settle.rs:56-97 | Parsing, the sum of shares and the maker's part give exactly the specified bill or error |
| Settle.PayWantAndRoyalty | swap/src/settle.rs:34-129 | The royalty payment with its creator loops performs exactly the specified transfers or refuses with the specified error |
| SwapHandlers.WriteSwap | swap/src/swap.rs:66-80 | The in-place writes of open_swap produce the specified record |
| SwapHandlers.OpenSwap | swap/src/swap.rs:17-84 | The method refuses in the source's order, then creates record and vault, deposits and writes the record in place: exactly the specification's effects or its error |
| SwapHandlers.Fill | swap/src/swap.rs:86-150 | Pays the fee and the price, releases the vault and wipes the record, or reverts at the first refusal, as specified |
| SwapHandlers.CancelSwap | swap/src/swap.rs:153-193 | Passes the maker's and the delist gates, then refunds and closes as specified |
| SwapHandlers.Expire | swap/src/swap.rs:198-236 | Passes the clock and maker gates, then refunds and closes as specified, whoever calls |
| OfferHandlers.MakeOffer | swap/src/offer.rs:15-86 | Copies the goods from the live listing into the bid's record and locks the bid as specified |
| OfferHandlers.AcceptOffer | swap/src/offer.rs:89-196 | Checks both records, pays out the bid, hands over the goods and closes both vaults and both records as specified |
| OfferHandlers.WithdrawOffer | swap/src/offer.rs:202-243 | Passes the bidder's gates, then refunds the bid as specified |
| OfferHandlers.ExpireOffer | swap/src/offer.rs:247-288 | Passes the clock gate, then refunds the bid as specified, whoever calls |
| BasketHandlers.OpenBasket | swap/src/basket.rs:19-129 | Writes the header, runs the want loop and the give loop over the record's bytes, and leaves exactly the specified record and vaults, for every count |
| BasketHandlers.LockAll | swap/src/basket.rs:96-126 | The give loop creates, funds and records every leg in order |
| BasketHandlers.PayAll | swap/src/basket.rs:193-218 | The want loop pays every leg in order |
| BasketHandlers.UnlockAll | swap/src/basket.rs:221-244 | The release loop pays out and closes every vault in order |
| BasketHandlers.FillBasket | swap/src/basket.rs:137-247 | Runs the payment loop and the release loop and wipes the record, or reverts both, as specified |
| BasketHandlers.ClaimBearer | swap/src/basket.rs:254-326 | Passes the hash gate and runs the release loop as specified |
| BasketHandlers.Rewrap | swap/src/basket.rs:331-367 | Passes the holder's gates and overwrites the claim bytes alone as specified |
| BasketHandlers.CancelBasket | swap/src/basket.rs:375-451 | Passes the maker's and the delist gates and returns every leg as specified |
| BasketHandlers.ExpireBasket | swap/src/basket.rs:457-523 | Passes the clock gate and returns every leg as specified, whoever calls |
| ListingHandlers.List | swap/src/escrowless.rs:16-74 | Creates and writes the record and approves the delegation as specified |
| ListingHandlers.FillListing | swap/src/escrowless.rs:79-141 | Loads the record, runs the royalty payment, pulls the asset under the listing's delegation and wipes the record as specified |
| ListingHandlers.CancelListing | swap/src/escrowless.rs:146-189 | Passes the maker's and the delist gates, revokes and wipes as specified |
| ListingHandlers.ExpireListing | swap/src/escrowless.rs:196-229 | Passes the clock gate and wipes the record as specified, leaving the delegation in place |
| OrderHandlers.SettleSignedOrder | swap/src/order.rs:83-176 | Builds the message, proves the signature, spends the marker, runs the royalty payment and pulls the asset as specified |
| OrderHandlers.SettleSignedBid | swap/src/order.rs:376-517 | Builds the message, proves the signature, spends the marker, pays out the coins under the delegation and delivers one unit as specified |
| OrderHandlers.BuildMessage | swap/src/order.rs:121-131 | Appending the terms builds the domain followed by the encoded terms |
| ConfigHandlers.InitConfig | swap/src/config.rs:12-40 | Refuses a rate above 100%, creates the config at its address and writes the policy as specified |
| ConfigHandlers.UpdateConfig | swap/src/config.rs:45-74 | Passes the recorded admin's gate and overwrites the policy fields as specified |
| ConfigHandlers.InitFeeVault | swap/src/config.rs:81-102 | Creates the shard vault for the config address as specified |
| ConfigHandlers.SweepFees | swap/src/config.rs:108-156 | Reads the whole balance of the derived vault and sends it to the current wallet's account as specified |
| Program.Process | swap/src/lib.rs:54-101 | An instruction takes effect exactly as the state machine's step says, or is refused with its error and leaves no trace |
| Program.ProcessSafely | swap/src/lib.rs:54-101 | The running program itself keeps every record well formed and backed, whatever the instruction returns |
| Settlement.BuildsWriteAlike | program/lean/src/lib.rs:105-110 | The offset writes and the Borsh encoding produce the same 81 bytes |
| Settlement.BuildsReadAlike | program/readable/src/lib.rs:90-99 | Borsh accepts exactly the 81-byte records and reads what the offsets read |
| Settlement.LeanRefinesReadable | program/lean/src/lib.rs:54-188 | On any state, given the listed accounts, what the readable build accepts the lean build accepts with the same accounts afterwards |
| Settlement.ReadableAgreesWithoutTrailingBytes | program/readable/src/lib.rs:75-207 | Where every record is whole, what the lean build accepts the readable build accepts exactly when nothing follows a claim's salt |
| Settlement.TrailingBytesSplitTheBuilds | program/lean/src/lib.rs:114-120 | A claim with one byte appended is refused by the readable build and still accepted by the lean one with the same effect |
| SettlementRuns.PayoutsAreWhole | program/lean/src/lib.rs:114-188 | Every payout of every run pays one earlier deposit whole, to its depositor or to a signer whose key and salt hash to its commitment, from its unlock time on |
| SettlementRuns.DepositsAndPayoutsAlternate | program/lean/src/lib.rs:68-112 | At every address of every run deposits and payouts alternate, so each deposit is paid at most once |
| SettlementRuns.RunKeepsInv | program/lean/src/lib.rs:68-112 | In every reachable state each open settlement holds at least what was deposited |
| SettlementProgram.LeanProcess | program/lean/src/lib.rs:54-62 | The lean build, writing by offsets in place, does exactly what its specification says |
| SettlementProgram.ReadableProcess | program/readable/src/lib.rs:75-83 | The readable build does exactly what its specification says |
| SettlementProgram.Decode | program/readable/src/lib.rs:98 | The cursor decoder agrees with the Borsh reader on every byte string |

## Left out

- Programmable and core assets (`pnft.rs`, `mcore.rs`, tags 18-25, 30-37, 39, 40, 42, 43): their asset moves inside programs this model cannot see. Swap records of those tags share the swap seed, so the lifecycle statements are about runs of tags 0-17, 26-29, 38 and 41.
- Token-2022 extensions, freeze authorities, multisig owners and the close rule of wrapped SOL: token accounts are classic.
- Genuineness of the token program account, which the source checks on some paths only: assumed on all, so IncorrectProgramId never arises.
- Lamports, rent and the delist fee of the swap program: account creation and closing are modelled, lamport balances are not; the delist fee's destination check is.
- Byte buffers are borrowed and returned whole: two live borrows of one account, which the runtime refuses, do not arise.
- Account data of other programs: `require_token_account` is modelled on token accounts; data of another program shaped like one cannot pass a later transfer.
- The alias gate reads as a boolean; metadata accounts as foreign, misplaced or genuine bytes.
- SHA-256, Ed25519 and address derivation: oracles. Derivation is a finite table of every preimage evaluated, with the bump as its last byte; a bump with no address is absent from it.
- Mint decimals: every transfer is taken to name the mint's own, as the source reads them; the one unit of a signed bid is sent at zero decimals (swap/src/order.rs:515), so the source refuses want mints with any, which this model accepts.
- Stale delegations: an account has one delegate slot, so an open listing may have lost its delegation, and `expire_listing` leaves the delegation in place; whether a listing can be filled is part of the exact condition of `ListingAdmission.FillListingAccepted`.
- Error codes: each instruction's acceptance is stated exactly, and so is when it reports insufficient funds; which of the other errors a refused instruction reports is what the specification returns in the source's order.
- Named takers of accepted bids: only the fill paths check one.
- Events, compute budget, the client SDK, the site and the test harnesses.
- Effects.FillSettles: destinations a taker chooses are unchecked by the program and may alias other accounts, so payouts are stated as the list of transfers rather than as balance differences.
- Histories.OpenSwapIsBacked: backing is "at least", since anyone may send tokens to a vault.
- Fees.SweepEmpties: a fee wallet equal to the config address is the one excluded case; a sweep may then pay the vault to itself.
- SettlementRuns.PayoutsAreWhole: runs are of the lean build, the deployed one; the readable build refines into it by `Settlement.LeanRefinesReadable`. The rent floor is a condition of account creation.
- Borsh errors and runtime panics are one refusal each; their messages are not modelled.
