/** Escrowless listings: the asset stays with the maker, the listing address is its delegate (tags 26-29). */
module Listings {
  import opened Prelude
  import opened Seeds
  import opened Layout
  import opened Ledger
  import opened FeeConfig
  import opened Payments
  import opened Swaps

  /** list (tag 26): maker | listing | give_mint | want_mint | maker_give | token_program | system | config | alias. */
  function List(e: Env, w: World, x: Ix): Plan {
    var d := x.data;
    :- Need(|d| == 122, InvalidInstructionData);
    var nonce, give, want, expiry, mode, pct := KeyAt(d, 0), U64At(d, 32), U64At(d, 40), I64At(d, 80), d[120], d[121];
    :- Need(mode <= ROYALTY_SPLIT && pct <= 100, InvalidInstructionData);
    :- Need(|x.accounts| == 9, NotEnoughAccountKeys);
    var maker, listing, giveMint, wantMint, makerGive := x.accounts[0], x.accounts[1], x.accounts[2], x.accounts[3],
        x.accounts[4];
    :- Need(maker in x.signers, MissingRequiredSignature);
    :- Need(give != 0 && want != 0, InvalidInstructionData);
    :- Need(w.now < expiry, InvalidArgument);
    :- Need(IsTokenAccount(w, makerGive, giveMint, maker), InvalidArgument);
    :- RequireAlias(e, w, x, x.accounts[7]);
    var p :- Find(e.derive, ListingSeed(maker, nonce));
    :- Need(p.key == listing, InvalidSeeds);
    Ok([NewRecord(listing, SWAP_LEN),
        Approve(makerGive, listing, Signer(maker), give),
        Write(listing, ListingImage(Swap(maker, giveMint, give, wantMint, want, KeyAt(d, 88), KeyAt(d, 48), expiry,
            STATUS_OPEN, p.bump, nonce, mode, pct)))])
  }

  /** fill_listing (tag 27): taker | listing | maker | give_mint | want_mint | maker_give | taker_give | taker_want
      | maker_want | token_program | config | fee_ata | [give_token_program | metadata | creator accounts]. */
  function FillListing(e: Env, w: World, x: Ix): Plan {
    var d := x.data;
    :- Need(|d| == 48, InvalidInstructionData);
    var nonce, expectGive, maxWant := KeyAt(d, 0), U64At(d, 32), U64At(d, 40);
    :- Need(|x.accounts| >= 12, NotEnoughAccountKeys);
    var taker, listing, maker, giveMint, wantMint := x.accounts[0], x.accounts[1], x.accounts[2], x.accounts[3],
        x.accounts[4];
    var makerGive, takerGive, takerWant, makerWant, config, feeAccount :=
      x.accounts[5], x.accounts[6], x.accounts[7], x.accounts[8], x.accounts[10], x.accounts[11];
    :- Need(taker in x.signers, MissingRequiredSignature);
    :- Need(listing in w.records, IllegalOwner);
    var s :- LoadFillState(w, listing, giveMint, wantMint, taker);
    :- Need(s.giveAmount == expectGive, InvalidArgument);
    :- Need(maker == s.maker, InvalidArgument);
    :- Need(Create(e.derive, ListingSeed(s.maker, nonce), s.bump) == Some(listing), InvalidSeeds);
    :- Need(IsTokenAccount(w, makerGive, giveMint, s.maker), InvalidArgument);
    :- Need(IsTokenAccount(w, makerWant, wantMint, s.maker), InvalidArgument);
    :- Need(giveMint in e.mints && wantMint in e.mints, InvalidAccountData);
    :- Need(s.royaltyMode == ROYALTY_NONE || |x.accounts| >= 14, NotEnoughAccountKeys);
    var metadata := if s.royaltyMode == ROYALTY_NONE then None else Some(x.metadata);
    var creators := if s.royaltyMode == ROYALTY_NONE then [] else x.accounts[14..];
    var pay :- RoyaltyOps(e, w, config, takerWant, wantMint, feeAccount, makerWant, taker, s.wantAmount, maxWant,
        nonce[0],
                          s.royaltyMode, s.makerPct, metadata, creators);
    Ok(pay + [Transfer(makerGive, giveMint, takerGive, Seeded(listing, ListingSeed(s.maker, nonce), s.bump),
        s.giveAmount),
              Wipe(listing)])
  }

  /** cancel_listing (tag 28): maker | listing | give_mint | maker_give | token_program | config | fee_wallet
      | system. */
  function CancelListing(e: Env, w: World, x: Ix): Plan {
    if |x.data| != 32 then Err(InvalidInstructionData) else
    :- Need(|x.accounts| == 8, NotEnoughAccountKeys);
    var maker, listing, giveMint, makerGive := x.accounts[0], x.accounts[1], x.accounts[2], x.accounts[3];
    :- Need(maker in x.signers, MissingRequiredSignature);
    :- Need(listing in w.records, IllegalOwner);
    var b := w.records[listing];
    :- Need(|b| == SWAP_LEN && b[S_STATUS] == STATUS_OPEN, InvalidAccountData);
    var s := ReadSwap(b);
    :- Need(s.maker == maker, IllegalOwner);
    :- Need(s.giveMint == giveMint, InvalidArgument);
    :- Need(IsTokenAccount(w, makerGive, giveMint, maker), InvalidArgument);
    var p :- Find(e.derive, ListingSeed(maker, x.data));
    :- Need(p.key == listing, InvalidSeeds);
    :- DelistGate(e, w, x.accounts[5], x.accounts[6]);
    Ok([Revoke(makerGive, Signer(maker)), Wipe(listing)])
  }

  /** expire_listing (tag 29): caller | listing | maker. The delegation is left in place. */
  function ExpireListing(e: Env, w: World, x: Ix): Plan {
    if |x.data| != 32 then Err(InvalidInstructionData) else
    :- Need(|x.accounts| == 3, NotEnoughAccountKeys);
    var caller, listing, maker := x.accounts[0], x.accounts[1], x.accounts[2];
    :- Need(caller in x.signers, MissingRequiredSignature);
    :- Need(listing in w.records, IllegalOwner);
    var b := w.records[listing];
    :- Need(|b| == SWAP_LEN && b[S_STATUS] == STATUS_OPEN, InvalidAccountData);
    var s := ReadSwap(b);
    :- Need(s.expiry <= w.now, InvalidArgument);
    :- Need(maker == s.maker, InvalidArgument);
    var p :- Find(e.derive, ListingSeed(s.maker, x.data));
    :- Need(p.key == listing, InvalidSeeds);
    Ok([Wipe(listing)])
  }
}
