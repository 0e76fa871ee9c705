/** Escrowed price bids against an open swap (tags 4-7). */
module Offers {
  import opened Prelude
  import opened Bytes
  import opened Seeds
  import opened Layout
  import opened Ledger
  import opened FeeConfig
  import opened Payments
  import opened Swaps

  /** make_offer (tag 4): offerer | offer | ovault | want_mint | swap | offerer_want | token_program | system | config
      | alias.
      The goods the bid is for are copied from the live listing. */
  function MakeOffer(e: Env, w: World, x: Ix): Plan {
    var d := x.data;
    :- Need(|d| == 48, InvalidInstructionData);
    var nonce, want, expiry := KeyAt(d, 0), U64At(d, 32), I64At(d, 40);
    :- Need(|x.accounts| == 10, NotEnoughAccountKeys);
    var offerer, offer, ovault, wantMint, swap, offererWant :=
      x.accounts[0], x.accounts[1], x.accounts[2], x.accounts[3], x.accounts[4], x.accounts[5];
    :- Need(offerer in x.signers, MissingRequiredSignature);
    :- Need(swap in w.records, IllegalOwner);
    :- Need(want != 0, InvalidInstructionData);
    :- RequireAlias(e, w, x, x.accounts[8]);
    var b := w.records[swap];
    :- Need(|b| == SWAP_LEN && b[S_STATUS] == STATUS_OPEN, InvalidAccountData);
    var s := ReadSwap(b);
    :- Need(s.wantMint == wantMint, InvalidArgument);
    var o :- Find(e.derive, OfferSeed(offerer, nonce));
    :- Need(o.key == offer, InvalidSeeds);
    var v :- Find(e.derive, OVaultSeed(offerer, nonce));
    :- Need(v.key == ovault, InvalidSeeds);
    Ok([NewRecord(offer, OFFER_LEN),
        NewToken(ovault, wantMint, offer),
        Check(wantMint in e.mints, InvalidAccountData),
        Transfer(offererWant, wantMint, ovault, Signer(offerer), want),
        Write(offer, OfferImage(Offer(offerer, swap, wantMint, want, s.giveMint, s.giveAmount, expiry, STATUS_OPEN,
            o.bump, nonce)))])
  }

  /** The goods leave the swap's vault, then both vaults close. */
  function HandOver(svault: Key, mint: Key, dst: Key, amount: nat, swapAuth: Authority, ovault: Key,
      offerAuth: Authority): seq<Op> {
    [Transfer(svault, mint, dst, swapAuth, amount), CloseToken(ovault, offerAuth), CloseToken(svault, swapAuth)]
  }

  /** accept_offer (tag 5): maker | swap | swap_vault | offer | offer_vault | offerer | give_mint | want_mint
      | offerer_give | maker_want | token_program | config | fee_ata. */
  function AcceptOffer(e: Env, w: World, x: Ix): Plan {
    var d := x.data;
    :- Need(|d| == 64, InvalidInstructionData);
    var snonce, ononce := KeyAt(d, 0), KeyAt(d, 32);
    :- Need(|x.accounts| == 13, NotEnoughAccountKeys);
    var maker, swap, svault, offer, ovault, offerer := x.accounts[0], x.accounts[1], x.accounts[2], x.accounts[3],
        x.accounts[4], x.accounts[5];
    var giveMint, wantMint, offererGive, makerWant, config, feeAccount :=
      x.accounts[6], x.accounts[7], x.accounts[8], x.accounts[9], x.accounts[11], x.accounts[12];
    :- Need(maker in x.signers, MissingRequiredSignature);
    :- Need(swap in w.records && offer in w.records, IllegalOwner);
    var sb := w.records[swap];
    :- Need(|sb| == SWAP_LEN && sb[S_STATUS] == STATUS_OPEN, InvalidAccountData);
    var s := ReadSwap(sb);
    :- Need(s.maker == maker, IllegalOwner);
    :- Need(s.giveMint == giveMint && s.wantMint == wantMint, InvalidArgument);
    :- Need(w.now < s.expiry, InvalidArgument);
    var ob := w.records[offer];
    :- Need(|ob| == OFFER_LEN && ob[O_STATUS] == STATUS_OPEN, InvalidAccountData);
    var o := ReadOffer(ob);
    :- Need(o.swap == swap, InvalidArgument);
    :- Need(o.offerer == offerer && o.wantMint == wantMint, InvalidArgument);
    :- Need(w.now < o.expiry, InvalidArgument);
    :- Need(o.giveMint == giveMint && o.giveAmount == s.giveAmount, InvalidArgument);
    var sp :- Find(e.derive, SwapSeed(maker, snonce));
    var svp :- Find(e.derive, VaultSeed(maker, snonce));
    var op :- Find(e.derive, OfferSeed(offerer, ononce));
    var ovp :- Find(e.derive, OVaultSeed(offerer, ononce));
    :- Need(sp.key == swap && svp.key == svault && op.key == offer && ovp.key == ovault, InvalidSeeds);
    :- Need(IsTokenAccount(w, makerWant, wantMint, maker), InvalidArgument);
    :- Need(IsTokenAccount(w, offererGive, giveMint, offerer), InvalidArgument);
    :- Need(giveMint in e.mints && wantMint in e.mints, InvalidAccountData);
    var c :- ReadConfig(e, w, config);
    var offerAuth := Seeded(offer, OfferSeed(offerer, ononce), o.bump);
    var swapAuth := Seeded(swap, SwapSeed(maker, snonce), s.bump);
    Ok(PriceOps(e, w, c, ovault, wantMint, feeAccount, makerWant, offerAuth, o.wantAmount, snonce[0])
       + HandOver(svault, giveMint, offererGive, s.giveAmount, swapAuth, ovault, offerAuth)
       + [Wipe(offer), Wipe(swap)])
  }

  /** The refund `withdraw_offer` and `expire_offer` share. */
  function RefundBid(e: Env, w: World, offer: Key, ovault: Key, offerer: Key, wantMint: Key, offererWant: Key,
      nonce: Key, o: Offer): Plan {
    var op :- Find(e.derive, OfferSeed(offerer, nonce));
    var ovp :- Find(e.derive, OVaultSeed(offerer, nonce));
    :- Need(op.key == offer && ovp.key == ovault, InvalidSeeds);
    :- Need(IsTokenAccount(w, offererWant, wantMint, offerer), InvalidArgument);
    :- Need(wantMint in e.mints, InvalidAccountData);
    Ok(ReleaseOps(ovault, wantMint, offererWant, o.wantAmount, Seeded(offer, OfferSeed(offerer, nonce), o.bump))
        + [Wipe(offer)])
  }

  /** withdraw_offer (tag 6): offerer | offer | ovault | want_mint | offerer_want | token_program. */
  function WithdrawOffer(e: Env, w: World, x: Ix): Plan {
    if |x.data| != 32 then Err(InvalidInstructionData) else
    :- Need(|x.accounts| == 6, NotEnoughAccountKeys);
    var offerer, offer, ovault, wantMint, offererWant := x.accounts[0], x.accounts[1], x.accounts[2], x.accounts[3],
        x.accounts[4];
    :- Need(offerer in x.signers, MissingRequiredSignature);
    :- Need(offer in w.records, IllegalOwner);
    var b := w.records[offer];
    :- Need(|b| == OFFER_LEN && b[O_STATUS] == STATUS_OPEN, InvalidAccountData);
    var o := ReadOffer(b);
    :- Need(o.offerer == offerer, IllegalOwner);
    :- Need(o.wantMint == wantMint, InvalidArgument);
    RefundBid(e, w, offer, ovault, offerer, wantMint, offererWant, x.data, o)
  }

  /** expire_offer (tag 7): caller | offer | ovault | offerer | want_mint | offerer_want | token_program. */
  function ExpireOffer(e: Env, w: World, x: Ix): Plan {
    if |x.data| != 32 then Err(InvalidInstructionData) else
    :- Need(|x.accounts| == 7, NotEnoughAccountKeys);
    var offer, ovault, offerer, wantMint, offererWant := x.accounts[1], x.accounts[2], x.accounts[3], x.accounts[4],
        x.accounts[5];
    :- Need(offer in w.records, IllegalOwner);
    var b := w.records[offer];
    :- Need(|b| == OFFER_LEN && b[O_STATUS] == STATUS_OPEN, InvalidAccountData);
    var o := ReadOffer(b);
    :- Need(o.offerer == offerer, InvalidArgument);
    :- Need(o.wantMint == wantMint, InvalidArgument);
    :- Need(o.expiry <= w.now, InvalidArgument);
    RefundBid(e, w, offer, ovault, offerer, wantMint, offererWant, x.data, o)
  }
}
