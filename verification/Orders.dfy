/** Sealed signed orders and bids: nothing rests on chain but a spent-marker (tags 38 and 41). */
module Orders {
  import opened Prelude
  import opened Bytes
  import opened Seeds
  import opened Layout
  import opened Ledger
  import opened FeeConfig
  import opened Payments
  import opened SignedMessages

  /** The 90-byte payload of both handlers, with the mints the accounts name. */
  function DealOf(d: seq<byte>, giveMint: Key, wantMint: Key): Deal
    requires |d| == 90
  {
    Deal(giveMint, U64At(d, 0), wantMint, U64At(d, 8), KeyAt(d, 16), I64At(d, 48), KeyAt(d, 56), d[88], d[89])
  }

  /** `verify_ed25519_order`: the instruction just before is the native program's, in canonical form. */
  predicate ProvesSignature(x: Ix, signer: Key, message: seq<byte>) {
    x.signature.Some? && LayoutOk(x.signature.value, signer, message)
  }

  /** A later refusal of a plan computed up front. */
  function OrStop(p: Plan): seq<Op> {
    if p.Ok? then p.value else [Check(false, p.error)]
  }

  /** How `read_config` refuses the marker just created: for its address, or for its size. */
  function MarkerRefusal(e: Env, config: Key): Error {
    var pda := Find(e.derive, ConfigSeed);
    if pda.Ok? && pda.value.key == config then InvalidAccountData else InvalidSeeds
  }

  function NotTheMarker(e: Env, config: Key, marker: Key): Op {
    Check(config != marker, MarkerRefusal(e, config))
  }

  /** The give leaves the maker's own account, the payment lands in the maker's. */
  function OrderChecks(e: Env, w: World, x: Ix, t: Deal): (ops: seq<Op>)
    requires |x.accounts| >= 15
    ensures forall op :: op in ops ==> op.Check?
  {
    var a := x.accounts;
    [Check(IsTokenAccount(w, a[4], t.giveMint, a[1]), InvalidArgument),
     Check(IsTokenAccount(w, a[7], t.wantMint, a[1]), InvalidArgument),
     Check(t.giveMint in e.mints && t.wantMint in e.mints, InvalidAccountData),
     Check(t.royaltyMode == ROYALTY_NONE || |a| >= 17, NotEnoughAccountKeys),
     NotTheMarker(e, a[11], a[9])]
  }

  /** settle_signed_order (tag 38): taker | maker | give_mint | want_mint | maker_give | taker_give | taker_want
      | maker_want | order_auth | order_done | token_program | config | fee_ata | system | instructions
      | [give_token_program | metadata | creator accounts]. */
  function SettleSignedOrder(e: Env, w: World, x: Ix): Plan {
    var d := x.data;
    :- Need(|d| == 90, InvalidInstructionData);
    :- Need(d[88] <= ROYALTY_SPLIT && d[89] <= 100, InvalidInstructionData);
    :- Need(|x.accounts| >= 15, NotEnoughAccountKeys);
    var taker, maker, giveMint, wantMint, makerGive, takerGive := x.accounts[0], x.accounts[1], x.accounts[2],
        x.accounts[3], x.accounts[4], x.accounts[5];
    var takerWant, makerWant, orderAuth, orderDone, config, feeAccount :=
      x.accounts[6], x.accounts[7], x.accounts[8], x.accounts[9], x.accounts[11], x.accounts[12];
    var t := DealOf(d, giveMint, wantMint);
    :- Need(taker in x.signers, MissingRequiredSignature);
    :- Need(t.giveAmount != 0 && t.wantAmount != 0, InvalidInstructionData);
    :- Need(w.now < t.expiry, InvalidArgument);
    :- Need(t.taker == ZERO || t.taker == taker, InvalidArgument);
    :- Need(ProvesSignature(x, maker, OrderMessage(t)), InvalidArgument);
    var auth :- Find(e.derive, OrderSeed(maker));
    :- Need(auth.key == orderAuth, InvalidSeeds);
    var done :- Find(e.derive, DoneSeed(maker, t.nonce));
    :- Need(done.key == orderDone, InvalidSeeds);
    var metadata := if t.royaltyMode == ROYALTY_NONE then None else Some(x.metadata);
    var creators := if |x.accounts| > 17 then x.accounts[17..] else [];
    Ok([NewRecord(orderDone, MARKER_LEN)]
       + OrderChecks(e, w, x, t)
       + OrStop(RoyaltyOps(e, w, config, takerWant, wantMint, feeAccount, makerWant, taker, t.wantAmount, U64 - 1,
           t.nonce[0],
                           t.royaltyMode, t.makerPct, metadata, creators))
       + [Transfer(makerGive, giveMint, takerGive, Seeded(orderAuth, OrderSeed(maker), auth.bump), t.giveAmount)])
  }

  /** `pay_coins_via_delegate`: the bidder's coins pay the fee and the owner, under the order address. */
  function CoinsOps(e: Env, w: World, config: Key, src: Key, mint: Key, feeAccount: Key, owner: Key, auth: Authority,
      amount: nat, shardSeed: byte): Plan {
    var c :- ReadConfig(e, w, config);
    Ok(PriceOps(e, w, c, src, mint, feeAccount, owner, auth, amount, shardSeed))
  }

  /** Coins leave the bidder's account for the owner's, the asset leaves the owner's for the bidder's. */
  function BidChecks(e: Env, w: World, x: Ix, t: Deal): (ops: seq<Op>)
    requires |x.accounts| >= 15
    ensures forall op :: op in ops ==> op.Check?
  {
    var a := x.accounts;
    [Check(IsTokenAccount(w, a[4], t.giveMint, a[1]), InvalidArgument),
     Check(IsTokenAccount(w, a[5], t.giveMint, a[0]), InvalidArgument),
     Check(IsTokenAccount(w, a[13], t.wantMint, a[0]), InvalidArgument),
     Check(IsTokenAccount(w, a[14], t.wantMint, a[1]), InvalidArgument),
     Check(t.giveMint in e.mints && t.wantMint in e.mints, InvalidAccountData),
     NotTheMarker(e, a[7], a[10])]
  }

  /** settle_signed_bid_spl (tag 41): taker(owner) | maker(bidder) | coins_mint | nft_mint | maker_coins | owner_coins
      | coins_token_program | config | fee_ata | order_auth | order_done | system | instructions | owner_nft | maker_nft
      | nft_token_program. The first gates are `verify_bid_common`. */
  function SettleSignedBid(e: Env, w: World, x: Ix): Plan {
    var d := x.data;
    :- Need(|d| == 90, InvalidInstructionData);
    :- Need(|x.accounts| == 16, NotEnoughAccountKeys);
    var owner, bidder, coinsMint, nftMint, bidderCoins, ownerCoins := x.accounts[0], x.accounts[1], x.accounts[2],
        x.accounts[3], x.accounts[4], x.accounts[5];
    var config, feeAccount, orderAuth, orderDone, ownerNft, bidderNft :=
      x.accounts[7], x.accounts[8], x.accounts[9], x.accounts[10], x.accounts[13], x.accounts[14];
    var t := DealOf(d, coinsMint, nftMint);
    :- Need(owner in x.signers, MissingRequiredSignature);
    :- Need(t.giveAmount != 0 && t.wantAmount == 1, InvalidInstructionData);
    :- Need(t.royaltyMode == ROYALTY_NONE && t.makerPct == 0, InvalidInstructionData);
    :- Need(w.now < t.expiry, InvalidArgument);
    :- Need(t.taker == ZERO || t.taker == owner, InvalidArgument);
    :- Need(ProvesSignature(x, bidder, BidMessage(t)), InvalidArgument);
    var auth :- Find(e.derive, OrderSeed(bidder));
    :- Need(auth.key == orderAuth, InvalidSeeds);
    var done :- Find(e.derive, DoneSeed(bidder, t.nonce));
    :- Need(done.key == orderDone, InvalidSeeds);
    Ok([NewRecord(orderDone, MARKER_LEN)]
       + BidChecks(e, w, x, t)
       + OrStop(CoinsOps(e, w, config, bidderCoins, coinsMint, feeAccount, ownerCoins,
                         Seeded(orderAuth, OrderSeed(bidder), auth.bump), t.giveAmount, t.nonce[0]))
       + [Transfer(ownerNft, nftMint, bidderNft, Signer(owner), 1)])
  }
}
