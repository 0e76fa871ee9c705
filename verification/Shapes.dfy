/** What an accepted instruction looks like: the checks that held, and the effects that follow. */
module Shapes {
  import opened Prelude
  import opened Bytes
  import opened Seeds
  import opened Layout
  import opened Ledger
  import opened FeeConfig
  import opened Royalty
  import opened Payments
  import opened SignedMessages
  import Swaps
  import Offers
  import Baskets
  import Listings
  import Orders

  // ---- one-to-one swaps ----

  lemma OpenSwapShape(e: Env, x: Ix, w: World) returns (s: Swap)
    requires Swaps.OpenSwap(e, w, x).Ok?
    ensures |x.data| == 120 && |x.accounts| == 10
    ensures var a := x.accounts;
            && a[0] in x.signers
            && s == Swap(a[0], a[3], U64At(x.data, 32), a[4], U64At(x.data, 40), KeyAt(x.data, 88), KeyAt(x.data, 48),
                I64At(x.data, 80),
                         STATUS_OPEN, s.bump, KeyAt(x.data, 0), ROYALTY_NONE, 0)
            && s.giveAmount > 0 && s.wantAmount > 0 && w.now < s.expiry
            && Create(e.derive, SwapSeed(s.maker, s.nonce), s.bump) == Some(a[1])
            && Find(e.derive, VaultSeed(s.maker, s.nonce)).Ok? && a[2] == Address(e.derive, VaultSeed(s.maker, s.nonce))
            && Swaps.OpenSwap(e, w, x).value ==
               [NewRecord(a[1], SWAP_LEN), NewToken(a[2], s.giveMint, a[1]),
                   Check(s.giveMint in e.mints, InvalidAccountData),
                Transfer(a[5], s.giveMint, a[2], Signer(s.maker), s.giveAmount), Write(a[1], SwapImage(s))]
  {
    var d, a := x.data, x.accounts;
    s := Swap(a[0], a[3], U64At(d, 32), a[4], U64At(d, 40), KeyAt(d, 88), KeyAt(d, 48), I64At(d, 80), STATUS_OPEN,
              Find(e.derive, SwapSeed(a[0], KeyAt(d, 0))).value.bump, KeyAt(d, 0), ROYALTY_NONE, 0);
  }

  lemma FillShape(e: Env, x: Ix, w: World) returns (s: Swap, c: Config, nonce: Key)
    requires Swaps.Fill(e, w, x).Ok?
    ensures |x.data| == 48 && |x.accounts| >= 12 && x.accounts[0] in x.signers
    ensures x.accounts[1] in w.records && |w.records[x.accounts[1]]| == SWAP_LEN
        && s == ReadSwap(w.records[x.accounts[1]])
    ensures ReadConfig(e, w, x.accounts[10]) == Ok(c)
    ensures nonce == KeyAt(x.data, 0) && s.giveAmount == U64At(x.data, 32) && s.wantAmount <= U64At(x.data, 40)
    ensures var a := x.accounts;
            && a[3] == s.maker && a[4] == s.giveMint && a[5] == s.wantMint && w.now < s.expiry
            && (s.taker == ZERO || s.taker == a[0])
            && Create(e.derive, SwapSeed(s.maker, nonce), s.bump) == Some(a[1])
            && Find(e.derive, VaultSeed(s.maker, nonce)).Ok? && a[2] == Address(e.derive, VaultSeed(s.maker, nonce))
            && IsTokenAccount(w, a[8], s.wantMint, s.maker)
            && s.giveMint in e.mints && s.wantMint in e.mints
            && Swaps.Fill(e, w, x).value ==
               PriceOps(e, w, c, a[6], s.wantMint, a[11], a[8], Signer(a[0]), s.wantAmount, nonce[0])
               + Swaps.ReleaseOps(a[2], s.giveMint, a[7], s.giveAmount, Seeded(a[1], SwapSeed(s.maker, nonce), s.bump))
               + [Wipe(a[1])]
  {
    s, c, nonce := ReadSwap(w.records[x.accounts[1]]), ReadConfig(e, w, x.accounts[10]).value, KeyAt(x.data, 0);
  }

  /** Both refunds send the whole give-leg to an account of the maker. */
  ghost predicate Refunds(e: Env, w: World, plan: Plan, s: Swap, nonce: Key, swap: Key, vault: Key, makerGive: Key) {
    && swap in w.records && |w.records[swap]| == SWAP_LEN && s == ReadSwap(w.records[swap])
    && Create(e.derive, SwapSeed(s.maker, nonce), s.bump) == Some(swap)
    && Find(e.derive, VaultSeed(s.maker, nonce)).Ok? && vault == Address(e.derive, VaultSeed(s.maker, nonce))
    && IsTokenAccount(w, makerGive, s.giveMint, s.maker)
    && s.giveMint in e.mints
    && plan == Ok(Swaps.ReleaseOps(vault, s.giveMint, makerGive, s.giveAmount,
        Seeded(swap, SwapSeed(s.maker, nonce), s.bump)) + [Wipe(swap)])
  }

  lemma CancelSwapShape(e: Env, x: Ix, w: World) returns (s: Swap)
    requires Swaps.CancelSwap(e, w, x).Ok?
    ensures |x.data| == 32 && |x.accounts| == 9 && x.accounts[0] in x.signers && s.maker == x.accounts[0]
    ensures Refunds(e, w, Swaps.CancelSwap(e, w, x), s, x.data, x.accounts[1], x.accounts[2], x.accounts[4])
  {
    s := ReadSwap(w.records[x.accounts[1]]);
  }

  lemma ExpireShape(e: Env, x: Ix, w: World) returns (s: Swap)
    requires Swaps.Expire(e, w, x).Ok?
    ensures |x.data| == 32 && |x.accounts| == 7 && s.expiry <= w.now && s.maker == x.accounts[3]
    ensures Refunds(e, w, Swaps.Expire(e, w, x), s, x.data, x.accounts[1], x.accounts[2], x.accounts[5])
  {
    s := ReadSwap(w.records[x.accounts[1]]);
  }

  // ---- bids ----

  lemma MakeOfferShape(e: Env, x: Ix, w: World) returns (o: Offer, s: Swap)
    requires Offers.MakeOffer(e, w, x).Ok?
    ensures |x.data| == 48 && |x.accounts| == 10
    ensures x.accounts[4] in w.records && |w.records[x.accounts[4]]| == SWAP_LEN
        && s == ReadSwap(w.records[x.accounts[4]])
    ensures var a := x.accounts;
            && a[0] in x.signers
            && o == Offer(a[0], a[4], a[3], U64At(x.data, 32), s.giveMint, s.giveAmount, I64At(x.data, 40),
                STATUS_OPEN, o.bump, KeyAt(x.data, 0))
            && s.wantMint == a[3] && o.wantAmount > 0
            && Create(e.derive, OfferSeed(o.offerer, o.nonce), o.bump) == Some(a[1])
            && Find(e.derive, OVaultSeed(o.offerer, o.nonce)).Ok?
                && a[2] == Address(e.derive, OVaultSeed(o.offerer, o.nonce))
            && Offers.MakeOffer(e, w, x).value ==
               [NewRecord(a[1], OFFER_LEN), NewToken(a[2], o.wantMint, a[1]),
                   Check(o.wantMint in e.mints, InvalidAccountData),
                Transfer(a[5], o.wantMint, a[2], Signer(o.offerer), o.wantAmount), Write(a[1], OfferImage(o))]
  {
    var d, a := x.data, x.accounts;
    s := ReadSwap(w.records[a[4]]);
    o := Offer(a[0], a[4], a[3], U64At(d, 32), s.giveMint, s.giveAmount, I64At(d, 40), STATUS_OPEN,
               Find(e.derive, OfferSeed(a[0], KeyAt(d, 0))).value.bump, KeyAt(d, 0));
  }

  lemma AcceptOfferShape(e: Env, x: Ix, w: World) returns (s: Swap, o: Offer, c: Config, sn: Key, on: Key)
    requires Offers.AcceptOffer(e, w, x).Ok?
    ensures |x.data| == 64 && |x.accounts| == 13 && x.accounts[0] in x.signers && sn == KeyAt(x.data, 0)
        && on == KeyAt(x.data, 32)
    ensures x.accounts[1] in w.records && |w.records[x.accounts[1]]| == SWAP_LEN
        && s == ReadSwap(w.records[x.accounts[1]])
    ensures x.accounts[3] in w.records && |w.records[x.accounts[3]]| == OFFER_LEN
        && o == ReadOffer(w.records[x.accounts[3]])
    ensures ReadConfig(e, w, x.accounts[11]) == Ok(c)
    ensures var a := x.accounts;
            && s.maker == a[0] && o.offerer == a[5] && o.swap == a[1]
            && s.giveMint == a[6] == o.giveMint && s.wantMint == a[7] == o.wantMint && s.giveAmount == o.giveAmount
            && w.now < s.expiry && w.now < o.expiry
            && a[1] == Address(e.derive, SwapSeed(s.maker, sn)) && a[2] == Address(e.derive, VaultSeed(s.maker, sn))
            && a[3] == Address(e.derive, OfferSeed(o.offerer, on))
                && a[4] == Address(e.derive, OVaultSeed(o.offerer, on))
            && Find(e.derive, SwapSeed(s.maker, sn)).Ok? && Find(e.derive, OfferSeed(o.offerer, on)).Ok?
            && Find(e.derive, VaultSeed(s.maker, sn)).Ok? && Find(e.derive, OVaultSeed(o.offerer, on)).Ok?
            && IsTokenAccount(w, a[9], s.wantMint, s.maker) && IsTokenAccount(w, a[8], s.giveMint, o.offerer)
            && s.giveMint in e.mints && s.wantMint in e.mints
            && var offerAuth, swapAuth := Seeded(a[3], OfferSeed(o.offerer, on), o.bump),
                Seeded(a[1], SwapSeed(s.maker, sn), s.bump);
            && Offers.AcceptOffer(e, w, x).value ==
               PriceOps(e, w, c, a[4], s.wantMint, a[12], a[9], offerAuth, o.wantAmount, sn[0])
               + Offers.HandOver(a[2], s.giveMint, a[8], s.giveAmount, swapAuth, a[4], offerAuth)
               + [Wipe(a[3]), Wipe(a[1])]
  {
    var a := x.accounts;
    s, o, c := ReadSwap(w.records[a[1]]), ReadOffer(w.records[a[3]]), ReadConfig(e, w, a[11]).value;
    sn, on := KeyAt(x.data, 0), KeyAt(x.data, 32);
  }

  /** Both bid refunds send the whole bid to an account of the bidder. */
  ghost predicate RefundsBid(e: Env, w: World, plan: Plan, o: Offer, nonce: Key, offer: Key, ovault: Key,
      offererWant: Key) {
    && offer in w.records && |w.records[offer]| == OFFER_LEN && o == ReadOffer(w.records[offer])
    && offer == Address(e.derive, OfferSeed(o.offerer, nonce)) && Find(e.derive, OfferSeed(o.offerer, nonce)).Ok?
    && Find(e.derive, OVaultSeed(o.offerer, nonce)).Ok? && ovault == Address(e.derive, OVaultSeed(o.offerer, nonce))
    && IsTokenAccount(w, offererWant, o.wantMint, o.offerer)
    && o.wantMint in e.mints
    && plan == Ok(Swaps.ReleaseOps(ovault, o.wantMint, offererWant, o.wantAmount,
        Seeded(offer, OfferSeed(o.offerer, nonce), o.bump)) + [Wipe(offer)])
  }

  lemma WithdrawOfferShape(e: Env, x: Ix, w: World) returns (o: Offer)
    requires Offers.WithdrawOffer(e, w, x).Ok?
    ensures |x.data| == 32 && |x.accounts| == 6 && x.accounts[0] in x.signers && o.offerer == x.accounts[0]
    ensures RefundsBid(e, w, Offers.WithdrawOffer(e, w, x), o, x.data, x.accounts[1], x.accounts[2], x.accounts[4])
  {
    o := ReadOffer(w.records[x.accounts[1]]);
  }

  lemma ExpireOfferShape(e: Env, x: Ix, w: World) returns (o: Offer)
    requires Offers.ExpireOffer(e, w, x).Ok?
    ensures |x.data| == 32 && |x.accounts| == 7 && o.expiry <= w.now && o.offerer == x.accounts[3]
    ensures RefundsBid(e, w, Offers.ExpireOffer(e, w, x), o, x.data, x.accounts[1], x.accounts[2], x.accounts[5])
  {
    o := ReadOffer(w.records[x.accounts[1]]);
  }

  // ---- fee policy ----

  lemma InitConfigShape(e: Env, x: Ix, w: World) returns (p: Pda)
    requires InitConfig(e, w, x).Ok?
    ensures |x.data| == 75 && |x.accounts| == 3 && x.accounts[0] in x.signers && U16At(x.data, 32) <= BPS_DENOM
    ensures Find(e.derive, ConfigSeed) == Ok(p) && p.key == x.accounts[1]
    ensures InitConfig(e, w, x).value == [NewRecord(p.key, CONFIG_LEN),
        Write(p.key, ConfigImage(x.accounts[0], x.data, p.bump))]
  {
    p := Find(e.derive, ConfigSeed).value;
  }

  lemma UpdateConfigShape(e: Env, x: Ix, w: World) returns (p: Pda)
    requires UpdateConfig(e, w, x).Ok?
    ensures |x.data| == 75 && |x.accounts| == 2 && x.accounts[0] in x.signers && U16At(x.data, 32) <= BPS_DENOM
    ensures Find(e.derive, ConfigSeed) == Ok(p) && p.key == x.accounts[1] && p.key in w.records
    ensures |w.records[p.key]| == CONFIG_LEN && KeyAt(w.records[p.key], C_ADMIN) == x.accounts[0]
    ensures UpdateConfig(e, w, x).value == [Write(p.key, PolicyPut(w.records[p.key], x.data))]
  {
    p := Find(e.derive, ConfigSeed).value;
  }

  lemma InitFeeVaultShape(e: Env, x: Ix, w: World) returns (p: Pda, cfg: Pda)
    requires InitFeeVault(e, w, x).Ok?
    ensures |x.data| == 1 && |x.accounts| == 5
    ensures Find(e.derive, FeeVaultSeed(x.accounts[2], x.data[0])) == Ok(p) && Find(e.derive, ConfigSeed) == Ok(cfg)
    ensures InitFeeVault(e, w, x).value == [NewToken(p.key, x.accounts[2], cfg.key)]
  {
    p, cfg := Find(e.derive, FeeVaultSeed(x.accounts[2], x.data[0])).value, Find(e.derive, ConfigSeed).value;
  }

  lemma SweepFeesShape(e: Env, x: Ix, w: World) returns (vault: Key, mint: Key, dest: Key, cfg: Pda)
    requires SweepFees(e, w, x).Ok?
    ensures |x.data| == 1 && |x.accounts| == 6 && vault == x.accounts[1] && mint == x.accounts[2]
        && dest == x.accounts[4]
    ensures Find(e.derive, FeeVaultSeed(mint, x.data[0])).Ok?
        && vault == Address(e.derive, FeeVaultSeed(mint, x.data[0]))
    ensures Find(e.derive, ConfigSeed) == Ok(cfg) && cfg.key in w.records && |w.records[cfg.key]| == CONFIG_LEN
    ensures vault in w.tokens && IsTokenAccount(w, dest, mint, KeyAt(w.records[cfg.key], C_FEE_WALLET))
    ensures SweepFees(e, w, x).value ==
            if w.tokens[vault].amount == 0 then [] else
            [Transfer(vault, mint, dest, Seeded(cfg.key, ConfigSeed, cfg.bump), w.tokens[vault].amount)]
  {
    vault, mint, dest, cfg := x.accounts[1], x.accounts[2], x.accounts[4], Find(e.derive, ConfigSeed).value;
  }

  // ---- baskets ----

  lemma OpenBasketShape(e: Env, x: Ix, w: World) returns (k: Basket, b: seq<byte>)
    requires Baskets.OpenBasket(e, w, x).Ok?
    ensures Baskets.PayloadFits(x.data) && |x.accounts| == 6 + x.data[32] * 3
    ensures var a := x.accounts;
            && a[0] in x.signers && k == Baskets.HeaderOf(x.data, a[0], k.bump)
            && (k.authMode == AUTH_NORMAL || k.authMode == AUTH_BEARER)
            && (k.authMode == AUTH_BEARER ==> k.wantCount == 0 && k.claimAuth != ZERO)
            && w.now < k.expiry
            && Create(e.derive, BasketSeed(k.maker, k.nonce), k.bump) == Some(a[1])
            && b == Baskets.WithWants(HeaderImage(k), x.data, 0)
            && Baskets.OpenBasket(e, w, x).value ==
               [NewRecord(a[1], BASKET_LEN)] + Baskets.WantChecks(x.data, 0) + [Write(a[1], b)]
                   + Baskets.LockOps(e, x, a[1], b, 0)
  {
    var d, a := x.data, x.accounts;
    k := Baskets.HeaderOf(d, a[0], Find(e.derive, BasketSeed(a[0], KeyAt(d, 0))).value.bump);
    b := Baskets.WithWants(HeaderImage(k), d, 0);
  }

  /** The record a basket settle acts on, and its own signing authority. */
  ghost predicate Settles(e: Env, w: World, basket: Key, nonce: Key, k: Basket, auth: Authority) {
    && basket in w.records && |w.records[basket]| == BASKET_LEN && k == ReadBasket(w.records[basket])
    && k.status == STATUS_OPEN
    && Create(e.derive, BasketSeed(k.maker, nonce), k.bump) == Some(basket)
    && auth == Seeded(basket, BasketSeed(k.maker, nonce), k.bump)
  }

  lemma FillBasketShape(e: Env, x: Ix, w: World) returns (k: Basket, c: Config, auth: Authority)
    requires Baskets.FillBasket(e, w, x).Ok?
    ensures |x.data| == 32 && |x.accounts| >= 5 && x.accounts[0] in x.signers
    ensures Settles(e, w, x.accounts[1], x.data, k, auth) && ReadConfig(e, w, x.accounts[4]) == Ok(c)
    ensures k.authMode == AUTH_NORMAL && w.now < k.expiry && k.maker == x.accounts[2] && k.wantCount > 0
    ensures k.taker == ZERO || k.taker == x.accounts[0]
    ensures |x.accounts| == 5 + k.giveCount * 3 + k.wantCount * 4
    ensures var b := w.records[x.accounts[1]];
            Baskets.FillBasket(e, w, x).value ==
            Baskets.PayOps(e, w, x, c, b, x.data, 0) + Baskets.UnlockOps(e, w, x, b, x.data, 5, auth, None, 0)
                + [Wipe(x.accounts[1])]
  {
    k, c := ReadBasket(w.records[x.accounts[1]]), ReadConfig(e, w, x.accounts[4]).value;
    auth := Seeded(x.accounts[1], BasketSeed(k.maker, x.data), k.bump);
  }

  lemma ClaimBearerShape(e: Env, x: Ix, w: World) returns (k: Basket, auth: Authority)
    requires Baskets.ClaimBearer(e, w, x).Ok?
    ensures |x.data| == 32 && |x.accounts| >= 5 && x.accounts[1] in x.signers
    ensures Settles(e, w, x.accounts[2], x.data, k, auth)
    ensures k.authMode == AUTH_BEARER && e.hash(x.accounts[1]) == k.claimAuth && k.maker == x.accounts[3]
    ensures |x.accounts| == 5 + k.giveCount * 3
    ensures Baskets.ClaimBearer(e, w, x).value ==
            Baskets.UnlockOps(e, w, x, w.records[x.accounts[2]], x.data, 5, auth, None, 0) + [Wipe(x.accounts[2])]
  {
    k := ReadBasket(w.records[x.accounts[2]]);
    auth := Seeded(x.accounts[2], BasketSeed(k.maker, x.data), k.bump);
  }

  lemma RewrapShape(e: Env, x: Ix, w: World) returns (k: Basket)
    requires Baskets.Rewrap(e, w, x).Ok?
    ensures |x.data| == 64 && |x.accounts| == 2 && x.accounts[0] in x.signers
    ensures x.accounts[1] in w.records && |w.records[x.accounts[1]]| == BASKET_LEN
        && k == ReadBasket(w.records[x.accounts[1]])
    ensures k.authMode == AUTH_BEARER && e.hash(x.accounts[0]) == k.claimAuth && KeyAt(x.data, 32) != ZERO
    ensures Find(e.derive, BasketSeed(k.maker, KeyAt(x.data, 0))).Ok?
        && x.accounts[1] == Address(e.derive, BasketSeed(k.maker, KeyAt(x.data, 0)))
    ensures Baskets.Rewrap(e, w, x).value == [Write(x.accounts[1],
        PutClaim(w.records[x.accounts[1]], KeyAt(x.data, 32)))]
  {
    k := ReadBasket(w.records[x.accounts[1]]);
  }

  lemma CancelBasketShape(e: Env, x: Ix, w: World) returns (k: Basket, auth: Authority)
    requires Baskets.CancelBasket(e, w, x).Ok?
    ensures |x.data| == 32 && |x.accounts| >= 6 && x.accounts[0] in x.signers
    ensures Settles(e, w, x.accounts[1], x.data, k, auth)
    ensures k.authMode != AUTH_BEARER && k.maker == x.accounts[0]
    ensures |x.accounts| == 6 + k.giveCount * 3
    ensures Baskets.CancelBasket(e, w, x).value ==
            Baskets.UnlockOps(e, w, x, w.records[x.accounts[1]], x.data, 6, auth, Some(k.maker), 0)
                + [Wipe(x.accounts[1])]
  {
    k := ReadBasket(w.records[x.accounts[1]]);
    auth := Seeded(x.accounts[1], BasketSeed(k.maker, x.data), k.bump);
  }

  lemma ExpireBasketShape(e: Env, x: Ix, w: World) returns (k: Basket, auth: Authority)
    requires Baskets.ExpireBasket(e, w, x).Ok?
    ensures |x.data| == 32 && |x.accounts| >= 4
    ensures Settles(e, w, x.accounts[1], x.data, k, auth)
    ensures k.authMode != AUTH_BEARER && k.maker == x.accounts[2] && k.expiry <= w.now
    ensures |x.accounts| == 4 + k.giveCount * 3
    ensures Baskets.ExpireBasket(e, w, x).value ==
            Baskets.UnlockOps(e, w, x, w.records[x.accounts[1]], x.data, 4, auth, Some(k.maker), 0)
                + [Wipe(x.accounts[1])]
  {
    k := ReadBasket(w.records[x.accounts[1]]);
    auth := Seeded(x.accounts[1], BasketSeed(k.maker, x.data), k.bump);
  }

  // ---- royalty ----

  lemma BillPayable(metadata: Option<MetadataAccount>, mode: byte, pct: byte, want: nat, bill: RoyaltyBill)
    requires Bill(metadata, mode, pct, want) == Ok(bill)
    ensures bill.royalty > 0 ==> mode != ROYALTY_NONE && PercentSum(Percentages(bill.shares)) == 100
  {
    hide PercentSum, MakerShare, Bps, RoyaltyTerms;
  }

  lemma RoyaltyShape(e: Env, w: World, config: Key, src: Key, mint: Key, feeAccount: Key, maker: Key, taker: Key,
                     want: nat, maxWant: nat, shardSeed: byte, mode: byte, pct: byte,
                         metadata: Option<MetadataAccount>, creators: seq<Key>)
    returns (c: Config, bill: RoyaltyBill)
    requires RoyaltyOps(e, w, config, src, mint, feeAccount, maker, taker, want, maxWant, shardSeed, mode, pct,
        metadata, creators).Ok?
    ensures ReadConfig(e, w, config) == Ok(c) && Bill(metadata, mode, pct, want) == Ok(bill)
    ensures Bps(want, c.feeBps) + bill.makerShare <= want && want + Minus(bill.royalty, bill.makerShare) <= maxWant
    ensures mode != ROYALTY_NONE ==> |creators| == |bill.shares| && CreatorsMatch(w, mint, bill.shares, creators)
    ensures Payable(bill, creators)
    ensures RoyaltyOps(e, w, config, src, mint, feeAccount, maker, taker, want, maxWant, shardSeed, mode, pct,
        metadata, creators).value ==
            FeeLeg(e, w, c, src, mint, feeAccount, Signer(taker), want, shardSeed)
            + [Transfer(src, mint, maker, Signer(taker), want - Bps(want, c.feeBps) - bill.makerShare)]
            + RoyaltyLeg(src, mint, Signer(taker), bill, creators)
  {
    hide Bill, ReadConfig, CreatorsMatch, FeeLeg, RoyaltyLeg, Bps, PercentSum;
    c, bill := ReadConfig(e, w, config).value, Bill(metadata, mode, pct, want).value;
    BillPayable(metadata, mode, pct, want, bill);
  }

  // ---- listings ----

  lemma ListShape(e: Env, x: Ix, w: World) returns (s: Swap)
    requires Listings.List(e, w, x).Ok?
    ensures |x.data| == 122 && |x.accounts| == 9
    ensures var a := x.accounts;
            && a[0] in x.signers
            && s == Swap(a[0], a[2], U64At(x.data, 32), a[3], U64At(x.data, 40), KeyAt(x.data, 88), KeyAt(x.data, 48),
                I64At(x.data, 80),
                         STATUS_OPEN, s.bump, KeyAt(x.data, 0), x.data[120], x.data[121])
            && s.royaltyMode <= ROYALTY_SPLIT && s.makerPct <= 100 && w.now < s.expiry && s.giveAmount > 0
                && s.wantAmount > 0
            && Create(e.derive, ListingSeed(s.maker, s.nonce), s.bump) == Some(a[1])
            && IsTokenAccount(w, a[4], s.giveMint, s.maker)
            && Listings.List(e, w, x).value ==
               [NewRecord(a[1], SWAP_LEN), Approve(a[4], a[1], Signer(s.maker), s.giveAmount),
                   Write(a[1], ListingImage(s))]
  {
    var d, a := x.data, x.accounts;
    s := Swap(a[0], a[2], U64At(d, 32), a[3], U64At(d, 40), KeyAt(d, 88), KeyAt(d, 48), I64At(d, 80), STATUS_OPEN,
              Find(e.derive, ListingSeed(a[0], KeyAt(d, 0))).value.bump, KeyAt(d, 0), d[120], d[121]);
  }

  /** The royalty inputs of a fill: the listing's stance, and what the taker presents for it. */
  function ListingRoyalty(e: Env, w: World, x: Ix, s: Swap): Plan
    requires |x.data| == 48 && |x.accounts| >= 12 && (s.royaltyMode != ROYALTY_NONE ==> |x.accounts| >= 14)
  {
    var a, none := x.accounts, s.royaltyMode == ROYALTY_NONE;
    RoyaltyOps(e, w, a[10], a[7], s.wantMint, a[11], a[8], a[0], s.wantAmount, U64At(x.data, 40), x.data[0],
        s.royaltyMode, s.makerPct,
               if none then None else Some(x.metadata), if none then [] else a[14..])
  }

  lemma FillListingShape(e: Env, x: Ix, w: World) returns (s: Swap, nonce: Key)
    requires Listings.FillListing(e, w, x).Ok?
    ensures |x.data| == 48 && |x.accounts| >= 12 && x.accounts[0] in x.signers && nonce == KeyAt(x.data, 0)
    ensures x.accounts[1] in w.records && |w.records[x.accounts[1]]| == SWAP_LEN
        && s == ReadSwap(w.records[x.accounts[1]])
    ensures s.royaltyMode != ROYALTY_NONE ==> |x.accounts| >= 14
    ensures ListingRoyalty(e, w, x, s).Ok?
    ensures var a := x.accounts;
            && a[2] == s.maker && a[3] == s.giveMint && a[4] == s.wantMint && w.now < s.expiry
                && (s.taker == ZERO || s.taker == a[0])
            && s.giveAmount == U64At(x.data, 32)
            && Create(e.derive, ListingSeed(s.maker, nonce), s.bump) == Some(a[1])
            && IsTokenAccount(w, a[5], s.giveMint, s.maker) && IsTokenAccount(w, a[8], s.wantMint, s.maker)
            && Listings.FillListing(e, w, x).value ==
               ListingRoyalty(e, w, x, s).value
               + [Transfer(a[5], s.giveMint, a[6], Seeded(a[1], ListingSeed(s.maker, nonce), s.bump), s.giveAmount),
                   Wipe(a[1])]
  {
    s, nonce := ReadSwap(w.records[x.accounts[1]]), KeyAt(x.data, 0);
  }

  lemma CancelListingShape(e: Env, x: Ix, w: World) returns (s: Swap)
    requires Listings.CancelListing(e, w, x).Ok?
    ensures |x.data| == 32 && |x.accounts| == 8 && x.accounts[0] in x.signers
    ensures x.accounts[1] in w.records && |w.records[x.accounts[1]]| == SWAP_LEN
        && s == ReadSwap(w.records[x.accounts[1]])
    ensures s.maker == x.accounts[0] && Find(e.derive, ListingSeed(s.maker, x.data)).Ok?
        && x.accounts[1] == Address(e.derive, ListingSeed(s.maker, x.data))
    ensures Listings.CancelListing(e, w, x).value == [Revoke(x.accounts[3], Signer(s.maker)), Wipe(x.accounts[1])]
  {
    s := ReadSwap(w.records[x.accounts[1]]);
  }

  lemma ExpireListingShape(e: Env, x: Ix, w: World) returns (s: Swap)
    requires Listings.ExpireListing(e, w, x).Ok?
    ensures |x.data| == 32 && |x.accounts| == 3
    ensures x.accounts[1] in w.records && |w.records[x.accounts[1]]| == SWAP_LEN
        && s == ReadSwap(w.records[x.accounts[1]])
    ensures s.expiry <= w.now && Find(e.derive, ListingSeed(s.maker, x.data)).Ok?
        && x.accounts[1] == Address(e.derive, ListingSeed(s.maker, x.data))
    ensures Listings.ExpireListing(e, w, x).value == [Wipe(x.accounts[1])]
  {
    s := ReadSwap(w.records[x.accounts[1]]);
  }

  // ---- signed orders and bids ----

  function OrderRoyalty(e: Env, w: World, x: Ix, t: Deal): Plan
    requires |x.accounts| >= 15
  {
    var a := x.accounts;
    RoyaltyOps(e, w, a[11], a[6], t.wantMint, a[12], a[7], a[0], t.wantAmount, U64 - 1, t.nonce[0], t.royaltyMode,
        t.makerPct,
               if t.royaltyMode == ROYALTY_NONE then None else Some(x.metadata), if |a| > 17 then a[17..] else [])
  }

  lemma SettleOrderShape(e: Env, x: Ix, w: World) returns (t: Deal, auth: Pda, done: Pda)
    requires Orders.SettleSignedOrder(e, w, x).Ok?
    ensures |x.data| == 90 && |x.accounts| >= 15 && x.accounts[0] in x.signers
        && t == Orders.DealOf(x.data, x.accounts[2], x.accounts[3])
    ensures var a := x.accounts;
            && Orders.ProvesSignature(x, a[1], OrderMessage(t)) && w.now < t.expiry
                && (t.taker == ZERO || t.taker == a[0])
            && t.royaltyMode <= ROYALTY_SPLIT && t.makerPct <= 100
            && Find(e.derive, OrderSeed(a[1])) == Ok(auth) && auth.key == a[8]
            && Find(e.derive, DoneSeed(a[1], t.nonce)) == Ok(done) && done.key == a[9]
            && Orders.SettleSignedOrder(e, w, x).value ==
               [NewRecord(done.key, MARKER_LEN)]
               + Orders.OrderChecks(e, w, x, t)
               + Orders.OrStop(OrderRoyalty(e, w, x, t))
               + [Transfer(a[4], t.giveMint, a[5], Seeded(auth.key, OrderSeed(a[1]), auth.bump), t.giveAmount)]
  {
    var a := x.accounts;
    t := Orders.DealOf(x.data, a[2], a[3]);
    auth, done := Find(e.derive, OrderSeed(a[1])).value, Find(e.derive, DoneSeed(a[1], t.nonce)).value;
  }

  lemma SettleBidShape(e: Env, x: Ix, w: World) returns (t: Deal, auth: Pda, done: Pda)
    requires Orders.SettleSignedBid(e, w, x).Ok?
    ensures |x.data| == 90 && |x.accounts| == 16 && x.accounts[0] in x.signers
        && t == Orders.DealOf(x.data, x.accounts[2], x.accounts[3])
    ensures var a := x.accounts;
            && Orders.ProvesSignature(x, a[1], BidMessage(t)) && w.now < t.expiry
                && (t.taker == ZERO || t.taker == a[0]) && t.wantAmount == 1
            && Find(e.derive, OrderSeed(a[1])) == Ok(auth) && auth.key == a[9]
            && Find(e.derive, DoneSeed(a[1], t.nonce)) == Ok(done) && done.key == a[10]
            && Orders.SettleSignedBid(e, w, x).value ==
               [NewRecord(done.key, MARKER_LEN)]
               + Orders.BidChecks(e, w, x, t)
               + Orders.OrStop(Orders.CoinsOps(e, w, a[7], a[4], t.giveMint, a[8], a[5],
                   Seeded(auth.key, OrderSeed(a[1]), auth.bump), t.giveAmount, t.nonce[0]))
               + [Transfer(a[13], t.wantMint, a[14], Signer(a[0]), 1)]
  {
    var a := x.accounts;
    t := Orders.DealOf(x.data, a[2], a[3]);
    auth, done := Find(e.derive, OrderSeed(a[1])).value, Find(e.derive, DoneSeed(a[1], t.nonce)).value;
  }
}
