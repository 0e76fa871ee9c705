/** Whose authority an instruction uses: beside signers, listings, orders and the config, only that of the escrow
    records it ends. So no other escrow is touched. */
module Authorities {
  import opened Prelude
  import opened Bytes
  import opened Seeds
  import opened Layout
  import opened Ledger
  import opened FeeConfig
  import opened Payments
  import opened SignedMessages
  import opened Machine
  import opened Shapes
  import opened Invariant
  import opened Lifecycle
  import Swaps
  import Offers
  import Baskets
  import Listings
  import Orders

  predicate HasAuthority(op: Op) {
    op.Transfer? || op.CloseToken? || op.Approve? || op.Revoke?
  }

  /** Every authority used is a signer's, a listing's, an order's or the config's, or that of a record that ends. */
  predicate ActsForEndings(tag: byte, x: Ix, ops: seq<Op>) {
    forall op :: op in ops && HasAuthority(op) ==>
        op.auth.key in x.signers || op.auth.key in Ends(tag, x)
        || (op.auth.Seeded? && (op.auth.seed.ListingSeed? || op.auth.seed.OrderSeed? || op.auth.seed.ConfigSeed?))
  }

  lemma ConfinedActs(tag: byte, x: Ix, ops: seq<Op>, auths: set<Key>, records: set<Key>)
    requires AllConfined(ops, auths, records) && forall k :: k in auths ==> k in x.signers || k in Ends(tag, x)
    ensures ActsForEndings(tag, x, ops)
  {
    forall op | op in ops && HasAuthority(op)
      ensures op.auth.key in auths
    {
      assert Confined(op, auths, records);
    }
  }

  lemma BothAct(tag: byte, x: Ix, a: seq<Op>, b: seq<Op>)
    requires ActsForEndings(tag, x, a) && ActsForEndings(tag, x, b)
    ensures ActsForEndings(tag, x, a + b)
  {
  }

  lemma ReleaseActs(tag: byte, x: Ix, vault: Key, mint: Key, dst: Key, amount: nat, auth: Authority, k: Key)
    requires auth.key in Ends(tag, x)
    ensures ActsForEndings(tag, x, Swaps.ReleaseOps(vault, mint, dst, amount, auth) + [Wipe(k)])
  {
    hide Ends;
  }

  lemma PriceActs(e: Env, w: World, tag: byte, x: Ix, c: Config, src: Key, mint: Key, feeAccount: Key, payee: Key,
      auth: Authority, amount: nat, shardSeed: byte)
    requires auth.key in x.signers || auth.key in Ends(tag, x)
    ensures ActsForEndings(tag, x, PriceOps(e, w, c, src, mint, feeAccount, payee, auth, amount, shardSeed))
  {
    hide PriceOps;
    PriceConfined(e, w, c, src, mint, feeAccount, payee, auth, amount, shardSeed);
    ConfinedActs(tag, x, PriceOps(e, w, c, src, mint, feeAccount, payee, auth, amount, shardSeed), {auth.key}, {});
  }

  lemma OpenSwapActs(e: Env, w: World, x: Ix)
    requires Swaps.OpenSwap(e, w, x).Ok?
    ensures ActsForEndings(0, x, Swaps.OpenSwap(e, w, x).value)
  {
    hide Swaps.OpenSwap, SwapImage;
    var s := OpenSwapShape(e, x, w);
  }

  lemma MakeOfferActs(e: Env, w: World, x: Ix)
    requires Offers.MakeOffer(e, w, x).Ok?
    ensures ActsForEndings(4, x, Offers.MakeOffer(e, w, x).value)
  {
    hide Offers.MakeOffer, OfferImage, ReadSwap;
    var o, s := MakeOfferShape(e, x, w);
  }

  lemma FillActs(e: Env, w: World, x: Ix)
    requires Swaps.Fill(e, w, x).Ok?
    ensures ActsForEndings(1, x, Swaps.Fill(e, w, x).value)
  {
    hide Swaps.Fill, ReadSwap, IsTokenAccount, PriceOps, Swaps.ReleaseOps, ActsForEndings;
    var s, c, nonce := FillShape(e, x, w);
    var a := x.accounts;
    var auth := Seeded(a[1], SwapSeed(s.maker, nonce), s.bump);
    var pay, release := PriceOps(e, w, c, a[6], s.wantMint, a[11], a[8], Signer(a[0]), s.wantAmount, nonce[0]),
        Swaps.ReleaseOps(a[2], s.giveMint, a[7], s.giveAmount, auth);
    PriceActs(e, w, 1, x, c, a[6], s.wantMint, a[11], a[8], Signer(a[0]), s.wantAmount, nonce[0]);
    ReleaseActs(1, x, a[2], s.giveMint, a[7], s.giveAmount, auth, a[1]);
    BothAct(1, x, pay, release + [Wipe(a[1])]);
    Reassociate(pay, release, [Wipe(a[1])]);
  }

  lemma SwapRefundActs(e: Env, w: World, tag: byte, x: Ix, plan: Plan, s: Swap, nonce: Key, makerGive: Key)
    requires tag in {2, 3} && |x.accounts| > 2 && Refunds(e, w, plan, s, nonce, x.accounts[1], x.accounts[2], makerGive)
    ensures ActsForEndings(tag, x, plan.value)
  {
    hide ReadSwap, IsTokenAccount, Swaps.ReleaseOps, ActsForEndings, Find, Create;
    ReleaseActs(tag, x, x.accounts[2], s.giveMint, makerGive, s.giveAmount,
        Seeded(x.accounts[1], SwapSeed(s.maker, nonce), s.bump), x.accounts[1]);
  }

  lemma BidRefundActs(e: Env, w: World, tag: byte, x: Ix, plan: Plan, o: Offer, nonce: Key, offererWant: Key)
    requires tag in {6, 7} && |x.accounts| > 2
        && RefundsBid(e, w, plan, o, nonce, x.accounts[1], x.accounts[2], offererWant)
    ensures ActsForEndings(tag, x, plan.value)
  {
    hide ReadOffer, IsTokenAccount, Swaps.ReleaseOps, ActsForEndings, Find;
    ReleaseActs(tag, x, x.accounts[2], o.wantMint, offererWant, o.wantAmount,
        Seeded(x.accounts[1], OfferSeed(o.offerer, nonce), o.bump), x.accounts[1]);
  }

  lemma RefundsAct(e: Env, w: World, tag: byte, x: Ix)
    requires tag in {2, 3, 6, 7} && PlanOf(e, w, tag, x).Ok?
    ensures ActsForEndings(tag, x, PlanOf(e, w, tag, x).value)
  {
    hide Swaps.CancelSwap, Swaps.Expire, Offers.WithdrawOffer, Offers.ExpireOffer, ActsForEndings, Refunds, RefundsBid;
    match tag
    case 2 => {
      var s := CancelSwapShape(e, x, w);
      SwapRefundActs(e, w, 2, x, Swaps.CancelSwap(e, w, x), s, x.data, x.accounts[4]);
    }
    case 3 => {
      var s := ExpireShape(e, x, w);
      SwapRefundActs(e, w, 3, x, Swaps.Expire(e, w, x), s, x.data, x.accounts[5]);
    }
    case 6 => {
      var o := WithdrawOfferShape(e, x, w);
      BidRefundActs(e, w, 6, x, Offers.WithdrawOffer(e, w, x), o, x.data, x.accounts[4]);
    }
    case 7 => {
      var o := ExpireOfferShape(e, x, w);
      BidRefundActs(e, w, 7, x, Offers.ExpireOffer(e, w, x), o, x.data, x.accounts[5]);
    }
  }

  lemma HandOverActs(x: Ix, svault: Key, mint: Key, dst: Key, amount: nat, swapAuth: Authority, ovault: Key,
      offerAuth: Authority, wipes: seq<Op>)
    requires swapAuth.key in Ends(5, x) && offerAuth.key in Ends(5, x) && forall op :: op in wipes ==> op.Wipe?
    ensures ActsForEndings(5, x, Offers.HandOver(svault, mint, dst, amount, swapAuth, ovault, offerAuth) + wipes)
  {
    hide Ends;
  }

  lemma AcceptActs(e: Env, w: World, x: Ix)
    requires Offers.AcceptOffer(e, w, x).Ok?
    ensures ActsForEndings(5, x, Offers.AcceptOffer(e, w, x).value)
  {
    hide Offers.AcceptOffer, ReadSwap, ReadOffer, IsTokenAccount, PriceOps, Offers.HandOver, ActsForEndings, Find;
    var s, o, c, sn, on := AcceptOfferShape(e, x, w);
    var a := x.accounts;
    var offerAuth, swapAuth := Seeded(a[3], OfferSeed(o.offerer, on), o.bump),
        Seeded(a[1], SwapSeed(s.maker, sn), s.bump);
    var pay, hand := PriceOps(e, w, c, a[4], s.wantMint, a[12], a[9], offerAuth, o.wantAmount, sn[0]),
        Offers.HandOver(a[2], s.giveMint, a[8], s.giveAmount, swapAuth, a[4], offerAuth);
    PriceActs(e, w, 5, x, c, a[4], s.wantMint, a[12], a[9], offerAuth, o.wantAmount, sn[0]);
    HandOverActs(x, a[2], s.giveMint, a[8], s.giveAmount, swapAuth, a[4], offerAuth, [Wipe(a[3]), Wipe(a[1])]);
    BothAct(5, x, pay, hand + [Wipe(a[3]), Wipe(a[1])]);
    Reassociate(pay, hand, [Wipe(a[3]), Wipe(a[1])]);
  }

  lemma UnlockActs(e: Env, w: World, tag: byte, x: Ix, b: seq<byte>, nonce: Key, base: nat, auth: Authority,
      payee: Option<Key>, k: Key)
    requires |b| == BASKET_LEN && |x.accounts| >= base + ReadBasket(b).giveCount * 3 && auth.key in Ends(tag, x)
    ensures ActsForEndings(tag, x, Baskets.UnlockOps(e, w, x, b, nonce, base, auth, payee, 0) + [Wipe(k)])
  {
    hide ReadBasket, Baskets.UnlockOps, ActsForEndings;
    UnlockConfined(e, w, x, b, nonce, base, auth, payee, 0);
    ConfinedActs(tag, x, Baskets.UnlockOps(e, w, x, b, nonce, base, auth, payee, 0), {auth.key}, {});
    ConfinedActs(tag, x, [Wipe(k)], {}, {k});
    BothAct(tag, x, Baskets.UnlockOps(e, w, x, b, nonce, base, auth, payee, 0), [Wipe(k)]);
  }

  lemma OpenBasketActs(e: Env, w: World, x: Ix)
    requires Baskets.OpenBasket(e, w, x).Ok?
    ensures ActsForEndings(12, x, Baskets.OpenBasket(e, w, x).value)
  {
    hide Baskets.OpenBasket, Baskets.LockOps, Baskets.WantChecks, Baskets.WithWants, HeaderImage, Baskets.HeaderOf,
        ActsForEndings;
    var k, b := OpenBasketShape(e, x, w);
    var a := x.accounts;
    var create, write := [NewRecord(a[1], BASKET_LEN)], [Write(a[1], b)];
    WantChecksConfined(x.data, 0);
    LockConfined(e, x, a[1], b, 0);
    ConfinedActs(12, x, create, {}, {a[1]});
    ConfinedActs(12, x, write, {}, {a[1]});
    ConfinedActs(12, x, Baskets.WantChecks(x.data, 0), {}, {});
    ConfinedActs(12, x, Baskets.LockOps(e, x, a[1], b, 0), {a[0]}, {a[1]});
    BothAct(12, x, create, Baskets.WantChecks(x.data, 0));
    BothAct(12, x, create + Baskets.WantChecks(x.data, 0), write);
    BothAct(12, x, create + Baskets.WantChecks(x.data, 0) + write, Baskets.LockOps(e, x, a[1], b, 0));
  }

  lemma FillBasketActs(e: Env, w: World, x: Ix)
    requires Baskets.FillBasket(e, w, x).Ok?
    ensures ActsForEndings(13, x, Baskets.FillBasket(e, w, x).value)
  {
    hide Baskets.FillBasket, ReadBasket, Baskets.UnlockOps, Baskets.PayOps, ActsForEndings;
    var k, c, auth := FillBasketShape(e, x, w);
    var a, b := x.accounts, w.records[x.accounts[1]];
    var pay, unlock := Baskets.PayOps(e, w, x, c, b, x.data, 0),
        Baskets.UnlockOps(e, w, x, b, x.data, 5, auth, None, 0);
    PayConfined(e, w, x, c, b, x.data, 0);
    ConfinedActs(13, x, pay, {a[0]}, {});
    UnlockActs(e, w, 13, x, b, x.data, 5, auth, None, a[1]);
    BothAct(13, x, pay, unlock + [Wipe(a[1])]);
    Reassociate(pay, unlock, [Wipe(a[1])]);
  }

  lemma UnlockingActs(e: Env, w: World, tag: byte, x: Ix)
    requires tag in {14, 16, 17} && PlanOf(e, w, tag, x).Ok?
    ensures ActsForEndings(tag, x, PlanOf(e, w, tag, x).value)
  {
    hide Baskets.ClaimBearer, Baskets.CancelBasket, Baskets.ExpireBasket, ReadBasket, Baskets.UnlockOps, ActsForEndings;
    var a := x.accounts;
    match tag
    case 14 => {
      var k, auth := ClaimBearerShape(e, x, w);
      UnlockActs(e, w, 14, x, w.records[a[2]], x.data, 5, auth, None, a[2]);
    }
    case 16 => {
      var k, auth := CancelBasketShape(e, x, w);
      UnlockActs(e, w, 16, x, w.records[a[1]], x.data, 6, auth, Some(k.maker), a[1]);
    }
    case 17 => {
      var k, auth := ExpireBasketShape(e, x, w);
      UnlockActs(e, w, 17, x, w.records[a[1]], x.data, 4, auth, Some(k.maker), a[1]);
    }
  }

  lemma ListingPlansAct(e: Env, w: World, tag: byte, x: Ix)
    requires tag in {26, 28, 29} && PlanOf(e, w, tag, x).Ok?
    ensures ActsForEndings(tag, x, PlanOf(e, w, tag, x).value)
  {
    hide Listings.List, Listings.CancelListing, Listings.ExpireListing, ReadSwap, ListingImage, Find;
    match tag
    case 26 => { var s := ListShape(e, x, w); }
    case 28 => { var s := CancelListingShape(e, x, w); }
    case 29 => { var s := ExpireListingShape(e, x, w); }
  }

  lemma FillListingActs(e: Env, w: World, x: Ix)
    requires Listings.FillListing(e, w, x).Ok?
    ensures ActsForEndings(27, x, Listings.FillListing(e, w, x).value)
  {
    hide Listings.FillListing, RoyaltyOps, ReadSwap, IsTokenAccount, ActsForEndings;
    var s, nonce := FillListingShape(e, x, w);
    var a, none := x.accounts, s.royaltyMode == ROYALTY_NONE;
    RoyaltyConfined(e, w, a[10], a[7], s.wantMint, a[11], a[8], a[0], s.wantAmount, U64At(x.data, 40), x.data[0],
        s.royaltyMode, s.makerPct, if none then None else Some(x.metadata), if none then [] else a[14..]);
    var pay, auth := ListingRoyalty(e, w, x, s).value, Seeded(a[1], ListingSeed(s.maker, nonce), s.bump);
    ConfinedActs(27, x, pay, {a[0]}, {});
    var sale := [Transfer(a[5], s.giveMint, a[6], auth, s.giveAmount), Wipe(a[1])];
    ConfinedActs(27, x, sale, {a[1]}, {a[1]});
    BothAct(27, x, pay, sale);
  }

  lemma SettleActs(tag: byte, x: Ix, done: Key, checks: seq<Op>, pay: seq<Op>, last: Op)
    requires (forall op :: op in checks ==> op.Check?) && ActsForEndings(tag, x, pay) && ActsForEndings(tag, x, [last])
    ensures ActsForEndings(tag, x, [NewRecord(done, MARKER_LEN)] + checks + pay + [last])
  {
    hide Ends;
    assert last in [last];
  }

  lemma StopActs(tag: byte, x: Ix, p: Plan)
    requires p.Ok? ==> ActsForEndings(tag, x, p.value)
    ensures ActsForEndings(tag, x, Orders.OrStop(p))
  {
  }

  lemma OrderActs(tag: byte, x: Ix, move: Op)
    requires move.Transfer? && ((move.auth.Seeded? && move.auth.seed.OrderSeed?) || move.auth.key in x.signers)
    ensures ActsForEndings(tag, x, [move])
  {
  }

  lemma SettleOrderActs(e: Env, w: World, x: Ix)
    requires Orders.SettleSignedOrder(e, w, x).Ok?
    ensures ActsForEndings(38, x, Orders.SettleSignedOrder(e, w, x).value)
  {
    hide Orders.SettleSignedOrder, RoyaltyOps, IsTokenAccount, ActsForEndings, Orders.OrderChecks, Orders.OrStop,
        Orders.ProvesSignature, OrderMessage;
    var t, auth, done := SettleOrderShape(e, x, w);
    var a, royalty := x.accounts, OrderRoyalty(e, w, x, t);
    if royalty.Ok? {
      RoyaltyConfined(e, w, a[11], a[6], t.wantMint, a[12], a[7], a[0], t.wantAmount, U64 - 1, t.nonce[0],
          t.royaltyMode, t.makerPct, if t.royaltyMode == ROYALTY_NONE then None else Some(x.metadata),
          if |a| > 17 then a[17..] else []);
      ConfinedActs(38, x, royalty.value, {a[0]}, {});
    }
    StopActs(38, x, royalty);
    var last := Transfer(a[4], t.giveMint, a[5], Seeded(auth.key, OrderSeed(a[1]), auth.bump), t.giveAmount);
    OrderActs(38, x, last);
    SettleActs(38, x, done.key, Orders.OrderChecks(e, w, x, t), Orders.OrStop(royalty), last);
  }

  lemma CoinsAct(e: Env, w: World, x: Ix, config: Key, src: Key, mint: Key, feeAccount: Key, owner: Key,
      auth: Authority, amount: nat, shardSeed: byte)
    requires auth.Seeded? && auth.seed.OrderSeed?
    ensures ActsForEndings(41, x, Orders.OrStop(Orders.CoinsOps(e, w, config, src, mint, feeAccount, owner, auth,
        amount, shardSeed)))
  {
    hide IsFeeDestination, ReadConfig, Ends;
  }

  lemma SettleBidActs(e: Env, w: World, x: Ix)
    requires Orders.SettleSignedBid(e, w, x).Ok?
    ensures ActsForEndings(41, x, Orders.SettleSignedBid(e, w, x).value)
  {
    hide Orders.SettleSignedBid, IsTokenAccount, ActsForEndings, Orders.BidChecks, Orders.OrStop, Orders.CoinsOps,
        Orders.ProvesSignature, BidMessage;
    var t, auth, done := SettleBidShape(e, x, w);
    var a := x.accounts;
    var order := Seeded(auth.key, OrderSeed(a[1]), auth.bump);
    CoinsAct(e, w, x, a[7], a[4], t.giveMint, a[8], a[5], order, t.giveAmount, t.nonce[0]);
    var last := Transfer(a[13], t.wantMint, a[14], Signer(a[0]), 1);
    OrderActs(41, x, last);
    SettleActs(41, x, done.key, Orders.BidChecks(e, w, x, t), Orders.OrStop(Orders.CoinsOps(e, w, a[7], a[4],
        t.giveMint, a[8], a[5], order, t.giveAmount, t.nonce[0])), last);
  }

  lemma PolicyPlansAct(e: Env, w: World, x: Ix)
    ensures InitConfig(e, w, x).Ok? ==> ActsForEndings(8, x, InitConfig(e, w, x).value)
    ensures UpdateConfig(e, w, x).Ok? ==> ActsForEndings(9, x, UpdateConfig(e, w, x).value)
    ensures InitFeeVault(e, w, x).Ok? ==> ActsForEndings(10, x, InitFeeVault(e, w, x).value)
    ensures SweepFees(e, w, x).Ok? ==> ActsForEndings(11, x, SweepFees(e, w, x).value)
    ensures Baskets.Rewrap(e, w, x).Ok? ==> ActsForEndings(15, x, Baskets.Rewrap(e, w, x).value)
  {
    hide Ends, ConfigImage, PolicyPut, Find, PutClaim, ReadBasket, IsTokenAccount;
  }

  lemma StepActsForEndings(e: Env, w: World, tag: byte, x: Ix)
    requires Step(e, w, tag, x).Ok?
    ensures ActsForEndings(tag, x, PlanOf(e, w, tag, x).value)
  {
    hide Swaps.OpenSwap, Swaps.Fill, Swaps.CancelSwap, Swaps.Expire, Offers.MakeOffer, Offers.AcceptOffer,
        Offers.WithdrawOffer, Offers.ExpireOffer, InitConfig, UpdateConfig, InitFeeVault, SweepFees, Baskets.OpenBasket,
        Baskets.FillBasket, Baskets.ClaimBearer, Baskets.Rewrap, Baskets.CancelBasket, Baskets.ExpireBasket,
        Listings.List, Listings.FillListing, Listings.CancelListing, Listings.ExpireListing, Orders.SettleSignedOrder,
        Orders.SettleSignedBid, ActsForEndings, Exec;
    if tag == 0 { OpenSwapActs(e, w, x); }
    else if tag == 1 { FillActs(e, w, x); }
    else if tag == 4 { MakeOfferActs(e, w, x); }
    else if tag == 5 { AcceptActs(e, w, x); }
    else if tag < 8 { RefundsAct(e, w, tag, x); }
    else if tag < 12 || tag == 15 { PolicyPlansAct(e, w, x); }
    else if tag == 12 { OpenBasketActs(e, w, x); }
    else if tag == 13 { FillBasketActs(e, w, x); }
    else if tag < 18 { UnlockingActs(e, w, tag, x); }
    else if tag == 27 { FillListingActs(e, w, x); }
    else if tag < 30 { ListingPlansAct(e, w, tag, x); }
    else if tag == 38 { SettleOrderActs(e, w, x); }
    else { SettleBidActs(e, w, x); }
  }

  // ---- what an instruction leaves alone ----

  /** In an accepted list every authority signed. */
  lemma {:induction false} AuthoritiesSigned(e: Env, signers: set<Key>, w: World, ops: seq<Op>)
    requires Exec(e, signers, w, ops).Ok?
    ensures forall op :: op in ops && HasAuthority(op) ==> Signed(e, signers, op.auth)
    decreases |ops|
  {
    hide Signed;
    if ops != [] {
      AuthoritiesSigned(e, signers, Apply(e, signers, w, ops[0]).value, ops[1..]);
    }
  }

  predicate IsEscrowSeed(s: Seed) {
    s.SwapSeed? || s.OfferSeed? || s.BasketSeed?
  }

  /** Whoever signs for an escrow address signs with its own seed. */
  lemma SignerIsDerived(e: Env, x: Ix, k: Key, s: Seed, bump: byte, auth: Authority)
    requires ValidEnv(e) && ValidIx(e, x) && Create(e.derive, s, bump) == Some(k)
    requires Signed(e, x.signers, auth) && auth.key == k
    ensures auth.Seeded? && auth.seed == s && k !in x.signers
  {
    assert Derived(e.derive, k);
    if auth.Seeded? {
      OneHome(e.derive, s, bump, auth.seed, auth.bump);
    }
  }

  /** An instruction uses no authority of an escrow record it does not end. */
  lemma StepSparesOthers(e: Env, w: World, tag: byte, x: Ix, k: Key, s: Seed, bump: byte)
    requires ValidEnv(e) && ValidIx(e, x) && Step(e, w, tag, x).Ok? && k !in Ends(tag, x)
    requires IsEscrowSeed(s) && Create(e.derive, s, bump) == Some(k)
    ensures Spares(PlanOf(e, w, tag, x).value, k)
  {
    hide PlanOf, Exec, Ends, Create, Preimage;
    var ops := PlanOf(e, w, tag, x).value;
    StepActsForEndings(e, w, tag, x);
    AuthoritiesSigned(e, x.signers, w, ops);
    forall i | 0 <= i < |ops|
      ensures !ActsAs(ops[i], k)
    {
      assert ops[i] in ops;
      if HasAuthority(ops[i]) && ops[i].auth.key == k {
        SignerIsDerived(e, x, k, s, bump, ops[i].auth);
      }
    }
  }
}
