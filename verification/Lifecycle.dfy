/** Records open once and end once: which instruction makes a record live, and which wipes it. */
module Lifecycle {
  import opened Prelude
  import opened Bytes
  import opened Seeds
  import opened Layout
  import opened Ledger
  import opened FeeConfig
  import opened Payments
  import opened Machine
  import opened Shapes
  import opened Invariant
  import opened BasketInvariant
  import Swaps
  import Offers
  import Baskets
  import Listings
  import Orders

  /** The record an instruction opens: swaps, offers, baskets, listings, the config and spent-markers. */
  function Opens(tag: byte, x: Ix): set<Key> {
    if tag in {0, 4, 8, 12, 26} && |x.accounts| > 1 then {x.accounts[1]}
    else if tag == 38 && |x.accounts| > 9 then {x.accounts[9]}
    else if tag == 41 && |x.accounts| > 10 then {x.accounts[10]}
    else {}
  }

  /** The records an instruction ends. */
  function Ends(tag: byte, x: Ix): set<Key> {
    if tag in {1, 2, 3, 6, 7, 13, 16, 17, 27, 28, 29} && |x.accounts| > 1 then {x.accounts[1]}
    else if tag == 5 && |x.accounts| > 3 then {x.accounts[1], x.accounts[3]}
    else if tag == 14 && |x.accounts| > 2 then {x.accounts[2]}
    else {}
  }

  /** The record an instruction rewrites in place. */
  function Rewrites(tag: byte, x: Ix): set<Key> {
    if tag in {9, 15} && |x.accounts| > 1 then {x.accounts[1]} else {}
  }

  function OpenedLength(tag: byte): nat {
    match tag
    case 0 => SWAP_LEN
    case 4 => OFFER_LEN
    case 8 => CONFIG_LEN
    case 12 => BASKET_LEN
    case 26 => SWAP_LEN
    case _ => MARKER_LEN
  }

  /** What one accepted instruction does to the program's records. */
  ghost predicate RecordEffect(w: World, tag: byte, x: Ix, v: World) {
    && (forall k :: k in Opens(tag, x) ==>
        k !in w.records && k in v.records && |v.records[k]| == OpenedLength(tag)
        && (Live(v.records[k]) || tag == 38 || tag == 41))
    && (forall k :: k in Ends(tag, x) ==>
        k in w.records && Live(w.records[k]) && k in v.records && v.records[k] == Zeros(|w.records[k]|))
    && (forall k :: k in Rewrites(tag, x) ==>
        k in w.records && Live(w.records[k]) && k in v.records && Live(v.records[k])
        && |v.records[k]| == |w.records[k]| == (if tag == 15 then BASKET_LEN else CONFIG_LEN))
    && (forall k :: k !in Opens(tag, x) + Ends(tag, x) + Rewrites(tag, x) ==>
        (k in v.records <==> k in w.records) && (k in w.records ==> v.records[k] == w.records[k]))
  }

  // ---- a record that re-derives under its own party is live ----

  /** A wiped record cannot pass the address check: its party would be the zero key, and no record's
      home has that party. */
  lemma RederivedIsLive(e: Env, w: World, k: Key, s: Seed, bump: byte)
    requires ValidEnv(e) && Inv(e, w) && k in w.records && |w.records[k]| >= 32
    requires Create(e.derive, s, bump) == Some(k)
    requires s.SwapSeed? || s.ListingSeed? || s.OfferSeed? || s.BasketSeed?
    requires s.party == KeyAt(w.records[k], 0)
    ensures Live(w.records[k])
  {
    hide WellFormed, Legs;
    var t, c :| IsHome(e, k, |w.records[k]|, t, c);
    OneHome(e.derive, s, bump, t, c);
  }

  lemma SwapParty(b: seq<byte>)
    requires |b| == SWAP_LEN
    ensures ReadSwap(b).maker == KeyAt(b, 0)
  {
  }

  lemma OfferParty(b: seq<byte>)
    requires |b| == OFFER_LEN
    ensures ReadOffer(b).offerer == KeyAt(b, 0)
  {
  }

  lemma BasketParty(b: seq<byte>)
    requires |b| == BASKET_LEN
    ensures ReadBasket(b).maker == KeyAt(b, 0)
  {
  }

  // ---- one ending, one wipe ----

  lemma OneEnding(e: Env, x: Ix, w: World, a: seq<Op>, auths: set<Key>, k: Key, tag: byte)
    requires k in w.records && Live(w.records[k]) && AllConfined(a, auths, {})
        && Exec(e, x.signers, w, a + [Wipe(k)]).Ok?
    requires Ends(tag, x) == {k} && Opens(tag, x) == {} && Rewrites(tag, x) == {}
    ensures RecordEffect(w, tag, x, Exec(e, x.signers, w, a + [Wipe(k)]).value)
  {
    WipedRecord(e, x.signers, w, a, auths, k);
  }

  lemma FillEnds(e: Env, x: Ix, w: World)
    requires ValidEnv(e) && Inv(e, w) && Run(e, w, x, Swaps.Fill(e, w, x)).Ok?
    ensures RecordEffect(w, 1, x, Run(e, w, x, Swaps.Fill(e, w, x)).value)
  {
    hide Inv, Exec, Swaps.Fill, PriceOps, RecordEffect, Live, ReadSwap;
    var s, c, nonce := FillShape(e, x, w);
    var a := x.accounts;
    SwapParty(w.records[a[1]]);
    RederivedIsLive(e, w, a[1], SwapSeed(s.maker, nonce), s.bump);
    var auth := Seeded(a[1], SwapSeed(s.maker, nonce), s.bump);
    var pay := PriceOps(e, w, c, a[6], s.wantMint, a[11], a[8], Signer(a[0]), s.wantAmount, nonce[0]);
    PriceConfined(e, w, c, a[6], s.wantMint, a[11], a[8], Signer(a[0]), s.wantAmount, nonce[0]);
    Join(pay, Swaps.ReleaseOps(a[2], s.giveMint, a[7], s.giveAmount, auth), {a[0]}, {}, {a[0], a[1]}, {});
    OneEnding(e, x, w, pay + Swaps.ReleaseOps(a[2], s.giveMint, a[7], s.giveAmount, auth), {a[0], a[1]}, a[1], 1);
  }

  lemma RefundEnds(e: Env, x: Ix, w: World, plan: Plan, s: Swap, nonce: Key, makerGive: Key, tag: byte)
    requires ValidEnv(e) && Inv(e, w) && (tag == 2 || tag == 3) && |x.accounts| > 2
    requires Refunds(e, w, plan, s, nonce, x.accounts[1], x.accounts[2], makerGive) && Run(e, w, x, plan).Ok?
    ensures RecordEffect(w, tag, x, Run(e, w, x, plan).value)
  {
    hide Inv, Exec, RecordEffect, Live, ReadSwap;
    var a := x.accounts;
    SwapParty(w.records[a[1]]);
    RederivedIsLive(e, w, a[1], SwapSeed(s.maker, nonce), s.bump);
    OneEnding(e, x, w, Swaps.ReleaseOps(a[2], s.giveMint, makerGive, s.giveAmount,
        Seeded(a[1], SwapSeed(s.maker, nonce), s.bump)), {a[1]}, a[1], tag);
  }

  lemma BidRefundEnds(e: Env, x: Ix, w: World, plan: Plan, o: Offer, nonce: Key, offererWant: Key, tag: byte)
    requires ValidEnv(e) && Inv(e, w) && (tag == 6 || tag == 7) && |x.accounts| > 2
    requires RefundsBid(e, w, plan, o, nonce, x.accounts[1], x.accounts[2], offererWant) && Run(e, w, x, plan).Ok?
    ensures RecordEffect(w, tag, x, Run(e, w, x, plan).value)
  {
    hide Inv, Exec, RecordEffect, Live, ReadOffer;
    var a := x.accounts;
    OfferParty(w.records[a[1]]);
    RederivedIsLive(e, w, a[1], OfferSeed(o.offerer, nonce), Find(e.derive, OfferSeed(o.offerer, nonce)).value.bump);
    OneEnding(e, x, w, Swaps.ReleaseOps(a[2], o.wantMint, offererWant, o.wantAmount,
        Seeded(a[1], OfferSeed(o.offerer, nonce), o.bump)), {a[1]}, a[1], tag);
  }

  lemma TwoEndings(e: Env, x: Ix, w: World, a: seq<Op>, p: Key, q: Key)
    requires p in w.records && q in w.records && p != q && Live(w.records[p]) && Live(w.records[q])
    requires AllConfined(a, {p, q}, {}) && Exec(e, x.signers, w, a + [Wipe(p), Wipe(q)]).Ok?
    requires |x.accounts| > 3 && p == x.accounts[3] && q == x.accounts[1]
    ensures RecordEffect(w, 5, x, Exec(e, x.signers, w, a + [Wipe(p), Wipe(q)]).value)
  {
    hide Exec, Live;
    TwoWipedRecords(e, x.signers, w, a, p, q);
  }

  lemma HandOverConfined(pay: seq<Op>, svault: Key, mint: Key, dst: Key, amount: nat, swapAuth: Authority, ovault: Key,
      offerAuth: Authority)
    requires AllConfined(pay, {offerAuth.key}, {})
    ensures AllConfined(pay + Offers.HandOver(svault, mint, dst, amount, swapAuth, ovault, offerAuth),
        {offerAuth.key, swapAuth.key}, {})
  {
    Join(pay, Offers.HandOver(svault, mint, dst, amount, swapAuth, ovault, offerAuth), {offerAuth.key}, {},
        {offerAuth.key, swapAuth.key}, {});
  }

  lemma AcceptBothLive(e: Env, w: World, swap: Key, offer: Key, s: Swap, o: Offer, sn: Key, on: Key)
    requires ValidEnv(e) && Inv(e, w)
    requires swap in w.records && |w.records[swap]| == SWAP_LEN && s == ReadSwap(w.records[swap])
    requires offer in w.records && |w.records[offer]| == OFFER_LEN && o == ReadOffer(w.records[offer])
    requires Find(e.derive, SwapSeed(s.maker, sn)).Ok? && swap == Address(e.derive, SwapSeed(s.maker, sn))
    requires Find(e.derive, OfferSeed(o.offerer, on)).Ok? && offer == Address(e.derive, OfferSeed(o.offerer, on))
    ensures Live(w.records[swap]) && Live(w.records[offer]) && swap != offer
  {
    hide Inv, Live, ReadSwap, ReadOffer;
    SwapParty(w.records[swap]);
    OfferParty(w.records[offer]);
    RederivedIsLive(e, w, swap, SwapSeed(s.maker, sn), Find(e.derive, SwapSeed(s.maker, sn)).value.bump);
    RederivedIsLive(e, w, offer, OfferSeed(o.offerer, on), Find(e.derive, OfferSeed(o.offerer, on)).value.bump);
  }

  lemma AcceptEnds(e: Env, x: Ix, w: World)
    requires ValidEnv(e) && Inv(e, w) && Run(e, w, x, Offers.AcceptOffer(e, w, x)).Ok?
    ensures RecordEffect(w, 5, x, Run(e, w, x, Offers.AcceptOffer(e, w, x)).value)
  {
    hide Inv, Exec, Offers.AcceptOffer, PriceOps, Live, ReadSwap, ReadOffer, RecordEffect, Offers.HandOver,
        AllConfined, ValidEnv, IsTokenAccount;
    var s, o, c, sn, on := AcceptOfferShape(e, x, w);
    var a := x.accounts;
    AcceptBothLive(e, w, a[1], a[3], s, o, sn, on);
    var offerAuth, swapAuth := Seeded(a[3], OfferSeed(o.offerer, on), o.bump),
        Seeded(a[1], SwapSeed(s.maker, sn), s.bump);
    var pay := PriceOps(e, w, c, a[4], s.wantMint, a[12], a[9], offerAuth, o.wantAmount, sn[0]);
    PriceConfined(e, w, c, a[4], s.wantMint, a[12], a[9], offerAuth, o.wantAmount, sn[0]);
    HandOverConfined(pay, a[2], s.giveMint, a[8], s.giveAmount, swapAuth, a[4], offerAuth);
    TwoEndings(e, x, w, pay + Offers.HandOver(a[2], s.giveMint, a[8], s.giveAmount, swapAuth, a[4], offerAuth), a[3],
        a[1]);
  }

  lemma Widen(a: seq<Op>, auths: set<Key>, more: set<Key>)
    requires AllConfined(a, auths, {}) && auths <= more
    ensures AllConfined(a, more, {})
  {
    forall op | op in a
      ensures Confined(op, more, {})
    {
      assert Confined(op, auths, {});
    }
  }

  lemma BasketEnds(e: Env, x: Ix, w: World, pay: seq<Op>, payer: set<Key>, unlock: seq<Op>, basket: Key, k: Basket,
      nonce: Key, auth: Authority, tag: byte)
    requires ValidEnv(e) && Inv(e, w) && Settles(e, w, basket, nonce, k, auth)
    requires Ends(tag, x) == {basket} && Opens(tag, x) == {} && Rewrites(tag, x) == {}
    requires AllConfined(pay, payer, {}) && AllConfined(unlock, {basket}, {})
        && Exec(e, x.signers, w, pay + unlock + [Wipe(basket)]).Ok?
    ensures RecordEffect(w, tag, x, Exec(e, x.signers, w, pay + unlock + [Wipe(basket)]).value)
  {
    hide Inv, Exec, RecordEffect, Live, ReadBasket;
    BasketParty(w.records[basket]);
    RederivedIsLive(e, w, basket, BasketSeed(k.maker, nonce), k.bump);
    Widen(unlock, {basket}, payer + {basket});
    Join(pay, unlock, payer, {}, payer + {basket}, {});
    OneEnding(e, x, w, pay + unlock, payer + {basket}, basket, tag);
  }

  lemma FillBasketEnds(e: Env, x: Ix, w: World)
    requires ValidEnv(e) && Inv(e, w) && Run(e, w, x, Baskets.FillBasket(e, w, x)).Ok?
    ensures RecordEffect(w, 13, x, Run(e, w, x, Baskets.FillBasket(e, w, x)).value)
  {
    hide Inv, Exec, RecordEffect, Baskets.FillBasket, Baskets.PayOps, Baskets.UnlockOps;
    var k, c, auth := FillBasketShape(e, x, w);
    var b := w.records[x.accounts[1]];
    PayConfined(e, w, x, c, b, x.data, 0);
    UnlockConfined(e, w, x, b, x.data, 5, auth, None, 0);
    BasketEnds(e, x, w, Baskets.PayOps(e, w, x, c, b, x.data, 0), {x.accounts[0]},
        Baskets.UnlockOps(e, w, x, b, x.data, 5, auth, None, 0), x.accounts[1], k, x.data, auth, 13);
  }

  lemma JustUnlockEnds(e: Env, x: Ix, w: World, basket: Key, base: nat, k: Basket, auth: Authority, payee: Option<Key>,
      tag: byte)
    requires ValidEnv(e) && Inv(e, w) && |x.data| == 32 && Settles(e, w, basket, x.data, k, auth)
        && |x.accounts| >= base + k.giveCount * 3
    requires Ends(tag, x) == {basket} && Opens(tag, x) == {} && Rewrites(tag, x) == {}
    requires Exec(e, x.signers, w, Baskets.UnlockOps(e, w, x, w.records[basket], x.data, base, auth, payee, 0)
        + [Wipe(basket)]).Ok?
    ensures RecordEffect(w, tag, x, Exec(e, x.signers, w, Baskets.UnlockOps(e, w, x, w.records[basket], x.data, base,
        auth, payee, 0) + [Wipe(basket)]).value)
  {
    hide Inv, Exec, RecordEffect, Baskets.UnlockOps;
    var unlock := Baskets.UnlockOps(e, w, x, w.records[basket], x.data, base, auth, payee, 0);
    UnlockConfined(e, w, x, w.records[basket], x.data, base, auth, payee, 0);
    assert [] + unlock == unlock;
    BasketEnds(e, x, w, [], {}, unlock, basket, k, x.data, auth, tag);
  }

  lemma ClaimEnds(e: Env, x: Ix, w: World)
    requires ValidEnv(e) && Inv(e, w) && Run(e, w, x, Baskets.ClaimBearer(e, w, x)).Ok?
    ensures RecordEffect(w, 14, x, Run(e, w, x, Baskets.ClaimBearer(e, w, x)).value)
  {
    hide Inv, Exec, RecordEffect, Baskets.ClaimBearer, Baskets.UnlockOps;
    var k, auth := ClaimBearerShape(e, x, w);
    JustUnlockEnds(e, x, w, x.accounts[2], 5, k, auth, None, 14);
  }

  lemma CancelBasketEnds(e: Env, x: Ix, w: World)
    requires ValidEnv(e) && Inv(e, w) && Run(e, w, x, Baskets.CancelBasket(e, w, x)).Ok?
    ensures RecordEffect(w, 16, x, Run(e, w, x, Baskets.CancelBasket(e, w, x)).value)
  {
    hide Inv, Exec, RecordEffect, Baskets.CancelBasket, Baskets.UnlockOps;
    var k, auth := CancelBasketShape(e, x, w);
    JustUnlockEnds(e, x, w, x.accounts[1], 6, k, auth, Some(k.maker), 16);
  }

  lemma ExpireBasketEnds(e: Env, x: Ix, w: World)
    requires ValidEnv(e) && Inv(e, w) && Run(e, w, x, Baskets.ExpireBasket(e, w, x)).Ok?
    ensures RecordEffect(w, 17, x, Run(e, w, x, Baskets.ExpireBasket(e, w, x)).value)
  {
    hide Inv, Exec, RecordEffect, Baskets.ExpireBasket, Baskets.UnlockOps;
    var k, auth := ExpireBasketShape(e, x, w);
    JustUnlockEnds(e, x, w, x.accounts[1], 4, k, auth, Some(k.maker), 17);
  }

  lemma FillListingEnds(e: Env, x: Ix, w: World)
    requires ValidEnv(e) && Inv(e, w) && Run(e, w, x, Listings.FillListing(e, w, x)).Ok?
    ensures RecordEffect(w, 27, x, Run(e, w, x, Listings.FillListing(e, w, x)).value)
  {
    hide Inv, Exec, RecordEffect, Listings.FillListing, RoyaltyOps, Live, ReadSwap;
    var s, nonce := FillListingShape(e, x, w);
    var a, none := x.accounts, s.royaltyMode == ROYALTY_NONE;
    SwapParty(w.records[a[1]]);
    RederivedIsLive(e, w, a[1], ListingSeed(s.maker, nonce), s.bump);
    RoyaltyConfined(e, w, a[10], a[7], s.wantMint, a[11], a[8], a[0], s.wantAmount, U64At(x.data, 40), x.data[0],
        s.royaltyMode, s.makerPct,
                    if none then None else Some(x.metadata), if none then [] else a[14..]);
    var pay, move := ListingRoyalty(e, w, x, s).value, Transfer(a[5], s.giveMint, a[6],
        Seeded(a[1], ListingSeed(s.maker, nonce), s.bump), s.giveAmount);
    Join(pay, [move], {a[0]}, {}, {a[0], a[1]}, {});
    assert pay + [move, Wipe(a[1])] == pay + [move] + [Wipe(a[1])];
    OneEnding(e, x, w, pay + [move], {a[0], a[1]}, a[1], 27);
  }

  lemma DelistEnds(e: Env, x: Ix, w: World, s: Swap, a: seq<Op>, auths: set<Key>, tag: byte)
    requires ValidEnv(e) && Inv(e, w) && (tag == 28 || tag == 29) && |x.data| == 32 && |x.accounts| > 2
    requires x.accounts[1] in w.records && |w.records[x.accounts[1]]| == SWAP_LEN
        && s == ReadSwap(w.records[x.accounts[1]])
    requires Find(e.derive, ListingSeed(s.maker, x.data)).Ok?
        && x.accounts[1] == Address(e.derive, ListingSeed(s.maker, x.data))
    requires AllConfined(a, auths, {}) && Exec(e, x.signers, w, a + [Wipe(x.accounts[1])]).Ok?
    ensures RecordEffect(w, tag, x, Exec(e, x.signers, w, a + [Wipe(x.accounts[1])]).value)
  {
    hide Inv, Exec, RecordEffect, Live, ReadSwap;
    SwapParty(w.records[x.accounts[1]]);
    RederivedIsLive(e, w, x.accounts[1], ListingSeed(s.maker, x.data),
        Find(e.derive, ListingSeed(s.maker, x.data)).value.bump);
    OneEnding(e, x, w, a, auths, x.accounts[1], tag);
  }

  lemma CancelListingEnds(e: Env, x: Ix, w: World)
    requires ValidEnv(e) && Inv(e, w) && Run(e, w, x, Listings.CancelListing(e, w, x)).Ok?
    ensures RecordEffect(w, 28, x, Run(e, w, x, Listings.CancelListing(e, w, x)).value)
  {
    hide Inv, Exec, RecordEffect, Listings.CancelListing;
    var s := CancelListingShape(e, x, w);
    var revoke := [Revoke(x.accounts[3], Signer(s.maker))];
    assert Listings.CancelListing(e, w, x).value == revoke + [Wipe(x.accounts[1])];
    DelistEnds(e, x, w, s, revoke, {s.maker}, 28);
  }

  lemma ExpireListingEnds(e: Env, x: Ix, w: World)
    requires ValidEnv(e) && Inv(e, w) && Run(e, w, x, Listings.ExpireListing(e, w, x)).Ok?
    ensures RecordEffect(w, 29, x, Run(e, w, x, Listings.ExpireListing(e, w, x)).value)
  {
    hide Inv, Exec, RecordEffect, Listings.ExpireListing;
    var s := ExpireListingShape(e, x, w);
    assert Listings.ExpireListing(e, w, x).value == [] + [Wipe(x.accounts[1])];
    DelistEnds(e, x, w, s, [], {}, 29);
  }

  // ---- openings and rewrites ----

  /** The records after an opening, with the terms the new record holds. */
  lemma OpenSwapOpens(e: Env, x: Ix, w: World) returns (s: Swap)
    requires ValidIx(e, x) && Run(e, w, x, Swaps.OpenSwap(e, w, x)).Ok?
    ensures |x.accounts| == 10 && s.maker == x.accounts[0] && s.giveMint == x.accounts[3]
        && s.wantMint == x.accounts[4] && s.giveAmount > 0
    ensures x.accounts[1] !in w.records && Run(e, w, x, Swaps.OpenSwap(e, w, x)).value.records
        == w.records[x.accounts[1] := SwapImage(s)]
    ensures ReadSwap(SwapImage(s)) == s && Live(SwapImage(s))
  {
    hide Swaps.OpenSwap, Exec, SwapImage, ReadSwap;
    s := OpenSwapShape(e, x, w);
    SwapReadsBack(s);
    SwapParty(SwapImage(s));
    var a := x.accounts;
    OpenedWorld(e, x.signers, w, a[1], a[2], s.giveMint, Check(s.giveMint in e.mints, InvalidAccountData), a[5],
        s.maker, s.giveAmount, SwapImage(s));
  }

  lemma MakeOfferOpens(e: Env, x: Ix, w: World) returns (o: Offer, s: Swap)
    requires ValidIx(e, x) && Run(e, w, x, Offers.MakeOffer(e, w, x)).Ok?
    ensures |x.accounts| == 10 && o.offerer == x.accounts[0] && o.swap == x.accounts[4] && o.wantAmount > 0
    ensures o.swap in w.records && |w.records[o.swap]| == SWAP_LEN && s == ReadSwap(w.records[o.swap])
    ensures o.giveMint == s.giveMint && o.giveAmount == s.giveAmount && o.wantMint == s.wantMint
    ensures |x.data| == 48 && o.wantAmount == U64At(x.data, 32) && o.offerer in x.signers
    ensures x.accounts[1] !in w.records && Run(e, w, x, Offers.MakeOffer(e, w, x)).value.records
        == w.records[x.accounts[1] := OfferImage(o)]
    ensures ReadOffer(OfferImage(o)) == o && Live(OfferImage(o))
  {
    hide Offers.MakeOffer, Exec, OfferImage, ReadOffer, ReadSwap;
    o, s := MakeOfferShape(e, x, w);
    OfferReadsBack(o);
    OfferParty(OfferImage(o));
    var a := x.accounts;
    OpenedWorld(e, x.signers, w, a[1], a[2], o.wantMint, Check(o.wantMint in e.mints, InvalidAccountData), a[5],
        o.offerer, o.wantAmount, OfferImage(o));
  }

  lemma OpenBasketOpens(e: Env, x: Ix, w: World) returns (k: Basket, b: seq<byte>)
    requires ValidEnv(e) && ValidIx(e, x) && Inv(e, w) && Run(e, w, x, Baskets.OpenBasket(e, w, x)).Ok?
    ensures |x.accounts| > 1 && k.maker == x.accounts[0] && |b| == BASKET_LEN && ReadBasket(b) == k
    ensures Baskets.PayloadFits(x.data) && k == Baskets.HeaderOf(x.data, x.accounts[0], k.bump)
    ensures x.accounts[1] !in w.records && Run(e, w, x, Baskets.OpenBasket(e, w, x)).value.records
        == w.records[x.accounts[1] := b]
    ensures Live(b)
  {
    hide Baskets.OpenBasket, Inv, Exec, Baskets.WithWants, Baskets.LockOps, Baskets.WantChecks, WithGives, HeaderImage,
        ReadBasket, PaidLeg, Holds;
    var b0;
    k, b0 := OpenBasketShape(e, x, w);
    b := WithGives(x, b0, 0);
    SignersHoldNoRecord(e, x, w, x.accounts[0]);
    assert Derived(e.derive, x.accounts[1]);
    OpenedBasket(e, x, w, x.accounts[1], b0);
    BasketReadsBack(x, k);
    BasketParty(b);
  }

  lemma ListOpens(e: Env, x: Ix, w: World) returns (s: Swap)
    requires ValidEnv(e) && ValidIx(e, x) && Inv(e, w) && Run(e, w, x, Listings.List(e, w, x)).Ok?
    ensures |x.accounts| == 9 && s.maker == x.accounts[0]
    ensures x.accounts[1] !in w.records && Run(e, w, x, Listings.List(e, w, x)).value.records
        == w.records[x.accounts[1] := ListingImage(s)]
    ensures ReadSwap(ListingImage(s)) == s && Live(ListingImage(s))
  {
    hide Listings.List, Inv, WellFormed, Legs, Homed, ListingImage, ReadSwap, Exec;
    s := ListShape(e, x, w);
    ListingReadsBack(s);
    ListingImageOk(e, x.accounts[1], s);
    var mid := [Approve(x.accounts[4], x.accounts[1], Signer(s.maker), s.giveAmount)];
    assert Listings.List(e, w, x).value == [NewRecord(x.accounts[1], SWAP_LEN)] + mid
        + [Write(x.accounts[1], ListingImage(s))];
    NewRecordKeepsInv(e, x, w, x.accounts[1], mid, {s.maker}, ListingImage(s));
  }

  lemma ConfigParty(b: seq<byte>)
    requires |b| == CONFIG_LEN
    ensures ReadConfigRecord(b).admin == KeyAt(b, 0)
  {
  }

  lemma InitConfigOpens(e: Env, x: Ix, w: World) returns (c: Config, b: seq<byte>)
    requires ValidEnv(e) && ValidIx(e, x) && Inv(e, w) && Run(e, w, x, InitConfig(e, w, x)).Ok?
    ensures |x.accounts| == 3 && x.accounts[1] == Address(e.derive, ConfigSeed) && |b| == CONFIG_LEN
        && c == ReadConfigRecord(b)
    ensures |x.data| == 75 && c.feeBps <= BPS_DENOM
    ensures c == Config(x.accounts[0], KeyAt(x.data, 0), U16At(x.data, 32), U64At(x.data, 34), KeyAt(x.data, 42),
        x.data[74], c.bump)
    ensures b == ConfigImage(x.accounts[0], x.data, c.bump)
    ensures x.accounts[1] !in w.records && Run(e, w, x, InitConfig(e, w, x)).value.records
        == w.records[x.accounts[1] := b]
    ensures Live(b)
  {
    hide InitConfig, Inv, Exec, ConfigImage, ReadConfigRecord;
    var p := InitConfigShape(e, x, w);
    b := ConfigImage(x.accounts[0], x.data, p.bump);
    c := ReadConfigRecord(b);
    ConfigReadsBack(x.accounts[0], x.data, p.bump);
    assert KeyAt(b, 0) == c.admin by { ConfigParty(b); }
    assert InitConfig(e, w, x).value == [NewRecord(p.key, CONFIG_LEN)] + [] + [Write(p.key, b)];
    assert IsHome(e, p.key, CONFIG_LEN, ConfigSeed, p.bump);
    NewRecordKeepsInv(e, x, w, p.key, [], {}, b);
  }

  lemma OneWrite(e: Env, signers: set<Key>, w: World, k: Key, data: seq<byte>)
    requires Exec(e, signers, w, [Write(k, data)]).Ok?
    ensures k in w.records && Exec(e, signers, w, [Write(k, data)]).value == w.(records := w.records[k := data])
  {
    assert [Write(k, data)] + [] == [Write(k, data)];
    ExecCons(e, signers, w, Write(k, data), []);
  }

  /** Only the admin the record names retunes the policy, and the admin stays. */
  lemma RewritesConfig(e: Env, x: Ix, w: World) returns (b: seq<byte>)
    requires Run(e, w, x, UpdateConfig(e, w, x)).Ok? && ValidIx(e, x)
    ensures |x.accounts| == 2 && x.accounts[1] == Address(e.derive, ConfigSeed) && x.accounts[1] in w.records
        && |w.records[x.accounts[1]]| == CONFIG_LEN
    ensures x.accounts[0] in x.signers && ReadConfigRecord(w.records[x.accounts[1]]).admin == x.accounts[0]
    ensures |x.data| == 75 && b == PolicyPut(w.records[x.accounts[1]], x.data)
    ensures var c := ReadConfigRecord(b);
            c == Config(x.accounts[0], KeyAt(x.data, 0), U16At(x.data, 32), U64At(x.data, 34), KeyAt(x.data, 42),
                x.data[74], c.bump) && c.feeBps <= BPS_DENOM
    ensures Live(w.records[x.accounts[1]]) && Live(b)
    ensures Run(e, w, x, UpdateConfig(e, w, x)).value == w.(records := w.records[x.accounts[1] := b])
  {
    hide UpdateConfig, Exec, PolicyPut;
    var p := UpdateConfigShape(e, x, w);
    b := PolicyPut(w.records[p.key], x.data);
    PolicyReadsBack(w.records[p.key], x.data);
    ConfigParty(b);
    OneWrite(e, x.signers, w, p.key, b);
  }

  lemma RewrapRewrites(e: Env, x: Ix, w: World) returns (k: Basket, b: seq<byte>)
    requires ValidEnv(e) && ValidIx(e, x) && Inv(e, w) && Run(e, w, x, Baskets.Rewrap(e, w, x)).Ok?
    ensures |x.data| == 64 && |x.accounts| == 2 && x.accounts[0] in x.signers && x.accounts[1] in w.records
        && |w.records[x.accounts[1]]| == BASKET_LEN
    ensures k == ReadBasket(w.records[x.accounts[1]]) && k.authMode == AUTH_BEARER
        && e.hash(x.accounts[0]) == k.claimAuth
    ensures |b| == BASKET_LEN && b == PutClaim(w.records[x.accounts[1]], KeyAt(x.data, 32))
    ensures ReadBasket(b) == k.(claimAuth := KeyAt(x.data, 32))
    ensures Run(e, w, x, Baskets.Rewrap(e, w, x)).value == w.(records := w.records[x.accounts[1] := b])
    ensures Live(w.records[x.accounts[1]]) && Live(b)
  {
    hide Baskets.Rewrap, Exec, PutClaim, Inv, ReadBasket;
    k := RewrapShape(e, x, w);
    var before := w.records[x.accounts[1]];
    b := PutClaim(before, KeyAt(x.data, 32));
    RewrapChangesOnlyTheClaim(before, KeyAt(x.data, 32));
    OneWrite(e, x.signers, w, x.accounts[1], b);
    BasketParty(before);
    BasketParty(b);
    RederivedIsLive(e, w, x.accounts[1], BasketSeed(k.maker, KeyAt(x.data, 0)),
        Find(e.derive, BasketSeed(k.maker, KeyAt(x.data, 0))).value.bump);
  }

  // ---- every instruction ----

  lemma RefundsEnd(e: Env, x: Ix, w: World, tag: byte)
    requires ValidEnv(e) && Inv(e, w)
    ensures tag == 2 && Run(e, w, x, Swaps.CancelSwap(e, w, x)).Ok?
        ==> RecordEffect(w, 2, x, Run(e, w, x, Swaps.CancelSwap(e, w, x)).value)
    ensures tag == 3 && Run(e, w, x, Swaps.Expire(e, w, x)).Ok?
        ==> RecordEffect(w, 3, x, Run(e, w, x, Swaps.Expire(e, w, x)).value)
  {
    hide Inv, RecordEffect, Swaps.CancelSwap, Swaps.Expire, Refunds, Exec;
    if tag == 2 && Run(e, w, x, Swaps.CancelSwap(e, w, x)).Ok? {
      var s := CancelSwapShape(e, x, w);
      RefundEnds(e, x, w, Swaps.CancelSwap(e, w, x), s, x.data, x.accounts[4], 2);
    }
    if tag == 3 && Run(e, w, x, Swaps.Expire(e, w, x)).Ok? {
      var s := ExpireShape(e, x, w);
      RefundEnds(e, x, w, Swaps.Expire(e, w, x), s, x.data, x.accounts[5], 3);
    }
  }

  lemma BidRefundsEnd(e: Env, x: Ix, w: World, tag: byte)
    requires ValidEnv(e) && Inv(e, w)
    ensures tag == 6 && Run(e, w, x, Offers.WithdrawOffer(e, w, x)).Ok?
        ==> RecordEffect(w, 6, x, Run(e, w, x, Offers.WithdrawOffer(e, w, x)).value)
    ensures tag == 7 && Run(e, w, x, Offers.ExpireOffer(e, w, x)).Ok?
        ==> RecordEffect(w, 7, x, Run(e, w, x, Offers.ExpireOffer(e, w, x)).value)
  {
    hide Inv, RecordEffect, Offers.WithdrawOffer, Offers.ExpireOffer, RefundsBid, Exec;
    if tag == 6 && Run(e, w, x, Offers.WithdrawOffer(e, w, x)).Ok? {
      var o := WithdrawOfferShape(e, x, w);
      BidRefundEnds(e, x, w, Offers.WithdrawOffer(e, w, x), o, x.data, x.accounts[4], 6);
    }
    if tag == 7 && Run(e, w, x, Offers.ExpireOffer(e, w, x)).Ok? {
      var o := ExpireOfferShape(e, x, w);
      BidRefundEnds(e, x, w, Offers.ExpireOffer(e, w, x), o, x.data, x.accounts[5], 7);
    }
  }

  /** One record was created, holding these bytes. */
  ghost predicate Opened(w: World, v: World, k: Key, b: seq<byte>) {
    k !in w.records && v.records == w.records[k := b]
  }

  lemma OpeningEffect(w: World, tag: byte, x: Ix, v: World, k: Key, b: seq<byte>)
    requires Opens(tag, x) == {k} && Ends(tag, x) == {} && Rewrites(tag, x) == {} && Opened(w, v, k, b)
    requires |b| == OpenedLength(tag) && (Live(b) || tag == 38 || tag == 41)
    ensures RecordEffect(w, tag, x, v)
  {
    hide Live;
  }

  lemma RewriteEffect(w: World, tag: byte, x: Ix, v: World, k: Key, b: seq<byte>)
    requires Opens(tag, x) == {} && Ends(tag, x) == {} && Rewrites(tag, x) == {k}
    requires k in w.records && Live(w.records[k]) && Live(b)
        && |b| == |w.records[k]| == (if tag == 15 then BASKET_LEN else CONFIG_LEN) && v.records == w.records[k := b]
    ensures RecordEffect(w, tag, x, v)
  {
    hide Live;
  }

  lemma SettleOrderOpens(e: Env, x: Ix, w: World)
    requires ValidEnv(e) && ValidIx(e, x) && Inv(e, w) && Run(e, w, x, Orders.SettleSignedOrder(e, w, x)).Ok?
    ensures |x.accounts| >= 15 && |x.data| == 90 && Find(e.derive, DoneSeed(x.accounts[1], KeyAt(x.data, 56))).Ok?
        && x.accounts[9] == Address(e.derive, DoneSeed(x.accounts[1], KeyAt(x.data, 56)))
    ensures Opened(w, Run(e, w, x, Orders.SettleSignedOrder(e, w, x)).value, x.accounts[9], Zeros(MARKER_LEN))
  {
    hide Inv, Orders.SettleSignedOrder, Exec, OrderRoyalty, Orders.OrderChecks;
    var t, auth, done := SettleOrderShape(e, x, w);
    SettleOrderKeepsInv(e, x, w);
  }

  lemma SettleBidOpens(e: Env, x: Ix, w: World)
    requires ValidEnv(e) && ValidIx(e, x) && Inv(e, w) && Run(e, w, x, Orders.SettleSignedBid(e, w, x)).Ok?
    ensures |x.accounts| == 16 && |x.data| == 90 && Find(e.derive, DoneSeed(x.accounts[1], KeyAt(x.data, 56))).Ok?
        && x.accounts[10] == Address(e.derive, DoneSeed(x.accounts[1], KeyAt(x.data, 56)))
    ensures Opened(w, Run(e, w, x, Orders.SettleSignedBid(e, w, x)).value, x.accounts[10], Zeros(MARKER_LEN))
  {
    hide Inv, Orders.SettleSignedBid, Exec, PriceOps, Orders.BidChecks;
    var t, auth, done := SettleBidShape(e, x, w);
    SettleBidKeepsInv(e, x, w);
  }

  lemma TradesOpen(e: Env, w: World, tag: byte, x: Ix)
    requires ValidEnv(e) && ValidIx(e, x) && Inv(e, w) && Step(e, w, tag, x).Ok? && tag in {0, 4, 26}
    ensures RecordEffect(w, tag, x, Step(e, w, tag, x).value)
  {
    hide Inv, ValidIx, ValidEnv, Exec, RecordEffect, Live, SwapImage, OfferImage, ListingImage, ReadSwap, ReadOffer,
        U64At, I64At,
         Swaps.OpenSwap, Offers.MakeOffer, Listings.List;
    var v, a := Step(e, w, tag, x).value, x.accounts;
    match tag
    case 0 => { var s := OpenSwapOpens(e, x, w); OpeningEffect(w, tag, x, v, a[1], SwapImage(s)); }
    case 4 => { var o, s := MakeOfferOpens(e, x, w); OpeningEffect(w, tag, x, v, a[1], OfferImage(o)); }
    case 26 => { var s := ListOpens(e, x, w); OpeningEffect(w, tag, x, v, a[1], ListingImage(s)); }
  }

  lemma OthersOpen(e: Env, w: World, tag: byte, x: Ix)
    requires ValidEnv(e) && ValidIx(e, x) && Inv(e, w) && Step(e, w, tag, x).Ok? && tag in {8, 12, 38, 41}
    ensures RecordEffect(w, tag, x, Step(e, w, tag, x).value)
  {
    hide Inv, ValidIx, ValidEnv, Exec, RecordEffect, Live, ReadBasket, ReadConfigRecord, U64At, Baskets.PayloadFits,
         InitConfig, Baskets.OpenBasket, Orders.SettleSignedOrder, Orders.SettleSignedBid;
    var v, a := Step(e, w, tag, x).value, x.accounts;
    match tag
    case 8 => { var c, b := InitConfigOpens(e, x, w); OpeningEffect(w, tag, x, v, a[1], b); }
    case 12 => { var k, b := OpenBasketOpens(e, x, w); OpeningEffect(w, tag, x, v, a[1], b); }
    case 38 => { SettleOrderOpens(e, x, w); OpeningEffect(w, tag, x, v, a[9], Zeros(MARKER_LEN)); }
    case 41 => { SettleBidOpens(e, x, w); OpeningEffect(w, tag, x, v, a[10], Zeros(MARKER_LEN)); }
  }

  lemma RewritesRewrite(e: Env, w: World, tag: byte, x: Ix)
    requires ValidEnv(e) && ValidIx(e, x) && Inv(e, w) && Step(e, w, tag, x).Ok? && tag in {9, 15}
    ensures RecordEffect(w, tag, x, Step(e, w, tag, x).value)
  {
    hide Inv, ValidEnv, Live, ReadBasket, UpdateConfig, Baskets.Rewrap, Exec, RecordEffect;
    var v, a := Step(e, w, tag, x).value, x.accounts;
    if tag == 9 {
      var b := RewritesConfig(e, x, w);
      RewriteEffect(w, tag, x, v, a[1], b);
    } else {
      var k, b := RewrapRewrites(e, x, w);
      RewriteEffect(w, tag, x, v, a[1], b);
    }
  }

  lemma SameRecords(w: World, tag: byte, x: Ix, v: World)
    requires Opens(tag, x) == {} && Ends(tag, x) == {} && Rewrites(tag, x) == {} && v.records == w.records
    ensures RecordEffect(w, tag, x, v)
  {
  }

  lemma TokensOnly(e: Env, signers: set<Key>, w: World, ops: seq<Op>, auths: set<Key>)
    requires AllConfined(ops, auths, {}) && Exec(e, signers, w, ops).Ok?
    ensures Exec(e, signers, w, ops).value.records == w.records
  {
    ExecRecords(e, signers, w, ops);
    NoRecordEffects(w.records, ops, auths);
  }

  lemma FeeVaultsKeepRecords(e: Env, w: World, tag: byte, x: Ix)
    requires Step(e, w, tag, x).Ok? && tag in {10, 11}
    ensures RecordEffect(w, tag, x, Step(e, w, tag, x).value)
  {
    hide InitFeeVault, SweepFees, Exec, RecordEffect;
    if tag == 10 {
      var p, cfg := InitFeeVaultShape(e, x, w);
      TokensOnly(e, x.signers, w, InitFeeVault(e, w, x).value, {});
    } else {
      var vault, mint, dest, cfg := SweepFeesShape(e, x, w);
      TokensOnly(e, x.signers, w, SweepFees(e, w, x).value, {cfg.key});
    }
    SameRecords(w, tag, x, Step(e, w, tag, x).value);
  }

  /** Every instruction opens only absent records, ends and rewrites only live ones, and touches no others. */
  lemma StepRecordEffect(e: Env, w: World, tag: byte, x: Ix)
    requires ValidEnv(e) && ValidIx(e, x) && Inv(e, w) && Step(e, w, tag, x).Ok?
    ensures RecordEffect(w, tag, x, Step(e, w, tag, x).value)
  {
    hide Inv, ValidIx, ValidEnv, Exec, RecordEffect;
    match tag
    case 1 => FillEnds(e, x, w);
    case 2 => RefundsEnd(e, x, w, 2);
    case 3 => RefundsEnd(e, x, w, 3);
    case 5 => AcceptEnds(e, x, w);
    case 6 => BidRefundsEnd(e, x, w, 6);
    case 7 => BidRefundsEnd(e, x, w, 7);
    case 13 => FillBasketEnds(e, x, w);
    case 14 => ClaimEnds(e, x, w);
    case 16 => CancelBasketEnds(e, x, w);
    case 17 => ExpireBasketEnds(e, x, w);
    case 27 => FillListingEnds(e, x, w);
    case 28 => CancelListingEnds(e, x, w);
    case 29 => ExpireListingEnds(e, x, w);
    case 0 => TradesOpen(e, w, tag, x);
    case 4 => TradesOpen(e, w, tag, x);
    case 8 => OthersOpen(e, w, tag, x);
    case 12 => OthersOpen(e, w, tag, x);
    case 26 => TradesOpen(e, w, tag, x);
    case 38 => OthersOpen(e, w, tag, x);
    case 41 => OthersOpen(e, w, tag, x);
    case 9 => RewritesRewrite(e, w, tag, x);
    case 10 => FeeVaultsKeepRecords(e, w, tag, x);
    case 11 => FeeVaultsKeepRecords(e, w, tag, x);
    case 15 => RewritesRewrite(e, w, tag, x);
    case _ =>
  }
}
