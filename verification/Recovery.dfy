/** When an escrow can be recovered: a record ends only while its vaults hold exactly what it records, and a vault
    that holds more keeps its record open for good. */
module Recovery {
  import opened Prelude
  import opened Bytes
  import opened Seeds
  import opened Layout
  import opened Ledger
  import opened FeeConfig
  import opened Payments
  import opened Machine
  import opened Shapes
  import opened Invariant
  import opened Runs
  import opened Lifecycle
  import opened Histories
  import opened Effects
  import opened BasketEffects
  import opened RoyaltySettlement
  import opened Balances
  import opened Authorities
  import Swaps
  import Offers
  import Baskets
  import Listings

  // ---- what a live record has in its vaults ----

  /** The address of a record that locks something derives from an escrow seed. */
  lemma EscrowHome(e: Env, w: World, k: Key) returns (s: Seed, bump: byte)
    requires Inv(e, w) && k in w.records && Live(w.records[k]) && Legs(e, k, w.records[k]) != []
    ensures IsEscrowSeed(s) && Create(e.derive, s, bump) == Some(k)
  {
    hide ReadSwap, ReadOffer, ReadBasket, Live, Backed, Homed, Create, GiveEntry;
    var b := w.records[k];
    if |b| == SWAP_LEN {
      s, bump := SwapSeed(ReadSwap(b).maker, ReadSwap(b).nonce), ReadSwap(b).bump;
    } else if |b| == OFFER_LEN {
      s, bump := OfferSeed(ReadOffer(b).offerer, ReadOffer(b).nonce), ReadOffer(b).bump;
    } else {
      s, bump := BasketSeed(ReadBasket(b).maker, ReadBasket(b).nonce), ReadBasket(b).bump;
    }
  }

  lemma LegHolds(e: Env, w: World, k: Key, i: nat)
    requires Inv(e, w) && k in w.records && Live(w.records[k]) && i < |Legs(e, k, w.records[k])|
    ensures var leg := Legs(e, k, w.records[k])[i];
            Holds(w.tokens, leg.vault, k, leg.mint, leg.amount) && leg.amount <= Balance(w, leg.vault)
  {
    hide Legs, Homed, WellFormed, Live;
    assert RecordOk(e, w.tokens, k, w.records[k]);
  }

  // ---- an ending takes exactly the backing ----

  /** A vault that pays out its recorded amount and closes held exactly that, and nothing came in. */
  lemma ClosedExactly(e: Env, w: World, tag: byte, x: Ix, vault: Key, amount: nat)
    requires Step(e, w, tag, x).Ok? && vault !in Step(e, w, tag, x).value.tokens && amount <= Balance(w, vault)
    requires |w.log| <= |Step(e, w, tag, x).value.log|
    requires Outflow(MovesBetween(w, Step(e, w, tag, x).value), vault) == amount
    ensures Balance(w, vault) == amount
  {
    hide Step, Outflow, Inflow;
    StepBalances(e, w, tag, x, vault);
  }

  lemma LoggedMoves(w: World, v: World, moves: seq<Move>)
    requires v.log == w.log + moves
    ensures |w.log| <= |v.log| && MovesBetween(w, v) == moves
  {
  }

  lemma SwapLeg(e: Env, w: World, k: Key, nonce: Key)
    requires ValidEnv(e) && Inv(e, w) && k in w.records && Live(w.records[k]) && |w.records[k]| == SWAP_LEN
    requires var s := ReadSwap(w.records[k]); Create(e.derive, SwapSeed(s.maker, nonce), s.bump) == Some(k)
    ensures var s := ReadSwap(w.records[k]);
            Legs(e, k, w.records[k]) == [Leg(Address(e.derive, VaultSeed(s.maker, nonce)), s.giveMint, s.giveAmount)]
  {
    hide ReadSwap, Live, Inv, Holds, Create;
    OpenSwapIsBacked(e, w, ReadSwap(w.records[k]).maker, nonce, ReadSwap(w.records[k]).bump, k);
  }

  lemma BidLeg(e: Env, w: World, k: Key, nonce: Key)
    requires ValidEnv(e) && Inv(e, w) && k in w.records && Live(w.records[k]) && |w.records[k]| == OFFER_LEN
    requires var o := ReadOffer(w.records[k]);
             Find(e.derive, OfferSeed(o.offerer, nonce)).Ok? && k == Address(e.derive, OfferSeed(o.offerer, nonce))
    ensures var o := ReadOffer(w.records[k]);
            Legs(e, k, w.records[k]) == [Leg(Address(e.derive, OVaultSeed(o.offerer, nonce)), o.wantMint, o.wantAmount)]
  {
    hide ReadOffer, Live, Inv, Holds;
    var o := ReadOffer(w.records[k]);
    OpenBidIsBacked(e, w, o.offerer, nonce, Find(e.derive, OfferSeed(o.offerer, nonce)).value.bump, k);
  }

  /** The one leg of a refunded record: its vault pays one transfer and closes. */
  lemma RefundIsExact(e: Env, w: World, tag: byte, x: Ix, k: Key, leg: Leg, move: Move)
    requires Inv(e, w) && Step(e, w, tag, x).Ok? && k in w.records && Live(w.records[k])
        && Legs(e, k, w.records[k]) == [leg]
    requires var v := Step(e, w, tag, x).value; v.log == w.log + [move] && leg.vault !in v.tokens
    requires move.src == leg.vault && move.amount == leg.amount
    ensures Balance(w, leg.vault) == leg.amount
  {
    hide Step, Legs, Live, Inv, Outflow, Balance;
    LegHolds(e, w, k, 0);
    LoggedMoves(w, Step(e, w, tag, x).value, [move]);
    OneFlow(move, leg.vault);
    ClosedExactly(e, w, tag, x, leg.vault, leg.amount);
  }

  /** Every vault of the record holds exactly the amount the record names. */
  predicate LegsExact(e: Env, w: World, k: Key)
    requires k in w.records
  {
    forall i :: 0 <= i < |Legs(e, k, w.records[k])| ==>
        Balance(w, Legs(e, k, w.records[k])[i].vault) == Legs(e, k, w.records[k])[i].amount
  }

  lemma SwapRefundIsExact(e: Env, w: World, tag: byte, x: Ix)
    requires ValidEnv(e) && Inv(e, w) && tag in {2, 3} && Step(e, w, tag, x).Ok?
    requires |x.accounts| > 1 && x.accounts[1] in w.records && Live(w.records[x.accounts[1]])
    ensures LegsExact(e, w, x.accounts[1])
  {
    hide Swaps.CancelSwap, Swaps.Expire, ReadSwap, IsTokenAccount, Exec, Inv, Live, Legs, Create, Find, Balance;
    var t: Swap, dst: Key := SwapRefunds(e, w, tag, x);
    var s;
    if tag == 2 {
      s := CancelSwapShape(e, x, w);
    } else {
      s := ExpireShape(e, x, w);
    }
    SwapLeg(e, w, x.accounts[1], x.data);
    RefundIsExact(e, w, tag, x, x.accounts[1], Leg(x.accounts[2], s.giveMint, s.giveAmount),
        Move(x.accounts[2], s.giveMint, dst, x.accounts[1], s.giveAmount));
  }

  lemma BidRefundIsExact(e: Env, w: World, tag: byte, x: Ix)
    requires ValidEnv(e) && Inv(e, w) && tag in {6, 7} && Step(e, w, tag, x).Ok?
    requires |x.accounts| > 1 && x.accounts[1] in w.records && Live(w.records[x.accounts[1]])
    ensures LegsExact(e, w, x.accounts[1])
  {
    hide Offers.WithdrawOffer, Offers.ExpireOffer, ReadOffer, IsTokenAccount, Exec, Inv, Live, Legs, Find, Balance;
    var t: Offer, dst: Key := BidRefunds(e, w, tag, x);
    var o;
    if tag == 6 {
      o := WithdrawOfferShape(e, x, w);
    } else {
      o := ExpireOfferShape(e, x, w);
    }
    BidLeg(e, w, x.accounts[1], x.data);
    RefundIsExact(e, w, tag, x, x.accounts[1], Leg(x.accounts[2], o.wantMint, o.wantAmount),
        Move(x.accounts[2], o.wantMint, dst, x.accounts[1], o.wantAmount));
  }

  lemma FillIsExact(e: Env, w: World, x: Ix)
    requires ValidEnv(e) && ValidIx(e, x) && Inv(e, w) && Run(e, w, x, Swaps.Fill(e, w, x)).Ok?
    requires |x.accounts| > 1 && x.accounts[1] in w.records && Live(w.records[x.accounts[1]])
    ensures LegsExact(e, w, x.accounts[1])
  {
    hide Swaps.Fill, ReadSwap, IsTokenAccount, Exec, Inv, Live, Legs, Create, Find, Balance, PriceOps, PriceMoves,
        ReadConfig, ValidIx, ValidEnv, Swaps.ReleaseOps, Moves, Outflow, AllConfined, Spares, Holds;
    var t, d := FillSettles(e, w, x);
    var s, c, nonce := FillShape(e, x, w);
    var a := x.accounts;
    var leg := Leg(a[2], s.giveMint, s.giveAmount);
    SwapLeg(e, w, a[1], nonce);
    LegHolds(e, w, a[1], 0);
    var pay := PriceOps(e, w, c, a[6], s.wantMint, a[11], a[8], Signer(a[0]), s.wantAmount, nonce[0]);
    var rest := Swaps.ReleaseOps(a[2], s.giveMint, a[7], s.giveAmount, Seeded(a[1], SwapSeed(s.maker, nonce), s.bump))
        + [Wipe(a[1])];
    PriceConfined(e, w, c, a[6], s.wantMint, a[11], a[8], Signer(a[0]), s.wantAmount, nonce[0]);
    TakerSpares(e, x, pay, a[0], a[1], SwapSeed(s.maker, nonce), s.bump);
    PriceOpsMoves(e, w, c, a[6], s.wantMint, a[11], a[8], Signer(a[0]), s.wantAmount, nonce[0]);
    assert Swaps.Fill(e, w, x).value == pay + rest;
    ExecSplit(e, x.signers, w, pay, rest);
    NothingLeaves(e, x.signers, w, pay, a[2], a[1], s.giveMint, s.giveAmount);
    var paid, sale := PriceMoves(c, a[6], s.wantMint, a[11], a[8], a[0], s.wantAmount),
        Move(a[2], s.giveMint, a[7], a[1], s.giveAmount);
    FlowsSplit(paid, [sale], a[2]);
    OneFlow(sale, a[2]);
    SwapPlans(e, w, x);
    LoggedMoves(w, Run(e, w, x, Swaps.Fill(e, w, x)).value, paid + [sale]);
    ClosedExactly(e, w, 1, x, a[2], s.giveAmount);
  }

  lemma VaultsApart(e: Env, maker: Key, sn: Key, bidder: Key, on: Key)
    requires ValidEnv(e) && Find(e.derive, VaultSeed(maker, sn)).Ok? && Find(e.derive, OVaultSeed(bidder, on)).Ok?
    ensures Address(e.derive, VaultSeed(maker, sn)) != Address(e.derive, OVaultSeed(bidder, on))
  {
    var p, q := Find(e.derive, VaultSeed(maker, sn)).value, Find(e.derive, OVaultSeed(bidder, on)).value;
    if p.key == q.key {
      OneHome(e.derive, VaultSeed(maker, sn), p.bump, OVaultSeed(bidder, on), q.bump);
    }
  }

  /** The canonical address of a live swap's maker and nonce is the one its record stores the bump of. */
  lemma SwapAddress(e: Env, w: World, k: Key, maker: Key, nonce: Key)
    requires ValidEnv(e) && Inv(e, w) && k in w.records && Live(w.records[k]) && |w.records[k]| == SWAP_LEN
    requires Find(e.derive, SwapSeed(maker, nonce)).Ok? && k == Address(e.derive, SwapSeed(maker, nonce))
    ensures ReadSwap(w.records[k]).maker == maker
        && Create(e.derive, SwapSeed(maker, nonce), ReadSwap(w.records[k]).bump) == Some(k)
  {
    hide ReadSwap, Live, Legs, Backed, Homed;
    var s, bump := ReadSwap(w.records[k]), Find(e.derive, SwapSeed(maker, nonce)).value.bump;
    assert WellFormed(e, k, w.records[k]);
    if Create(e.derive, SwapSeed(s.maker, s.nonce), s.bump) == Some(k) {
      OneHome(e.derive, SwapSeed(maker, nonce), bump, SwapSeed(s.maker, s.nonce), s.bump);
    } else {
      OneHome(e.derive, SwapSeed(maker, nonce), bump, ListingSeed(s.maker, s.nonce), s.bump);
    }
  }

  lemma AcceptIsExact(e: Env, w: World, x: Ix)
    requires ValidEnv(e) && Inv(e, w) && Run(e, w, x, Offers.AcceptOffer(e, w, x)).Ok?
    requires |x.accounts| > 3 && x.accounts[1] in w.records && Live(w.records[x.accounts[1]])
    requires x.accounts[3] in w.records && Live(w.records[x.accounts[3]])
    ensures LegsExact(e, w, x.accounts[1]) && LegsExact(e, w, x.accounts[3])
  {
    hide Offers.AcceptOffer, ReadSwap, ReadOffer, IsTokenAccount, Exec, Inv, Live, Legs, Create, Balance, PriceMoves,
        ReadConfig, ValidEnv, Moves, Outflow, Holds, Find, Total;
    var s, o, c := AcceptSettles(e, w, x);
    var t, p, d, sn, on := AcceptOfferShape(e, x, w);
    var a := x.accounts;
    SwapAddress(e, w, a[1], s.maker, sn);
    SwapLeg(e, w, a[1], sn);
    BidLeg(e, w, a[3], on);
    LegHolds(e, w, a[1], 0);
    LegHolds(e, w, a[3], 0);
    VaultsApart(e, s.maker, sn, o.offerer, on);
    ConfigRateFits(e, w, a[11], c, o.wantAmount);
    PriceMovesTotal(c, a[4], o.wantMint, a[12], a[9], a[3], o.wantAmount);
    PriceMovesAuth(c, a[4], o.wantMint, a[12], a[9], a[3], o.wantAmount);
    var paid, goods := PriceMoves(c, a[4], o.wantMint, a[12], a[9], a[3], o.wantAmount),
        Move(a[2], o.giveMint, a[8], a[1], o.giveAmount);
    OneSource(paid, a[4], a[4]);
    OneSource(paid, a[4], a[2]);
    FlowsSplit(paid, [goods], a[4]);
    FlowsSplit(paid, [goods], a[2]);
    OneFlow(goods, a[4]);
    OneFlow(goods, a[2]);
    SwapPlans(e, w, x);
    LoggedMoves(w, Run(e, w, x, Offers.AcceptOffer(e, w, x)).value, paid + [goods]);
    ClosedExactly(e, w, 5, x, a[4], o.wantAmount);
    ClosedExactly(e, w, 5, x, a[2], s.giveAmount);
  }

  lemma BasketLegIs(e: Env, k: Key, b: seq<byte>, i: nat)
    requires |b| == BASKET_LEN && ReadBasket(b).giveCount <= MAX_LEG && i < ReadBasket(b).giveCount
    ensures |Legs(e, k, b)| == ReadBasket(b).giveCount && Legs(e, k, b)[i] == BasketLeg(e, b, i)
  {
    hide ReadBasket;
  }

  lemma BasketIsExact(e: Env, w: World, tag: byte, x: Ix, base: nat, k: Key, nonce: Key, h: Basket, auth: Authority,
      before: seq<Move>)
    requires ValidEnv(e) && Inv(e, w) && Step(e, w, tag, x).Ok? && Settles(e, w, k, nonce, h, auth) && x.data == nonce
    requires h.giveCount <= MAX_LEG && |x.accounts| >= base + h.giveCount * 3
    requires ReleasesAll(e, w, Step(e, w, tag, x).value, x, w.records[k], base, k, before)
    ensures LegsExact(e, w, k)
  {
    hide Step, ReadBasket, Inv, Live, GiveEntry, Balance, Outflow, UnlockMoves, Create, Holds;
    var b, v := w.records[k], Step(e, w, tag, x).value;
    BasketParty(b);
    RederivedIsLive(e, w, k, BasketSeed(h.maker, nonce), h.bump);
    OpenBasketIsBacked(e, w, h.maker, nonce, h.bump, k, 0);
    var moves := before + UnlockMoves(e, x, b, x.data, base, k, 0);
    assert v.log == w.log + moves;
    LoggedMoves(w, v, moves);
    var legs := Legs(e, k, b);
    forall i | 0 <= i < |legs|
      ensures Balance(w, legs[i].vault) == legs[i].amount
    {
      LegHolds(e, w, k, i);
      BasketLegIs(e, k, b, i);
      assert legs[i].vault == LegVault(e, b, x.data, i);
      ClosedExactly(e, w, tag, x, legs[i].vault, legs[i].amount);
    }
  }

  lemma BasketEndingIsExact(e: Env, w: World, tag: byte, x: Ix, k: Key)
    requires ValidEnv(e) && ValidIx(e, x) && Inv(e, w) && tag in {13, 14, 16, 17} && Step(e, w, tag, x).Ok?
    requires k in Ends(tag, x) && k in w.records
    ensures LegsExact(e, w, k)
  {
    hide Step, Baskets.FillBasket, Baskets.ClaimBearer, Baskets.CancelBasket, Baskets.ExpireBasket, ReadBasket, Inv,
        ReleasesAll, ValidEnv, ValidIx, LegsExact, Exec, Settles, IsTokenAccount, GiveEntry, ReadConfig, PaysMaker,
        PayMoves;
    BasketPlans(e, w, x);
    match tag
    case 13 => {
      var h, c := BasketFillSettles(e, w, x);
      var g, d, auth := FillBasketShape(e, x, w);
      BasketIsExact(e, w, tag, x, 5, k, x.data, h, auth, PayMoves(x, c, w.records[k], 0));
    }
    case 14 => {
      var h := BearerClaimReleases(e, w, x);
      var g, auth := ClaimBearerShape(e, x, w);
      BasketIsExact(e, w, tag, x, 5, k, x.data, h, auth, []);
    }
    case 16 => {
      var h := BasketCancelReturns(e, w, x);
      var g, auth := CancelBasketShape(e, x, w);
      BasketIsExact(e, w, tag, x, 6, k, x.data, h, auth, []);
    }
    case 17 => {
      var h := BasketExpiryReturns(e, w, x);
      var g, auth := ExpireBasketShape(e, x, w);
      BasketIsExact(e, w, tag, x, 4, k, x.data, h, auth, []);
    }
  }

  lemma BothEnd(w: World, x: Ix)
    ensures |x.accounts| > 3 ==> x.accounts[1] in Ends(5, x) && x.accounts[3] in Ends(5, x)
  {
  }

  /** A listing locks nothing. */
  lemma ListingIsExact(e: Env, w: World, tag: byte, x: Ix, k: Key)
    requires ValidEnv(e) && Step(e, w, tag, x).Ok? && tag !in {1, 2, 3, 5, 6, 7, 13, 14, 16, 17} && k in Ends(tag, x)
        && k in w.records
    ensures LegsExact(e, w, k)
  {
    hide Listings.FillListing, Listings.CancelListing, Listings.ExpireListing, ReadSwap, Exec, Create, ReadOffer,
        ReadBasket;
    match tag
    case 27 => {
      var s, nonce := FillListingShape(e, x, w);
      ListingLocksNothing(e, k, w.records[k], nonce, s.bump);
    }
    case 28 => {
      var s := CancelListingShape(e, x, w);
      ListingLocksNothing(e, k, w.records[k], x.data, Find(e.derive, ListingSeed(s.maker, x.data)).value.bump);
    }
    case 29 => {
      var s := ExpireListingShape(e, x, w);
      ListingLocksNothing(e, k, w.records[k], x.data, Find(e.derive, ListingSeed(s.maker, x.data)).value.bump);
    }
    case _ =>
  }

  /** Whatever ends a record, however it ends: each of its vaults held exactly the amount the record names. */
  lemma EndingsAreExact(e: Env, w: World, tag: byte, x: Ix, k: Key)
    requires ValidEnv(e) && ValidIx(e, x) && Inv(e, w) && Step(e, w, tag, x).Ok? && k in Ends(tag, x)
    ensures k in w.records && Live(w.records[k]) && LegsExact(e, w, k)
  {
    hide Step, Inv, ValidEnv, ValidIx, LegsExact, Live, Swaps.Fill, Offers.AcceptOffer, Exec;
    StepRecordEffect(e, w, tag, x);
    if tag in {2, 3} {
      SwapRefundIsExact(e, w, tag, x);
    } else if tag in {6, 7} {
      BidRefundIsExact(e, w, tag, x);
    } else if tag == 1 {
      SwapPlans(e, w, x);
      FillIsExact(e, w, x);
    } else if tag == 5 {
      SwapPlans(e, w, x);
      BothEnd(w, x);
      AcceptIsExact(e, w, x);
    } else if tag in {13, 14, 16, 17} {
      BasketEndingIsExact(e, w, tag, x, k);
    } else {
      ListingIsExact(e, w, tag, x, k);
    }
  }

  // ---- a vault that holds more ----

  /** A live record one of whose vaults holds more than the record names. */
  ghost predicate Overfunded(e: Env, w: World, k: Key, i: nat) {
    && k in w.records && Live(w.records[k]) && i < |Legs(e, k, w.records[k])|
    && Legs(e, k, w.records[k])[i].amount < Balance(w, Legs(e, k, w.records[k])[i].vault)
  }

  lemma NotExact(e: Env, w: World, k: Key, i: nat)
    requires Overfunded(e, w, k, i)
    ensures !LegsExact(e, w, k)
  {
    hide Legs, Live, Balance;
  }

  lemma ConfigLocksNothing(e: Env, k: Key, b: seq<byte>)
    requires |b| == CONFIG_LEN
    ensures Legs(e, k, b) == []
  {
  }

  lemma RewrapKeepsLegs(e: Env, w: World, x: Ix)
    requires ValidEnv(e) && ValidIx(e, x) && Inv(e, w) && Step(e, w, 15, x).Ok? && |x.accounts| > 1
    ensures x.accounts[1] in w.records && x.accounts[1] in Step(e, w, 15, x).value.records
    ensures Legs(e, x.accounts[1], Step(e, w, 15, x).value.records[x.accounts[1]])
        == Legs(e, x.accounts[1], w.records[x.accounts[1]])
  {
    hide Step, Baskets.Rewrap, Exec, Inv, ValidIx, ValidEnv, Legs, Live, PutClaim, ReadBasket, WellFormed;
    BasketPlans(e, w, x);
    var k, b := RewrapRewrites(e, x, w);
    BearerIsLive(e, w, x.accounts[1]);
    RewrappedOk(e, x.accounts[1], w.records[x.accounts[1]], KeyAt(x.data, 32));
  }

  /** A record that is neither opened nor ended keeps its legs: only `rewrap` rewrites one that has any. */
  lemma StepKeepsLegs(e: Env, w: World, tag: byte, x: Ix, k: Key)
    requires ValidEnv(e) && ValidIx(e, x) && Inv(e, w) && Step(e, w, tag, x).Ok? && k !in Ends(tag, x)
    requires k in w.records && Live(w.records[k]) && Legs(e, k, w.records[k]) != []
    requires RecordEffect(w, tag, x, Step(e, w, tag, x).value)
    ensures var v := Step(e, w, tag, x).value;
            k in v.records && Live(v.records[k]) && Legs(e, k, v.records[k]) == Legs(e, k, w.records[k])
  {
    hide PlanOf, Exec, Inv, ValidIx, ValidEnv, Legs, Live, Ends, Opens;
    if k in Rewrites(tag, x) {
      if tag == 9 {
        ConfigLocksNothing(e, k, w.records[k]);
        assert false;
      } else {
        RewrapKeepsLegs(e, w, x);
      }
    }
  }

  lemma OverfundedLasts(e: Env, w: World, tag: byte, x: Ix, k: Key, i: nat)
    requires ValidEnv(e) && ValidIx(e, x) && Inv(e, w) && Step(e, w, tag, x).Ok? && Overfunded(e, w, k, i)
    ensures var v := Step(e, w, tag, x).value;
            Overfunded(e, v, k, i) && Legs(e, k, v.records[k]) == Legs(e, k, w.records[k])
  {
    hide PlanOf, Exec, Inv, ValidIx, ValidEnv, Legs, Live, Ends, Opens, Create, Spares, LegsExact;
    var v, leg := Step(e, w, tag, x).value, Legs(e, k, w.records[k])[i];
    if k in Ends(tag, x) {
      EndingsAreExact(e, w, tag, x, k);
      NotExact(e, w, k, i);
      assert false;
    }
    var s, bump := EscrowHome(e, w, k);
    StepSparesOthers(e, w, tag, x, k, s, bump);
    LegHolds(e, w, k, i);
    ExecKeepsHolding(e, x.signers, w, PlanOf(e, w, tag, x).value, leg.vault, k, leg.mint, Balance(w, leg.vault));
    StepRecordEffect(e, w, tag, x);
    StepKeepsLegs(e, w, tag, x, k);
  }

  lemma EscrowIsDerived(e: Env, k: Key, s: Seed, bump: byte)
    requires Create(e.derive, s, bump) == Some(k)
    ensures Derived(e.derive, k)
  {
  }

  lemma OverfundedOutside(e: Env, w: World, v: World, k: Key, i: nat)
    requires Inv(e, w) && Outside(e, w, v) && Overfunded(e, w, k, i)
    ensures Overfunded(e, v, k, i) && v.records[k] == w.records[k]
  {
    hide Legs, Live, Inv, RecordOk;
    OutsideKeepsPresence(e, w, v, k);
    LegHolds(e, w, k, i);
    var s, bump := EscrowHome(e, w, k);
    EscrowIsDerived(e, k, s, bump);
  }

  /** In every run, once a vault of an open record holds more than the record names, the record never ends: no fill,
      claim, acceptance, cancel, withdrawal or expiry is ever accepted on it again. */
  lemma {:induction false} OverfundedNeverEnds(e: Env, r: Trace, m: nat, n: nat, k: Key, i: nat)
    requires IsRun(e, r) && m <= n < |r.states| && Overfunded(e, r.states[m], k, i)
    ensures Overfunded(e, r.states[n], k, i)
        && Legs(e, k, r.states[n].records[k]) == Legs(e, k, r.states[m].records[k])
    ensures forall j :: m <= j < n && r.labels[j].Call? ==> k !in Ends(r.labels[j].tag, r.labels[j].x)
    decreases n
  {
    hide Inv, ValidIx, ValidEnv, Step, Overfunded, Outside, Ends, Legs, LegsExact, Live;
    if m < n {
      OverfundedNeverEnds(e, r, m, n - 1, k, i);
      var w, v := r.states[n - 1], r.states[n];
      RunKeepsInv(e, r, n - 1);
      assert Next(e, w, r.labels[n - 1], v);
      match r.labels[n - 1]
      case Call(tag, x) => {
        OverfundedLasts(e, w, tag, x, k, i);
        if k in Ends(tag, x) {
          EndingsAreExact(e, w, tag, x, k);
          NotExact(e, w, k, i);
          assert false;
        }
      }
      case Elsewhere => OverfundedOutside(e, w, v, k, i);
    }
  }

  lemma DrainedAreRecords(e: Env, w: World)
    requires Inv(e, w)
    ensures forall k :: k in w.drained ==> k in w.records
  {
  }

  /** From any state of any run with an open record, a user's transfer of one unit into one of its vaults is a run, and
      its record never ends after it: recovery is not in the hands of the one who locked the tokens alone. */
  lemma OneUnitKeepsItOpen(e: Env, r: Trace, k: Key, i: nat, src: Key, user: Key) returns (q: Trace)
    requires IsRun(e, r)
    requires var w := r.states[|r.labels|];
             && k in w.records && Live(w.records[k]) && i < |Legs(e, k, w.records[k])|
             && var leg := Legs(e, k, w.records[k])[i];
                IsTokenAccount(w, src, leg.mint, user) && !Derived(e.derive, user) && w.tokens[src].delegate.None?
                && 1 <= w.tokens[src].amount && Balance(w, leg.vault) + 1 < U64
    ensures IsRun(e, q) && q.labels == r.labels + [Elsewhere] && q.states[..|r.states|] == r.states
    ensures Overfunded(e, q.states[|r.states|], k, i)
  {
    hide Inv, ValidEnv, ValidIx, Step, Legs, Live, Outside, Genesis;
    var w := r.states[|r.labels|];
    RunKeepsInv(e, r, |r.labels|);
    var leg := Legs(e, k, w.records[k])[i];
    LegHolds(e, w, k, i);
    var s, bump := EscrowHome(e, w, k);
    EscrowIsDerived(e, k, s, bump);
    var t := TransferTokens(w.tokens, src, leg.mint, leg.vault, user, 1);
    assert t.Ok?;
    DrainedAreRecords(e, w);
    UserTransferIsOutside(e, w, src, leg.mint, leg.vault, user, 1);
    var v := w.(tokens := t.value);
    q := Trace(r.states + [v], r.labels + [Elsewhere]);
    assert Overfunded(e, v, k, i);
    forall j | 0 <= j < |q.labels|
      ensures Next(e, q.states[j], q.labels[j], q.states[j + 1])
    {
      if j < |r.labels| {
        assert Next(e, r.states[j], r.labels[j], r.states[j + 1]);
      }
    }
  }

  // ---- when a refund is accepted ----

  /** A vault pays out and closes exactly when it holds just the amount and the destination has room. */
  lemma ReleaseAcceptedExactly(e: Env, signers: set<Key>, w: World, vault: Key, mint: Key, dst: Key, amount: nat,
      auth: Authority, k: Key)
    requires Signed(e, signers, auth) && Holds(w.tokens, vault, auth.key, mint, amount) && k in w.records
    requires dst in w.tokens && w.tokens[dst].mint == mint && dst != vault
    ensures Exec(e, signers, w, Swaps.ReleaseOps(vault, mint, dst, amount, auth) + [Wipe(k)]).Ok?
        <==> Balance(w, vault) == amount && Balance(w, dst) + amount < U64
  {
    hide Signed;
    var move, close, wipe := Transfer(vault, mint, dst, auth, amount), CloseToken(vault, auth), Wipe(k);
    assert Swaps.ReleaseOps(vault, mint, dst, amount, auth) + [wipe] == [move] + ([close] + [wipe]);
    ExecAppend(e, signers, w, [move], [close] + [wipe]);
    OneOp(e, signers, w, move);
    var moved := Apply(e, signers, w, move);
    if moved.Ok? {
      ExecAppend(e, signers, moved.value, [close], [wipe]);
      OneOp(e, signers, moved.value, close);
      if Apply(e, signers, moved.value, close).Ok? {
        OneOp(e, signers, Apply(e, signers, moved.value, close).value, wipe);
      }
    }
  }

  lemma UserIsNotDerived(e: Env, w: World, k: Key)
    requires Inv(e, w) && k in w.records && Live(w.records[k])
    ensures |w.records[k]| == SWAP_LEN ==> !Derived(e.derive, ReadSwap(w.records[k]).maker)
    ensures |w.records[k]| == OFFER_LEN ==> !Derived(e.derive, ReadOffer(w.records[k]).offerer)
    ensures |w.records[k]| == OFFER_LEN ==> WellFormed(e, k, w.records[k])
  {
    hide ReadSwap, ReadOffer, ReadBasket, Live, Legs, Backed, Homed, Create;
  }

  lemma SwapRefundAccepted(e: Env, w: World, x: Ix, plan: Plan, s: Swap, nonce: Key, k: Key, vault: Key, dst: Key)
    requires ValidEnv(e) && Inv(e, w) && Refunds(e, w, plan, s, nonce, k, vault, dst)
    ensures Run(e, w, x, plan).Ok? <==> LegsExact(e, w, k) && Balance(w, dst) + s.giveAmount < U64
  {
    hide ReadSwap, Inv, Live, Legs, Create, Find, Balance, Exec, Swaps.ReleaseOps;
    SwapParty(w.records[k]);
    RederivedIsLive(e, w, k, SwapSeed(s.maker, nonce), s.bump);
    SwapLeg(e, w, k, nonce);
    LegHolds(e, w, k, 0);
    UserIsNotDerived(e, w, k);
    EscrowIsDerived(e, k, SwapSeed(s.maker, nonce), s.bump);
    ReleaseAcceptedExactly(e, x.signers, w, vault, s.giveMint, dst, s.giveAmount,
        Seeded(k, SwapSeed(s.maker, nonce), s.bump), k);
  }

  /** The canonical address of a live bid is the one its record stores the bump of. */
  lemma BidBump(e: Env, w: World, k: Key, o: Offer, nonce: Key)
    requires ValidEnv(e) && Inv(e, w) && k in w.records && |w.records[k]| == OFFER_LEN && o == ReadOffer(w.records[k])
    requires Find(e.derive, OfferSeed(o.offerer, nonce)).Ok? && k == Address(e.derive, OfferSeed(o.offerer, nonce))
    ensures Live(w.records[k]) && Create(e.derive, OfferSeed(o.offerer, nonce), o.bump) == Some(k)
  {
    hide ReadOffer, Inv, Live;
    var bump := Find(e.derive, OfferSeed(o.offerer, nonce)).value.bump;
    OfferParty(w.records[k]);
    RederivedIsLive(e, w, k, OfferSeed(o.offerer, nonce), bump);
    UserIsNotDerived(e, w, k);
    OneHome(e.derive, OfferSeed(o.offerer, nonce), bump, OfferSeed(o.offerer, o.nonce), o.bump);
  }

  lemma BidRefundAccepted(e: Env, w: World, x: Ix, plan: Plan, o: Offer, nonce: Key, k: Key, vault: Key, dst: Key)
    requires ValidEnv(e) && Inv(e, w) && RefundsBid(e, w, plan, o, nonce, k, vault, dst)
    ensures Run(e, w, x, plan).Ok? <==> LegsExact(e, w, k) && Balance(w, dst) + o.wantAmount < U64
  {
    hide ReadOffer, Inv, Live, Legs, Balance, Exec, Swaps.ReleaseOps, Create, Find, WellFormed;
    OfferParty(w.records[k]);
    BidBump(e, w, k, o, nonce);
    BidLeg(e, w, k, nonce);
    LegHolds(e, w, k, 0);
    UserIsNotDerived(e, w, k);
    EscrowIsDerived(e, k, OfferSeed(o.offerer, nonce), o.bump);
    ReleaseAcceptedExactly(e, x.signers, w, vault, o.wantMint, dst, o.wantAmount,
        Seeded(k, OfferSeed(o.offerer, nonce), o.bump), k);
  }

  lemma RefundedLeg(e: Env, w: World, plan: Plan, s: Swap, nonce: Key, k: Key, vault: Key, dst: Key)
    requires ValidEnv(e) && Inv(e, w) && Refunds(e, w, plan, s, nonce, k, vault, dst)
    ensures k in w.records && Legs(e, k, w.records[k]) == [Leg(vault, s.giveMint, s.giveAmount)]
  {
    hide ReadSwap, Inv, Live, Legs, Create, Find;
    SwapParty(w.records[k]);
    RederivedIsLive(e, w, k, SwapSeed(s.maker, nonce), s.bump);
    SwapLeg(e, w, k, nonce);
  }

  lemma RefundedBidLeg(e: Env, w: World, plan: Plan, o: Offer, nonce: Key, k: Key, vault: Key, dst: Key)
    requires ValidEnv(e) && Inv(e, w) && RefundsBid(e, w, plan, o, nonce, k, vault, dst)
    ensures k in w.records && Legs(e, k, w.records[k]) == [Leg(vault, o.wantMint, o.wantAmount)]
  {
    hide ReadOffer, Inv, Live, Legs, Create, Find;
    BidBump(e, w, k, o, nonce);
    BidLeg(e, w, k, nonce);
  }

  /** In every reachable state a planned cancel, withdrawal or expiry is accepted exactly when the vault holds just
      what the record names and the destination has room for it. */
  lemma RefundsAcceptedExactly(e: Env, w: World, tag: byte, x: Ix)
    requires ValidEnv(e) && Inv(e, w) && tag in {2, 3, 6, 7} && PlanOf(e, w, tag, x).Ok?
    ensures |x.accounts| > 5 && x.accounts[1] in w.records && |Legs(e, x.accounts[1], w.records[x.accounts[1]])| == 1
    ensures var leg, dst := Legs(e, x.accounts[1], w.records[x.accounts[1]])[0],
                x.accounts[if tag == 2 || tag == 6 then 4 else 5];
            Step(e, w, tag, x).Ok? <==> Balance(w, leg.vault) == leg.amount && Balance(w, dst) + leg.amount < U64
  {
    hide Swaps.CancelSwap, Swaps.Expire, Offers.WithdrawOffer, Offers.ExpireOffer, Refunds, RefundsBid, Inv, ValidEnv,
        Balance, Legs, Exec;
    var k := x.accounts;
    match tag
    case 2 => {
      var s := CancelSwapShape(e, x, w);
      SwapRefundAccepted(e, w, x, Swaps.CancelSwap(e, w, x), s, x.data, k[1], k[2], k[4]);
      RefundedLeg(e, w, Swaps.CancelSwap(e, w, x), s, x.data, k[1], k[2], k[4]);
    }
    case 3 => {
      var s := ExpireShape(e, x, w);
      SwapRefundAccepted(e, w, x, Swaps.Expire(e, w, x), s, x.data, k[1], k[2], k[5]);
      RefundedLeg(e, w, Swaps.Expire(e, w, x), s, x.data, k[1], k[2], k[5]);
    }
    case 6 => {
      var o := WithdrawOfferShape(e, x, w);
      BidRefundAccepted(e, w, x, Offers.WithdrawOffer(e, w, x), o, x.data, k[1], k[2], k[4]);
      RefundedBidLeg(e, w, Offers.WithdrawOffer(e, w, x), o, x.data, k[1], k[2], k[4]);
    }
    case 7 => {
      var o := ExpireOfferShape(e, x, w);
      BidRefundAccepted(e, w, x, Offers.ExpireOffer(e, w, x), o, x.data, k[1], k[2], k[5]);
      RefundedBidLeg(e, w, Offers.ExpireOffer(e, w, x), o, x.data, k[1], k[2], k[5]);
    }
  }
}
