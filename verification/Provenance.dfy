/** Where a record's terms come from, over whole runs: bids keep the goods they were made for, and a bearer
    basket follows its chain of custody. */
module Provenance {
  import opened Prelude
  import opened Bytes
  import opened Seeds
  import opened Layout
  import opened Ledger
  import opened FeeConfig
  import opened Machine
  import opened Shapes
  import opened Runs
  import opened Lifecycle
  import opened Histories
  import opened Effects
  import opened RoyaltySettlement
  import Openings
  import Swaps
  import Offers
  import Baskets
  import Listings

  /** One step of a run, as far as records are concerned. */
  ghost predicate StepsRecords(e: Env, w: World, l: Label, v: World) {
    match l
    case Call(tag, x) => ValidIx(e, x) && Step(e, w, tag, x) == Ok(v) && RecordEffect(w, tag, x, v)
    case Elsewhere => forall k :: k in v.records ==> k in w.records && v.records[k] == w.records[k]
  }

  lemma StepAt(e: Env, r: Trace, n: nat)
    requires IsRun(e, r) && n < |r.labels|
    ensures ValidEnv(e) && Inv(e, r.states[n]) && StepsRecords(e, r.states[n], r.labels[n], r.states[n + 1])
  {
    hide Inv, Step, ValidIx, RecordEffect;
    RunKeepsInv(e, r, n);
    assert Next(e, r.states[n], r.labels[n], r.states[n + 1]);
    if r.labels[n].Call? {
      StepRecordEffect(e, r.states[n], r.labels[n].tag, r.labels[n].x);
    }
  }

  // ---- bids ----

  predicate MakesOffer(l: Label, k: Key) {
    l.Call? && l.tag == 4 && |l.x.accounts| > 1 && l.x.accounts[1] == k
  }

  lemma BidStep(e: Env, w: World, l: Label, v: World, k: Key)
    requires StepsRecords(e, w, l, v) && k in v.records && |v.records[k]| == OFFER_LEN && Live(v.records[k])
    ensures MakesOffer(l, k) || (k in w.records && w.records[k] == v.records[k])
  {
    hide Live, Step;
    if l.Call? && k in Ends(l.tag, l.x) {
      ZerosAbsent(w, v, k);
    }
  }

  /** A live bid was made by an earlier `make_offer` at its address, and has not changed since. */
  lemma {:induction false} BidOrigin(e: Env, r: Trace, n: nat, k: Key) returns (i: nat)
    requires IsRun(e, r) && n < |r.states| && k in r.states[n].records && |r.states[n].records[k]| == OFFER_LEN
        && Live(r.states[n].records[k])
    ensures i < n && MakesOffer(r.labels[i], k)
    ensures forall j :: i < j <= n ==> k in r.states[j].records && r.states[j].records[k] == r.states[n].records[k]
  {
    hide Live, StepsRecords, Inv, Next, ValidEnv, MakesOffer;
    StepAt(e, r, n - 1);
    BidStep(e, r.states[n - 1], r.labels[n - 1], r.states[n], k);
    if MakesOffer(r.labels[n - 1], k) {
      i := n - 1;
    } else {
      i := BidOrigin(e, r, n - 1, k);
    }
  }

  /** The terms of an accepted bid: what the listing showed when the bid was made, and what the bidder
      locked then. */
  lemma AcceptedBidTerms(e: Env, r: Trace, n: nat, k: Key) returns (i: nat, y: Ix, shown: Swap)
    requires IsRun(e, r) && n < |r.states| && k in r.states[n].records && |r.states[n].records[k]| == OFFER_LEN
        && Live(r.states[n].records[k])
    ensures i < n && r.labels[i] == Call(4, y) && |y.accounts| == 10 && y.accounts[1] == k && |y.data| == 48
        && y.accounts[0] in y.signers
    ensures y.accounts[4] in r.states[i].records && |r.states[i].records[y.accounts[4]]| == SWAP_LEN
        && shown == ReadSwap(r.states[i].records[y.accounts[4]])
    ensures var o := ReadOffer(r.states[n].records[k]);
            && o.offerer == y.accounts[0] && o.swap == y.accounts[4] && o.wantAmount == U64At(y.data, 32)
            && o.giveMint == shown.giveMint && o.giveAmount == shown.giveAmount && o.wantMint == shown.wantMint
  {
    hide Live, Inv, OfferImage, ReadOffer, ReadSwap, RecordEffect, Exec, Offers.MakeOffer, ValidIx;
    i := BidOrigin(e, r, n, k);
    y := r.labels[i].x;
    StepAt(e, r, i);
    SwapPlans(e, r.states[i], y);
    var o;
    o, shown := MakeOfferOpens(e, y, r.states[i]);
    assert r.states[i + 1].records[k] == OfferImage(o);
  }

  lemma AcceptedIsLive(w: World, x: Ix, v: World)
    requires RecordEffect(w, 5, x, v) && |x.accounts| == 13
    ensures x.accounts[3] in w.records && Live(w.records[x.accounts[3]])
  {
    assert x.accounts[3] in Ends(5, x);
  }

  lemma AcceptorIsMaker(e: Env, w: World, x: Ix)
    requires Offers.AcceptOffer(e, w, x).Ok?
    ensures |x.accounts| == 13 && x.accounts[1] in w.records && |w.records[x.accounts[1]]| == SWAP_LEN
        && ReadSwap(w.records[x.accounts[1]]).maker == x.accounts[0]
  {
    hide Offers.AcceptOffer, ReadSwap, ReadOffer;
    var s, o, c, sn, on := AcceptOfferShape(e, x, w);
  }

  /** In every run, a bidder whose bid is accepted receives exactly the mint and amount the listing showed
      at `make_offer`, however often the slot was cancelled and reopened in between, and the maker and the
      fee destination together receive exactly the bid escrowed then. */
  lemma BidsKeepTheirGoods(e: Env, r: Trace, n: nat, x: Ix) returns (i: nat, y: Ix, shown: Swap, c: Config)
    requires IsRun(e, r) && n < |r.labels| && r.labels[n] == Call(5, x)
    ensures |x.accounts| == 13 && i < n && r.labels[i] == Call(4, y) && |y.accounts| == 10 && |y.data| == 48
    ensures y.accounts[1] == x.accounts[3] && y.accounts[4] == x.accounts[1] && y.accounts[0] in y.signers
    ensures x.accounts[1] in r.states[i].records && |r.states[i].records[x.accounts[1]]| == SWAP_LEN
        && shown == ReadSwap(r.states[i].records[x.accounts[1]])
    ensures ReadConfig(e, r.states[n], x.accounts[11]) == Ok(c)
    ensures var a, bid := x.accounts, U64At(y.data, 32);
            var paid := PriceMoves(c, a[4], shown.wantMint, a[12], a[9], a[3], bid);
            && IsTokenAccount(r.states[n], a[8], shown.giveMint, y.accounts[0])
            && IsTokenAccount(r.states[n], a[9], shown.wantMint, a[0]) && a[0] in x.signers
            && r.states[n + 1].log == r.states[n].log + paid
                + [Move(a[2], shown.giveMint, a[8], a[1], shown.giveAmount)]
            && Total(paid) == bid
  {
    hide Live, Inv, ReadOffer, ReadSwap, RecordEffect, Exec, Offers.AcceptOffer, ValidIx, PriceMoves, IsTokenAccount,
        ReadConfig, Ends, U64At;
    var w := r.states[n];
    StepAt(e, r, n);
    SwapPlans(e, w, x);
    var s, o;
    s, o, c := AcceptSettles(e, w, x);
    AcceptedIsLive(w, x, r.states[n + 1]);
    i, y, shown := AcceptedBidTerms(e, r, n, x.accounts[3]);
    AcceptorIsMaker(e, w, x);
    ConfigRateFits(e, w, x.accounts[11], c, o.wantAmount);
    PriceMovesTotal(c, x.accounts[4], o.wantMint, x.accounts[12], x.accounts[9], x.accounts[3], o.wantAmount);
  }

  // ---- swaps and listings ----

  predicate OpensSwapOrListing(l: Label, k: Key) {
    l.Call? && (l.tag == 0 || l.tag == 26) && |l.x.accounts| > 1 && l.x.accounts[1] == k
  }

  lemma SwapStep(e: Env, w: World, l: Label, v: World, k: Key)
    requires StepsRecords(e, w, l, v) && k in v.records && |v.records[k]| == SWAP_LEN && Live(v.records[k])
    ensures OpensSwapOrListing(l, k) || (k in w.records && w.records[k] == v.records[k])
  {
    hide Live, Step;
    if l.Call? && k in Ends(l.tag, l.x) {
      ZerosAbsent(w, v, k);
    }
  }

  /** A live swap or listing was opened by an earlier instruction at its address, and has not changed since. */
  lemma {:induction false} SwapOrigin(e: Env, r: Trace, n: nat, k: Key) returns (i: nat)
    requires IsRun(e, r) && n < |r.states| && k in r.states[n].records && |r.states[n].records[k]| == SWAP_LEN
        && Live(r.states[n].records[k])
    ensures i < n && OpensSwapOrListing(r.labels[i], k)
    ensures k in r.states[i + 1].records && r.states[i + 1].records[k] == r.states[n].records[k]
  {
    hide Live, StepsRecords, Inv, Next, ValidEnv, OpensSwapOrListing;
    StepAt(e, r, n - 1);
    SwapStep(e, r.states[n - 1], r.labels[n - 1], r.states[n], k);
    if OpensSwapOrListing(r.labels[n - 1], k) {
      i := n - 1;
    } else {
      i := SwapOrigin(e, r, n - 1, k);
    }
  }

  lemma SwapsAreNotListings(e: Env, w: World, y: Ix, maker: Key, nonce: Key, bump: byte)
    requires ValidEnv(e) && Step(e, w, 0, y).Ok? && |y.accounts| > 1
    ensures Create(e.derive, ListingSeed(maker, nonce), bump) != Some(y.accounts[1])
  {
    hide Swaps.OpenSwap, Exec, Create;
    var s := OpenSwapShape(e, y, w);
    if Create(e.derive, ListingSeed(maker, nonce), bump) == Some(y.accounts[1]) {
      OneHome(e.derive, ListingSeed(maker, nonce), bump, SwapSeed(s.maker, s.nonce), s.bump);
    }
  }

  lemma ListingsAreNotSwaps(e: Env, w: World, y: Ix, maker: Key, nonce: Key, bump: byte)
    requires ValidEnv(e) && Step(e, w, 26, y).Ok? && |y.accounts| > 1
    ensures Create(e.derive, SwapSeed(maker, nonce), bump) != Some(y.accounts[1])
  {
    hide Listings.List, Exec, Create;
    var s := ListShape(e, y, w);
    if Create(e.derive, SwapSeed(maker, nonce), bump) == Some(y.accounts[1]) {
      OneHome(e.derive, SwapSeed(maker, nonce), bump, ListingSeed(s.maker, s.nonce), s.bump);
    }
  }

  /** What a record of a swap or listing takes from the payload and accounts that opened it. */
  predicate HasTermsOf(s: Swap, tag: byte, y: Ix) {
    && |y.data| >= 120 && |y.accounts| >= 9
    && s.maker == y.accounts[0] && s.maker in y.signers
    && s.giveMint == y.accounts[if tag == 0 then 3 else 2] && s.giveAmount == U64At(y.data, 32)
    && s.wantMint == y.accounts[if tag == 0 then 4 else 3] && s.wantAmount == U64At(y.data, 40)
    && s.taker == KeyAt(y.data, 88) && s.expiry == I64At(y.data, 80)
  }

  /** The record `open_swap` or `list` writes holds the signer as maker, and the terms of its payload. */
  lemma OpenedTerms(e: Env, w: World, tag: byte, y: Ix)
    requires tag in {0, 26} && Step(e, w, tag, y).Ok?
    ensures |y.accounts| > 1 && y.accounts[1] in Step(e, w, tag, y).value.records
    ensures var b := Step(e, w, tag, y).value.records[y.accounts[1]];
            |b| == SWAP_LEN && HasTermsOf(ReadSwap(b), tag, y)
  {
    hide Swaps.OpenSwap, Listings.List, ReadSwap, Exec, U64At, I64At;
    SwapPlans(e, w, y);
    SalePlans(e, w, y);
    if tag == 0 {
      var s := Openings.OpenSwapLocks(e, w, y);
    } else {
      var s := Openings.ListDelegates(e, w, y);
    }
  }

  /** The seed a filled record re-derives under. */
  function FilledSeed(tag: byte, maker: Key, nonce: Key): Seed {
    if tag == 1 then SwapSeed(maker, nonce) else ListingSeed(maker, nonce)
  }

  /** What an accepted fill has shown of its record, and of its taker. */
  lemma FilledTerms(e: Env, w: World, tag: byte, x: Ix) returns (s: Swap, nonce: Key)
    requires ValidEnv(e) && Inv(e, w) && tag in {1, 27} && Step(e, w, tag, x).Ok?
    ensures |x.data| == 48 && |x.accounts| > 1 && x.accounts[1] in w.records
        && |w.records[x.accounts[1]]| == SWAP_LEN && s == ReadSwap(w.records[x.accounts[1]])
    ensures Live(w.records[x.accounts[1]])
    ensures Create(e.derive, FilledSeed(tag, s.maker, nonce), s.bump) == Some(x.accounts[1])
    ensures x.accounts[0] in x.signers && (s.taker == ZERO || s.taker == x.accounts[0]) && w.now < s.expiry
    ensures s.giveAmount == U64At(x.data, 32) && s.wantAmount <= U64At(x.data, 40)
  {
    hide Swaps.Fill, Listings.FillListing, ReadSwap, U64At, Exec, Create, Inv, Live;
    if tag == 1 {
      var c;
      s, c, nonce := FillShape(e, x, w);
    } else {
      s, nonce := FillListingShape(e, x, w);
      Openings.ListingWithinCap(e, w, x, s);
    }
    SwapParty(w.records[x.accounts[1]]);
    RederivedIsLive(e, w, x.accounts[1], FilledSeed(tag, s.maker, nonce), s.bump);
  }

  /** In every run a fill settles exactly what was signed at the opening of its record, however often the slot was
      ended and reopened before: the maker, the two mints, the two amounts, the expiry and the named taker are those of
      one earlier `open_swap` or `list`, signed by that maker. The taker signed the fill, is the named one if there is
      one, and gets the amount they expect at a price within their cap. */
  lemma FillsKeepTheirTerms(e: Env, r: Trace, n: nat, tag: byte, x: Ix) returns (i: nat, y: Ix, s: Swap)
    requires IsRun(e, r) && n < |r.labels| && r.labels[n] == Call(tag, x) && tag in {1, 27}
    ensures |x.data| == 48 && |x.accounts| > 1 && x.accounts[1] in r.states[n].records
        && |r.states[n].records[x.accounts[1]]| == SWAP_LEN && s == ReadSwap(r.states[n].records[x.accounts[1]])
    ensures i < n && r.labels[i] == Call(if tag == 1 then 0 else 26, y) && HasTermsOf(s, if tag == 1 then 0 else 26, y)
        && y.accounts[1] == x.accounts[1]
    ensures x.accounts[0] in x.signers && (s.taker == ZERO || s.taker == x.accounts[0])
        && r.states[n].now < s.expiry && s.giveAmount == U64At(x.data, 32) && s.wantAmount <= U64At(x.data, 40)
  {
    hide Live, Inv, ReadSwap, RecordEffect, Step, ValidIx, Create, U64At;
    var w, k := r.states[n], x.accounts;
    StepAt(e, r, n);
    var nonce;
    s, nonce := FilledTerms(e, w, tag, x);
    i := SwapOrigin(e, r, n, x.accounts[1]);
    StepAt(e, r, i);
    y := r.labels[i].x;
    OpenedTerms(e, r.states[i], r.labels[i].tag, y);
    if tag == 1 && r.labels[i].tag == 26 {
      ListingsAreNotSwaps(e, r.states[i], y, s.maker, nonce, s.bump);
      assert false;
    }
    if tag == 27 && r.labels[i].tag == 0 {
      SwapsAreNotListings(e, r.states[i], y, s.maker, nonce, s.bump);
      assert false;
    }
  }

  // ---- bearer baskets ----

  /** The claim value a basket's opening fixes: the last 32 bytes of its payload. */
  function OpenedClaim(x: Ix): Key
    requires Baskets.PayloadFits(x.data)
  {
    x.data[|x.data| - 32..]
  }

  /** The most recent claim value: that of the last opening or `rewrap` at this address. */
  function LatestClaim(labels: seq<Label>, k: Key): Option<Key> {
    if labels == [] then None else
    var l := labels[|labels| - 1];
    if l.Call? && l.tag == 12 && |l.x.accounts| > 1 && l.x.accounts[1] == k
        && Baskets.PayloadFits(l.x.data) then Some(OpenedClaim(l.x))
    else if l.Call? && l.tag == 15 && |l.x.accounts| > 1 && l.x.accounts[1] == k
        && |l.x.data| == 64 then Some(KeyAt(l.x.data, 32))
    else LatestClaim(labels[..|labels| - 1], k)
  }

  lemma OpeningSetsTheClaim(e: Env, w: World, x: Ix, v: World)
    requires ValidEnv(e) && Inv(e, w) && ValidIx(e, x) && Step(e, w, 12, x) == Ok(v)
    ensures |x.accounts| > 1 && Baskets.PayloadFits(x.data) && x.accounts[1] in v.records
        && |v.records[x.accounts[1]]| == BASKET_LEN
    ensures ReadBasket(v.records[x.accounts[1]]).claimAuth == OpenedClaim(x)
  {
    hide Baskets.OpenBasket, Inv, ValidIx, Exec, ReadBasket;
    var k, b := OpenBasketOpens(e, x, w);
  }

  lemma RewrapSetsTheClaim(e: Env, w: World, x: Ix, v: World)
    requires ValidEnv(e) && Inv(e, w) && ValidIx(e, x) && Step(e, w, 15, x) == Ok(v)
    ensures |x.accounts| == 2 && |x.data| == 64 && x.accounts[1] in v.records
        && |v.records[x.accounts[1]]| == BASKET_LEN
    ensures ReadBasket(v.records[x.accounts[1]]).claimAuth == KeyAt(x.data, 32)
    ensures x.accounts[1] in w.records && |w.records[x.accounts[1]]| == BASKET_LEN && Live(w.records[x.accounts[1]])
    ensures x.accounts[0] in x.signers && e.hash(x.accounts[0]) == ReadBasket(w.records[x.accounts[1]]).claimAuth
  {
    hide Baskets.Rewrap, Inv, ValidIx, Exec, ReadBasket, Live;
    var k, b := RewrapRewrites(e, x, w);
  }

  lemma BasketStep(e: Env, w: World, l: Label, v: World, k: Key)
    requires StepsRecords(e, w, l, v) && k in v.records && |v.records[k]| == BASKET_LEN && Live(v.records[k])
    ensures (l.Call? && (l.tag == 12 || l.tag == 15) && |l.x.accounts| > 1 && l.x.accounts[1] == k)
        || (k in w.records && w.records[k] == v.records[k])
  {
    hide Live, Step;
    if l.Call? && k in Ends(l.tag, l.x) {
      ZerosAbsent(w, v, k);
    }
  }

  /** In every state of every run, the claim value of an open basket is the most recent one. */
  lemma {:induction false} ClaimIsTheLatest(e: Env, r: Trace, n: nat, k: Key)
    requires IsRun(e, r) && n < |r.states| && k in r.states[n].records && |r.states[n].records[k]| == BASKET_LEN
        && Live(r.states[n].records[k])
    ensures LatestClaim(r.labels[..n], k) == Some(ReadBasket(r.states[n].records[k]).claimAuth)
  {
    hide Live, Inv, ReadBasket, RecordEffect, PlanOf, ValidIx, KeyAt, OpenedClaim, Step;
    StepAt(e, r, n - 1);
    var l := r.labels[n - 1];
    assert r.labels[..n][n - 1] == l && r.labels[..n][..n - 1] == r.labels[..n - 1];
    BasketStep(e, r.states[n - 1], l, r.states[n], k);
    if l.Call? && l.tag == 12 && |l.x.accounts| > 1 && l.x.accounts[1] == k {
      OpeningSetsTheClaim(e, r.states[n - 1], l.x, r.states[n]);
    } else if l.Call? && l.tag == 15 && |l.x.accounts| > 1 && l.x.accounts[1] == k {
      RewrapSetsTheClaim(e, r.states[n - 1], l.x, r.states[n]);
    } else {
      ClaimIsTheLatest(e, r, n - 1, k);
    }
  }

  /** Every `rewrap` is signed by the holder of the value before it. */
  lemma RewrapsAreSignedByTheHolder(e: Env, r: Trace, n: nat, x: Ix)
    requires IsRun(e, r) && n < |r.labels| && r.labels[n] == Call(15, x)
    ensures |x.accounts| == 2 && x.accounts[0] in x.signers
        && LatestClaim(r.labels[..n], x.accounts[1]) == Some(e.hash(x.accounts[0]))
  {
    hide Live, Inv, ReadBasket, RecordEffect, PlanOf, ValidIx, LatestClaim, Step;
    StepAt(e, r, n);
    RewrapSetsTheClaim(e, r.states[n], x, r.states[n + 1]);
    ClaimIsTheLatest(e, r, n, x.accounts[1]);
  }

  lemma ClaimNeedsTheHolder(e: Env, w: World, x: Ix)
    requires Baskets.ClaimBearer(e, w, x).Ok?
    ensures |x.accounts| > 2 && x.accounts[2] in w.records && |w.records[x.accounts[2]]| == BASKET_LEN
    ensures x.accounts[1] in x.signers && e.hash(x.accounts[1]) == ReadBasket(w.records[x.accounts[2]]).claimAuth
  {
    hide Baskets.ClaimBearer, ReadBasket;
    var k, auth := ClaimBearerShape(e, x, w);
  }

  /** The claiming key hashes to the most recent claim value of its run. */
  lemma ClaimsAreSignedByTheHolder(e: Env, r: Trace, n: nat, x: Ix)
    requires IsRun(e, r) && n < |r.labels| && r.labels[n] == Call(14, x)
    ensures |x.accounts| > 2 && x.accounts[1] in x.signers && LatestClaim(r.labels[..n], x.accounts[2])
        == Some(e.hash(x.accounts[1]))
  {
    hide Live, Inv, ReadBasket, PlanOf, ValidIx, LatestClaim, Step, Baskets.ClaimBearer, Exec;
    StepAt(e, r, n);
    BasketPlans(e, r.states[n], x);
    ClaimNeedsTheHolder(e, r.states[n], x);
    assert x.accounts[2] in Ends(14, x);
    ClaimIsTheLatest(e, r, n, x.accounts[2]);
  }

  lemma RefusesBearer(e: Env, w: World, tag: byte, x: Ix)
    requires tag in {13, 16, 17} && Step(e, w, tag, x).Ok?
    ensures |x.accounts| > 1 && x.accounts[1] in w.records && |w.records[x.accounts[1]]| == BASKET_LEN
        && ReadBasket(w.records[x.accounts[1]]).authMode != AUTH_BEARER
  {
    hide Baskets.FillBasket, Baskets.CancelBasket, Baskets.ExpireBasket, ReadBasket, Exec;
    match tag
    case 13 => { var k, c, auth := FillBasketShape(e, x, w); }
    case 16 => { var k, auth := CancelBasketShape(e, x, w); }
    case 17 => { var k, auth := ExpireBasketShape(e, x, w); }
  }

  lemma EndsOtherRecords(e: Env, w: World, tag: byte, x: Ix, k: Key)
    requires Step(e, w, tag, x).Ok? && k in Ends(tag, x) && tag !in {13, 14, 16, 17} && k in w.records
    ensures |w.records[k]| == SWAP_LEN || |w.records[k]| == OFFER_LEN
  {
    hide ReadSwap, ReadOffer, ReadBasket, Exec, Swaps.Fill, Swaps.CancelSwap, Swaps.Expire, Offers.AcceptOffer,
        Offers.WithdrawOffer, Offers.ExpireOffer,
         Listings.FillListing, Listings.CancelListing, Listings.ExpireListing, IsTokenAccount;
    match tag
    case 1 => { var s, c, nn := FillShape(e, x, w); }
    case 2 => { var s := CancelSwapShape(e, x, w); }
    case 3 => { var s := ExpireShape(e, x, w); }
    case 5 => { var s, o, c, sn, on := AcceptOfferShape(e, x, w); }
    case 6 => { var o := WithdrawOfferShape(e, x, w); }
    case 7 => { var o := ExpireOfferShape(e, x, w); }
    case 27 => { var s, nn := FillListingShape(e, x, w); }
    case 28 => { var s := CancelListingShape(e, x, w); }
    case 29 => { var s := ExpireListingShape(e, x, w); }
    case _ =>
  }

  /** A bearer basket is ended by `claim_bearer` alone: at no time do cancel, expiry or fill succeed on it. */
  lemma OnlyTheBearerEnds(e: Env, w: World, tag: byte, x: Ix, k: Key)
    requires ValidEnv(e) && ValidIx(e, x) && Inv(e, w) && Step(e, w, tag, x).Ok? && k in Ends(tag, x)
    requires k in w.records && |w.records[k]| == BASKET_LEN && ReadBasket(w.records[k]).authMode == AUTH_BEARER
    ensures tag == 14
  {
    hide Inv, ValidIx, ValidEnv, ReadBasket, ReadSwap, ReadOffer, Exec, Live;
    if tag == 13 { RefusesBearer(e, w, 13, x); }
    else if tag == 16 { RefusesBearer(e, w, 16, x); }
    else if tag == 17 { RefusesBearer(e, w, 17, x); }
    else if tag != 14 { EndsOtherRecords(e, w, tag, x, k); }
  }
}
