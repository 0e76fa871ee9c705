/** When the listing instructions are accepted (tags 26-29), in terms of payload bytes, record bytes, metadata and token
    accounts alone. */
module ListingAdmission {
  import opened Prelude
  import opened Bytes
  import opened Seeds
  import opened Layout
  import opened Ledger
  import opened FeeConfig
  import opened Payments
  import opened Machine
  import opened Shapes
  import opened Carry
  import opened Admission
  import opened SwapAdmission
  import opened RoyaltyPayout
  import Listings
  import Swaps

  // ---- list ----

  predicate MayList(e: Env, w: World, x: Ix) {
    var d, a := x.data, x.accounts;
    && |d| == 122 && d[120] <= 3 && d[121] <= 100 && |a| == 9 && a[0] in x.signers
    && U64At(d, 32) > 0 && U64At(d, 40) > 0 && w.now < I64At(d, 80)
    && HoldsToken(w, a[4], a[2], a[0]) && AliasShown(e, w, x, a[7])
    && At(e, ListingSeed(a[0], KeyAt(d, 0)), a[1]) && a[1] !in w.records && a[1] !in w.tokens
  }

  lemma ListGates(e: Env, w: World, x: Ix)
    ensures Listings.List(e, w, x).Ok? <==>
            var d, a := x.data, x.accounts;
            && |d| == 122 && d[120] <= 3 && d[121] <= 100 && |a| == 9 && a[0] in x.signers
            && U64At(d, 32) > 0 && U64At(d, 40) > 0 && w.now < I64At(d, 80)
            && HoldsToken(w, a[4], a[2], a[0]) && AliasShown(e, w, x, a[7])
            && At(e, ListingSeed(a[0], KeyAt(d, 0)), a[1])
  {
    hide Find, RequireAlias, AliasShown, ListingImage;
    if |x.accounts| == 9 {
      AliasGateMeans(e, w, x, x.accounts[7]);
    }
  }

  /** An owner may always appoint or dismiss the delegate of their account. */
  lemma Appointed(w: World, k: Key, mint: Key, owner: Key, delegate: Option<Key>, amount: nat)
    requires HoldsToken(w, k, mint, owner)
    ensures CarryOut(w.tokens, [Appoint(k, delegate, owner, amount)]).Some?
  {
    CarryOne(w.tokens, Appoint(k, delegate, owner, amount));
  }

  /** list is accepted exactly when payload, signature, clock, the maker's account, the alias gate and the address are
      right and the record is new. */
  lemma ListAccepted(e: Env, w: World, x: Ix)
    ensures Step(e, w, 26, x).Ok? <==> MayList(e, w, x)
  {
    hide Listings.List, AliasShown, At, HoldsToken, Exec, ListingImage, Find, Create, AllSound, Touches, CarryOut;
    SalePlans(e, w, x);
    ListGates(e, w, x);
    if Listings.List(e, w, x).Ok? {
      var s := ListShape(e, x, w);
      var a := x.accounts;
      var approve, write := Approve(a[4], a[1], Signer(s.maker), s.giveAmount), Write(a[1], ListingImage(s));
      var rest, r := [approve] + ([write] + []), w.records[a[1] := Zeros(SWAP_LEN)];
      assert Listings.List(e, w, x).value == [NewRecord(a[1], SWAP_LEN)] + rest;
      CreateThen(e, x.signers, w, a[1], SWAP_LEN, rest);
      Cons(e, x.signers, r, approve, [write] + []);
      Cons(e, x.signers, r, write, []);
      Nil(e, x.signers, r);
      Appointed(w, a[4], a[2], a[0], Some(a[1]), s.giveAmount);
      assert Touches(rest) == [Appoint(a[4], Some(a[1]), a[0], s.giveAmount)];
    }
  }

  // ---- cancel_listing and expire_listing ----

  /** An open record of this maker, at the listing address of maker and nonce. */
  predicate OpenListing(e: Env, w: World, k: Key, maker: Key, nonce: Key) {
    && k in w.records && |w.records[k]| == 220
    && ReadSwap(w.records[k]).status == 0 && ReadSwap(w.records[k]).maker == maker
    && At(e, ListingSeed(maker, nonce), k)
  }

  predicate MayCancelListing(e: Env, w: World, x: Ix) {
    var d, a := x.data, x.accounts;
    && |d| == 32 && |a| == 8 && a[0] in x.signers && OpenListing(e, w, a[1], a[0], d)
    && ReadSwap(w.records[a[1]]).giveMint == a[2] && HoldsToken(w, a[3], a[2], a[0])
    && DelistPaid(e, w, a[5], a[6])
  }

  predicate MayExpireListing(e: Env, w: World, x: Ix) {
    var d, a := x.data, x.accounts;
    && |d| == 32 && |a| == 3 && a[0] in x.signers && OpenListing(e, w, a[1], a[2], d)
    && ReadSwap(w.records[a[1]]).expiry <= w.now
  }

  lemma DelistGates(e: Env, w: World, x: Ix)
    ensures Listings.CancelListing(e, w, x).Ok? <==> MayCancelListing(e, w, x)
    ensures Listings.ExpireListing(e, w, x).Ok? <==> MayExpireListing(e, w, x)
  {
    hide Find, Swaps.DelistGate, DelistPaid, ReadSwap;
    var a := x.accounts;
    if |a| > 1 && a[1] in w.records && |w.records[a[1]]| == SWAP_LEN {
      StatusReads(w.records[a[1]]);
    }
    if |a| == 8 {
      DelistGateMeans(e, w, a[5], a[6]);
    }
  }

  /** cancel_listing is accepted exactly when the maker signs for an open listing at its address, with their own account
      of the listed mint, and the delist fee of the policy goes to its wallet. */
  lemma CancelListingAccepted(e: Env, w: World, x: Ix)
    ensures Step(e, w, 28, x).Ok? <==> MayCancelListing(e, w, x)
  {
    hide Listings.CancelListing, Listings.ExpireListing, ReadSwap, DelistPaid, At, Find, HoldsToken, Exec, AllSound,
        CarryOut, Touches;
    DelistPlans(e, w, x);
    DelistGates(e, w, x);
    if Listings.CancelListing(e, w, x).Ok? {
      var s := CancelListingShape(e, x, w);
      var a := x.accounts;
      var revoke, wipe := Revoke(a[3], Signer(s.maker)), Wipe(a[1]);
      assert Listings.CancelListing(e, w, x).value == [revoke] + ([wipe] + []);
      ExecByCarry(e, x.signers, w, [revoke] + ([wipe] + []));
      Cons(e, x.signers, w.records, revoke, [wipe] + []);
      Cons(e, x.signers, w.records, wipe, []);
      Nil(e, x.signers, w.records);
      Appointed(w, a[3], a[2], a[0], None, 0);
      assert Touches([revoke] + ([wipe] + [])) == [Appoint(a[3], None, a[0], 0)];
    }
  }

  /** expire_listing is accepted exactly when anyone signs for an open listing of this maker from its expiry on. */
  lemma ExpireListingAccepted(e: Env, w: World, x: Ix)
    ensures Step(e, w, 29, x).Ok? <==> MayExpireListing(e, w, x)
    ensures Step(e, w, 29, x).Ok? ==> Step(e, w, 29, x).value.tokens == w.tokens && Step(e, w, 29, x).value.log == w.log
  {
    hide Listings.CancelListing, Listings.ExpireListing, ReadSwap, At, Find, Exec, AllSound, Touches;
    DelistPlans(e, w, x);
    DelistGates(e, w, x);
    if Listings.ExpireListing(e, w, x).Ok? {
      var s := ExpireListingShape(e, x, w);
      var wipe := Wipe(x.accounts[1]);
      assert Listings.ExpireListing(e, w, x).value == [wipe] + [];
      ExecByCarry(e, x.signers, w, [wipe] + []);
      Cons(e, x.signers, w.records, wipe, []);
      Nil(e, x.signers, w.records);
      NothingAsked(w.tokens);
    }
  }

  // ---- fill_listing ----

  /** What a listing sale must show besides its royalty and room and balance: an open record whose goods the payload
      expects, before its expiry, for this taker, at the listing address of maker and nonce, and two accounts of the
      maker. */
  predicate SaleTerms(e: Env, w: World, x: Ix) {
    var d, a := x.data, x.accounts;
    && |d| == 48 && |a| >= 12 && a[0] in x.signers
    && a[1] in w.records && |w.records[a[1]]| == 220
    && var s := ReadSwap(w.records[a[1]]);
       && s.status == 0 && s.maker == a[2] && s.giveMint == a[3] && s.wantMint == a[4]
       && w.now < s.expiry && (s.taker == ZERO || s.taker == a[0]) && s.giveAmount == U64At(d, 32)
       && Create(e.derive, ListingSeed(s.maker, KeyAt(d, 0)), s.bump) == Some(a[1])
       && HoldsToken(w, a[5], a[3], a[2]) && HoldsToken(w, a[8], a[4], a[2])
       && a[3] in e.mints && a[4] in e.mints && IsConfig(e, w, a[10])
       && (s.royaltyMode != 0 ==> |a| >= 14)
  }

  /** The creator accounts, which follow the asset's token program and metadata. */
  function SaleCreators(w: World, x: Ix, mode: byte): seq<Key>
    requires mode != 0 ==> |x.accounts| >= 14
  {
    if mode == 0 then [] else x.accounts[14..]
  }

  /** The royalty the maker chose can be paid, within the taker's cap. */
  predicate SaleRoyalty(e: Env, w: World, x: Ix)
    requires SaleTerms(e, w, x)
  {
    var a, s := x.accounts, ReadSwap(w.records[x.accounts[1]]);
    && RoyaltyShown(w, a[4], s.royaltyMode, s.makerPct, x.metadata, SaleCreators(w, x, s.royaltyMode))
    && RoyaltyFits(w.records[a[10]], s.wantAmount, U64At(x.data, 40), s.royaltyMode, s.makerPct, x.metadata)
  }

  predicate SaleFeeGoes(e: Env, w: World, x: Ix)
    requires SaleTerms(e, w, x)
  {
    var a := x.accounts;
    FeeOf(w.records[a[10]], ReadSwap(w.records[a[1]]).wantAmount) > 0 ==>
        FeeGoes(e, w, w.records[a[10]], a[11], a[4], x.data[0])
  }

  /** The fee, the maker's payment and the payouts from the taker's account, and the goods out of the maker's under the
      listing's delegation. */
  function SaleTouches(e: Env, w: World, x: Ix): seq<Touch>
    requires SaleTerms(e, w, x) && SaleRoyalty(e, w, x)
  {
    var a, s := x.accounts, ReadSwap(w.records[x.accounts[1]]);
    RoyaltyTouches(w.records[a[10]], a[7], a[4], a[11], a[8], a[0], s.wantAmount, s.royaltyMode, s.makerPct, x.metadata,
        SaleCreators(w, x, s.royaltyMode))
    + [Pay(a[5], a[3], a[6], a[1], s.giveAmount)]
  }

  lemma LoadMeans(w: World, k: Key, giveMint: Key, wantMint: Key, taker: Key)
    ensures LoadFillState(w, k, giveMint, wantMint, taker).Ok? <==>
            && k in w.records && |w.records[k]| == 220
            && var s := ReadSwap(w.records[k]);
               && s.status == 0 && s.giveMint == giveMint && s.wantMint == wantMint && w.now < s.expiry
               && (s.taker == ZERO || s.taker == taker)
    ensures LoadFillState(w, k, giveMint, wantMint, taker).Ok? ==>
            LoadFillState(w, k, giveMint, wantMint, taker).value == ReadSwap(w.records[k])
  {
    hide ReadSwap;
    if k in w.records && |w.records[k]| == SWAP_LEN {
      StatusReads(w.records[k]);
    }
  }

  lemma SaleGates(e: Env, w: World, x: Ix)
    requires Inv(e, w)
    ensures Listings.FillListing(e, w, x).Ok? <==> SaleTerms(e, w, x) && SaleRoyalty(e, w, x)
  {
    hide Find, Create, ReadSwap, RoyaltyOps, LoadFillState, At, RoyaltyShown, RoyaltyFits, Inv, HoldsToken;
    var d, a := x.data, x.accounts;
    if |d| == 48 && |a| >= 12 {
      LoadMeans(w, a[1], a[3], a[4], a[0]);
      if LoadFillState(w, a[1], a[3], a[4], a[0]).Ok? {
        var s := ReadSwap(w.records[a[1]]);
        TokenAccountMeans(w, a[5], a[3], s.maker);
        TokenAccountMeans(w, a[8], a[4], s.maker);
        if s.royaltyMode == 0 || |a| >= 14 {
          RoyaltyPlanned(e, w, a[10], a[7], a[4], a[11], a[8], a[0], s.wantAmount, U64At(d, 40), d[0], s.royaltyMode,
              s.makerPct, x.metadata, SaleCreators(w, x, s.royaltyMode));
        }
      }
    }
  }

  lemma PullAsks(e: Env, signers: set<Key>, r: map<Key, seq<byte>>, src: Key, mint: Key, dst: Key, amount: nat,
      auth: Authority, k: Key)
    requires Signed(e, signers, auth) && k in r
    ensures var ops := [Transfer(src, mint, dst, auth, amount), Wipe(k)];
            && AllSound(e, signers, r, ops) && (forall op :: op in ops ==> !op.NewRecord?)
            && Touches(ops) == [Pay(src, mint, dst, auth.key, amount)]
  {
    hide Signed, AllSound, Touches;
    var pay, wipe := Transfer(src, mint, dst, auth, amount), Wipe(k);
    assert [pay, wipe] == [pay] + ([wipe] + []);
    Cons(e, signers, r, pay, [wipe] + []);
    Cons(e, signers, r, wipe, []);
    Nil(e, signers, r);
  }

  /** In every reachable state fill_listing is accepted exactly when its terms hold, the royalty the maker chose can be
      paid within the cap, a positive fee goes where the policy says, and the token program carries out the payments and
      the delegated transfer in turn; the token accounts are then what it leaves, and the log grows by the transfers. */
  lemma FillListingAccepted(e: Env, w: World, x: Ix)
    requires Inv(e, w)
    ensures Step(e, w, 27, x).Ok? <==>
            && SaleTerms(e, w, x) && SaleRoyalty(e, w, x) && SaleFeeGoes(e, w, x)
            && CarryOut(w.tokens, SaleTouches(e, w, x)).Some?
    ensures Step(e, w, 27, x).Ok? ==>
            && Some(Step(e, w, 27, x).value.tokens) == CarryOut(w.tokens, SaleTouches(e, w, x))
            && Step(e, w, 27, x).value.log == w.log + Paid(SaleTouches(e, w, x))
  {
    hide Listings.FillListing, Inv, ReadSwap, RoyaltyOps, Exec, CarryOut, RoyaltyTouches, FeeGoes, FeeOf, AllSound,
        Touches, Find, Create, RoyaltyShown, RoyaltyFits, HoldsToken, At, Paid;
    SalePlans(e, w, x);
    SaleGates(e, w, x);
    if Listings.FillListing(e, w, x).Ok? {
      var s, nonce := FillListingShape(e, x, w);
      var a := x.accounts;
      var creators, auth := SaleCreators(w, x, s.royaltyMode), Seeded(a[1], ListingSeed(s.maker, nonce), s.bump);
      var pay, pull := ListingRoyalty(e, w, x, s).value, [Transfer(a[5], s.giveMint, a[6], auth, s.giveAmount),
          Wipe(a[1])];
      RoyaltyAsks(e, x.signers, w.records, w, a[10], a[7], a[4], a[11], a[8], a[0], s.wantAmount, U64At(x.data, 40),
          x.data[0], s.royaltyMode, s.makerPct, x.metadata, creators);
      PullAsks(e, x.signers, w.records, a[5], s.giveMint, a[6], s.giveAmount, auth, a[1]);
      assert Listings.FillListing(e, w, x).value == pay + pull;
      BothSound(e, x.signers, w.records, pay, pull);
      TouchesSplit(pay, pull);
      ExecByCarry(e, x.signers, w, pay + pull);
    }
  }

  /** A listing sale with royalty, over its transfers: the metadata asks the royalty, each account it pays belongs to
      the creator of its position, the royalty of the metadata's rate is shared out whole, and the taker pays the price
      and what of it the maker does not fund; then the goods move. */
  lemma ListingRoyaltyIsPaid(e: Env, w: World, x: Ix)
    requires Inv(e, w) && Step(e, w, 27, x).Ok?
    ensures SaleTerms(e, w, x)
    ensures var a, s, m := x.accounts, ReadSwap(w.records[x.accounts[1]]), x.metadata;
            s.royaltyMode != 0 ==>
              && AsksRoyalty(m) && |a| == 14 + |CreatorsOf(m)|
              && (forall i :: 0 <= i < |CreatorsOf(m)| ==> HoldsToken(w, a[14 + i], a[4], CreatorsOf(m)[i].address))
              && exists moves: seq<Move>, payouts: seq<nat> ::
                   && |payouts| == |CreatorsOf(m)|
                   && PaysRoyalty(moves, w.records[a[10]], a[7], a[4], a[11], a[8], a[0], s.wantAmount, s.royaltyMode,
                        s.makerPct, m, a[14..], payouts)
                   && Step(e, w, 27, x).value.log == w.log + moves + [Move(a[5], a[3], a[6], a[1], s.giveAmount)]
  {
    hide Step, Inv, ReadSwap, CarryOut, RoyaltyTouches, FeeGoes, FeeOf, Find, Create, RoyaltyFits, HoldsToken, At, Paid,
        PaysRoyalty, AsksRoyalty, CreatorsOf, ShareSum, Payouts;
    FillListingAccepted(e, w, x);
    var a, s, m := x.accounts, ReadSwap(w.records[x.accounts[1]]), x.metadata;
    if s.royaltyMode != 0 {
      var asked := RoyaltyTouches(w.records[a[10]], a[7], a[4], a[11], a[8], a[0], s.wantAmount, s.royaltyMode,
          s.makerPct, m, a[14..]);
      var pull := Pay(a[5], a[3], a[6], a[1], s.giveAmount);
      RoyaltyIsPaid(w.records[a[10]], a[7], a[4], a[11], a[8], a[0], s.wantAmount, U64At(x.data, 40), s.royaltyMode,
          s.makerPct, m, a[14..]);
      PaidSplit(asked, [pull]);
      OnePaid(pull);
      assert w.log + (Paid(asked) + Paid([pull])) == w.log + Paid(asked) + Paid([pull]);
      forall i | 0 <= i < |CreatorsOf(m)|
        ensures HoldsToken(w, a[14 + i], a[4], CreatorsOf(m)[i].address)
      {
        assert a[14..][i] == a[14 + i];
      }
    }
  }
}
