/** When the bid instructions are accepted (tags 4-7), in terms of payload bytes, record bytes and token accounts
    alone. */
module BidAdmission {
  import opened Prelude
  import opened Bytes
  import opened Seeds
  import opened Layout
  import opened Ledger
  import opened FeeConfig
  import opened Payments
  import opened Machine
  import opened Shapes
  import opened Carry
  import opened Admission
  import opened SwapAdmission
  import Lifecycle
  import Recovery
  import Royalty
  import Offers

  // ---- make_offer ----

  /** An open swap or listing record that wants this mint. */
  predicate Wants(w: World, k: Key, mint: Key) {
    && k in w.records && |w.records[k]| == 220
    && ReadSwap(w.records[k]).status == 0 && ReadSwap(w.records[k]).wantMint == mint
  }

  predicate MakeOfferTerms(e: Env, w: World, x: Ix) {
    var d, a := x.data, x.accounts;
    && |d| == 48 && |a| == 10 && a[0] in x.signers && U64At(d, 32) > 0
    && AliasShown(e, w, x, a[8]) && Wants(w, a[4], a[3])
    && At(e, OfferSeed(a[0], KeyAt(d, 0)), a[1]) && At(e, OVaultSeed(a[0], KeyAt(d, 0)), a[2])
  }

  lemma MakeOfferGates(e: Env, w: World, x: Ix)
    ensures Offers.MakeOffer(e, w, x).Ok? <==> MakeOfferTerms(e, w, x)
  {
    hide Find, RequireAlias, AliasShown, OfferImage, ReadSwap;
    var a := x.accounts;
    if |a| == 10 {
      AliasGateMeans(e, w, x, a[8]);
      if a[4] in w.records && |w.records[a[4]]| == SWAP_LEN {
        StatusReads(w.records[a[4]]);
      }
    }
  }

  /** make_offer is accepted exactly when the payload, the signature, the alias gate, the bid-on record and the two
      addresses are right, record and vault are new, and the bidder's account can send the bid. */
  lemma MakeOfferAccepted(e: Env, w: World, x: Ix)
    ensures Step(e, w, 4, x).Ok? <==>
            && MakeOfferTerms(e, w, x)
            && Lockable(e, w, x.accounts[1], x.accounts[2], x.accounts[3], x.accounts[5], x.accounts[0],
                   U64At(x.data, 32))
    ensures Step(e, w, 4, x).Ok? ==>
            var d, a, v := x.data, x.accounts, Step(e, w, 4, x).value;
            && Some(v.tokens) == CarryOut(w.tokens, FundTouches(a[1], a[2], a[3], a[5], a[0], U64At(d, 32)))
            && v.log == w.log + [Move(a[5], a[3], a[2], a[0], U64At(d, 32))]
  {
    hide Offers.MakeOffer, AliasShown, At, Lockable, Exec, OfferImage, Find, Create, ReadSwap;
    SwapPlans(e, w, x);
    MakeOfferGates(e, w, x);
    if Offers.MakeOffer(e, w, x).Ok? {
      var o, s := MakeOfferShape(e, x, w);
      OpeningAccepted(e, x.signers, w, x.accounts[1], x.accounts[2], o.wantMint, x.accounts[5], o.offerer,
          o.wantAmount, OfferImage(o));
    }
  }

  // ---- withdraw_offer and expire_offer ----

  /** An open bid record of this bidder and nonce, of a mint, with its own vault, and an account to refund to. */
  predicate BidRefundable(e: Env, w: World, k: Key, vault: Key, bidder: Key, mint: Key, dst: Key, nonce: Key) {
    && k in w.records && |w.records[k]| == 186
    && var o := ReadOffer(w.records[k]);
       && o.status == 0 && o.offerer == bidder && o.wantMint == mint && mint in e.mints
       && At(e, OfferSeed(bidder, nonce), k) && At(e, OVaultSeed(bidder, nonce), vault)
       && HoldsToken(w, dst, mint, bidder)
  }

  predicate MayWithdraw(e: Env, w: World, x: Ix) {
    var d, a := x.data, x.accounts;
    && |d| == 32 && |a| == 6 && a[0] in x.signers
    && BidRefundable(e, w, a[1], a[2], a[0], a[3], a[4], d)
    && Releasable(w, a[2], a[4], ReadOffer(w.records[a[1]]).wantAmount)
  }

  predicate MayExpireBid(e: Env, w: World, x: Ix) {
    var d, a := x.data, x.accounts;
    && |d| == 32 && |a| == 7
    && BidRefundable(e, w, a[1], a[2], a[3], a[4], a[5], d) && ReadOffer(w.records[a[1]]).expiry <= w.now
    && Releasable(w, a[2], a[5], ReadOffer(w.records[a[1]]).wantAmount)
  }

  lemma BidStatusReads(b: seq<byte>)
    requires |b| == OFFER_LEN
    ensures ReadOffer(b).status == b[152]
  {
  }

  lemma RefundBidMeans(e: Env, w: World, k: Key, vault: Key, bidder: Key, mint: Key, dst: Key, nonce: Key, o: Offer)
    ensures Offers.RefundBid(e, w, k, vault, bidder, mint, dst, nonce, o).Ok? <==>
            && At(e, OfferSeed(bidder, nonce), k) && At(e, OVaultSeed(bidder, nonce), vault)
            && HoldsToken(w, dst, mint, bidder) && mint in e.mints
  {
    hide Find;
  }

  lemma WithdrawGates(e: Env, w: World, x: Ix)
    ensures Offers.WithdrawOffer(e, w, x).Ok? <==>
            && |x.data| == 32 && |x.accounts| == 6 && x.accounts[0] in x.signers
            && BidRefundable(e, w, x.accounts[1], x.accounts[2], x.accounts[0], x.accounts[3], x.accounts[4], x.data)
  {
    hide Offers.RefundBid, At, HoldsToken, ReadOffer;
    var a := x.accounts;
    if |a| == 6 && |x.data| == 32 && a[1] in w.records && |w.records[a[1]]| == OFFER_LEN {
      BidStatusReads(w.records[a[1]]);
      RefundBidMeans(e, w, a[1], a[2], a[0], a[3], a[4], x.data, ReadOffer(w.records[a[1]]));
    }
  }

  lemma ExpireBidGates(e: Env, w: World, x: Ix)
    ensures Offers.ExpireOffer(e, w, x).Ok? <==>
            && |x.data| == 32 && |x.accounts| == 7
            && BidRefundable(e, w, x.accounts[1], x.accounts[2], x.accounts[3], x.accounts[4], x.accounts[5], x.data)
            && ReadOffer(w.records[x.accounts[1]]).expiry <= w.now
  {
    hide Offers.RefundBid, At, HoldsToken, ReadOffer;
    var a := x.accounts;
    if |a| == 7 && |x.data| == 32 && a[1] in w.records && |w.records[a[1]]| == OFFER_LEN {
      BidStatusReads(w.records[a[1]]);
      RefundBidMeans(e, w, a[1], a[2], a[3], a[4], a[5], x.data, ReadOffer(w.records[a[1]]));
    }
  }

  lemma BidRefundAccepted(e: Env, w: World, x: Ix, plan: Plan, o: Offer, nonce: Key, k: Key, vault: Key, dst: Key)
    requires ValidEnv(e) && Inv(e, w) && RefundsBid(e, w, plan, o, nonce, k, vault, dst)
    ensures Run(e, w, x, plan).Ok? <==> Releasable(w, vault, dst, o.wantAmount)
    ensures k in w.records && |w.records[k]| == OFFER_LEN && o == ReadOffer(w.records[k])
  {
    hide ReadOffer, Inv, Legs, Find, Exec, Balance;
    Recovery.BidRefundAccepted(e, w, x, plan, o, nonce, k, vault, dst);
    Recovery.RefundedBidLeg(e, w, plan, o, nonce, k, vault, dst);
    assert Legs(e, k, w.records[k])[0] == Leg(vault, o.wantMint, o.wantAmount);
    assert Recovery.LegsExact(e, w, k) <==> Balance(w, vault) == o.wantAmount;
  }

  /** In every reachable state withdraw_offer is accepted exactly when its bidder signs for an open bid at the address
      of bidder and nonce, the accounts are right, the vault holds just the bid, and the destination has room. */
  lemma WithdrawAccepted(e: Env, w: World, x: Ix)
    requires ValidEnv(e) && Inv(e, w)
    ensures Step(e, w, 6, x).Ok? <==> MayWithdraw(e, w, x)
  {
    hide Offers.WithdrawOffer, BidRefundable, Releasable, Exec, Inv, ValidEnv, RefundsBid, ReadOffer;
    RefundPlans(e, w, x);
    WithdrawGates(e, w, x);
    if Offers.WithdrawOffer(e, w, x).Ok? {
      var o := WithdrawOfferShape(e, x, w);
      BidRefundAccepted(e, w, x, Offers.WithdrawOffer(e, w, x), o, x.data, x.accounts[1], x.accounts[2],
          x.accounts[4]);
    }
  }

  /** The same for expire_offer, which anyone may call from the expiry on. */
  lemma ExpireBidAccepted(e: Env, w: World, x: Ix)
    requires ValidEnv(e) && Inv(e, w)
    ensures Step(e, w, 7, x).Ok? <==> MayExpireBid(e, w, x)
  {
    hide Offers.ExpireOffer, BidRefundable, Releasable, Exec, Inv, ValidEnv, RefundsBid, ReadOffer;
    RefundPlans(e, w, x);
    ExpireBidGates(e, w, x);
    if Offers.ExpireOffer(e, w, x).Ok? {
      var o := ExpireOfferShape(e, x, w);
      BidRefundAccepted(e, w, x, Offers.ExpireOffer(e, w, x), o, x.data, x.accounts[1], x.accounts[2], x.accounts[5]);
    }
  }

  // ---- accept_offer ----

  /** What an acceptance must show: the maker's signature, both records open and unexpired, the bid on this swap for
      exactly the goods it shows, the four derived addresses, and an account of each party. */
  predicate AcceptTerms(e: Env, w: World, x: Ix) {
    var d, a := x.data, x.accounts;
    && |d| == 64 && |a| == 13 && a[0] in x.signers
    && a[1] in w.records && |w.records[a[1]]| == 220 && a[3] in w.records && |w.records[a[3]]| == 186
    && var s, o := ReadSwap(w.records[a[1]]), ReadOffer(w.records[a[3]]);
       && s.status == 0 && o.status == 0 && s.maker == a[0] && o.offerer == a[5] && o.swap == a[1]
       && s.giveMint == a[6] && o.giveMint == a[6] && s.wantMint == a[7] && o.wantMint == a[7]
       && o.giveAmount == s.giveAmount && w.now < s.expiry && w.now < o.expiry
       && At(e, SwapSeed(a[0], KeyAt(d, 0)), a[1]) && At(e, VaultSeed(a[0], KeyAt(d, 0)), a[2])
       && At(e, OfferSeed(a[5], KeyAt(d, 32)), a[3]) && At(e, OVaultSeed(a[5], KeyAt(d, 32)), a[4])
       && HoldsToken(w, a[9], a[7], a[0]) && HoldsToken(w, a[8], a[6], a[5])
       && a[6] in e.mints && a[7] in e.mints && IsConfig(e, w, a[11])
  }

  predicate AcceptFeeGoes(e: Env, w: World, x: Ix)
    requires AcceptTerms(e, w, x)
  {
    var a := x.accounts;
    FeeOf(w.records[a[11]], ReadOffer(w.records[a[3]]).wantAmount) > 0 ==>
        FeeGoes(e, w, w.records[a[11]], a[12], a[7], x.data[0])
  }

  /** The escrowed bid as fee and proceeds, the goods to the bidder, both closings. */
  function AcceptTouches(e: Env, w: World, x: Ix): seq<Touch>
    requires AcceptTerms(e, w, x)
  {
    var a, s, o := x.accounts, ReadSwap(w.records[x.accounts[1]]), ReadOffer(w.records[x.accounts[3]]);
    PriceTouches(w.records[a[11]], a[4], a[7], a[12], a[9], a[3], o.wantAmount)
    + [Pay(a[2], a[6], a[8], a[1], s.giveAmount), Finish(a[4], a[3]), Finish(a[2], a[1])]
  }

  lemma AcceptGates(e: Env, w: World, x: Ix)
    ensures Offers.AcceptOffer(e, w, x).Ok? <==> AcceptTerms(e, w, x)
  {
    hide Find, ReadSwap, ReadOffer, PriceOps, ReadConfig, IsConfig;
    var a := x.accounts;
    if |a| == 13 {
      ConfigReads(e, w, a[11]);
      if a[1] in w.records && |w.records[a[1]]| == SWAP_LEN {
        StatusReads(w.records[a[1]]);
      }
      if a[3] in w.records && |w.records[a[3]]| == OFFER_LEN {
        BidStatusReads(w.records[a[3]]);
      }
    }
  }

  lemma HandOverAsks(e: Env, signers: set<Key>, r: map<Key, seq<byte>>, svault: Key, mint: Key, dst: Key, amount: nat,
      swapAuth: Authority, ovault: Key, offerAuth: Authority, p: Key, q: Key)
    requires Signed(e, signers, swapAuth) && Signed(e, signers, offerAuth) && p in r && q in r
    ensures var ops := Offers.HandOver(svault, mint, dst, amount, swapAuth, ovault, offerAuth) + [Wipe(p), Wipe(q)];
            && AllSound(e, signers, r, ops) && (forall op :: op in ops ==> !op.NewRecord?)
            && Touches(ops) == [Pay(svault, mint, dst, swapAuth.key, amount), Finish(ovault, offerAuth.key),
                   Finish(svault, swapAuth.key)]
  {
    hide Signed, AllSound, Touches;
    var pay, one, two := Transfer(svault, mint, dst, swapAuth, amount), CloseToken(ovault, offerAuth),
        CloseToken(svault, swapAuth);
    var wipes := [Wipe(p)] + ([Wipe(q)] + []);
    assert Offers.HandOver(svault, mint, dst, amount, swapAuth, ovault, offerAuth) + [Wipe(p), Wipe(q)]
        == [pay] + ([one] + ([two] + wipes));
    Cons(e, signers, r, pay, [one] + ([two] + wipes));
    Cons(e, signers, r, one, [two] + wipes);
    Cons(e, signers, r, two, wipes);
    Cons(e, signers, r, Wipe(p), [Wipe(q)] + []);
    Cons(e, signers, r, Wipe(q), []);
    Nil(e, signers, r);
  }

  /** Both records sign with the bumps they store. */
  lemma BothSign(e: Env, w: World, k: Key, q: Key, s: Swap, o: Offer, sn: Key, on: Key)
    requires ValidEnv(e) && Inv(e, w)
    requires k in w.records && |w.records[k]| == SWAP_LEN && s == ReadSwap(w.records[k])
    requires q in w.records && |w.records[q]| == OFFER_LEN && o == ReadOffer(w.records[q])
    requires Find(e.derive, SwapSeed(s.maker, sn)).Ok? && k == Address(e.derive, SwapSeed(s.maker, sn))
    requires Find(e.derive, OfferSeed(o.offerer, on)).Ok? && q == Address(e.derive, OfferSeed(o.offerer, on))
    ensures Create(e.derive, SwapSeed(s.maker, sn), s.bump) == Some(k)
    ensures Create(e.derive, OfferSeed(o.offerer, on), o.bump) == Some(q)
  {
    hide ReadSwap, ReadOffer, Inv, Find, Create;
    Lifecycle.AcceptBothLive(e, w, k, q, s, o, sn, on);
    Recovery.SwapAddress(e, w, k, s.maker, sn);
    Recovery.BidBump(e, w, q, o, on);
  }

  /** In every reachable state accept_offer is accepted exactly when its terms hold, a positive fee goes where the
      policy says, and the token program carries out the payment, the hand-over and both closings in turn; the token
      accounts are then what it leaves, and the log grows by the transfers. */
  lemma AcceptAccepted(e: Env, w: World, x: Ix)
    requires ValidEnv(e) && Inv(e, w)
    ensures Step(e, w, 5, x).Ok? <==>
            && AcceptTerms(e, w, x) && AcceptFeeGoes(e, w, x) && CarryOut(w.tokens, AcceptTouches(e, w, x)).Some?
    ensures Step(e, w, 5, x).Ok? ==>
            && Some(Step(e, w, 5, x).value.tokens) == CarryOut(w.tokens, AcceptTouches(e, w, x))
            && Step(e, w, 5, x).value.log == w.log + Paid(AcceptTouches(e, w, x))
  {
    hide Offers.AcceptOffer, Inv, ReadSwap, ReadOffer, PriceOps, Offers.HandOver, Exec, CarryOut, PriceTouches,
        FeeGoes, FeeOf, AllSound, Touches, Find, ReadConfig, ReadConfigRecord, Royalty.Bps, Create, ValidEnv,
        Paid;
    SwapPlans(e, w, x);
    AcceptGates(e, w, x);
    if Offers.AcceptOffer(e, w, x).Ok? {
      var s, o, c, sn, on := AcceptOfferShape(e, x, w);
      var a := x.accounts;
      ConfigReads(e, w, a[11]);
      FeeInNumbers(e, w, a[11], o.wantAmount);
      BothSign(e, w, a[1], a[3], s, o, sn, on);
      var offerAuth, swapAuth := Seeded(a[3], OfferSeed(o.offerer, on), o.bump),
          Seeded(a[1], SwapSeed(s.maker, sn), s.bump);
      var pay := PriceOps(e, w, c, a[4], s.wantMint, a[12], a[9], offerAuth, o.wantAmount, sn[0]);
      var hand := Offers.HandOver(a[2], s.giveMint, a[8], s.giveAmount, swapAuth, a[4], offerAuth)
          + [Wipe(a[3]), Wipe(a[1])];
      PriceAsks(e, x.signers, w.records, w, w.records[a[11]], a[4], s.wantMint, a[12], a[9], offerAuth, o.wantAmount,
          sn[0]);
      HandOverAsks(e, x.signers, w.records, a[2], s.giveMint, a[8], s.giveAmount, swapAuth, a[4], offerAuth, a[3],
          a[1]);
      assert Offers.AcceptOffer(e, w, x).value == pay + hand;
      BothSound(e, x.signers, w.records, pay, hand);
      TouchesSplit(pay, hand);
      ExecByCarry(e, x.signers, w, pay + hand);
    }
  }
}
