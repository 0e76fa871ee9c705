/** When signed orders and bids are settled (tags 38 and 41), in terms of payload bytes, the signature instruction,
    metadata and token accounts alone. */
module OrderAdmission {
  import opened Prelude
  import opened Bytes
  import opened Seeds
  import opened Layout
  import opened Ledger
  import opened FeeConfig
  import opened Payments
  import opened Machine
  import opened Shapes
  import opened SignedMessages
  import opened Carry
  import opened Admission
  import opened RoyaltyPayout
  import Orders
  import Royalty

  // ---- the signed bytes ----

  /** The bytes signed for this payload and these mints: the domain, then both in the order of the terms. */
  function SignedBytes(domain: seq<byte>, d: seq<byte>, give: Key, want: Key): seq<byte>
    requires |d| == 90
  {
    domain + give + d[0..8] + want + d[8..16] + d[16..48] + d[48..56] + d[56..88] + d[88..90]
  }

  /** The instruction just before verified one signature, by this key over this message, all within itself. */
  predicate SignedBy(x: Ix, signer: Key, message: seq<byte>) {
    && |message| < 256 && x.signature.Some?
    && var s := x.signature.value;
       && |s| == 112 + |message|
       && s[..16] == [1, 0, 48, 0, 255, 255, 16, 0, 255, 255, 112, 0, |message|, 0, 255, 255]
       && s[16..48] == signer && s[112..] == message
  }

  lemma SmallNumbers(n: nat)
    requires n < 256
    ensures U16Bytes(n) == [n, 0] && U16Bytes(U16_MAX) == [255, 255]
  {
    assert ToLE(n, 2) == [n % 256] + ToLE(n / 256, 1);
    assert ToLE(n / 256, 1) == [n / 256 % 256] + ToLE(n / 256 / 256, 0);
    assert ToLE(U16_MAX, 2) == [U16_MAX % 256] + ToLE(U16_MAX / 256, 1);
    assert ToLE(U16_MAX / 256, 1) == [U16_MAX / 256 % 256] + ToLE(U16_MAX / 256 / 256, 0);
  }

  lemma ProofMeans(x: Ix, signer: Key, message: seq<byte>)
    requires |message| < 256
    ensures Orders.ProvesSignature(x, signer, message) <==> SignedBy(x, signer, message)
  {
    hide U16Bytes;
    SmallNumbers(SIG_OFF);
    SmallNumbers(PK_OFF);
    SmallNumbers(MSG_OFF);
    SmallNumbers(|message|);
    assert CanonicalHeader(|message|)
        == [1, 0, 48, 0, 255, 255, 16, 0, 255, 255, 112, 0, |message|, 0, 255, 255];
  }

  lemma TermsAreBytes(d: seq<byte>, give: Key, want: Key)
    requires |d| == 90
    ensures OrderMessage(Orders.DealOf(d, give, want)) == SignedBytes(ORDER_DOMAIN, d, give, want)
    ensures BidMessage(Orders.DealOf(d, give, want)) == SignedBytes(BID_DOMAIN, d, give, want)
  {
    hide U64Bytes, U64Of, I64Bytes, I64Of;
    NumbersWriteBack(d[0..8]);
    NumbersWriteBack(d[8..16]);
    NumbersWriteBack(d[48..56]);
    assert d[88..90] == [d[88], d[89]];
    var t := Orders.DealOf(d, give, want);
    assert Terms(t) == give + d[0..8] + want + d[8..16] + d[16..48] + d[48..56] + d[56..88] + d[88..90];
  }

  // ---- settle_signed_order ----

  /** The creator accounts, which follow the asset's token program and metadata. */
  function OrderCreators(x: Ix): seq<Key> {
    if |x.accounts| > 17 then x.accounts[17..] else []
  }

  /** What the gates of the plan ask. */
  predicate OrderGate(e: Env, w: World, x: Ix) {
    var d, a := x.data, x.accounts;
    && |d| == 90 && d[88] <= 3 && d[89] <= 100 && |a| >= 15 && a[0] in x.signers
    && U64At(d, 0) > 0 && U64At(d, 8) > 0 && w.now < I64At(d, 48) && (KeyAt(d, 16) == ZERO || KeyAt(d, 16) == a[0])
    && SignedBy(x, a[1], SignedBytes(ORDER_DOMAIN, d, a[2], a[3]))
    && At(e, OrderSeed(a[1]), a[8]) && At(e, DoneSeed(a[1], KeyAt(d, 56)), a[9])
  }

  /** What an order must show besides its royalty and room and balance: the maker's signature over these terms, an
      unspent nonce, live terms for this taker, the derived addresses, and two accounts of the maker. */
  predicate OrderTerms(e: Env, w: World, x: Ix) {
    && OrderGate(e, w, x)
    && var d, a := x.data, x.accounts;
       && a[9] !in w.records && a[9] !in w.tokens
       && HoldsToken(w, a[4], a[2], a[1]) && HoldsToken(w, a[7], a[3], a[1]) && a[2] in e.mints && a[3] in e.mints
       && IsConfig(e, w, a[11]) && (d[88] != 0 ==> |a| >= 17)
  }

  predicate OrderRoyaltyFits(e: Env, w: World, x: Ix)
    requires OrderTerms(e, w, x)
  {
    var d, a := x.data, x.accounts;
    && RoyaltyShown(w, a[3], d[88], d[89], x.metadata, OrderCreators(x))
    && RoyaltyFits(w.records[a[11]], U64At(d, 8), U64 - 1, d[88], d[89], x.metadata)
  }

  predicate OrderFeeGoes(e: Env, w: World, x: Ix)
    requires OrderTerms(e, w, x)
  {
    var d, a := x.data, x.accounts;
    FeeOf(w.records[a[11]], U64At(d, 8)) > 0 ==> FeeGoes(e, w, w.records[a[11]], a[12], a[3], d[56])
  }

  /** The fee, the maker's payment and the payouts from the taker's account, and the goods out of the maker's under the
      order address. */
  function OrderTouches(e: Env, w: World, x: Ix): seq<Touch>
    requires OrderTerms(e, w, x) && OrderRoyaltyFits(e, w, x)
  {
    var d, a := x.data, x.accounts;
    RoyaltyTouches(w.records[a[11]], a[6], a[3], a[12], a[7], a[0], U64At(d, 8), d[88], d[89], x.metadata,
        OrderCreators(x))
    + [Pay(a[4], a[2], a[5], a[8], U64At(d, 0))]
  }

  lemma MessageLengths(d: seq<byte>, give: Key, want: Key)
    requires |d| == 90
    ensures |SignedBytes(ORDER_DOMAIN, d, give, want)| == 169 && |SignedBytes(BID_DOMAIN, d, give, want)| == 167
  {
  }

  lemma OrderGates(e: Env, w: World, x: Ix)
    ensures Orders.SettleSignedOrder(e, w, x).Ok? <==> OrderGate(e, w, x)
  {
    hide Find, RoyaltyOps, Orders.OrderChecks, Orders.ProvesSignature, SignedBy, OrderMessage, SignedBytes,
        Orders.OrStop;
    if |x.data| == 90 && |x.accounts| >= 15 {
      var a := x.accounts;
      TermsAreBytes(x.data, a[2], a[3]);
      MessageLengths(x.data, a[2], a[3]);
      ProofMeans(x, a[1], SignedBytes(ORDER_DOMAIN, x.data, a[2], a[3]));
    }
  }

  lemma {:induction false} TestsAsk(e: Env, signers: set<Key>, r: map<Key, seq<byte>>, ops: seq<Op>)
    requires forall op :: op in ops ==> op.Check?
    ensures AllSound(e, signers, r, ops) <==> forall op :: op in ops ==> op.ok
    ensures Touches(ops) == []
  {
    if ops == [] {
      Nil(e, signers, r);
    } else {
      TestsAsk(e, signers, r, ops[1..]);
      Cons(e, signers, r, ops[0], ops[1..]);
      assert ops == [ops[0]] + ops[1..];
    }
  }

  lemma OrderChecksAsk(e: Env, w: World, x: Ix, t: Deal)
    requires |x.accounts| >= 15
    ensures (forall op :: op in Orders.OrderChecks(e, w, x, t) ==> op.ok) <==>
            var a := x.accounts;
            && HoldsToken(w, a[4], t.giveMint, a[1]) && HoldsToken(w, a[7], t.wantMint, a[1])
            && t.giveMint in e.mints && t.wantMint in e.mints && (t.royaltyMode != 0 ==> |a| >= 17) && a[11] != a[9]
  {
    hide Find;
    var ops := Orders.OrderChecks(e, w, x, t);
    assert ops[0] in ops && ops[1] in ops && ops[2] in ops && ops[3] in ops && ops[4] in ops;
  }

  /** A settlement that spends a marker: new marker, tests that hold, a payment that is planned and sound, and the
      token program's consent to all that is asked. */
  lemma SpendAccepted(e: Env, signers: set<Key>, w: World, done: Key, checks: seq<Op>, pay: Plan, last: Op)
    requires (forall op :: op in checks ==> op.Check?) && last.Transfer? && Signed(e, signers, last.auth)
    requires pay.Ok? ==> forall op :: op in pay.value ==> !op.NewRecord?
    ensures var v := Exec(e, signers, w, [NewRecord(done, MARKER_LEN)] + checks + Orders.OrStop(pay) + [last]);
            && (v.Ok? <==>
                 && done !in w.records && done !in w.tokens && (forall op :: op in checks ==> op.ok) && pay.Ok?
                 && AllSound(e, signers, w.records[done := Zeros(MARKER_LEN)], pay.value)
                 && CarryOut(w.tokens, Touches(pay.value) + TouchOf(last)).Some?)
            && (v.Ok? ==>
                 && Some(v.value.tokens) == CarryOut(w.tokens, Touches(pay.value) + TouchOf(last))
                 && v.value.log == w.log + Paid(Touches(pay.value) + TouchOf(last)))
  {
    hide AllSound, CarryOut, Touches, Paid, Signed, Exec;
    var r, rest := w.records[done := Zeros(MARKER_LEN)], checks + (Orders.OrStop(pay) + [last]);
    assert [NewRecord(done, MARKER_LEN)] + checks + Orders.OrStop(pay) + [last] == [NewRecord(done, MARKER_LEN)] + rest;
    CreateThen(e, signers, w, done, MARKER_LEN, rest);
    BothSound(e, signers, r, checks, Orders.OrStop(pay) + [last]);
    BothSound(e, signers, r, Orders.OrStop(pay), [last] + []);
    TestsAsk(e, signers, r, checks);
    TouchesSplit(checks, Orders.OrStop(pay) + [last]);
    TouchesSplit(Orders.OrStop(pay), [last]);
    Cons(e, signers, r, last, []);
    Nil(e, signers, r);
    OneTouch(last);
    assert [last] + [] == [last];
    assert Touches(rest) == Touches(Orders.OrStop(pay)) + TouchOf(last);
    if pay.Err? {
      TestsAsk(e, signers, r, Orders.OrStop(pay));
      assert Orders.OrStop(pay)[0] in Orders.OrStop(pay);
    }
  }

  /** In every reachable state settle_signed_order is accepted exactly when its terms hold, the royalty of the terms can
      be paid, a positive fee goes where the policy says, and the token program carries out the payments and the
      delegated transfer in turn; the token accounts are then what it leaves, and the log grows by the transfers. */
  lemma OrderAccepted(e: Env, w: World, x: Ix)
    requires Inv(e, w)
    ensures Step(e, w, 38, x).Ok? <==>
            && OrderTerms(e, w, x) && OrderRoyaltyFits(e, w, x) && OrderFeeGoes(e, w, x)
            && CarryOut(w.tokens, OrderTouches(e, w, x)).Some?
    ensures Step(e, w, 38, x).Ok? ==>
            && Some(Step(e, w, 38, x).value.tokens) == CarryOut(w.tokens, OrderTouches(e, w, x))
            && Step(e, w, 38, x).value.log == w.log + Paid(OrderTouches(e, w, x))
  {
    hide Orders.SettleSignedOrder, Inv, RoyaltyOps, Exec, CarryOut, RoyaltyTouches, FeeGoes, FeeOf, AllSound, Touches,
        Find, RoyaltyShown, RoyaltyFits, HoldsToken, Paid, SignedBy, SignedBytes, Orders.OrderChecks, U64At,
        OrderMessage, Orders.ProvesSignature, Orders.OrStop, Create;
    SalePlans(e, w, x);
    OrderGates(e, w, x);
    if Orders.SettleSignedOrder(e, w, x).Ok? {
      var t, auth, done := SettleOrderShape(e, x, w);
      var a, plan := x.accounts, OrderRoyalty(e, w, x, t);
      var last := Transfer(a[4], t.giveMint, a[5], Seeded(auth.key, OrderSeed(a[1]), auth.bump), t.giveAmount);
      var r := w.records[a[9] := Zeros(MARKER_LEN)];
      OrderChecksAsk(e, w, x, t);
      RoyaltyPlanned(e, w, a[11], a[6], a[3], a[12], a[7], a[0], t.wantAmount, U64 - 1, t.nonce[0], t.royaltyMode,
          t.makerPct, x.metadata, OrderCreators(x));
      if plan.Ok? {
        RoyaltyAsks(e, x.signers, r, w, a[11], a[6], a[3], a[12], a[7], a[0], t.wantAmount, U64 - 1, t.nonce[0],
            t.royaltyMode, t.makerPct, x.metadata, OrderCreators(x));
      }
      SpendAccepted(e, x.signers, w, a[9], Orders.OrderChecks(e, w, x, t), plan, last);
      assert TouchOf(last) == [Pay(a[4], a[2], a[5], a[8], U64At(x.data, 0))];
    }
  }

  lemma OrderSizes(e: Env, w: World, x: Ix)
    requires OrderGate(e, w, x)
    ensures |x.data| == 90 && |x.accounts| >= 15
  {
  }

  /** The sale of a signed order with royalty, over its transfers: the metadata asks the royalty, each account it pays
      belongs to the creator of its position, the royalty of the metadata's rate is shared out whole, and the taker pays
      the price and what of it the maker does not fund; then the goods move. */
  lemma OrderRoyaltyIsPaid(e: Env, w: World, x: Ix)
    requires Inv(e, w) && Step(e, w, 38, x).Ok?
    ensures OrderTerms(e, w, x)
    ensures var d, a, m := x.data, x.accounts, x.metadata;
            d[88] != 0 ==>
              && AsksRoyalty(m) && |a| == 17 + |CreatorsOf(m)|
              && (forall i :: 0 <= i < |CreatorsOf(m)| ==> HoldsToken(w, a[17 + i], a[3], CreatorsOf(m)[i].address))
              && exists moves: seq<Move>, payouts: seq<nat> ::
                   && |payouts| == |CreatorsOf(m)|
                   && PaysRoyalty(moves, w.records[a[11]], a[6], a[3], a[12], a[7], a[0], U64At(d, 8), d[88], d[89], m,
                        a[17..], payouts)
                   && Step(e, w, 38, x).value.log == w.log + moves + [Move(a[4], a[2], a[5], a[8], U64At(d, 0))]
  {
    hide Step, Inv, CarryOut, RoyaltyTouches, FeeGoes, FeeOf, Find, RoyaltyFits, HoldsToken, OrderGate, Paid,
        PaysRoyalty, AsksRoyalty, CreatorsOf, ShareSum, Payouts, U64At;
    OrderAccepted(e, w, x);
    assert |x.data| == 90 && |x.accounts| >= 15 by { OrderSizes(e, w, x); }
    var d, a, m := x.data, x.accounts, x.metadata;
    if d[88] != 0 {
      CreatorsAre(m);
      var asked := RoyaltyTouches(w.records[a[11]], a[6], a[3], a[12], a[7], a[0], U64At(d, 8), d[88], d[89], m,
          a[17..]);
      var pull := Pay(a[4], a[2], a[5], a[8], U64At(d, 0));
      assert OrderCreators(x) == a[17..];
      RoyaltyIsPaid(w.records[a[11]], a[6], a[3], a[12], a[7], a[0], U64At(d, 8), U64 - 1, d[88], d[89], m, a[17..]);
      PaidSplit(asked, [pull]);
      OnePaid(pull);
      assert w.log + (Paid(asked) + Paid([pull])) == w.log + Paid(asked) + Paid([pull]);
      forall i | 0 <= i < |CreatorsOf(m)|
        ensures HoldsToken(w, a[17 + i], a[3], CreatorsOf(m)[i].address)
      {
        assert a[17..][i] == a[17 + i];
      }
    }
  }

  // ---- settle_signed_bid_spl ----

  /** What the gates of the plan ask: the royalty bytes of a bid must both be zero. */
  predicate BidGate(e: Env, w: World, x: Ix) {
    var d, a := x.data, x.accounts;
    && |d| == 90 && |a| == 16 && a[0] in x.signers
    && U64At(d, 0) > 0 && U64At(d, 8) == 1 && d[88] == 0 && d[89] == 0
    && w.now < I64At(d, 48) && (KeyAt(d, 16) == ZERO || KeyAt(d, 16) == a[0])
    && SignedBy(x, a[1], SignedBytes(BID_DOMAIN, d, a[2], a[3]))
    && At(e, OrderSeed(a[1]), a[9]) && At(e, DoneSeed(a[1], KeyAt(d, 56)), a[10])
  }

  /** What a signed bid must show besides room and balance: the bidder's signature over these terms, an unspent nonce,
      live terms for this owner, the derived addresses, and two accounts of each party. */
  predicate BidTerms(e: Env, w: World, x: Ix) {
    && BidGate(e, w, x)
    && var a := x.accounts;
       && a[10] !in w.records && a[10] !in w.tokens
       && HoldsToken(w, a[4], a[2], a[1]) && HoldsToken(w, a[5], a[2], a[0])
       && HoldsToken(w, a[13], a[3], a[0]) && HoldsToken(w, a[14], a[3], a[1])
       && a[2] in e.mints && a[3] in e.mints && IsConfig(e, w, a[7])
  }

  predicate BidFeeGoes(e: Env, w: World, x: Ix)
    requires BidTerms(e, w, x)
  {
    var d, a := x.data, x.accounts;
    FeeOf(w.records[a[7]], U64At(d, 0)) > 0 ==> FeeGoes(e, w, w.records[a[7]], a[8], a[2], d[56])
  }

  /** The bidder's coins as fee and proceeds under the order address, and one unit to the bidder. */
  function BidTouches(e: Env, w: World, x: Ix): seq<Touch>
    requires BidTerms(e, w, x)
  {
    var d, a := x.data, x.accounts;
    PriceTouches(w.records[a[7]], a[4], a[2], a[8], a[5], a[9], U64At(d, 0)) + [Pay(a[13], a[3], a[14], a[0], 1)]
  }

  lemma BidGates(e: Env, w: World, x: Ix)
    ensures Orders.SettleSignedBid(e, w, x).Ok? <==> BidGate(e, w, x)
  {
    hide Find, Orders.CoinsOps, Orders.BidChecks, Orders.ProvesSignature, SignedBy, BidMessage, SignedBytes,
        Orders.OrStop;
    if |x.data| == 90 && |x.accounts| == 16 {
      var a := x.accounts;
      TermsAreBytes(x.data, a[2], a[3]);
      MessageLengths(x.data, a[2], a[3]);
      ProofMeans(x, a[1], SignedBytes(BID_DOMAIN, x.data, a[2], a[3]));
    }
  }

  lemma BidChecksAsk(e: Env, w: World, x: Ix, t: Deal)
    requires |x.accounts| >= 15
    ensures (forall op :: op in Orders.BidChecks(e, w, x, t) ==> op.ok) <==>
            var a := x.accounts;
            && HoldsToken(w, a[4], t.giveMint, a[1]) && HoldsToken(w, a[5], t.giveMint, a[0])
            && HoldsToken(w, a[13], t.wantMint, a[0]) && HoldsToken(w, a[14], t.wantMint, a[1])
            && t.giveMint in e.mints && t.wantMint in e.mints && a[7] != a[10]
  {
    hide Find;
    var ops := Orders.BidChecks(e, w, x, t);
    assert ops[0] in ops && ops[1] in ops && ops[2] in ops && ops[3] in ops && ops[4] in ops && ops[5] in ops;
  }

  /** The payment out of the bidder's coins. */
  lemma CoinsAsk(e: Env, signers: set<Key>, r: map<Key, seq<byte>>, w: World, config: Key, src: Key, mint: Key,
      feeAccount: Key, owner: Key, auth: Authority, price: nat, seed: byte)
    requires Inv(e, w) && price < U64 && Signed(e, signers, auth)
    ensures var plan := Orders.CoinsOps(e, w, config, src, mint, feeAccount, owner, auth, price, seed);
            && (plan.Ok? <==> IsConfig(e, w, config))
            && (plan.Ok? ==>
                 && (forall op :: op in plan.value ==> !op.NewRecord?)
                 && (AllSound(e, signers, r, plan.value) <==> (FeeOf(w.records[config], price) > 0 ==>
                       FeeGoes(e, w, w.records[config], feeAccount, mint, seed)))
                 && Touches(plan.value)
                    == PriceTouches(w.records[config], src, mint, feeAccount, owner, auth.key, price))
  {
    hide Inv, At, PriceOps, FeeGoes, FeeOf, ReadConfig, ReadConfigRecord, Royalty.Bps, AllSound, Touches, PriceTouches,
        Signed;
    ConfigReads(e, w, config);
    if IsConfig(e, w, config) {
      FeeInNumbers(e, w, config, price);
      PriceAsks(e, signers, r, w, w.records[config], src, mint, feeAccount, owner, auth, price, seed);
    }
  }

  /** In every reachable state settle_signed_bid_spl is accepted exactly when its terms hold, a positive fee goes where
      the policy says, and the token program carries out the payment and the delivery in turn; the token accounts are
      then what it leaves, and the log grows by the transfers. */
  lemma BidAccepted(e: Env, w: World, x: Ix)
    requires Inv(e, w)
    ensures Step(e, w, 41, x).Ok? <==>
            && BidTerms(e, w, x) && BidFeeGoes(e, w, x) && CarryOut(w.tokens, BidTouches(e, w, x)).Some?
    ensures Step(e, w, 41, x).Ok? ==>
            && Some(Step(e, w, 41, x).value.tokens) == CarryOut(w.tokens, BidTouches(e, w, x))
            && Step(e, w, 41, x).value.log == w.log + Paid(BidTouches(e, w, x))
  {
    hide Orders.SettleSignedBid, Inv, Exec, CarryOut, PriceTouches, FeeGoes, FeeOf, AllSound, Touches, Find,
        HoldsToken, Paid, SignedBy, SignedBytes, Orders.BidChecks, Orders.CoinsOps, U64At, BidMessage,
        Orders.ProvesSignature, Orders.OrStop, Create;
    SalePlans(e, w, x);
    BidGates(e, w, x);
    if Orders.SettleSignedBid(e, w, x).Ok? {
      var t, auth, done := SettleBidShape(e, x, w);
      var a := x.accounts;
      var order := Seeded(auth.key, OrderSeed(a[1]), auth.bump);
      var plan := Orders.CoinsOps(e, w, a[7], a[4], t.giveMint, a[8], a[5], order, t.giveAmount, t.nonce[0]);
      var last := Transfer(a[13], t.wantMint, a[14], Signer(a[0]), 1);
      BidChecksAsk(e, w, x, t);
      CoinsAsk(e, x.signers, w.records[a[10] := Zeros(MARKER_LEN)], w, a[7], a[4], t.giveMint, a[8], a[5], order,
          t.giveAmount, t.nonce[0]);
      SpendAccepted(e, x.signers, w, a[10], Orders.BidChecks(e, w, x, t), plan, last);
      assert TouchOf(last) == [Pay(a[13], a[3], a[14], a[0], 1)];
    }
  }
}
