/** When an instruction is refused for insufficient funds: the exact condition, and the rates that rule it out. */
module Shortfalls {
  import opened Prelude
  import opened Bytes
  import opened Seeds
  import opened Layout
  import opened Ledger
  import opened FeeConfig
  import opened Royalty
  import opened Payments
  import opened SignedMessages
  import opened Machine
  import opened Shapes
  import opened Runs
  import opened RoyaltySettlement
  import Swaps
  import Offers
  import Baskets
  import Listings
  import Orders

  // ---- the condition, in numbers ----

  /** The royalty rate the presented metadata asks for. */
  function RoyaltyRate(m: MetadataAccount): nat {
    if m.Genuine? && RoyaltyTerms(m.data).Ok? then RoyaltyTerms(m.data).value.bps else 0
  }

  /** A rate of a price, rounded down. */
  function PartOf(price: nat, bps: nat): nat {
    price * bps / BPS_DENOM
  }

  /** What the maker funds of a royalty. */
  function MakersPart(royalty: nat, mode: byte, pct: byte): nat {
    if mode == ROYALTY_MAKER then royalty else if mode == ROYALTY_SPLIT then royalty * pct / 100 else 0
  }

  /** The fee and the maker's part of the royalty, each rounded down, exceed the price together; a split names a
      percentage. */
  predicate Short(price: nat, feeBps: nat, royaltyBps: nat, mode: byte, pct: byte) {
    && (mode == ROYALTY_SPLIT ==> pct <= 100)
    && PartOf(price, feeBps) + MakersPart(PartOf(price, royaltyBps), mode, pct) > price
  }

  lemma PartIsWithin(royalty: nat, pct: nat)
    requires pct <= 100
    ensures royalty * pct / 100 <= royalty
  {
    MulBound(royalty, pct, 100);
  }

  /** Nobody is short while the two rates stay within 100% together. */
  lemma RatesRuleItOut(price: nat, feeBps: nat, royaltyBps: nat, mode: byte, pct: byte)
    requires feeBps + royaltyBps <= BPS_DENOM
    ensures !Short(price, feeBps, royaltyBps, mode, pct)
  {
    RatesTogetherFit(price, feeBps, royaltyBps);
    if pct <= 100 {
      PartIsWithin(PartOf(price, royaltyBps), pct);
    }
  }

  // ---- the same instruction with the fee waived ----

  function FeeWaived(w: World, config: Key): World {
    if config in w.records && |w.records[config]| == CONFIG_LEN
    then w.(records := w.records[config := Put(w.records[config], C_FEE_BPS, [0, 0])]) else w
  }

  lemma WaivedRecord(b: seq<byte>)
    requires |b| == CONFIG_LEN
    ensures ReadConfigRecord(Put(b, C_FEE_BPS, [0, 0])) == ReadConfigRecord(b).(feeBps := 0)
  {
    var r := Put(b, C_FEE_BPS, [0, 0]);
    assert r[C_FEE_BPS..C_FEE_BPS + 2] == [0, 0];
    assert LE([0, 0]) == 0 + 256 * LE([0, 0][1..]) && [0, 0][1..] == [0] && LE([0]) == 0 + 256 * LE([0][1..]);
  }

  lemma WaivedConfig(e: Env, w: World, config: Key)
    ensures ReadConfig(e, FeeWaived(w, config), config) ==
            if ReadConfig(e, w, config).Ok? then Ok(ReadConfig(e, w, config).value.(feeBps := 0))
            else ReadConfig(e, w, config)
  {
    hide Find;
    if config in w.records && |w.records[config]| == CONFIG_LEN {
      WaivedRecord(w.records[config]);
    }
  }

  lemma SameCreators(w: World, v: World, mint: Key, shares: seq<Share>, creators: seq<Key>)
    requires |creators| == |shares| && v.tokens == w.tokens
    ensures CreatorsMatch(v, mint, shares, creators) == CreatorsMatch(w, mint, shares, creators)
  {
    forall i | 0 <= i < |shares|
      ensures IsTokenAccount(v, creators[i], mint, shares[i].creator)
          == IsTokenAccount(w, creators[i], mint, shares[i].creator)
    {
    }
  }

  lemma NeverEarly(e: Env, w: World, config: Key, metadata: Option<MetadataAccount>, mode: byte, pct: byte, want: nat)
    ensures ReadConfig(e, w, config) != Err(InsufficientFunds)
        && Bill(metadata, mode, pct, want) != Err(InsufficientFunds)
  {
    hide Parse, Bps, PercentSum;
  }

  lemma BillInNumbers(metadata: Option<MetadataAccount>, rate: nat, mode: byte, pct: byte, want: nat, bill: RoyaltyBill)
    requires Bill(metadata, mode, pct, want) == Ok(bill) && want < U64
    requires mode != ROYALTY_NONE ==> metadata.Some? && rate == RoyaltyRate(metadata.value)
    ensures bill.makerShare == MakersPart(PartOf(want, rate), mode, pct)
    ensures bill.makerShare <= bill.royalty <= want && (mode == ROYALTY_SPLIT ==> pct <= 100)
  {
    hide PercentSum, Bps;
    MakerShareFits(metadata, mode, pct, want, bill);
    if mode != ROYALTY_NONE {
      RateInRange(metadata.value.data);
      BpsFits(want, rate);
    }
  }

  lemma SameTokens(w: World, config: Key)
    ensures FeeWaived(w, config).tokens == w.tokens && FeeWaived(w, config).now == w.now
  {
  }

  /** The royalty payment is refused for insufficient funds exactly when it would be planned at no fee, and the fee in
      force leaves the price short. */
  lemma RoyaltyShort(e: Env, w: World, config: Key, src: Key, mint: Key, feeAccount: Key, maker: Key, taker: Key,
      want: nat, maxWant: nat, shardSeed: byte, mode: byte, pct: byte, m: MetadataAccount, creators: seq<Key>)
    requires Inv(e, w) && want < U64
    ensures var metadata := if mode == ROYALTY_NONE then None else Some(m);
            RoyaltyOps(e, w, config, src, mint, feeAccount, maker, taker, want, maxWant, shardSeed, mode, pct, metadata,
                creators) == Err(InsufficientFunds)
            <==> && RoyaltyOps(e, FeeWaived(w, config), config, src, mint, feeAccount, maker, taker, want, maxWant,
                     shardSeed, mode, pct, metadata, creators).Ok?
                 && ReadConfig(e, w, config).Ok?
                 && Short(want, ReadConfig(e, w, config).value.feeBps, RoyaltyRate(m), mode, pct)
  {
    hide Inv, ReadConfig, Bill, CreatorsMatch, FeeLeg, RoyaltyLeg, Bps, FeeWaived, RoyaltyRate, MakersPart;
    var metadata, v := if mode == ROYALTY_NONE then None else Some(m), FeeWaived(w, config);
    NeverEarly(e, w, config, metadata, mode, pct, want);
    WaivedConfig(e, w, config);
    SameTokens(w, config);
    if ReadConfig(e, w, config).Ok? && Bill(metadata, mode, pct, want).Ok? {
      var c, bill := ReadConfig(e, w, config).value, Bill(metadata, mode, pct, want).value;
      ConfigRateFits(e, w, config, c, want);
      BpsFits(want, 0);
      BillInNumbers(metadata, RoyaltyRate(m), mode, pct, want, bill);
      if |creators| == |bill.shares| {
        SameCreators(w, v, mint, bill.shares, creators);
      }
    }
  }

  // ---- which refusals say so ----

  predicate NeverShort(ops: seq<Op>) {
    forall op :: op in ops && op.Check? ==> op.error != InsufficientFunds
  }

  /** A refused list is refused by one of its own tests, or by the token or system program. */
  lemma {:induction false} OnlyTestsFallShort(e: Env, signers: set<Key>, w: World, ops: seq<Op>)
    requires NeverShort(ops)
    ensures Exec(e, signers, w, ops) != Err(InsufficientFunds)
    decreases |ops|
  {
    if ops != [] && Apply(e, signers, w, ops[0]).Ok? {
      OnlyTestsFallShort(e, signers, Apply(e, signers, w, ops[0]).value, ops[1..]);
    }
  }

  predicate PlanNeverShort(p: Plan) {
    if p.Ok? then NeverShort(p.value) else p.error != InsufficientFunds
  }

  lemma PriceNeverShort(e: Env, w: World, c: Config, src: Key, mint: Key, feeAccount: Key, payee: Key, auth: Authority,
      amount: nat, shardSeed: byte)
    ensures NeverShort(PriceOps(e, w, c, src, mint, feeAccount, payee, auth, amount, shardSeed))
  {
    hide IsFeeDestination, Bps;
  }

  lemma {:induction false} CreatorsNeverShort(src: Key, mint: Key, auth: Authority, payouts: seq<nat>,
      accounts: seq<Key>)
    requires |payouts| == |accounts|
    ensures NeverShort(CreatorOps(src, mint, auth, payouts, accounts))
  {
    if payouts != [] {
      CreatorsNeverShort(src, mint, auth, payouts[1..], accounts[1..]);
    }
  }

  /** Once planned, the royalty payment itself is never short. */
  lemma RoyaltyNeverShort(e: Env, w: World, config: Key, src: Key, mint: Key, feeAccount: Key, maker: Key, taker: Key,
      want: nat, maxWant: nat, shardSeed: byte, mode: byte, pct: byte, metadata: Option<MetadataAccount>,
      creators: seq<Key>)
    requires RoyaltyOps(e, w, config, src, mint, feeAccount, maker, taker, want, maxWant, shardSeed, mode, pct,
        metadata, creators).Ok?
    ensures NeverShort(RoyaltyOps(e, w, config, src, mint, feeAccount, maker, taker, want, maxWant, shardSeed, mode,
        pct, metadata, creators).value)
  {
    hide RoyaltyOps, IsFeeDestination, CreatorsMatch, Splits, Bill, Bps;
    var c, bill := RoyaltyShape(e, w, config, src, mint, feeAccount, maker, taker, want, maxWant, shardSeed, mode, pct,
        metadata, creators);
    if bill.royalty != 0 {
      CreatorsNeverShort(src, mint, Signer(taker), Splits(bill.royalty, Percentages(bill.shares)), creators);
    }
  }

  // ---- listings ----

  lemma SameAccounts(w: World, config: Key, p: Key, q: Key)
    ensures forall mint, owner :: IsTokenAccount(FeeWaived(w, config), p, mint, owner) == IsTokenAccount(w, p, mint,
        owner)
    ensures forall mint, owner :: IsTokenAccount(FeeWaived(w, config), q, mint, owner) == IsTokenAccount(w, q, mint,
        owner)
  {
  }

  /** Waiving the fee changes no swap or listing. */
  lemma WaivedElsewhere(w: World, config: Key, k: Key, giveMint: Key, wantMint: Key, taker: Key)
    requires k in w.records
    ensures k in FeeWaived(w, config).records
    ensures var load := LoadFillState(w, k, giveMint, wantMint, taker);
            && LoadFillState(FeeWaived(w, config), k, giveMint, wantMint, taker) == load
            && load != Err(InsufficientFunds)
            && (load.Ok? ==> |w.records[k]| == SWAP_LEN && load.value == ReadSwap(w.records[k]))
            && (load.Ok? ==> load.value.giveMint == giveMint && load.value.wantMint == wantMint)
  {
    hide ReadSwap;
  }

  lemma ListingPlanShort(e: Env, w: World, x: Ix)
    requires Inv(e, w)
    ensures Listings.FillListing(e, w, x) == Err(InsufficientFunds) <==>
            && |x.accounts| >= 12 && Listings.FillListing(e, FeeWaived(w, x.accounts[10]), x).Ok?
            && x.accounts[1] in w.records && |w.records[x.accounts[1]]| == SWAP_LEN
            && ReadConfig(e, w, x.accounts[10]).Ok?
            && var s := ReadSwap(w.records[x.accounts[1]]);
               Short(s.wantAmount, ReadConfig(e, w, x.accounts[10]).value.feeBps, RoyaltyRate(x.metadata),
                   s.royaltyMode, s.makerPct)
  {
    hide RoyaltyOps, Inv, ReadSwap, ReadConfig, Short, RoyaltyRate, Create, FeeWaived, LoadFillState, IsTokenAccount;
    if |x.accounts| >= 12 && |x.data| == 48 && x.accounts[1] in w.records {
      var a := x.accounts;
      WaivedElsewhere(w, a[10], a[1], a[3], a[4], a[0]);
      SameAccounts(w, a[10], a[5], a[8]);
      var load := LoadFillState(w, a[1], a[3], a[4], a[0]);
      if load.Ok? {
        var s := load.value;
        var none := s.royaltyMode == ROYALTY_NONE;
        RoyaltyShort(e, w, a[10], a[7], s.wantMint, a[11], a[8], a[0], s.wantAmount, U64At(x.data, 40), x.data[0],
            s.royaltyMode, s.makerPct, x.metadata, if none || |a| < 14 then [] else a[14..]);
      }
    }
  }

  lemma ListingNeverShort(e: Env, w: World, x: Ix)
    requires Listings.FillListing(e, w, x).Ok?
    ensures Step(e, w, 27, x) != Err(InsufficientFunds)
  {
    hide Listings.FillListing, RoyaltyOps, Exec, ReadSwap;
    var s, nonce := FillListingShape(e, x, w);
    var a, none := x.accounts, s.royaltyMode == ROYALTY_NONE;
    RoyaltyNeverShort(e, w, a[10], a[7], s.wantMint, a[11], a[8], a[0], s.wantAmount, U64At(x.data, 40), x.data[0],
        s.royaltyMode, s.makerPct, if none then None else Some(x.metadata), if none then [] else a[14..]);
    OnlyTestsFallShort(e, x.signers, w, Listings.FillListing(e, w, x).value);
  }

  /** fill_listing reports insufficient funds exactly when it would go through to the payment at no fee, and the fee
      in force with the maker's part of the royalty exceeds the price. */
  lemma ListingShortExactly(e: Env, w: World, x: Ix)
    requires Inv(e, w)
    ensures Step(e, w, 27, x) == Err(InsufficientFunds) <==>
            && |x.accounts| >= 12 && Listings.FillListing(e, FeeWaived(w, x.accounts[10]), x).Ok?
            && x.accounts[1] in w.records && |w.records[x.accounts[1]]| == SWAP_LEN
            && ReadConfig(e, w, x.accounts[10]).Ok?
            && var s := ReadSwap(w.records[x.accounts[1]]);
               Short(s.wantAmount, ReadConfig(e, w, x.accounts[10]).value.feeBps, RoyaltyRate(x.metadata),
                   s.royaltyMode, s.makerPct)
  {
    hide Listings.FillListing, Inv, ReadSwap, ReadConfig, Exec, Short, RoyaltyRate, FeeWaived;
    SalePlans(e, w, x);
    ListingPlanShort(e, w, x);
    if Listings.FillListing(e, w, x).Ok? {
      ListingNeverShort(e, w, x);
    }
  }

  // ---- orders ----

  /** The order gets as far as its payment: every gate of the plan passes, the marker is unused, and the tests on the
      token accounts hold. */
  predicate ReachesPayment(e: Env, w: World, x: Ix) {
    && Orders.SettleSignedOrder(e, w, x).Ok? && |x.accounts| >= 15 && |x.data| == 90
    && x.accounts[9] !in w.records && x.accounts[9] !in w.tokens
    && forall op :: op in Orders.OrderChecks(e, w, x, Orders.DealOf(x.data, x.accounts[2], x.accounts[3])) ==> op.ok
  }

  /** Tests that hold leave the state as it is; one that fails gives its own error. */
  lemma {:induction false} TestsRun(e: Env, signers: set<Key>, w: World, checks: seq<Op>, rest: seq<Op>)
    requires forall op :: op in checks ==> op.Check?
    ensures (forall op :: op in checks ==> op.ok) ==>
              Exec(e, signers, w, checks + rest) == Exec(e, signers, w, rest)
    ensures (exists op :: op in checks && !op.ok) ==>
              exists op :: op in checks && !op.ok && Exec(e, signers, w, checks + rest) == Err(op.error)
    decreases |checks|
  {
    if checks == [] {
      assert checks + rest == rest;
    } else {
      assert (checks + rest)[1..] == checks[1..] + rest;
      TestsRun(e, signers, w, checks[1..], rest);
      assert checks[0] in checks;
      assert forall op :: op in checks[1..] ==> op in checks;
    }
  }

  lemma OrderChecksNeverShort(e: Env, w: World, x: Ix, t: Deal)
    requires |x.accounts| >= 15
    ensures NeverShort(Orders.OrderChecks(e, w, x, t))
  {
    hide IsTokenAccount, Find;
  }

  /** A settlement that opens its marker and passes its tests goes on to its payment, and otherwise is refused for
      one of them. */
  lemma SettlePays(e: Env, signers: set<Key>, w: World, done: Key, checks: seq<Op>, pay: Plan, last: Op)
    requires (forall op :: op in checks ==> op.Check?) && NeverShort(checks) && last.Transfer?
    requires pay.Ok? ==> NeverShort(pay.value)
    ensures var ops := [NewRecord(done, MARKER_LEN)] + checks + Orders.OrStop(pay) + [last];
            Exec(e, signers, w, ops) == Err(InsufficientFunds) <==>
              && done !in w.records && done !in w.tokens && (forall op :: op in checks ==> op.ok)
              && pay == Err(InsufficientFunds)
  {
    hide Signed;
    var tail := Orders.OrStop(pay) + [last];
    var ops := [NewRecord(done, MARKER_LEN)] + checks + Orders.OrStop(pay) + [last];
    assert ops == [NewRecord(done, MARKER_LEN)] + (checks + tail);
    assert ops[1..] == checks + tail;
    var create := Apply(e, signers, w, ops[0]);
    if create.Ok? {
      TestsRun(e, signers, create.value, checks, tail);
      if pay.Ok? {
        OnlyTestsFallShort(e, signers, create.value, tail);
      } else {
        assert tail[0] == Check(false, pay.error);
      }
    }
  }

  lemma OrderPlanNeverShort(e: Env, w: World, x: Ix)
    ensures Orders.SettleSignedOrder(e, w, x) != Err(InsufficientFunds)
  {
    hide RoyaltyOps, Orders.OrderChecks, Orders.ProvesSignature, Orders.OrStop;
  }

  /** settle_signed_order reports insufficient funds exactly when it reaches its payment, the payment would be planned
      at no fee, and the fee in force with the maker's part of the royalty exceeds the price. */
  lemma OrderShortExactly(e: Env, w: World, x: Ix)
    requires Inv(e, w)
    ensures Step(e, w, 38, x) == Err(InsufficientFunds) <==>
            && ReachesPayment(e, w, x)
            && var t := Orders.DealOf(x.data, x.accounts[2], x.accounts[3]);
               && OrderRoyalty(e, FeeWaived(w, x.accounts[11]), x, t).Ok?
               && ReadConfig(e, w, x.accounts[11]).Ok?
               && Short(t.wantAmount, ReadConfig(e, w, x.accounts[11]).value.feeBps, RoyaltyRate(x.metadata),
                      t.royaltyMode, t.makerPct)
  {
    hide Orders.SettleSignedOrder, RoyaltyOps, Inv, ReadConfig, Exec, Short, RoyaltyRate, Orders.OrderChecks, FeeWaived,
        Orders.ProvesSignature, NeverShort, Orders.OrStop, Find;
    SalePlans(e, w, x);
    OrderPlanNeverShort(e, w, x);
    if Orders.SettleSignedOrder(e, w, x).Ok? {
      var t, auth, done := SettleOrderShape(e, x, w);
      var a, checks := x.accounts, Orders.OrderChecks(e, w, x, t);
      var creators := if |a| > 17 then a[17..] else [];
      var metadata := if t.royaltyMode == ROYALTY_NONE then None else Some(x.metadata);
      OrderChecksNeverShort(e, w, x, t);
      if OrderRoyalty(e, w, x, t).Ok? {
        RoyaltyNeverShort(e, w, a[11], a[6], t.wantMint, a[12], a[7], a[0], t.wantAmount, U64 - 1, t.nonce[0],
            t.royaltyMode, t.makerPct, metadata, creators);
      }
      RoyaltyShort(e, w, a[11], a[6], t.wantMint, a[12], a[7], a[0], t.wantAmount, U64 - 1, t.nonce[0], t.royaltyMode,
          t.makerPct, x.metadata, creators);
      SettlePays(e, x.signers, w, done.key, checks, OrderRoyalty(e, w, x, t),
          Transfer(a[4], t.giveMint, a[5], Seeded(auth.key, OrderSeed(a[1]), auth.bump), t.giveAmount));
    }
  }

  // ---- no other instruction ----

  lemma {:induction false} WantsNeverShort(d: seq<byte>, j: nat)
    requires Baskets.PayloadFits(d) && j <= d[33]
    ensures NeverShort(Baskets.WantChecks(d, j))
    decreases d[33] - j
  {
    if j < d[33] {
      WantsNeverShort(d, j + 1);
    }
  }

  lemma LockLegNeverShort(e: Env, x: Ix, basket: Key, b: seq<byte>, i: nat)
    requires Baskets.PayloadFits(x.data) && |x.accounts| == 6 + x.data[32] * 3 && |b| == BASKET_LEN && i < x.data[32]
    ensures NeverShort(Baskets.LockLeg(e, x, basket, b, i))
  {
    hide Baskets.WithGive, Baskets.NotWanted, Baskets.IsLegVault, Baskets.GiveAmount;
  }

  lemma BothNeverShort(a: seq<Op>, b: seq<Op>)
    requires NeverShort(a) && NeverShort(b)
    ensures NeverShort(a + b)
  {
  }

  lemma {:induction false} LocksNeverShort(e: Env, x: Ix, basket: Key, b: seq<byte>, i: nat)
    requires Baskets.PayloadFits(x.data) && |x.accounts| == 6 + x.data[32] * 3 && |b| == BASKET_LEN && i <= x.data[32]
    ensures NeverShort(Baskets.LockOps(e, x, basket, b, i))
    decreases x.data[32] - i
  {
    hide Baskets.WithGive, Baskets.LockLeg;
    if i < x.data[32] {
      LockLegNeverShort(e, x, basket, b, i);
      LocksNeverShort(e, x, basket, Baskets.WithGive(x, b, i), i + 1);
      BothNeverShort(Baskets.LockLeg(e, x, basket, b, i),
          Baskets.LockOps(e, x, basket, Baskets.WithGive(x, b, i), i + 1));
    }
  }

  lemma UnlockLegNeverShort(e: Env, w: World, x: Ix, b: seq<byte>, nonce: Key, base: nat, auth: Authority,
      payee: Option<Key>, i: nat)
    requires |b| == BASKET_LEN && |x.accounts| >= base + ReadBasket(b).giveCount * 3 && i < ReadBasket(b).giveCount
    ensures NeverShort(Baskets.UnlockLeg(e, w, x, b, nonce, base, auth, payee, i))
  {
    hide ReadBasket, GiveEntry, IsTokenAccount, Baskets.IsLegVault, Baskets.StillOpen;
  }

  lemma {:induction false} UnlocksNeverShort(e: Env, w: World, x: Ix, b: seq<byte>, nonce: Key, base: nat,
      auth: Authority, payee: Option<Key>, i: nat)
    requires |b| == BASKET_LEN && |x.accounts| >= base + ReadBasket(b).giveCount * 3 && i <= ReadBasket(b).giveCount
    ensures NeverShort(Baskets.UnlockOps(e, w, x, b, nonce, base, auth, payee, i))
    decreases ReadBasket(b).giveCount - i
  {
    hide ReadBasket, Baskets.UnlockLeg;
    if i < ReadBasket(b).giveCount {
      UnlockLegNeverShort(e, w, x, b, nonce, base, auth, payee, i);
      UnlocksNeverShort(e, w, x, b, nonce, base, auth, payee, i + 1);
      BothNeverShort(Baskets.UnlockLeg(e, w, x, b, nonce, base, auth, payee, i),
          Baskets.UnlockOps(e, w, x, b, nonce, base, auth, payee, i + 1));
    }
  }

  lemma PayLegNeverShort(e: Env, w: World, x: Ix, c: Config, b: seq<byte>, nonce: Key, j: nat)
    requires |b| == BASKET_LEN && j < ReadBasket(b).wantCount
    requires |x.accounts| == 5 + ReadBasket(b).giveCount * 3 + ReadBasket(b).wantCount * 4
    ensures NeverShort(Baskets.PayLeg(e, w, x, c, b, nonce, j))
  {
    hide ReadBasket, WantEntry, IsTokenAccount, PriceOps;
    if InRecord(B_WANT, j) {
      var at := 5 + ReadBasket(b).giveCount * 3 + j * 4;
      PriceNeverShort(e, w, c, x.accounts[at + 1], x.accounts[at], x.accounts[at + 3], x.accounts[at + 2],
          Signer(x.accounts[0]), WantEntry(b, j).amount, nonce[0]);
    }
  }

  lemma {:induction false} PaysNeverShort(e: Env, w: World, x: Ix, c: Config, b: seq<byte>, nonce: Key, j: nat)
    requires |b| == BASKET_LEN && j <= ReadBasket(b).wantCount
    requires |x.accounts| == 5 + ReadBasket(b).giveCount * 3 + ReadBasket(b).wantCount * 4
    ensures NeverShort(Baskets.PayOps(e, w, x, c, b, nonce, j))
    decreases ReadBasket(b).wantCount - j
  {
    hide ReadBasket, Baskets.PayLeg;
    if j < ReadBasket(b).wantCount {
      PayLegNeverShort(e, w, x, c, b, nonce, j);
      PaysNeverShort(e, w, x, c, b, nonce, j + 1);
    }
  }

  /** The lookups every handler starts with have errors of their own. */
  lemma LookupsNeverShort(e: Env, w: World, x: Ix)
    ensures forall s :: Find(e.derive, s) != Err(InsufficientFunds)
    ensures forall k :: ReadConfig(e, w, k) != Err(InsufficientFunds)
    ensures forall k :: RequireAlias(e, w, x, k) != Shut(InsufficientFunds)
    ensures forall k, f :: Swaps.DelistGate(e, w, k, f) != Shut(InsufficientFunds)
  {
  }

  lemma FillNeverShort(e: Env, w: World, x: Ix)
    ensures PlanNeverShort(Swaps.Fill(e, w, x))
  {
    hide ReadSwap, PriceOps, IsTokenAccount, Create, Find, ReadConfig;
    LookupsNeverShort(e, w, x);
    if Swaps.Fill(e, w, x).Ok? {
      var s, c, nonce := FillShape(e, x, w);
      var a := x.accounts;
      PriceNeverShort(e, w, c, a[6], s.wantMint, a[11], a[8], Signer(a[0]), s.wantAmount, nonce[0]);
    }
  }

  lemma OpenSwapNeverShort(e: Env, w: World, x: Ix)
    ensures PlanNeverShort(Swaps.OpenSwap(e, w, x))
  {
    hide SwapImage, Find, RequireAlias;
    LookupsNeverShort(e, w, x);
  }

  lemma SwapRefundsNeverShort(e: Env, w: World, x: Ix)
    ensures PlanNeverShort(Swaps.CancelSwap(e, w, x)) && PlanNeverShort(Swaps.Expire(e, w, x))
  {
    hide ReadSwap, IsTokenAccount, Create, Find, Swaps.DelistGate;
    LookupsNeverShort(e, w, x);
  }

  lemma AcceptNeverShort(e: Env, w: World, x: Ix)
    ensures PlanNeverShort(Offers.AcceptOffer(e, w, x))
  {
    hide ReadSwap, ReadOffer, PriceOps, IsTokenAccount, Find, ReadConfig;
    LookupsNeverShort(e, w, x);
    if Offers.AcceptOffer(e, w, x).Ok? {
      var s, o, c, sn, on := AcceptOfferShape(e, x, w);
      var a := x.accounts;
      PriceNeverShort(e, w, c, a[4], s.wantMint, a[12], a[9], Seeded(a[3], OfferSeed(o.offerer, on), o.bump),
          o.wantAmount, sn[0]);
    }
  }

  lemma MakeOfferNeverShort(e: Env, w: World, x: Ix)
    ensures PlanNeverShort(Offers.MakeOffer(e, w, x))
  {
    hide ReadSwap, OfferImage, Find, RequireAlias;
    LookupsNeverShort(e, w, x);
  }

  lemma BidRefundsNeverShort(e: Env, w: World, x: Ix)
    ensures PlanNeverShort(Offers.WithdrawOffer(e, w, x)) && PlanNeverShort(Offers.ExpireOffer(e, w, x))
  {
    hide ReadOffer, IsTokenAccount, Find;
    LookupsNeverShort(e, w, x);
  }

  lemma PolicyNeverShort(e: Env, w: World, x: Ix)
    ensures PlanNeverShort(InitConfig(e, w, x)) && PlanNeverShort(UpdateConfig(e, w, x))
    ensures PlanNeverShort(InitFeeVault(e, w, x)) && PlanNeverShort(SweepFees(e, w, x))
  {
    hide ConfigImage, PolicyPut, IsTokenAccount, Find;
    LookupsNeverShort(e, w, x);
  }

  lemma ListingsNeverShort(e: Env, w: World, x: Ix)
    ensures PlanNeverShort(Listings.List(e, w, x))
    ensures PlanNeverShort(Listings.CancelListing(e, w, x)) && PlanNeverShort(Listings.ExpireListing(e, w, x))
  {
    hide ReadSwap, ListingImage, IsTokenAccount, Find, RequireAlias, Swaps.DelistGate;
    LookupsNeverShort(e, w, x);
  }

  lemma BasketNeverShort(e: Env, w: World, x: Ix)
    ensures PlanNeverShort(Baskets.OpenBasket(e, w, x))
  {
    hide Find, RequireAlias, Baskets.LockOps, Baskets.WantChecks, Baskets.WithWants, HeaderImage, Baskets.HeaderOf;
    LookupsNeverShort(e, w, x);
    if Baskets.OpenBasket(e, w, x).Ok? {
      var k, b := OpenBasketShape(e, x, w);
      WantsNeverShort(x.data, 0);
      LocksNeverShort(e, x, x.accounts[1], b, 0);
    }
  }

  lemma BasketFillNeverShort(e: Env, w: World, x: Ix)
    ensures PlanNeverShort(Baskets.FillBasket(e, w, x))
  {
    hide ReadBasket, ReadConfig, Baskets.PayOps, Baskets.UnlockOps, Create;
    LookupsNeverShort(e, w, x);
    if Baskets.FillBasket(e, w, x).Ok? {
      var k, c, auth := FillBasketShape(e, x, w);
      PaysNeverShort(e, w, x, c, w.records[x.accounts[1]], x.data, 0);
      UnlocksNeverShort(e, w, x, w.records[x.accounts[1]], x.data, 5, auth, None, 0);
    }
  }

  lemma UnlockingNeverShort(e: Env, w: World, x: Ix)
    ensures PlanNeverShort(Baskets.ClaimBearer(e, w, x))
    ensures PlanNeverShort(Baskets.CancelBasket(e, w, x)) && PlanNeverShort(Baskets.ExpireBasket(e, w, x))
  {
    hide ReadBasket, Baskets.UnlockOps, Create, Swaps.DelistGate;
    LookupsNeverShort(e, w, x);
    if Baskets.ClaimBearer(e, w, x).Ok? {
      var k, auth := ClaimBearerShape(e, x, w);
      UnlocksNeverShort(e, w, x, w.records[x.accounts[2]], x.data, 5, auth, None, 0);
    }
    if Baskets.CancelBasket(e, w, x).Ok? {
      var k, auth := CancelBasketShape(e, x, w);
      UnlocksNeverShort(e, w, x, w.records[x.accounts[1]], x.data, 6, auth, Some(k.maker), 0);
    }
    if Baskets.ExpireBasket(e, w, x).Ok? {
      var k, auth := ExpireBasketShape(e, x, w);
      UnlocksNeverShort(e, w, x, w.records[x.accounts[1]], x.data, 4, auth, Some(k.maker), 0);
    }
  }

  lemma RewrapNeverShort(e: Env, w: World, x: Ix)
    ensures PlanNeverShort(Baskets.Rewrap(e, w, x))
  {
    hide ReadBasket, Find, PutClaim;
    LookupsNeverShort(e, w, x);
  }

  lemma SignedBidNeverShort(e: Env, w: World, x: Ix)
    ensures PlanNeverShort(Orders.SettleSignedBid(e, w, x))
  {
    hide Find, PriceOps, IsTokenAccount, Orders.ProvesSignature, BidMessage, ReadConfig;
    LookupsNeverShort(e, w, x);
    if Orders.SettleSignedBid(e, w, x).Ok? {
      var t, auth, done := SettleBidShape(e, x, w);
      var a := x.accounts;
      if ReadConfig(e, w, a[7]).Ok? {
        PriceNeverShort(e, w, ReadConfig(e, w, a[7]).value, a[4], t.giveMint, a[8], a[5],
            Seeded(auth.key, OrderSeed(a[1]), auth.bump), t.giveAmount, t.nonce[0]);
      }
    }
  }

  lemma OthersNeverShort(e: Env, w: World, tag: byte, x: Ix)
    requires tag != 27 && tag != 38
    ensures PlanNeverShort(PlanOf(e, w, tag, x))
  {
    hide Swaps.OpenSwap, Swaps.Fill, Swaps.CancelSwap, Swaps.Expire, Offers.MakeOffer, Offers.AcceptOffer,
        Offers.WithdrawOffer, Offers.ExpireOffer, InitConfig, UpdateConfig, InitFeeVault, SweepFees, Baskets.OpenBasket,
        Baskets.FillBasket, Baskets.ClaimBearer, Baskets.Rewrap, Baskets.CancelBasket, Baskets.ExpireBasket,
        Listings.List, Listings.CancelListing, Listings.ExpireListing, Orders.SettleSignedBid, NeverShort;
    if tag == 1 { FillNeverShort(e, w, x); }
    else if tag == 0 { OpenSwapNeverShort(e, w, x); }
    else if tag < 4 { SwapRefundsNeverShort(e, w, x); }
    else if tag == 4 { MakeOfferNeverShort(e, w, x); }
    else if tag == 5 { AcceptNeverShort(e, w, x); }
    else if tag < 8 { BidRefundsNeverShort(e, w, x); }
    else if tag < 12 { PolicyNeverShort(e, w, x); }
    else if tag == 12 { BasketNeverShort(e, w, x); }
    else if tag == 13 { BasketFillNeverShort(e, w, x); }
    else if tag == 15 { RewrapNeverShort(e, w, x); }
    else if tag < 18 { UnlockingNeverShort(e, w, x); }
    else if tag < 30 { ListingsNeverShort(e, w, x); }
    else { SignedBidNeverShort(e, w, x); }
  }

  /** Only the two instructions that pay royalties ever report insufficient funds. */
  lemma OnlyRoyaltyPaymentsFallShort(e: Env, w: World, tag: byte, x: Ix)
    requires Step(e, w, tag, x) == Err(InsufficientFunds)
    ensures tag == 27 || tag == 38
  {
    hide PlanOf, Exec;
    if tag != 27 && tag != 38 {
      OthersNeverShort(e, w, tag, x);
      if PlanOf(e, w, tag, x).Ok? {
        OnlyTestsFallShort(e, x.signers, w, PlanOf(e, w, tag, x).value);
      }
    }
  }

  lemma OrderIsThere(e: Env, w: World, x: Ix)
    requires ReachesPayment(e, w, x)
    ensures |x.accounts| >= 15 && |x.data| == 90
  {
  }

  /** In every reachable state, while the fee rate in force and the royalty rate the metadata asks for are at most
      100% together, no instruction is refused for insufficient funds. */
  lemma NeverInsufficientWithinRates(e: Env, r: Trace, n: nat, tag: byte, x: Ix)
    requires IsRun(e, r) && n < |r.states|
    requires forall k :: ReadConfig(e, r.states[n], k).Ok? ==>
        ReadConfig(e, r.states[n], k).value.feeBps + RoyaltyRate(x.metadata) <= BPS_DENOM
    ensures Step(e, r.states[n], tag, x) != Err(InsufficientFunds)
  {
    hide Step, IsRun, Inv, ReadConfig, Short, RoyaltyRate, OrderRoyalty, ReachesPayment, PlanOf;
    var w := r.states[n];
    RunKeepsInv(e, r, n);
    if Step(e, w, tag, x) == Err(InsufficientFunds) {
      OnlyRoyaltyPaymentsFallShort(e, w, tag, x);
      if tag == 27 {
        ListingShortExactly(e, w, x);
        var s := ReadSwap(w.records[x.accounts[1]]);
        RatesRuleItOut(s.wantAmount, ReadConfig(e, w, x.accounts[10]).value.feeBps, RoyaltyRate(x.metadata),
            s.royaltyMode, s.makerPct);
      } else {
        OrderShortExactly(e, w, x);
        OrderIsThere(e, w, x);
        var t := Orders.DealOf(x.data, x.accounts[2], x.accounts[3]);
        RatesRuleItOut(t.wantAmount, ReadConfig(e, w, x.accounts[11]).value.feeBps, RoyaltyRate(x.metadata),
            t.royaltyMode, t.makerPct);
      }
    }
  }
}
