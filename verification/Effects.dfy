/** What each settlement and each refund moves: the exact transfers, the closed vaults, the supply. */
module Effects {
  import opened Prelude
  import opened Bytes
  import opened Seeds
  import opened Layout
  import opened Ledger
  import opened FeeConfig
  import opened Royalty
  import opened Payments
  import opened Machine
  import opened Shapes
  import opened Consent
  import opened SignedMessages
  import Swaps
  import Offers
  import Listings
  import Orders

  // ---- the transfers of each payment builder ----

  function FeeMoves(c: Config, src: Key, mint: Key, feeAccount: Key, auth: Key, amount: nat): seq<Move> {
    if Bps(amount, c.feeBps) == 0 then [] else [Move(src, mint, feeAccount, auth, Bps(amount, c.feeBps))]
  }

  /** The fee to the fee account, the rest of the price to the payee. */
  function PriceMoves(c: Config, src: Key, mint: Key, feeAccount: Key, payee: Key, auth: Key, amount: nat): seq<Move> {
    FeeMoves(c, src, mint, feeAccount, auth, amount) + [Move(src, mint, payee, auth,
        Minus(amount, Bps(amount, c.feeBps)))]
  }

  lemma OneMove(op: Op)
    ensures Moves([op]) == MoveOf(op)
  {
    assert [op][1..] == [];
  }

  lemma FeeLegMoves(e: Env, w: World, c: Config, src: Key, mint: Key, feeAccount: Key, auth: Authority, amount: nat,
      shardSeed: byte)
    ensures Moves(FeeLeg(e, w, c, src, mint, feeAccount, auth, amount, shardSeed))
        == FeeMoves(c, src, mint, feeAccount, auth.key, amount)
  {
    hide IsFeeDestination, Bps;
    var leg := FeeLeg(e, w, c, src, mint, feeAccount, auth, amount, shardSeed);
    if leg != [] {
      assert leg == [leg[0]] + [leg[1]];
      MovesSplit([leg[0]], [leg[1]]);
      OneMove(leg[0]);
      OneMove(leg[1]);
    }
  }

  /** A positive fee goes to the configured wallet's account, or to the shard vault the seed picks. */
  predicate FeeRouted(e: Env, w: World, c: Config, mint: Key, feeAccount: Key, amount: nat, shardSeed: byte) {
    Bps(amount, c.feeBps) > 0 ==> IsFeeDestination(e, w, feeAccount, mint, c, shardSeed)
  }

  lemma FeeLegRoutes(e: Env, w: World, c: Config, src: Key, mint: Key, feeAccount: Key, auth: Authority, amount: nat,
      shardSeed: byte, ops: seq<Op>)
    requires forall op :: op in FeeLeg(e, w, c, src, mint, feeAccount, auth, amount, shardSeed) ==> op in ops
    requires forall op :: op in ops && op.Check? ==> op.ok
    ensures FeeRouted(e, w, c, mint, feeAccount, amount, shardSeed)
  {
    hide IsFeeDestination, Bps;
    var leg := FeeLeg(e, w, c, src, mint, feeAccount, auth, amount, shardSeed);
    if leg != [] {
      assert leg[0] in leg;
    }
  }

  lemma PriceRoutes(e: Env, w: World, c: Config, src: Key, mint: Key, feeAccount: Key, payee: Key, auth: Authority,
      amount: nat, shardSeed: byte, ops: seq<Op>)
    requires forall op :: op in PriceOps(e, w, c, src, mint, feeAccount, payee, auth, amount, shardSeed) ==> op in ops
    requires forall op :: op in ops && op.Check? ==> op.ok
    ensures FeeRouted(e, w, c, mint, feeAccount, amount, shardSeed)
  {
    hide FeeLeg, FeeRouted, Bps;
    FeeLegRoutes(e, w, c, src, mint, feeAccount, auth, amount, shardSeed, ops);
  }

  lemma PriceOpsMoves(e: Env, w: World, c: Config, src: Key, mint: Key, feeAccount: Key, payee: Key, auth: Authority,
      amount: nat, shardSeed: byte)
    ensures Moves(PriceOps(e, w, c, src, mint, feeAccount, payee, auth, amount, shardSeed))
        == PriceMoves(c, src, mint, feeAccount, payee, auth.key, amount)
  {
    hide FeeLeg, Bps;
    FeeLegMoves(e, w, c, src, mint, feeAccount, auth, amount, shardSeed);
    var fee := Bps(amount, c.feeBps);
    var tail := [Check(fee <= amount, ArithmeticOverflow)] + [Transfer(src, mint, payee, auth, Minus(amount, fee))];
    MovesSplit(FeeLeg(e, w, c, src, mint, feeAccount, auth, amount, shardSeed), tail);
    MovesSplit([Check(fee <= amount, ArithmeticOverflow)], [Transfer(src, mint, payee, auth, Minus(amount, fee))]);
    OneMove(Check(fee <= amount, ArithmeticOverflow));
    OneMove(Transfer(src, mint, payee, auth, Minus(amount, fee)));
    assert PriceOps(e, w, c, src, mint, feeAccount, payee, auth, amount, shardSeed)
        == FeeLeg(e, w, c, src, mint, feeAccount, auth, amount, shardSeed) + tail;
  }

  lemma {:induction false} NoTransfersNoMoves(ops: seq<Op>)
    requires forall op :: op in ops ==> !op.Transfer?
    ensures Moves(ops) == []
  {
    if ops != [] {
      NoTransfersNoMoves(ops[1..]);
    }
  }

  function CreatorMoves(src: Key, mint: Key, auth: Key, payouts: seq<nat>, accounts: seq<Key>): seq<Move>
    requires |payouts| == |accounts|
  {
    if payouts == [] then [] else
    (if payouts[0] == 0 then [] else [Move(src, mint, accounts[0], auth, payouts[0])])
        + CreatorMoves(src, mint, auth, payouts[1..], accounts[1..])
  }

  lemma {:induction false} CreatorOpsMoves(src: Key, mint: Key, auth: Authority, payouts: seq<nat>, accounts: seq<Key>)
    requires |payouts| == |accounts|
    ensures Moves(CreatorOps(src, mint, auth, payouts, accounts))
        == CreatorMoves(src, mint, auth.key, payouts, accounts)
  {
    if payouts != [] {
      CreatorOpsMoves(src, mint, auth, payouts[1..], accounts[1..]);
      var head := if payouts[0] == 0 then [] else [Transfer(src, mint, accounts[0], auth, payouts[0])];
      MovesSplit(head, CreatorOps(src, mint, auth, payouts[1..], accounts[1..]));
      if head != [] {
        OneMove(head[0]);
      }
    }
  }

  function RoyaltyLegMoves(src: Key, mint: Key, auth: Key, bill: RoyaltyBill, creators: seq<Key>): seq<Move>
    requires Payable(bill, creators)
  {
    if bill.royalty == 0 then [] else CreatorMoves(src, mint, auth, Splits(bill.royalty, Percentages(bill.shares)),
        creators)
  }

  /** Fee, maker payment, one payout for each creator. */
  function RoyaltyMoves(c: Config, bill: RoyaltyBill, src: Key, mint: Key, feeAccount: Key, maker: Key, taker: Key,
      want: nat, creators: seq<Key>): seq<Move>
    requires Payable(bill, creators)
  {
    FeeMoves(c, src, mint, feeAccount, taker, want)
    + [Move(src, mint, maker, taker, Minus(want, Bps(want, c.feeBps) + bill.makerShare))]
    + RoyaltyLegMoves(src, mint, taker, bill, creators)
  }

  lemma RoyaltyOpsMoves(e: Env, w: World, config: Key, src: Key, mint: Key, feeAccount: Key, maker: Key, taker: Key,
                        want: nat, maxWant: nat, shardSeed: byte, mode: byte, pct: byte,
                            metadata: Option<MetadataAccount>, creators: seq<Key>)
    returns (c: Config, bill: RoyaltyBill)
    requires RoyaltyOps(e, w, config, src, mint, feeAccount, maker, taker, want, maxWant, shardSeed, mode, pct,
        metadata, creators).Ok?
    ensures ReadConfig(e, w, config) == Ok(c) && Bill(metadata, mode, pct, want) == Ok(bill)
    ensures Bps(want, c.feeBps) + bill.makerShare <= want && want + Minus(bill.royalty, bill.makerShare) <= maxWant
    ensures mode != ROYALTY_NONE ==> |creators| == |bill.shares| && CreatorsMatch(w, mint, bill.shares, creators)
    ensures Payable(bill, creators)
    ensures Moves(RoyaltyOps(e, w, config, src, mint, feeAccount, maker, taker, want, maxWant, shardSeed, mode, pct,
        metadata, creators).value)
            == RoyaltyMoves(c, bill, src, mint, feeAccount, maker, taker, want, creators)
  {
    hide RoyaltyOps, FeeLeg, Bps, Bill, CreatorsMatch, Splits, IsFeeDestination;
    c, bill := RoyaltyShape(e, w, config, src, mint, feeAccount, maker, taker, want, maxWant, shardSeed, mode, pct,
        metadata, creators);
    var fee, pay := FeeLeg(e, w, c, src, mint, feeAccount, Signer(taker), want, shardSeed),
        Transfer(src, mint, maker, Signer(taker), want - Bps(want, c.feeBps) - bill.makerShare);
    var tail := RoyaltyLeg(src, mint, Signer(taker), bill, creators);
    MovesSplit(fee + [pay], tail);
    MovesSplit(fee, [pay]);
    FeeLegMoves(e, w, c, src, mint, feeAccount, Signer(taker), want, shardSeed);
    OneMove(pay);
    if bill.royalty != 0 {
      CreatorOpsMoves(src, mint, Signer(taker), Splits(bill.royalty, Percentages(bill.shares)), creators);
    }
  }

  // ---- closed vaults ----

  /** An account closed by the list, which opens none, is gone; and it was at zero when it closed. */
  lemma {:induction false} ClosedIsGone(e: Env, signers: set<Key>, w: World, ops: seq<Op>, k: Key)
    requires Exec(e, signers, w, ops).Ok? && forall op :: op in ops ==> !op.NewToken?
    requires k !in w.tokens || exists op :: op in ops && op.CloseToken? && op.key == k
    ensures k !in Exec(e, signers, w, ops).value.tokens
    decreases |ops|
  {
    if ops != [] {
      var v := Apply(e, signers, w, ops[0]).value;
      assert forall op :: op in ops ==> op == ops[0] || op in ops[1..];
      ClosedIsGone(e, signers, v, ops[1..], k);
    }
  }

  /** No instruction creates or loses a token, whatever accounts the caller passes. */
  lemma StepKeepsSupply(e: Env, w: World, tag: byte, x: Ix, mint: Key)
    requires Step(e, w, tag, x).Ok?
    ensures Supply(Step(e, w, tag, x).value.tokens, mint) == Supply(w.tokens, mint)
  {
    hide PlanOf;
    ExecKeepsSupply(e, x.signers, w, PlanOf(e, w, tag, x).value, mint);
  }

  // ---- one vault pays out ----

  lemma ReleaseMoves(vault: Key, mint: Key, dst: Key, amount: nat, auth: Authority, k: Key)
    ensures Moves(Swaps.ReleaseOps(vault, mint, dst, amount, auth) + [Wipe(k)])
        == [Move(vault, mint, dst, auth.key, amount)]
  {
    var ops := [Transfer(vault, mint, dst, auth, amount), CloseToken(vault, auth), Wipe(k)];
    assert Swaps.ReleaseOps(vault, mint, dst, amount, auth) + [Wipe(k)] == ops;
    assert ops == [ops[0]] + ([ops[1]] + [ops[2]]);
    MovesSplit([ops[0]], [ops[1]] + [ops[2]]);
    MovesSplit([ops[1]], [ops[2]]);
    OneMove(ops[0]);
    OneMove(ops[1]);
    OneMove(ops[2]);
  }

  lemma ReleaseEffect(e: Env, signers: set<Key>, w: World, pay: seq<Op>, vault: Key, mint: Key, dst: Key, amount: nat,
      auth: Authority, k: Key)
    requires forall op :: op in pay ==> !op.NewToken?
    requires Exec(e, signers, w, pay + Swaps.ReleaseOps(vault, mint, dst, amount, auth) + [Wipe(k)]).Ok?
    ensures var v := Exec(e, signers, w, pay + Swaps.ReleaseOps(vault, mint, dst, amount, auth) + [Wipe(k)]).value;
            v.log == w.log + Moves(pay) + [Move(vault, mint, dst, auth.key, amount)] && vault !in v.tokens
  {
    hide Apply;
    var release := Swaps.ReleaseOps(vault, mint, dst, amount, auth) + [Wipe(k)];
    assert pay + Swaps.ReleaseOps(vault, mint, dst, amount, auth) + [Wipe(k)] == pay + release;
    ExecRecords(e, signers, w, pay + release);
    MovesSplit(pay, release);
    ReleaseMoves(vault, mint, dst, amount, auth, k);
    assert release[1] in pay + release;
    ClosedIsGone(e, signers, w, pay + release, vault);
  }

  lemma PriceOpensNothing(e: Env, w: World, c: Config, src: Key, mint: Key, feeAccount: Key, payee: Key,
      auth: Authority, amount: nat, shardSeed: byte)
    ensures forall op ::
        op in PriceOps(e, w, c, src, mint, feeAccount, payee, auth, amount, shardSeed) ==> !op.NewToken?
  {
    hide IsFeeDestination;
  }

  /** A fill: the fee and the price less fee leave the taker for the fee account and an account of the
      maker, exactly the listed amount leaves the vault, and the vault is closed. */
  lemma FillSettles(e: Env, w: World, x: Ix) returns (s: Swap, c: Config)
    requires Run(e, w, x, Swaps.Fill(e, w, x)).Ok?
    ensures |x.accounts| >= 12 && x.accounts[1] in w.records && |w.records[x.accounts[1]]| == SWAP_LEN
        && s == ReadSwap(w.records[x.accounts[1]])
    ensures ReadConfig(e, w, x.accounts[10]) == Ok(c)
    ensures var a, v := x.accounts, Run(e, w, x, Swaps.Fill(e, w, x)).value;
            && a[0] in x.signers && IsTokenAccount(w, a[8], s.wantMint, s.maker)
            && v.log == w.log + PriceMoves(c, a[6], s.wantMint, a[11], a[8], a[0], s.wantAmount)
                + [Move(a[2], s.giveMint, a[7], a[1], s.giveAmount)]
            && a[2] !in v.tokens
  {
    hide Swaps.Fill, PriceOps, PriceMoves, ReadSwap, IsTokenAccount, Exec, Moves;
    var nonce;
    s, c, nonce := FillShape(e, x, w);
    var a := x.accounts;
    PriceOpsMoves(e, w, c, a[6], s.wantMint, a[11], a[8], Signer(a[0]), s.wantAmount, nonce[0]);
    PriceOpensNothing(e, w, c, a[6], s.wantMint, a[11], a[8], Signer(a[0]), s.wantAmount, nonce[0]);
    ReleaseEffect(e, x.signers, w, PriceOps(e, w, c, a[6], s.wantMint, a[11], a[8], Signer(a[0]), s.wantAmount,
        nonce[0]),
                  a[2], s.giveMint, a[7], s.giveAmount, Seeded(a[1], SwapSeed(s.maker, nonce), s.bump), a[1]);
  }

  lemma JustRelease(e: Env, signers: set<Key>, w: World, vault: Key, mint: Key, dst: Key, amount: nat, auth: Authority,
      k: Key)
    requires Exec(e, signers, w, Swaps.ReleaseOps(vault, mint, dst, amount, auth) + [Wipe(k)]).Ok?
    ensures var v := Exec(e, signers, w, Swaps.ReleaseOps(vault, mint, dst, amount, auth) + [Wipe(k)]).value;
            v.log == w.log + [Move(vault, mint, dst, auth.key, amount)] && vault !in v.tokens
  {
    hide Apply, Exec;
    assert [] + Swaps.ReleaseOps(vault, mint, dst, amount, auth) == Swaps.ReleaseOps(vault, mint, dst, amount, auth);
    assert w.log + [] == w.log;
    ReleaseEffect(e, signers, w, [], vault, mint, dst, amount, auth, k);
  }

  /** A cancel or an expiry returns exactly the locked amount to an account of the maker. */
  lemma SwapRefunds(e: Env, w: World, tag: byte, x: Ix) returns (s: Swap, dst: Key)
    requires tag in {2, 3} && Step(e, w, tag, x).Ok?
    ensures |x.accounts| > 2 && x.accounts[1] in w.records && |w.records[x.accounts[1]]| == SWAP_LEN
        && s == ReadSwap(w.records[x.accounts[1]])
    ensures if tag == 2 then s.maker in x.signers else s.expiry <= w.now
    ensures var a, v := x.accounts, Step(e, w, tag, x).value;
            && IsTokenAccount(w, dst, s.giveMint, s.maker)
            && v.log == w.log + [Move(a[2], s.giveMint, dst, a[1], s.giveAmount)]
            && a[2] !in v.tokens
  {
    hide Swaps.CancelSwap, Swaps.Expire, ReadSwap, IsTokenAccount, Exec, Moves, Swaps.ReleaseOps;
    if tag == 2 {
      s := CancelSwapShape(e, x, w);
      dst := x.accounts[4];
    } else {
      s := ExpireShape(e, x, w);
      dst := x.accounts[5];
    }
    JustRelease(e, x.signers, w, x.accounts[2], s.giveMint, dst, s.giveAmount,
        Seeded(x.accounts[1], SwapSeed(s.maker, x.data), s.bump), x.accounts[1]);
  }

  /** A withdrawal or an expiry returns exactly the escrowed bid to an account of the bidder. */
  lemma BidRefunds(e: Env, w: World, tag: byte, x: Ix) returns (o: Offer, dst: Key)
    requires tag in {6, 7} && Step(e, w, tag, x).Ok?
    ensures |x.accounts| > 2 && x.accounts[1] in w.records && |w.records[x.accounts[1]]| == OFFER_LEN
        && o == ReadOffer(w.records[x.accounts[1]])
    ensures if tag == 6 then o.offerer in x.signers else o.expiry <= w.now
    ensures var a, v := x.accounts, Step(e, w, tag, x).value;
            && IsTokenAccount(w, dst, o.wantMint, o.offerer)
            && v.log == w.log + [Move(a[2], o.wantMint, dst, a[1], o.wantAmount)]
            && a[2] !in v.tokens
  {
    hide Offers.WithdrawOffer, Offers.ExpireOffer, ReadOffer, IsTokenAccount, Exec, Moves, Swaps.ReleaseOps;
    if tag == 6 {
      o := WithdrawOfferShape(e, x, w);
      dst := x.accounts[4];
    } else {
      o := ExpireOfferShape(e, x, w);
      dst := x.accounts[5];
    }
    JustRelease(e, x.signers, w, x.accounts[2], o.wantMint, dst, o.wantAmount,
        Seeded(x.accounts[1], OfferSeed(o.offerer, x.data), o.bump), x.accounts[1]);
  }

  lemma HandOverMoves(svault: Key, mint: Key, dst: Key, amount: nat, swapAuth: Authority, ovault: Key,
      offerAuth: Authority, p: Key, q: Key)
    ensures Moves(Offers.HandOver(svault, mint, dst, amount, swapAuth, ovault, offerAuth) + [Wipe(p), Wipe(q)])
        == [Move(svault, mint, dst, swapAuth.key, amount)]
  {
    var move, rest := Transfer(svault, mint, dst, swapAuth, amount),
        [CloseToken(ovault, offerAuth), CloseToken(svault, swapAuth)] + [Wipe(p), Wipe(q)];
    assert Offers.HandOver(svault, mint, dst, amount, swapAuth, ovault, offerAuth) + [Wipe(p), Wipe(q)] == [move]
        + rest;
    MovesSplit([move], rest);
    OneMove(move);
    NoTransfersNoMoves(rest);
  }

  lemma HandOverEffect(e: Env, signers: set<Key>, w: World, pay: seq<Op>, svault: Key, mint: Key, dst: Key,
      amount: nat, swapAuth: Authority, ovault: Key, offerAuth: Authority, p: Key, q: Key)
    requires forall op :: op in pay ==> !op.NewToken?
    requires Exec(e, signers, w, pay + Offers.HandOver(svault, mint, dst, amount, swapAuth, ovault, offerAuth)
        + [Wipe(p), Wipe(q)]).Ok?
    ensures var v := Exec(e, signers, w, pay + Offers.HandOver(svault, mint, dst, amount, swapAuth, ovault, offerAuth)
        + [Wipe(p), Wipe(q)]).value;
            v.log == w.log + Moves(pay) + [Move(svault, mint, dst, swapAuth.key, amount)] && svault !in v.tokens
                && ovault !in v.tokens
  {
    hide Apply;
    var hand := Offers.HandOver(svault, mint, dst, amount, swapAuth, ovault, offerAuth) + [Wipe(p), Wipe(q)];
    assert pay + Offers.HandOver(svault, mint, dst, amount, swapAuth, ovault, offerAuth) + [Wipe(p), Wipe(q)] == pay
        + hand;
    ExecRecords(e, signers, w, pay + hand);
    MovesSplit(pay, hand);
    HandOverMoves(svault, mint, dst, amount, swapAuth, ovault, offerAuth, p, q);
    assert hand[1] in pay + hand && hand[2] in pay + hand;
    ClosedIsGone(e, signers, w, pay + hand, svault);
    ClosedIsGone(e, signers, w, pay + hand, ovault);
  }

  /** Accepting a bid: the escrowed bid splits into the fee and the maker's proceeds, exactly the goods the
      bid names leave the swap's vault for an account of the bidder, and both vaults are closed. */
  lemma AcceptSettles(e: Env, w: World, x: Ix) returns (s: Swap, o: Offer, c: Config)
    requires Run(e, w, x, Offers.AcceptOffer(e, w, x)).Ok?
    ensures |x.accounts| == 13 && x.accounts[1] in w.records && |w.records[x.accounts[1]]| == SWAP_LEN
        && s == ReadSwap(w.records[x.accounts[1]])
    ensures x.accounts[3] in w.records && |w.records[x.accounts[3]]| == OFFER_LEN
        && o == ReadOffer(w.records[x.accounts[3]])
    ensures ReadConfig(e, w, x.accounts[11]) == Ok(c)
    ensures var a, v := x.accounts, Run(e, w, x, Offers.AcceptOffer(e, w, x)).value;
            && s.maker in x.signers && o.swap == a[1] && o.giveMint == s.giveMint && o.giveAmount == s.giveAmount
                && o.wantMint == s.wantMint
            && IsTokenAccount(w, a[8], o.giveMint, o.offerer) && IsTokenAccount(w, a[9], o.wantMint, s.maker)
            && v.log == w.log + PriceMoves(c, a[4], o.wantMint, a[12], a[9], a[3], o.wantAmount)
                + [Move(a[2], o.giveMint, a[8], a[1], o.giveAmount)]
            && a[2] !in v.tokens && a[4] !in v.tokens
  {
    hide Offers.AcceptOffer, PriceOps, PriceMoves, ReadSwap, ReadOffer, IsTokenAccount, Exec, Moves, Offers.HandOver;
    var sn, on;
    s, o, c, sn, on := AcceptOfferShape(e, x, w);
    var a := x.accounts;
    var offerAuth, swapAuth := Seeded(a[3], OfferSeed(o.offerer, on), o.bump),
        Seeded(a[1], SwapSeed(s.maker, sn), s.bump);
    PriceOpsMoves(e, w, c, a[4], s.wantMint, a[12], a[9], offerAuth, o.wantAmount, sn[0]);
    PriceOpensNothing(e, w, c, a[4], s.wantMint, a[12], a[9], offerAuth, o.wantAmount, sn[0]);
    HandOverEffect(e, x.signers, w, PriceOps(e, w, c, a[4], s.wantMint, a[12], a[9], offerAuth, o.wantAmount, sn[0]),
                   a[2], s.giveMint, a[8], s.giveAmount, swapAuth, a[4], offerAuth, a[3], a[1]);
  }

  // ---- delegated sales ----

  lemma LastMove(e: Env, signers: set<Key>, w: World, pay: seq<Op>, move: Op, rest: seq<Op>)
    requires move.Transfer? && (forall op :: op in rest ==> !op.Transfer?)
        && Exec(e, signers, w, pay + [move] + rest).Ok?
    ensures Exec(e, signers, w, pay + [move] + rest).value.log == w.log + Moves(pay) + MoveOf(move)
  {
    ExecRecords(e, signers, w, pay + [move] + rest);
    MovesSplit(pay + [move], rest);
    MovesSplit(pay, [move]);
    NoTransfersNoMoves(rest);
    OneMove(move);
  }

  /** A listing sale: exactly the listed amount leaves the maker's account, and the taker pays the maker the
      price less the fee and the maker's royalty share, into an account of the maker. */
  lemma ListingSaleIsPaid(e: Env, w: World, x: Ix) returns (s: Swap, c: Config, bill: RoyaltyBill, creators: seq<Key>)
    requires Run(e, w, x, Listings.FillListing(e, w, x)).Ok?
    ensures |x.data| == 48 && |x.accounts| >= 12 && x.accounts[1] in w.records
        && |w.records[x.accounts[1]]| == SWAP_LEN && s == ReadSwap(w.records[x.accounts[1]])
    ensures ReadConfig(e, w, x.accounts[10]) == Ok(c) && Bill(if s.royaltyMode == ROYALTY_NONE then None
        else Some(x.metadata), s.royaltyMode, s.makerPct, s.wantAmount) == Ok(bill)
    ensures Payable(bill, creators) && Bps(s.wantAmount, c.feeBps) + bill.makerShare <= s.wantAmount
    ensures var a, v := x.accounts, Run(e, w, x, Listings.FillListing(e, w, x)).value;
            && a[0] in x.signers && IsTokenAccount(w, a[5], s.giveMint, s.maker)
                && IsTokenAccount(w, a[8], s.wantMint, s.maker)
            && v.log == w.log + RoyaltyMoves(c, bill, a[7], s.wantMint, a[11], a[8], a[0], s.wantAmount, creators)
                + [Move(a[5], s.giveMint, a[6], a[1], s.giveAmount)]
  {
    hide Listings.FillListing, RoyaltyOps, RoyaltyMoves, ReadSwap, IsTokenAccount, Moves, Bill, Bps, Splits, Exec,
        CreatorsMatch, Payable, FeeLeg;
    var nonce;
    s, nonce := FillListingShape(e, x, w);
    var a, none := x.accounts, s.royaltyMode == ROYALTY_NONE;
    creators := if none then [] else a[14..];
    c, bill := RoyaltyOpsMoves(e, w, a[10], a[7], s.wantMint, a[11], a[8], a[0], s.wantAmount, U64At(x.data, 40),
        x.data[0], s.royaltyMode, s.makerPct,
                               if none then None else Some(x.metadata), creators);
    var pay, move := ListingRoyalty(e, w, x, s).value, Transfer(a[5], s.giveMint, a[6],
        Seeded(a[1], ListingSeed(s.maker, nonce), s.bump), s.giveAmount);
    assert pay + [move, Wipe(a[1])] == pay + [move] + [Wipe(a[1])];
    LastMove(e, x.signers, w, pay, move, [Wipe(a[1])]);
  }

  lemma SettleMoves(head: seq<Op>, checks: seq<Op>, pay: seq<Op>, last: Op)
    requires forall op :: op in head + checks ==> !op.Transfer?
    ensures Moves(head + checks + pay + [last]) == Moves(pay) + MoveOf(last)
  {
    MovesSplit(head + checks + pay, [last]);
    MovesSplit(head + checks, pay);
    NoTransfersNoMoves(head + checks);
    OneMove(last);
  }

  lemma Unstopped(p: Plan)
    ensures p.Err? ==> exists op :: op in Orders.OrStop(p) && op.Check? && !op.ok
  {
    if p.Err? {
      assert Check(false, p.error) in Orders.OrStop(p);
    }
  }

  lemma SettleEffect(e: Env, signers: set<Key>, w: World, done: Key, checks: seq<Op>, pay: Plan, last: Op)
    requires (forall op :: op in checks ==> op.Check?) && last.Transfer?
    requires Exec(e, signers, w, [NewRecord(done, MARKER_LEN)] + checks + Orders.OrStop(pay) + [last]).Ok?
    ensures pay.Ok? && (forall op :: op in checks ==> op.ok)
    ensures Exec(e, signers, w, [NewRecord(done, MARKER_LEN)] + checks + Orders.OrStop(pay) + [last]).value.log
        == w.log + Moves(pay.value) + MoveOf(last)
  {
    hide Exec, Moves;
    var ops := [NewRecord(done, MARKER_LEN)] + checks + Orders.OrStop(pay) + [last];
    ChecksHold(e, signers, w, ops);
    assert forall op :: op in checks || op in Orders.OrStop(pay) ==> op in ops;
    Unstopped(pay);
    ExecRecords(e, signers, w, ops);
    SettleMoves([NewRecord(done, MARKER_LEN)], checks, Orders.OrStop(pay), last);
  }

  lemma OrderChecksMean(e: Env, w: World, x: Ix, t: Deal)
    requires |x.accounts| >= 15 && forall op :: op in Orders.OrderChecks(e, w, x, t) ==> op.ok
    ensures IsTokenAccount(w, x.accounts[4], t.giveMint, x.accounts[1])
        && IsTokenAccount(w, x.accounts[7], t.wantMint, x.accounts[1])
  {
    hide IsTokenAccount;
    var checks := Orders.OrderChecks(e, w, x, t);
    assert checks[0] in checks && checks[1] in checks;
  }

  lemma BidChecksMean(e: Env, w: World, x: Ix, t: Deal)
    requires |x.accounts| >= 15 && forall op :: op in Orders.BidChecks(e, w, x, t) ==> op.ok
    ensures var a := x.accounts;
            IsTokenAccount(w, a[4], t.giveMint, a[1]) && IsTokenAccount(w, a[5], t.giveMint, a[0])
                && IsTokenAccount(w, a[13], t.wantMint, a[0]) && IsTokenAccount(w, a[14], t.wantMint, a[1])
  {
    hide IsTokenAccount;
    var checks := Orders.BidChecks(e, w, x, t);
    assert checks[0] in checks && checks[1] in checks && checks[2] in checks && checks[3] in checks;
  }

  /** A signed order: exactly the signed amount leaves the maker's account under the order address, and the
      taker pays the maker the signed price less the fee and the maker's royalty share. */
  lemma OrderSaleIsPaid(e: Env, w: World, x: Ix) returns (t: Deal, c: Config, bill: RoyaltyBill, creators: seq<Key>)
    requires Run(e, w, x, Orders.SettleSignedOrder(e, w, x)).Ok?
    ensures |x.data| == 90 && |x.accounts| >= 15 && t == Orders.DealOf(x.data, x.accounts[2], x.accounts[3])
    ensures Orders.ProvesSignature(x, x.accounts[1], OrderMessage(t)) && w.now < t.expiry
        && (t.taker == ZERO || t.taker == x.accounts[0])
    ensures ReadConfig(e, w, x.accounts[11]) == Ok(c) && Bill(if t.royaltyMode == ROYALTY_NONE then None
        else Some(x.metadata), t.royaltyMode, t.makerPct, t.wantAmount) == Ok(bill)
    ensures Payable(bill, creators) && Bps(t.wantAmount, c.feeBps) + bill.makerShare <= t.wantAmount
    ensures var a, v := x.accounts, Run(e, w, x, Orders.SettleSignedOrder(e, w, x)).value;
            && a[0] in x.signers && a[8] == Address(e.derive, OrderSeed(a[1])) && Find(e.derive, OrderSeed(a[1])).Ok?
            && IsTokenAccount(w, a[4], t.giveMint, a[1]) && IsTokenAccount(w, a[7], t.wantMint, a[1])
            && v.log == w.log + RoyaltyMoves(c, bill, a[6], t.wantMint, a[12], a[7], a[0], t.wantAmount, creators)
                + [Move(a[4], t.giveMint, a[5], a[8], t.giveAmount)]
  {
    hide Orders.SettleSignedOrder, RoyaltyOps, RoyaltyMoves, IsTokenAccount, Moves, Bill, Bps, Splits, Exec,
        CreatorsMatch, Payable, FeeLeg, Orders.OrderChecks, Orders.ProvesSignature, Orders.OrStop;
    var auth, done;
    t, auth, done := SettleOrderShape(e, x, w);
    var a := x.accounts;
    creators := if |a| > 17 then a[17..] else [];
    var last := Transfer(a[4], t.giveMint, a[5], Seeded(auth.key, OrderSeed(a[1]), auth.bump), t.giveAmount);
    var checks := Orders.OrderChecks(e, w, x, t);
    SettleEffect(e, x.signers, w, done.key, checks, OrderRoyalty(e, w, x, t), last);
    OrderChecksMean(e, w, x, t);
    c, bill := RoyaltyOpsMoves(e, w, a[11], a[6], t.wantMint, a[12], a[7], a[0], t.wantAmount, U64 - 1, t.nonce[0],
        t.royaltyMode, t.makerPct,
                               if t.royaltyMode == ROYALTY_NONE then None else Some(x.metadata), creators);
  }

  /** A signed bid: exactly the signed coins leave the bidder's account under the order address, as fee and
      price, and one unit of the named mint reaches an account of the bidder. */
  lemma BidSaleIsDelivered(e: Env, w: World, x: Ix) returns (t: Deal, c: Config)
    requires Run(e, w, x, Orders.SettleSignedBid(e, w, x)).Ok?
    ensures |x.data| == 90 && |x.accounts| == 16 && t == Orders.DealOf(x.data, x.accounts[2], x.accounts[3])
    ensures Orders.ProvesSignature(x, x.accounts[1], BidMessage(t)) && t.wantAmount == 1 && w.now < t.expiry
        && (t.taker == ZERO || t.taker == x.accounts[0])
    ensures ReadConfig(e, w, x.accounts[7]) == Ok(c)
    ensures var a, v := x.accounts, Run(e, w, x, Orders.SettleSignedBid(e, w, x)).value;
            && a[0] in x.signers && a[9] == Address(e.derive, OrderSeed(a[1])) && Find(e.derive, OrderSeed(a[1])).Ok?
            && IsTokenAccount(w, a[4], t.giveMint, a[1]) && IsTokenAccount(w, a[5], t.giveMint, a[0])
                && IsTokenAccount(w, a[13], t.wantMint, a[0]) && IsTokenAccount(w, a[14], t.wantMint, a[1])
            && v.log == w.log + PriceMoves(c, a[4], t.giveMint, a[8], a[5], a[9], t.giveAmount)
                + [Move(a[13], t.wantMint, a[14], a[0], 1)]
  {
    hide Orders.SettleSignedBid, PriceOps, PriceMoves, IsTokenAccount, Moves, Exec, Orders.BidChecks,
        Orders.ProvesSignature, Orders.OrStop, ReadConfig;
    var auth, done;
    t, auth, done := SettleBidShape(e, x, w);
    var a := x.accounts;
    var order := Seeded(auth.key, OrderSeed(a[1]), auth.bump);
    var coins := Orders.CoinsOps(e, w, a[7], a[4], t.giveMint, a[8], a[5], order, t.giveAmount, t.nonce[0]);
    var checks := Orders.BidChecks(e, w, x, t);
    SettleEffect(e, x.signers, w, done.key, checks, coins, Transfer(a[13], t.wantMint, a[14], Signer(a[0]), 1));
    BidChecksMean(e, w, x, t);
    c := ReadConfig(e, w, a[7]).value;
    PriceOpsMoves(e, w, c, a[4], t.giveMint, a[8], a[5], order, t.giveAmount, t.nonce[0]);
  }
}
