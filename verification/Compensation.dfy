/** The compensated debit: an owner who did not sign loses tokens only to a listing, an order or a bid of their
    own, exactly what it names, and is paid in the same instruction out of somebody else's account. */
module Compensation {
  import opened Prelude
  import opened Bytes
  import opened Seeds
  import opened Layout
  import opened Ledger
  import opened FeeConfig
  import opened Royalty
  import opened Payments
  import opened SignedMessages
  import opened Machine
  import opened Shapes
  import opened Consent
  import opened Runs
  import opened Effects
  import opened Debits
  import opened Balances
  import opened Provenance
  import opened RoyaltySettlement
  import opened SealedOrders
  import Listings
  import Orders

  /** What a listing, an order or a bid binds its maker to: `amount` of `mint` may leave, pulled by one program
      address, against `due` of `payMint`, which is what remains of `price` for the maker. */
  datatype Bargain = Bargain(maker: Key, mint: Key, amount: nat, puller: Key, payMint: Key, price: nat, due: nat)

  /** The price less the fee at the rate in force and the maker's part of the royalty. */
  function Due(e: Env, w: World, config: Key, metadata: MetadataAccount, mode: byte, pct: byte, price: nat): Result<nat>
  {
    var c :- ReadConfig(e, w, config);
    var bill :- Bill(if mode == ROYALTY_NONE then None else Some(metadata), mode, pct, price);
    Ok(Minus(price, Bps(price, c.feeBps) + bill.makerShare))
  }

  /** The bargain an instruction settles: that of the listing record it fills, or of the order or bid message it
      proves, which its maker signed. */
  ghost predicate Strikes(e: Env, w: World, tag: byte, x: Ix, b: Bargain) {
    var a := x.accounts;
    match tag
    case 27 =>
      && |a| >= 12 && a[1] in w.records && |w.records[a[1]]| == SWAP_LEN
      && var s := ReadSwap(w.records[a[1]]);
         Due(e, w, a[10], x.metadata, s.royaltyMode, s.makerPct, s.wantAmount) == Ok(b.due)
         && b == Bargain(s.maker, s.giveMint, s.giveAmount, a[1], s.wantMint, s.wantAmount, b.due)
    case 38 =>
      && |a| >= 15 && |x.data| == 90
      && var t := Orders.DealOf(x.data, a[2], a[3]);
         (b.maker, OrderMessage(t)) in e.signed
         && Due(e, w, a[11], x.metadata, t.royaltyMode, t.makerPct, t.wantAmount) == Ok(b.due)
         && b == Bargain(a[1], t.giveMint, t.giveAmount, Address(e.derive, OrderSeed(a[1])), t.wantMint, t.wantAmount,
             b.due)
    case 41 =>
      && |a| >= 15 && |x.data| == 90
      && var t := Orders.DealOf(x.data, a[2], a[3]);
         (b.maker, BidMessage(t)) in e.signed
         && b == Bargain(a[1], t.giveMint, t.giveAmount, Address(e.derive, OrderSeed(a[1])), t.wantMint, 1, 1)
    case _ => false
  }

  /** The owner of the account, or a delegate the owner named, signed the instruction. */
  predicate SpokenFor(w: World, x: Ix, k: Key) {
    && k in w.tokens
    && (w.tokens[k].owner in x.signers
        || (w.tokens[k].delegate.Some? && w.tokens[k].delegate.value in x.signers))
  }

  /** The account is the maker's, delegated to the bargain's address; over the whole instruction exactly the bargained
      amount leaves it; and one transfer brings what is due into an account of the maker, out of another account whose
      owner or delegate signed. */
  predicate Compensated(w: World, x: Ix, moves: seq<Move>, a: Key, b: Bargain, pay: Move) {
    && a in w.tokens && w.tokens[a].owner == b.maker && w.tokens[a].mint == b.mint
    && w.tokens[a].delegate == Some(b.puller)
    && Outflow(moves, a) == b.amount
    && pay in moves && pay.mint == b.payMint && pay.amount == b.due && IsTokenAccount(w, pay.dst, b.payMint, b.maker)
    && pay.src != a && SpokenFor(w, x, pay.src)
  }

  // ---- what happens before the sale ----

  /** Tests, a new marker, and transfers the taker signs. */
  predicate Spends(op: Op, taker: Key) {
    op.Check? || op.NewRecord? || (op.Transfer? && op.auth == Signer(taker))
  }

  predicate AllSpend(ops: seq<Op>, taker: Key) {
    forall op :: op in ops ==> Spends(op, taker)
  }

  lemma {:induction false} CreatorsSpend(src: Key, mint: Key, taker: Key, payouts: seq<nat>, accounts: seq<Key>)
    requires |payouts| == |accounts|
    ensures AllSpend(CreatorOps(src, mint, Signer(taker), payouts, accounts), taker)
  {
    if payouts != [] {
      CreatorsSpend(src, mint, taker, payouts[1..], accounts[1..]);
    }
  }

  /** The royalty payment: the fee, the maker's payment, the creators', all spent by the taker. */
  lemma RoyaltySpends(e: Env, w: World, config: Key, src: Key, mint: Key, feeAccount: Key, maker: Key, taker: Key,
      want: nat, maxWant: nat, shardSeed: byte, mode: byte, pct: byte, metadata: Option<MetadataAccount>,
      creators: seq<Key>)
    returns (fee: seq<Op>, pay: Op, rest: seq<Op>)
    requires RoyaltyOps(e, w, config, src, mint, feeAccount, maker, taker, want, maxWant, shardSeed, mode, pct,
        metadata, creators).Ok?
    ensures RoyaltyOps(e, w, config, src, mint, feeAccount, maker, taker, want, maxWant, shardSeed, mode, pct,
        metadata, creators).value == fee + [pay] + rest
    ensures AllSpend(fee, taker) && AllSpend(rest, taker)
    ensures pay.Transfer? && pay.src == src && pay.auth == Signer(taker)
  {
    hide RoyaltyOps, IsFeeDestination, CreatorsMatch, Splits, Bps, Bill;
    var c, bill := RoyaltyShape(e, w, config, src, mint, feeAccount, maker, taker, want, maxWant, shardSeed, mode, pct,
        metadata, creators);
    fee := FeeLeg(e, w, c, src, mint, feeAccount, Signer(taker), want, shardSeed);
    pay := Transfer(src, mint, maker, Signer(taker), want - Bps(want, c.feeBps) - bill.makerShare);
    rest := RoyaltyLeg(src, mint, Signer(taker), bill, creators);
    if bill.royalty != 0 {
      CreatorsSpend(src, mint, taker, Splits(bill.royalty, Percentages(bill.shares)), creators);
    }
  }

  /** Spending by the taker changes nobody's owner, and no delegate but the taker. */
  lemma {:induction false} SpendingKeeps(e: Env, signers: set<Key>, w: World, ops: seq<Op>, taker: Key, a: Key)
    requires Exec(e, signers, w, ops).Ok? && AllSpend(ops, taker)
    ensures var v := Exec(e, signers, w, ops).value;
            && (a in v.tokens <==> a in w.tokens)
            && (a in w.tokens ==>
                  v.tokens[a].owner == w.tokens[a].owner
                  && (v.tokens[a].delegate == w.tokens[a].delegate || w.tokens[a].delegate == Some(taker)))
    decreases |ops|
  {
    if ops != [] {
      assert Spends(ops[0], taker);
      SpendingKeeps(e, signers, Apply(e, signers, w, ops[0]).value, ops[1..], taker, a);
    }
  }

  lemma AtTransfer(e: Env, signers: set<Key>, w: World, before: seq<Op>, op: Op, after: seq<Op>, taker: Key)
    returns (u: World)
    requires Exec(e, signers, w, before + [op] + after).Ok? && AllSpend(before, taker) && op.Transfer?
    ensures Apply(e, signers, u, op).Ok? && op.src in w.tokens && op.src in u.tokens
    ensures u.tokens[op.src].owner == w.tokens[op.src].owner
    ensures u.tokens[op.src].delegate == w.tokens[op.src].delegate || w.tokens[op.src].delegate == Some(taker)
  {
    hide Signed;
    Reassociate(before, [op], after);
    ExecSplit(e, signers, w, before, [op] + after);
    u := Exec(e, signers, w, before).value;
    ExecCons(e, signers, u, op, after);
    SpendingKeeps(e, signers, w, before, taker, op.src);
  }

  /** A transfer the taker signs comes out of an account whose owner or delegate signed. */
  lemma PayerAgrees(e: Env, x: Ix, w: World, before: seq<Op>, pay: Op, after: seq<Op>, taker: Key)
    requires Exec(e, x.signers, w, before + [pay] + after).Ok? && AllSpend(before, taker)
    requires pay.Transfer? && pay.auth == Signer(taker) && taker in x.signers
    ensures SpokenFor(w, x, pay.src)
  {
    var u := AtTransfer(e, x.signers, w, before, pay, after, taker);
  }

  /** A transfer a program address signs, out of an account of a silent owner, uses a delegation the owner gave. */
  lemma PullerIsDelegate(e: Env, x: Ix, w: World, before: seq<Op>, pull: Op, after: seq<Op>, taker: Key)
    requires Exec(e, x.signers, w, before + [pull] + after).Ok? && AllSpend(before, taker)
    requires pull.Transfer? && pull.auth.Seeded? && taker in x.signers && Silent(e, w, x, pull.src)
    ensures w.tokens[pull.src].delegate == Some(pull.auth.key)
  {
    hide Preimage;
    var u := AtTransfer(e, x.signers, w, before, pull, after, taker);
  }

  // ---- outflows ----

  lemma PaymentThenSale(pay: seq<Move>, src: Key, sale: Move, a: Key)
    requires (forall m :: m in pay ==> m.src == src) && src != a && sale.src == a
    ensures Outflow(pay + [sale], a) == sale.amount
  {
    OneSource(pay, src, a);
    FlowsSplit(pay, [sale], a);
    OneFlow(sale, a);
  }

  // ---- the three sales ----

  lemma MakersPayment(c: Config, bill: RoyaltyBill, src: Key, mint: Key, feeAccount: Key, maker: Key, taker: Key,
      want: nat, creators: seq<Key>)
    requires Payable(bill, creators)
    ensures Move(src, mint, maker, taker, Minus(want, Bps(want, c.feeBps) + bill.makerShare))
        in RoyaltyMoves(c, bill, src, mint, feeAccount, maker, taker, want, creators)
  {
    hide Bps, Splits;
  }

  lemma MovesOfStep(w: World, v: World, moves: seq<Move>)
    requires v.log == w.log + moves
    ensures |w.log| <= |v.log| && MovesBetween(w, v) == moves
  {
  }

  lemma SilentIsNotSpokenFor(e: Env, w: World, x: Ix, a: Key)
    requires Silent(e, w, x, a)
    ensures !SpokenFor(w, x, a)
  {
  }

  lemma OwnerIs(w: World, a: Key, mint: Key, owner: Key)
    requires IsTokenAccount(w, a, mint, owner)
    ensures a in w.tokens && w.tokens[a].mint == mint && w.tokens[a].owner == owner
  {
  }

  lemma ListingCompensates(e: Env, w: World, x: Ix, a: Key) returns (b: Bargain, pay: Move)
    requires Run(e, w, x, Listings.FillListing(e, w, x)).Ok?
    requires Silent(e, w, x, a) && SaleAccount(27, x) == Some(a)
    ensures var v := Run(e, w, x, Listings.FillListing(e, w, x)).value;
            |w.log| <= |v.log| && Strikes(e, w, 27, x, b) && Compensated(w, x, MovesBetween(w, v), a, b, pay)
  {
    hide Listings.FillListing, RoyaltyOps, RoyaltyMoves, ReadSwap, IsTokenAccount, Bill, Bps, Exec, CreatorsMatch,
        Payable, FeeLeg, ReadConfig, Outflow, Create, Silent;
    var s, c, bill, creators := ListingSaleIsPaid(e, w, x);
    var t, nonce := FillListingShape(e, x, w);
    var k, none := x.accounts, s.royaltyMode == ROYALTY_NONE;
    var fee, give, rest := RoyaltySpends(e, w, k[10], k[7], s.wantMint, k[11], k[8], k[0], s.wantAmount,
        U64At(x.data, 40), x.data[0], s.royaltyMode, s.makerPct, if none then None else Some(x.metadata),
        if none then [] else k[14..]);
    var pull := Transfer(k[5], s.giveMint, k[6], Seeded(k[1], ListingSeed(s.maker, nonce), s.bump), s.giveAmount);
    var ops := Listings.FillListing(e, w, x).value;
    assert ops == fee + [give] + (rest + [pull, Wipe(k[1])]);
    assert ops == (fee + [give] + rest) + [pull] + [Wipe(k[1])];
    PayerAgrees(e, x, w, fee, give, rest + [pull, Wipe(k[1])], k[0]);
    PullerIsDelegate(e, x, w, fee + [give] + rest, pull, [Wipe(k[1])], k[0]);
    SilentIsNotSpokenFor(e, w, x, a);
    var paid := RoyaltyMoves(c, bill, k[7], s.wantMint, k[11], k[8], k[0], s.wantAmount, creators);
    RoyaltyMovesAuth(c, bill, k[7], s.wantMint, k[11], k[8], k[0], s.wantAmount, creators);
    MakersPayment(c, bill, k[7], s.wantMint, k[11], k[8], k[0], s.wantAmount, creators);
    var sale := Move(k[5], s.giveMint, k[6], k[1], s.giveAmount);
    PaymentThenSale(paid, k[7], sale, a);
    MovesOfStep(w, Run(e, w, x, Listings.FillListing(e, w, x)).value, paid + [sale]);
    var due := Minus(s.wantAmount, Bps(s.wantAmount, c.feeBps) + bill.makerShare);
    b := Bargain(s.maker, s.giveMint, s.giveAmount, k[1], s.wantMint, s.wantAmount, due);
    pay := Move(k[7], s.wantMint, k[8], k[0], due);
    OwnerIs(w, a, s.giveMint, s.maker);
  }

  lemma HeadSpends(done: Key, checks: seq<Op>, taker: Key)
    requires forall op :: op in checks ==> op.Check?
    ensures AllSpend([NewRecord(done, MARKER_LEN)] + checks, taker)
  {
  }

  /** An accepted order was planned to the end: the royalty payment was not refused. */
  lemma OrderIsPlanned(e: Env, w: World, x: Ix, t: Deal, auth: Pda, done: Pda)
    requires |x.accounts| >= 15 && Run(e, w, x, Orders.SettleSignedOrder(e, w, x)).Ok?
    requires Orders.SettleSignedOrder(e, w, x).value == [NewRecord(done.key, MARKER_LEN)]
        + Orders.OrderChecks(e, w, x, t) + Orders.OrStop(OrderRoyalty(e, w, x, t))
        + [Transfer(x.accounts[4], t.giveMint, x.accounts[5], Seeded(auth.key, OrderSeed(x.accounts[1]), auth.bump),
            t.giveAmount)]
    ensures OrderRoyalty(e, w, x, t).Ok?
  {
    hide Orders.SettleSignedOrder, RoyaltyOps, Orders.OrderChecks, Exec;
    SettleEffect(e, x.signers, w, done.key, Orders.OrderChecks(e, w, x, t), OrderRoyalty(e, w, x, t),
        Transfer(x.accounts[4], t.giveMint, x.accounts[5], Seeded(auth.key, OrderSeed(x.accounts[1]), auth.bump),
            t.giveAmount));
  }

  lemma OrderCompensates(e: Env, w: World, x: Ix, a: Key) returns (b: Bargain, pay: Move)
    requires ValidIx(e, x) && Run(e, w, x, Orders.SettleSignedOrder(e, w, x)).Ok?
    requires Silent(e, w, x, a) && SaleAccount(38, x) == Some(a)
    ensures var v := Run(e, w, x, Orders.SettleSignedOrder(e, w, x)).value;
            |w.log| <= |v.log| && Strikes(e, w, 38, x, b) && Compensated(w, x, MovesBetween(w, v), a, b, pay)
  {
    hide Orders.SettleSignedOrder, RoyaltyOps, RoyaltyMoves, IsTokenAccount, Bill, Bps, Exec, CreatorsMatch, Payable,
        FeeLeg, ReadConfig, Outflow, Create, Silent, Orders.OrderChecks, Orders.ProvesSignature, OrderMessage, Find,
        ValidIx;
    var t, c, bill, creators := OrderSaleIsPaid(e, w, x);
    var u, auth, done := SettleOrderShape(e, x, w);
    ProvenIsSigned(e, x, x.accounts[1], OrderMessage(t));
    var k, checks := x.accounts, Orders.OrderChecks(e, w, x, t);
    OrderIsPlanned(e, w, x, t, auth, done);
    var fee, give, rest := RoyaltySpends(e, w, k[11], k[6], t.wantMint, k[12], k[7], k[0], t.wantAmount, U64 - 1,
        t.nonce[0], t.royaltyMode, t.makerPct, if t.royaltyMode == ROYALTY_NONE then None else Some(x.metadata),
        if |k| > 17 then k[17..] else []);
    var pull := Transfer(k[4], t.giveMint, k[5], Seeded(auth.key, OrderSeed(k[1]), auth.bump), t.giveAmount);
    var head, ops := [NewRecord(done.key, MARKER_LEN)] + checks, Orders.SettleSignedOrder(e, w, x).value;
    HeadSpends(done.key, checks, k[0]);
    assert ops == (head + fee) + [give] + (rest + [pull]);
    assert ops == (head + fee + [give] + rest) + [pull] + [];
    PayerAgrees(e, x, w, head + fee, give, rest + [pull], k[0]);
    PullerIsDelegate(e, x, w, head + fee + [give] + rest, pull, [], k[0]);
    SilentIsNotSpokenFor(e, w, x, a);
    var paid := RoyaltyMoves(c, bill, k[6], t.wantMint, k[12], k[7], k[0], t.wantAmount, creators);
    RoyaltyMovesAuth(c, bill, k[6], t.wantMint, k[12], k[7], k[0], t.wantAmount, creators);
    MakersPayment(c, bill, k[6], t.wantMint, k[12], k[7], k[0], t.wantAmount, creators);
    var sale := Move(k[4], t.giveMint, k[5], k[8], t.giveAmount);
    PaymentThenSale(paid, k[6], sale, a);
    MovesOfStep(w, Run(e, w, x, Orders.SettleSignedOrder(e, w, x)).value, paid + [sale]);
    var due := Minus(t.wantAmount, Bps(t.wantAmount, c.feeBps) + bill.makerShare);
    b := Bargain(k[1], t.giveMint, t.giveAmount, k[8], t.wantMint, t.wantAmount, due);
    pay := Move(k[6], t.wantMint, k[7], k[0], due);
    OwnerIs(w, a, t.giveMint, k[1]);
  }

  /** The coins leg of a bid: whatever its fee, its first transfer is pulled out of the bidder's account. */
  lemma FirstCoin(e: Env, w: World, c: Config, src: Key, mint: Key, feeAccount: Key, payee: Key, auth: Authority,
      amount: nat, shardSeed: byte)
    returns (tests: seq<Op>, pull: Op, rest: seq<Op>)
    ensures PriceOps(e, w, c, src, mint, feeAccount, payee, auth, amount, shardSeed) == tests + [pull] + rest
    ensures (forall op :: op in tests ==> op.Check?) && pull.Transfer? && pull.src == src && pull.auth == auth
  {
    hide IsFeeDestination, Bps;
    var leg, ops := FeeLeg(e, w, c, src, mint, feeAccount, auth, amount, shardSeed),
        PriceOps(e, w, c, src, mint, feeAccount, payee, auth, amount, shardSeed);
    if leg == [] {
      tests, pull, rest := [ops[0]], ops[1], [];
    } else {
      tests, pull, rest := [ops[0]], ops[1], ops[2..];
    }
  }

  lemma BidPullerIsDelegate(e: Env, w: World, x: Ix, t: Deal, c: Config)
    requires Run(e, w, x, Orders.SettleSignedBid(e, w, x)).Ok? && |x.data| == 90 && |x.accounts| == 16
    requires t == Orders.DealOf(x.data, x.accounts[2], x.accounts[3]) && ReadConfig(e, w, x.accounts[7]) == Ok(c)
    requires Silent(e, w, x, x.accounts[4])
    ensures w.tokens[x.accounts[4]].delegate == Some(x.accounts[9])
  {
    hide Orders.SettleSignedBid, PriceOps, Exec, Orders.BidChecks, Orders.ProvesSignature, ReadConfig, Silent, Find;
    var u, auth, done := SettleBidShape(e, x, w);
    var k, checks := x.accounts, Orders.BidChecks(e, w, x, t);
    var order := Seeded(auth.key, OrderSeed(k[1]), auth.bump);
    var tests, pull, rest := FirstCoin(e, w, c, k[4], t.giveMint, k[8], k[5], order, t.giveAmount, t.nonce[0]);
    var head, nft := [NewRecord(done.key, MARKER_LEN)] + checks, Transfer(k[13], t.wantMint, k[14], Signer(k[0]), 1);
    HeadSpends(done.key, checks, k[0]);
    assert Orders.SettleSignedBid(e, w, x).value == (head + tests) + [pull] + (rest + [nft]);
    PullerIsDelegate(e, x, w, head + tests, pull, rest + [nft], k[0]);
  }

  lemma BidCompensates(e: Env, w: World, x: Ix, a: Key) returns (b: Bargain, pay: Move)
    requires ValidIx(e, x) && Inv(e, w) && Run(e, w, x, Orders.SettleSignedBid(e, w, x)).Ok?
    requires Silent(e, w, x, a) && SaleAccount(41, x) == Some(a)
    ensures var v := Run(e, w, x, Orders.SettleSignedBid(e, w, x)).value;
            |w.log| <= |v.log| && Strikes(e, w, 41, x, b) && Compensated(w, x, MovesBetween(w, v), a, b, pay)
  {
    hide Orders.SettleSignedBid, PriceOps, PriceMoves, IsTokenAccount, Exec, Orders.BidChecks, Orders.ProvesSignature,
        Orders.OrStop, ReadConfig, Inv, ValidIx, BidMessage, Silent, Outflow, Find, Total;
    var t, c := BidSaleIsDelivered(e, w, x);
    var k := x.accounts;
    ProvenIsSigned(e, x, k[1], BidMessage(t));
    BidPullerIsDelegate(e, w, x, t, c);
    SilentIsNotSpokenFor(e, w, x, a);
    OwnerIs(w, k[13], t.wantMint, k[0]);
    OwnerIs(w, a, t.giveMint, k[1]);
    var paid, unit := PriceMoves(c, k[4], t.giveMint, k[8], k[5], k[9], t.giveAmount),
        Move(k[13], t.wantMint, k[14], k[0], 1);
    ConfigRateFits(e, w, k[7], c, t.giveAmount);
    PriceMovesTotal(c, k[4], t.giveMint, k[8], k[5], k[9], t.giveAmount);
    PriceMovesAuth(c, k[4], t.giveMint, k[8], k[5], k[9], t.giveAmount);
    OneSource(paid, k[4], a);
    FlowsSplit(paid, [unit], a);
    OneFlow(unit, a);
    MovesOfStep(w, Run(e, w, x, Orders.SettleSignedBid(e, w, x)).value, paid + [unit]);
    b := Bargain(k[1], t.giveMint, t.giveAmount, k[9], t.wantMint, 1, 1);
    pay := unit;
  }

  // ---- every instruction, every run ----

  /** An account whose owner and delegate did not sign is untouched, or the instruction settles a listing, an order
      or a bid of its owner: then exactly the bargained amount leaves it, under a delegation its owner gave, and the
      instruction pays the owner what is due out of an account of somebody who signed. */
  lemma DebitNeedsConsent(e: Env, w: World, tag: byte, x: Ix, a: Key) returns (b: Bargain, pay: Move)
    requires ValidIx(e, x) && Inv(e, w) && ProgramAccounts(e, w) && Step(e, w, tag, x).Ok? && Silent(e, w, x, a)
    ensures var v := Step(e, w, tag, x).value;
            && |w.log| <= |v.log|
            && Balance(v, a) + Outflow(MovesBetween(w, v), a) == Balance(w, a) + Inflow(MovesBetween(w, v), a)
            && (Undebited(w, v, a) || (Strikes(e, w, tag, x, b) && Compensated(w, x, MovesBetween(w, v), a, b, pay)))
  {
    hide Step, Strikes, Compensated, Undebited, Silent, ValidIx, Inv, ProgramAccounts, Exec, Listings.FillListing,
        Orders.SettleSignedOrder, Orders.SettleSignedBid, Outflow, Inflow, Balance;
    StepBalances(e, w, tag, x, a);
    if SaleAccount(tag, x) != Some(a) {
      OnlyTheSaleDebits(e, w, tag, x, a);
      b, pay := *, *;
    } else if tag == 27 {
      SalePlans(e, w, x);
      b, pay := ListingCompensates(e, w, x, a);
    } else {
      SalePlans(e, w, x);
      if tag == 38 {
        b, pay := OrderCompensates(e, w, x, a);
      } else {
        b, pay := BidCompensates(e, w, x, a);
      }
    }
  }

  // ---- where a listing comes from ----

  /** The `list` instruction at this address that offers these terms, signed by their maker. */
  predicate Lists(l: Label, k: Key, b: Bargain) {
    && l.Call? && l.tag == 26 && |l.x.accounts| >= 9 && |l.x.data| >= 120
    && l.x.accounts[0] == b.maker && b.maker in l.x.signers && l.x.accounts[1] == k == b.puller
    && l.x.accounts[2] == b.mint && U64At(l.x.data, 32) == b.amount
    && l.x.accounts[3] == b.payMint && U64At(l.x.data, 40) == b.price
  }

  /** The listing a fill settles was put up by its maker: an earlier `list` of the run, signed by the maker, names
      exactly the mint, the amount and the price the fill keeps to. */
  lemma ListingsAreSigned(e: Env, r: Trace, n: nat, x: Ix, b: Bargain) returns (i: nat)
    requires IsRun(e, r) && n < |r.labels| && r.labels[n] == Call(27, x) && Strikes(e, r.states[n], 27, x, b)
    ensures i < n && Lists(r.labels[i], x.accounts[1], b)
  {
    hide Next, Genesis, ReadSwap, Due;
    var y, s;
    i, y, s := FillsKeepTheirTerms(e, r, n, 27, x);
  }

  lemma OnlySalesStrike(e: Env, w: World, tag: byte, x: Ix, b: Bargain)
    requires Strikes(e, w, tag, x, b)
    ensures tag in {27, 38, 41} && |x.accounts| > 1
  {
  }

  lemma PaidByAnother(e: Env, w: World, x: Ix, moves: seq<Move>, a: Key, b: Bargain, pay: Move)
    requires Compensated(w, x, moves, a, b, pay)
    ensures pay.src in w.tokens && !Silent(e, w, x, pay.src)
  {
  }

  /** In every run: if neither the owner of an account nor its delegate signs an instruction, the account keeps all
      it has, or the instruction settles a listing, an order or a bid of that owner. In that case the owner agreed to
      the bargain, in a `list` signed earlier in the run or in a message signed off chain; exactly the bargained amount
      leaves the account; and the same instruction pays the owner what is due, or delivers the unit bid for. While all
      accounts of the owner are silent, none of them funds that payment. */
  lemma RunsDebitOnlyWithConsent(e: Env, r: Trace, n: nat, tag: byte, x: Ix, a: Key)
    returns (b: Bargain, pay: Move, i: nat)
    requires IsRun(e, r) && n < |r.labels| && r.labels[n] == Call(tag, x) && Silent(e, r.states[n], x, a)
    ensures var w, v := r.states[n], r.states[n + 1];
            && |w.log| <= |v.log|
            && Balance(v, a) + Outflow(MovesBetween(w, v), a) == Balance(w, a) + Inflow(MovesBetween(w, v), a)
            && (Undebited(w, v, a)
                || (&& tag in {27, 38, 41}
                    && Strikes(e, w, tag, x, b) && Compensated(w, x, MovesBetween(w, v), a, b, pay)
                    && (tag == 27 ==> i < n && Lists(r.labels[i], x.accounts[1], b))
                    && ((forall k :: k in w.tokens && w.tokens[k].owner == b.maker ==> Silent(e, w, x, k)) ==>
                          w.tokens[pay.src].owner != b.maker)))
  {
    hide Step, Strikes, Compensated, Undebited, Silent, ValidIx, Inv, ProgramAccounts, Outflow, Inflow, Balance, Lists,
        ValidEnv, Genesis;
    var w, v := r.states[n], r.states[n + 1];
    i := 0;
    RunKeepsInv(e, r, n);
    RunKeepsProgramAccounts(e, r, n);
    assert Next(e, w, r.labels[n], v);
    b, pay := DebitNeedsConsent(e, w, tag, x, a);
    if !Undebited(w, v, a) {
      OnlySalesStrike(e, w, tag, x, b);
      PaidByAnother(e, w, x, MovesBetween(w, v), a, b, pay);
      if tag == 27 {
        i := ListingsAreSigned(e, r, n, x, b);
      }
    }
  }
}
