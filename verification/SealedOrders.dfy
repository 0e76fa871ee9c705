/** Sealed orders and bids over whole runs: every settlement spends a message its maker signed, no
    signature is spent twice, and a maker loses under the order address exactly what was signed. */
module SealedOrders {
  import opened Prelude
  import opened Bytes
  import opened Seeds
  import opened Layout
  import opened Ledger
  import opened FeeConfig
  import opened Royalty
  import opened Payments
  import opened Machine
  import opened Shapes
  import opened SignedMessages
  import opened Consent
  import opened Runs
  import opened Lifecycle
  import opened Histories
  import opened Effects
  import opened Provenance
  import opened RoyaltySettlement
  import Orders

  predicate IsSettle(l: Label) {
    l.Call? && (l.tag == 38 || l.tag == 41) && |l.x.data| == 90 && |l.x.accounts| >= 15
  }

  function Maker(l: Label): Key
    requires IsSettle(l)
  {
    l.x.accounts[1]
  }

  function Nonce(l: Label): Key
    requires IsSettle(l)
  {
    KeyAt(l.x.data, 56)
  }

  function SettledDeal(l: Label): Deal
    requires IsSettle(l)
  {
    Orders.DealOf(l.x.data, l.x.accounts[2], l.x.accounts[3])
  }

  /** The message a settlement must show a signature for. */
  function SettledMessage(l: Label): seq<byte>
    requires IsSettle(l)
  {
    if l.tag == 38 then OrderMessage(SettledDeal(l)) else BidMessage(SettledDeal(l))
  }

  /** A settlement creates the marker of (maker, nonce), which did not exist. */
  lemma SettleOpensMarker(e: Env, r: Trace, n: nat)
    requires IsRun(e, r) && n < |r.labels| && r.labels[n].Call? && (r.labels[n].tag == 38 || r.labels[n].tag == 41)
    ensures IsSettle(r.labels[n])
    ensures var k := Address(e.derive, DoneSeed(Maker(r.labels[n]), Nonce(r.labels[n])));
            k !in r.states[n].records && k in r.states[n + 1].records && |r.states[n + 1].records[k]| == MARKER_LEN
  {
    hide Inv, ValidIx, Exec, Orders.SettleSignedOrder, Orders.SettleSignedBid, RecordEffect;
    var x, w := r.labels[n].x, r.states[n];
    StepAt(e, r, n);
    SalePlans(e, w, x);
    if r.labels[n].tag == 38 {
      SettleOrderOpens(e, x, w);
    } else {
      SettleBidOpens(e, x, w);
    }
  }

  /** No two settlements of a run, of orders or of bids, share a maker and a nonce. */
  lemma SignaturesAreSpentOnce(e: Env, r: Trace, i: nat, j: nat)
    requires IsRun(e, r) && i < j < |r.labels|
    requires r.labels[i].Call? && (r.labels[i].tag == 38 || r.labels[i].tag == 41)
    requires r.labels[j].Call? && (r.labels[j].tag == 38 || r.labels[j].tag == 41)
    ensures IsSettle(r.labels[i]) && IsSettle(r.labels[j])
    ensures Maker(r.labels[i]) != Maker(r.labels[j]) || Nonce(r.labels[i]) != Nonce(r.labels[j])
  {
    hide Next, Genesis, Address;
    SettleOpensMarker(e, r, i);
    SettleOpensMarker(e, r, j);
    MarkersStay(e, r, i + 1, j, Address(e.derive, DoneSeed(Maker(r.labels[i]), Nonce(r.labels[i]))));
  }

  lemma LayoutNotEmpty(data: seq<byte>, signer: Key, message: seq<byte>)
    requires LayoutOk(data, signer, message)
    ensures data != []
  {
  }

  lemma ProvenIsSigned(e: Env, x: Ix, signer: Key, message: seq<byte>)
    requires ValidIx(e, x) && Orders.ProvesSignature(x, signer, message)
    ensures (signer, message) in e.signed
  {
    hide LayoutOk;
    LayoutNotEmpty(x.signature.value, signer, message);
    AcceptedMeansVerified(x.signature.value, x.others, signer, message);
    assert ReadEntry(x.signature.value, x.others, 0).Some?;
  }

  /** Every settlement's message, which commits to every term and to the nonce, was signed by the maker. */
  lemma SettlementsAreSigned(e: Env, r: Trace, n: nat)
    requires IsRun(e, r) && n < |r.labels| && r.labels[n].Call? && (r.labels[n].tag == 38 || r.labels[n].tag == 41)
    ensures IsSettle(r.labels[n]) && (Maker(r.labels[n]), SettledMessage(r.labels[n])) in e.signed
    ensures SettledDeal(r.labels[n]).nonce == Nonce(r.labels[n])
  {
    hide Inv, ValidIx, Exec, Orders.SettleSignedOrder, Orders.SettleSignedBid, RecordEffect, OrderMessage, BidMessage,
        Orders.ProvesSignature, OrderRoyalty, Orders.OrderChecks, Orders.BidChecks;
    var x, w := r.labels[n].x, r.states[n];
    StepAt(e, r, n);
    SalePlans(e, w, x);
    if r.labels[n].tag == 38 {
      var t, auth, done := SettleOrderShape(e, x, w);
      ProvenIsSigned(e, x, x.accounts[1], OrderMessage(t));
    } else {
      var t, auth, done := SettleBidShape(e, x, w);
      ProvenIsSigned(e, x, x.accounts[1], BidMessage(t));
    }
  }

  // ---- what a maker loses under the order address ----

  /** The transfer counts: made under this authority, of this mint, out of this account if one is named. */
  predicate Counts(m: Move, auth: Key, mint: Key, from: Option<Key>) {
    m.auth == auth && m.mint == mint && (from.Some? ==> m.src == from.value)
  }

  /** What was moved under one authority, of one mint, out of one account or of all. */
  function Under(moves: seq<Move>, auth: Key, mint: Key, from: Option<Key>): nat {
    if moves == [] then 0 else
    (if Counts(moves[0], auth, mint, from) then moves[0].amount else 0) + Under(moves[1..], auth, mint, from)
  }

  lemma {:induction false} UnderSplit(a: seq<Move>, b: seq<Move>, auth: Key, mint: Key, from: Option<Key>)
    ensures Under(a + b, auth, mint, from) == Under(a, auth, mint, from) + Under(b, auth, mint, from)
  {
    if a == [] {
      assert a + b == b;
    } else {
      assert (a + b)[1..] == a[1..] + b;
      UnderSplit(a[1..], b, auth, mint, from);
    }
  }

  lemma {:induction false} UnderNobody(moves: seq<Move>, auth: Key, mint: Key, from: Option<Key>)
    requires forall m :: m in moves ==> m.auth != auth
    ensures Under(moves, auth, mint, from) == 0
  {
    if moves != [] {
      UnderNobody(moves[1..], auth, mint, from);
    }
  }

  lemma {:induction false} UnderAlike(moves: seq<Move>, auth: Key, mint: Key, from: Option<Key>, counted: bool)
    requires forall m :: m in moves ==> Counts(m, auth, mint, from) == counted
    ensures Under(moves, auth, mint, from) == if counted then Total(moves) else 0
  {
    if moves != [] {
      UnderAlike(moves[1..], auth, mint, from, counted);
    }
  }

  /** The settlement names this maker, this mint, and this account if one is asked for. */
  predicate Promises(l: Label, maker: Key, mint: Key, from: Option<Key>) {
    IsSettle(l) && Maker(l) == maker && SettledDeal(l).giveMint == mint
    && (from.Some? ==> l.x.accounts[4] == from.value)
  }

  /** What the settlements so far promised to take from this maker. */
  function Promised(labels: seq<Label>, maker: Key, mint: Key, from: Option<Key>): nat {
    if labels == [] then 0 else
    var l := labels[|labels| - 1];
    Promised(labels[..|labels| - 1], maker, mint, from)
    + (if Promises(l, maker, mint, from) then SettledDeal(l).giveAmount else 0)
  }

  /** No transfer in the list signs with the order address of this maker. */
  predicate SparesOrder(ops: seq<Op>, maker: Key) {
    forall op :: op in ops && op.Transfer? ==> op.auth.Signer? || op.auth.seed != OrderSeed(maker)
  }

  lemma NotTheOrder(e: Env, x: Ix, w: World, op: Op, maker: Key, order: Pda)
    requires ValidEnv(e) && ValidIx(e, x) && op.Transfer? && Apply(e, x.signers, w, op).Ok?
    requires op.auth.Signer? || op.auth.seed != OrderSeed(maker)
    requires Create(e.derive, OrderSeed(maker), order.bump) == Some(order.key)
    ensures op.auth.key != order.key
  {
    if op.auth.Seeded? && op.auth.key == order.key {
      OneHome(e.derive, OrderSeed(maker), order.bump, op.auth.seed, op.auth.bump);
    }
  }

  lemma {:induction false} NothingUnderOrder(e: Env, x: Ix, w: World, ops: seq<Op>, maker: Key, order: Pda, mint: Key,
      from: Option<Key>)
    requires ValidEnv(e) && ValidIx(e, x) && Exec(e, x.signers, w, ops).Ok? && SparesOrder(ops, maker)
    requires Create(e.derive, OrderSeed(maker), order.bump) == Some(order.key)
    ensures Under(Moves(ops), order.key, mint, from) == 0
    decreases |ops|
  {
    hide Create, ValidIx;
    if ops != [] {
      var op := ops[0];
      NothingUnderOrder(e, x, Apply(e, x.signers, w, op).value, ops[1..], maker, order, mint, from);
      UnderSplit(MoveOf(op), Moves(ops[1..]), order.key, mint, from);
      if op.Transfer? {
        NotTheOrder(e, x, w, op, maker, order);
        UnderNobody(MoveOf(op), order.key, mint, from);
      }
    }
  }

  /** The only order address a settlement signs with is that of the maker it names. */
  lemma SettlesUseTheMakersOrder(e: Env, w: World, tag: byte, x: Ix)
    requires (tag == 38 || tag == 41) && PlanOf(e, w, tag, x).Ok?
    ensures |x.accounts| > 1 && OnlySeed(PlanOf(e, w, tag, x).value, OrderSeed(x.accounts[1]))
  {
    hide Orders.SettleSignedOrder, Orders.SettleSignedBid, OnlySeed;
    if tag == 38 {
      OrderUsesItsMaker(e, w, x);
    } else {
      BidUsesItsMaker(e, w, x);
    }
  }

  lemma PlansSpareOrders(e: Env, w: World, tag: byte, x: Ix, maker: Key)
    requires Step(e, w, tag, x).Ok?
    requires (tag == 38 || tag == 41) ==> |x.accounts| > 1 && x.accounts[1] != maker
    ensures SparesOrder(PlanOf(e, w, tag, x).value, maker)
  {
    hide PlanOf, Exec, Derived;
    StepConsented(e, w, tag, x);
    if tag == 38 || tag == 41 {
      SettlesUseTheMakersOrder(e, w, tag, x);
    }
  }

  /** Any instruction but a settlement of this maker moves nothing under the maker's order address. */
  lemma OthersSpareTheOrder(e: Env, w: World, tag: byte, x: Ix, maker: Key, order: Pda, mint: Key, from: Option<Key>)
    requires ValidEnv(e) && ValidIx(e, x) && Step(e, w, tag, x).Ok?
    requires (tag == 38 || tag == 41) ==> |x.accounts| > 1 && x.accounts[1] != maker
    requires Find(e.derive, OrderSeed(maker)) == Ok(order)
    ensures Under(Step(e, w, tag, x).value.log, order.key, mint, from) == Under(w.log, order.key, mint, from)
  {
    hide PlanOf, ValidIx, ValidEnv, Exec, Create, SparesOrder;
    var ops := PlanOf(e, w, tag, x).value;
    PlansSpareOrders(e, w, tag, x, maker);
    NothingUnderOrder(e, x, w, ops, maker, order, mint, from);
    ExecRecords(e, x.signers, w, ops);
    UnderSplit(w.log, Moves(ops), order.key, mint, from);
  }

  predicate OnlySeed(ops: seq<Op>, seed: Seed) {
    forall op :: op in ops && op.Transfer? && op.auth.Seeded? ==> op.auth.seed == seed
  }

  lemma SettleSeeds(done: Key, checks: seq<Op>, pay: Plan, last: Op, seed: Seed)
    requires forall op :: op in checks ==> op.Check?
    requires (pay.Ok? ==> OnlySeed(pay.value, seed)) && OnlySeed([last], seed)
    ensures OnlySeed([NewRecord(done, MARKER_LEN)] + checks + Orders.OrStop(pay) + [last], seed)
  {
    assert last in [last];
  }

  lemma RoyaltySignersOnly(e: Env, w: World, config: Key, src: Key, mint: Key, feeAccount: Key, maker: Key, taker: Key,
                           want: nat, maxWant: nat, shardSeed: byte, mode: byte, pct: byte,
                               metadata: Option<MetadataAccount>, creators: seq<Key>)
    requires RoyaltyOps(e, w, config, src, mint, feeAccount, maker, taker, want, maxWant, shardSeed, mode, pct,
        metadata, creators).Ok?
    ensures forall op :: op in RoyaltyOps(e, w, config, src, mint, feeAccount, maker, taker, want, maxWant, shardSeed,
        mode, pct, metadata, creators).value && op.Transfer? ==>
              op.auth == Signer(taker)
  {
    hide RoyaltyOps, IsFeeDestination, CreatorsMatch, Splits, Bill;
    var c, bill := RoyaltyShape(e, w, config, src, mint, feeAccount, maker, taker, want, maxWant, shardSeed, mode, pct,
        metadata, creators);
    if bill.royalty != 0 {
      CreatorsOneAuth(src, mint, Signer(taker), Splits(bill.royalty, Percentages(bill.shares)), creators);
    }
  }

  lemma OrderUsesItsMaker(e: Env, w: World, x: Ix)
    requires Orders.SettleSignedOrder(e, w, x).Ok?
    ensures |x.accounts| > 1 && OnlySeed(Orders.SettleSignedOrder(e, w, x).value, OrderSeed(x.accounts[1]))
  {
    hide Orders.SettleSignedOrder, Orders.OrderChecks, RoyaltyOps, Orders.ProvesSignature, Orders.OrStop,
        IsTokenAccount;
    var a := x.accounts;
    var t, auth, done := SettleOrderShape(e, x, w);
    if OrderRoyalty(e, w, x, t).Ok? {
      RoyaltySignersOnly(e, w, a[11], a[6], t.wantMint, a[12], a[7], a[0], t.wantAmount, U64 - 1, t.nonce[0],
          t.royaltyMode, t.makerPct,
                         if t.royaltyMode == ROYALTY_NONE then None else Some(x.metadata),
                             if |a| > 17 then a[17..] else []);
    }
    SettleSeeds(done.key, Orders.OrderChecks(e, w, x, t), OrderRoyalty(e, w, x, t),
                Transfer(a[4], t.giveMint, a[5], Seeded(auth.key, OrderSeed(a[1]), auth.bump), t.giveAmount),
                    OrderSeed(a[1]));
  }

  lemma PriceOneAuth(e: Env, w: World, c: Config, src: Key, mint: Key, feeAccount: Key, payee: Key, auth: Authority,
      amount: nat, shardSeed: byte)
    ensures forall op ::
        op in PriceOps(e, w, c, src, mint, feeAccount, payee, auth, amount, shardSeed) && op.Transfer? ==>
          op.auth == auth
  {
    hide IsFeeDestination;
  }

  lemma BidUsesItsMaker(e: Env, w: World, x: Ix)
    requires Orders.SettleSignedBid(e, w, x).Ok?
    ensures |x.accounts| > 1 && OnlySeed(Orders.SettleSignedBid(e, w, x).value, OrderSeed(x.accounts[1]))
  {
    hide Orders.SettleSignedBid, Orders.BidChecks, PriceOps, Orders.ProvesSignature, Orders.OrStop, IsTokenAccount;
    var a := x.accounts;
    var t, auth, done := SettleBidShape(e, x, w);
    var order := Seeded(auth.key, OrderSeed(a[1]), auth.bump);
    var coins := Orders.CoinsOps(e, w, a[7], a[4], t.giveMint, a[8], a[5], order, t.giveAmount, t.nonce[0]);
    if coins.Ok? {
      PriceOneAuth(e, w, ReadConfig(e, w, a[7]).value, a[4], t.giveMint, a[8], a[5], order, t.giveAmount, t.nonce[0]);
    }
    SettleSeeds(done.key, Orders.BidChecks(e, w, x, t), coins, Transfer(a[13], t.wantMint, a[14], Signer(a[0]), 1),
        OrderSeed(a[1]));
  }

  lemma {:induction false} CreatorsOneAuth(src: Key, mint: Key, auth: Authority, payouts: seq<nat>, accounts: seq<Key>)
    requires |payouts| == |accounts|
    ensures forall op :: op in CreatorOps(src, mint, auth, payouts, accounts) && op.Transfer? ==> op.auth == auth
  {
    if payouts != [] {
      CreatorsOneAuth(src, mint, auth, payouts[1..], accounts[1..]);
    }
  }

  lemma OneUnder(m: Move, auth: Key, mint: Key, from: Option<Key>)
    ensures Under([m], auth, mint, from) == if Counts(m, auth, mint, from) then m.amount else 0
  {
    assert [m][1..] == [];
  }

  /** The give amount of a settlement, if it is of this mint and out of this account. */
  function TakenBy(x: Ix, mint: Key, from: Option<Key>): nat
    requires |x.data| == 90 && |x.accounts| >= 15
  {
    if x.accounts[2] == mint && (from.Some? ==> x.accounts[4] == from.value) then U64At(x.data, 0) else 0
  }

  lemma SignerIsNotDerived(e: Env, x: Ix, signer: Key, s: Seed)
    requires ValidIx(e, x) && signer in x.signers && Find(e.derive, s).Ok?
    ensures signer != Address(e.derive, s)
  {
    AddressDerived(e, s);
  }

  lemma OrderTakesItsGive(e: Env, w: World, x: Ix, mint: Key, from: Option<Key>)
    requires ValidEnv(e) && ValidIx(e, x) && Run(e, w, x, Orders.SettleSignedOrder(e, w, x)).Ok?
    ensures |x.data| == 90 && |x.accounts| >= 15
    ensures var order := Address(e.derive, OrderSeed(x.accounts[1]));
            Under(Run(e, w, x, Orders.SettleSignedOrder(e, w, x)).value.log, order, mint, from)
                == Under(w.log, order, mint, from) + TakenBy(x, mint, from)
  {
    hide Orders.SettleSignedOrder, Exec, RoyaltyMoves, Bill, Bps, IsTokenAccount, ReadConfig, Orders.ProvesSignature,
        Payable;
    var t, c, bill, creators := OrderSaleIsPaid(e, w, x);
    var a := x.accounts;
    var pay, last := RoyaltyMoves(c, bill, a[6], t.wantMint, a[12], a[7], a[0], t.wantAmount, creators),
        Move(a[4], t.giveMint, a[5], a[8], t.giveAmount);
    RoyaltyMovesAuth(c, bill, a[6], t.wantMint, a[12], a[7], a[0], t.wantAmount, creators);
    SignerIsNotDerived(e, x, a[0], OrderSeed(a[1]));
    UnderNobody(pay, a[8], mint, from);
    UnderSplit(w.log + pay, [last], a[8], mint, from);
    UnderSplit(w.log, pay, a[8], mint, from);
    OneUnder(last, a[8], mint, from);
  }

  lemma BidTakesItsGive(e: Env, w: World, x: Ix, mint: Key, from: Option<Key>)
    requires ValidEnv(e) && ValidIx(e, x) && Inv(e, w) && Run(e, w, x, Orders.SettleSignedBid(e, w, x)).Ok?
    ensures |x.data| == 90 && |x.accounts| == 16
    ensures var order := Address(e.derive, OrderSeed(x.accounts[1]));
            Under(Run(e, w, x, Orders.SettleSignedBid(e, w, x)).value.log, order, mint, from)
                == Under(w.log, order, mint, from) + TakenBy(x, mint, from)
  {
    hide Orders.SettleSignedBid, Exec, PriceMoves, IsTokenAccount, ReadConfig, Orders.ProvesSignature, Inv;
    var t, c := BidSaleIsDelivered(e, w, x);
    var a := x.accounts;
    var pay, last := PriceMoves(c, a[4], t.giveMint, a[8], a[5], a[9], t.giveAmount),
        Move(a[13], t.wantMint, a[14], a[0], 1);
    ConfigRateFits(e, w, a[7], c, t.giveAmount);
    PriceMovesTotal(c, a[4], t.giveMint, a[8], a[5], a[9], t.giveAmount);
    PriceMovesAuth(c, a[4], t.giveMint, a[8], a[5], a[9], t.giveAmount);
    UnderAlike(pay, a[9], mint, from, t.giveMint == mint && (from.Some? ==> a[4] == from.value));
    SignerIsNotDerived(e, x, a[0], OrderSeed(a[1]));
    UnderSplit(w.log + pay, [last], a[9], mint, from);
    UnderSplit(w.log, pay, a[9], mint, from);
    OneUnder(last, a[9], mint, from);
  }

  /** One step of the account below. */
  lemma CallTakesWhatItPromised(e: Env, w: World, tag: byte, x: Ix, v: World, maker: Key, mint: Key, from: Option<Key>)
    requires ValidEnv(e) && ValidIx(e, x) && Inv(e, w) && Step(e, w, tag, x) == Ok(v)
        && Find(e.derive, OrderSeed(maker)).Ok?
    ensures var order, l := Address(e.derive, OrderSeed(maker)), Call(tag, x);
            Under(v.log, order, mint, from) == Under(w.log, order, mint, from)
                + if Promises(l, maker, mint, from) then SettledDeal(l).giveAmount else 0
  {
    hide Inv, ValidIx, ValidEnv, Exec, Orders.SettleSignedOrder, Orders.SettleSignedBid, Find, Under;
    SalePlans(e, w, x);
    if tag == 38 {
      OrderTakesItsGive(e, w, x, mint, from);
    } else if tag == 41 {
      BidTakesItsGive(e, w, x, mint, from);
    }
    if !((tag == 38 || tag == 41) && x.accounts[1] == maker) {
      OthersSpareTheOrder(e, w, tag, x, maker, Find(e.derive, OrderSeed(maker)).value, mint, from);
    }
  }

  lemma NotASettle(l: Label, maker: Key, mint: Key, from: Option<Key>)
    requires l.Elsewhere?
    ensures !Promises(l, maker, mint, from)
  {
  }

  /** Over every run, mint by mint and account by account, what leaves a maker under the order address is exactly the
      sum of the give amounts of the settled messages, each signed by that maker and each spent once. */
  lemma {:induction false} MakersLoseWhatTheySigned(e: Env, r: Trace, n: nat, maker: Key, mint: Key, from: Option<Key>)
    requires IsRun(e, r) && n < |r.states| && Find(e.derive, OrderSeed(maker)).Ok?
    ensures Under(r.states[n].log, Address(e.derive, OrderSeed(maker)), mint, from)
        == Promised(r.labels[..n], maker, mint, from)
  {
    hide Inv, ValidIx, ValidEnv, Step, Find, Address, SettledDeal, Promises;
    if n > 0 {
      MakersLoseWhatTheySigned(e, r, n - 1, maker, mint, from);
      RunKeepsInv(e, r, n - 1);
      assert Next(e, r.states[n - 1], r.labels[n - 1], r.states[n]);
      assert r.labels[..n][..n - 1] == r.labels[..n - 1] && r.labels[..n][n - 1] == r.labels[n - 1];
      if r.labels[n - 1].Call? {
        CallTakesWhatItPromised(e, r.states[n - 1], r.labels[n - 1].tag, r.labels[n - 1].x, r.states[n], maker, mint,
            from);
      } else {
        NotASettle(r.labels[n - 1], maker, mint, from);
      }
    }
  }
}
