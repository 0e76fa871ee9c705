/** The price legs: what they add up to, when they are refused, and why no fee underflows. */
module RoyaltySettlement {
  import opened Prelude
  import opened Bytes
  import opened Layout
  import opened Ledger
  import opened FeeConfig
  import opened Royalty
  import opened Payments
  import opened Machine
  import opened Runs
  import opened Effects

  // ---- fees ----

  lemma ZeroRate()
    ensures ReadConfigRecord(Zeros(CONFIG_LEN)).feeBps == 0
  {
    var z := Zeros(CONFIG_LEN)[C_FEE_BPS..C_FEE_BPS + 2];
    assert z[0] == 0 && z[1..] == [0] && z[1..][1..] == [];
    assert LE(z) == z[0] + 256 * LE(z[1..]);
  }

  /** The rate in force never makes the fee exceed the amount. */
  lemma ConfigRateFits(e: Env, w: World, config: Key, c: Config, amount: nat)
    requires Inv(e, w) && ReadConfig(e, w, config) == Ok(c) && amount < U64
    ensures c.feeBps <= BPS_DENOM && Bps(amount, c.feeBps) == amount * c.feeBps / BPS_DENOM <= amount
  {
    hide Legs, Homed, Backed;
    var b := w.records[config];
    if !Live(b) {
      assert b == Zeros(CONFIG_LEN);
      ZeroRate();
    }
    BpsFits(amount, c.feeBps);
  }

  /** In every reachable state, whatever the config writers did, no settle subtracts a fee larger than the
      amount it is taken from. */
  lemma NoFeeUnderflows(e: Env, r: Trace, n: nat, config: Key, c: Config, amount: nat)
    requires IsRun(e, r) && n < |r.states| && ReadConfig(e, r.states[n], config) == Ok(c) && amount < U64
    ensures Bps(amount, c.feeBps) == amount * c.feeBps / BPS_DENOM <= amount
  {
    hide IsRun, Inv, ReadConfig, Bps;
    RunKeepsInv(e, r, n);
    ConfigRateFits(e, r.states[n], config, c, amount);
  }

  // ---- totals ----

  function Total(moves: seq<Move>): nat {
    if moves == [] then 0 else moves[0].amount + Total(moves[1..])
  }

  lemma {:induction false} TotalSplit(a: seq<Move>, b: seq<Move>)
    ensures Total(a + b) == Total(a) + Total(b)
  {
    if a == [] {
      assert a + b == b;
    } else {
      assert (a + b)[1..] == a[1..] + b;
      TotalSplit(a[1..], b);
    }
  }

  lemma OneTotal(m: Move)
    ensures Total([m]) == m.amount
  {
    assert [m][1..] == [];
    assert Total([m]) == m.amount + Total([]);
  }

  lemma {:induction false} OneSource(moves: seq<Move>, src: Key, a: Key)
    requires forall m :: m in moves ==> m.src == src
    ensures Outflow(moves, a) == if a == src then Total(moves) else 0
  {
    if moves != [] {
      OneSource(moves[1..], src, a);
    }
  }

  /** Fee and payment add up to the price. */
  lemma PriceMovesTotal(c: Config, src: Key, mint: Key, feeAccount: Key, payee: Key, auth: Key, amount: nat)
    requires Bps(amount, c.feeBps) <= amount
    ensures Total(PriceMoves(c, src, mint, feeAccount, payee, auth, amount)) == amount
  {
    var fee, pay := FeeMoves(c, src, mint, feeAccount, auth, amount),
        Move(src, mint, payee, auth, Minus(amount, Bps(amount, c.feeBps)));
    TotalSplit(fee, [pay]);
    OneTotal(pay);
    if fee != [] {
      OneTotal(fee[0]);
    }
  }

  lemma PriceMovesAuth(c: Config, src: Key, mint: Key, feeAccount: Key, payee: Key, auth: Key, amount: nat)
    ensures forall m :: m in PriceMoves(c, src, mint, feeAccount, payee, auth, amount) ==>
        m.auth == auth && m.src == src && m.mint == mint
  {
  }

  // ---- royalty ----

  lemma {:induction false} CreatorMovesAuth(src: Key, mint: Key, auth: Key, payouts: seq<nat>, accounts: seq<Key>)
    requires |payouts| == |accounts|
    ensures forall m :: m in CreatorMoves(src, mint, auth, payouts, accounts) ==>
        m.auth == auth && m.src == src && m.mint == mint
  {
    if payouts != [] {
      CreatorMovesAuth(src, mint, auth, payouts[1..], accounts[1..]);
    }
  }

  lemma RoyaltyMovesAuth(c: Config, bill: RoyaltyBill, src: Key, mint: Key, feeAccount: Key, maker: Key, taker: Key,
      want: nat, creators: seq<Key>)
    requires Payable(bill, creators)
    ensures forall m :: m in RoyaltyMoves(c, bill, src, mint, feeAccount, maker, taker, want, creators) ==>
              m.auth == taker && m.src == src && m.mint == mint
  {
    hide Splits, Bps;
    if bill.royalty != 0 {
      CreatorMovesAuth(src, mint, taker, Splits(bill.royalty, Percentages(bill.shares)), creators);
    }
  }

  lemma {:induction false} CreatorMovesTotal(src: Key, mint: Key, auth: Key, payouts: seq<nat>, accounts: seq<Key>)
    requires |payouts| == |accounts|
    ensures Total(CreatorMoves(src, mint, auth, payouts, accounts)) == Sum(payouts)
  {
    if payouts != [] {
      CreatorMovesTotal(src, mint, auth, payouts[1..], accounts[1..]);
      var head := if payouts[0] == 0 then [] else [Move(src, mint, accounts[0], auth, payouts[0])];
      TotalSplit(head, CreatorMoves(src, mint, auth, payouts[1..], accounts[1..]));
      if head != [] {
        OneTotal(head[0]);
      }
    }
  }

  lemma PercentCast(p: nat, x: nat)
    requires p <= x * 100 && x < U64
    ensures p / 100 % U64 == p / 100 <= x
  {
  }

  lemma PercentOf(x: nat, pct: nat)
    requires pct <= 100 && x < U64
    ensures x * pct / 100 % U64 == x * pct / 100 <= x
  {
    MulBound(x, pct, 100);
    PercentCast(x * pct, x);
  }

  lemma ShareOfRoyalty(mode: byte, pct: byte, royalty: nat)
    requires MakerShare(mode, pct, royalty).Ok? && royalty < U64
    ensures MakerShare(mode, pct, royalty).value <= royalty
    ensures mode == ROYALTY_MAKER ==> MakerShare(mode, pct, royalty).value == royalty
    ensures mode == ROYALTY_TAKER ==> MakerShare(mode, pct, royalty).value == 0
    ensures mode == ROYALTY_SPLIT ==> MakerShare(mode, pct, royalty).value == royalty * pct / 100
  {
    if mode == ROYALTY_SPLIT {
      PercentOf(royalty, pct);
    }
  }

  lemma RateInRange(d: seq<byte>)
    requires RoyaltyTerms(d).Ok?
    ensures RoyaltyTerms(d).value.bps <= MAX_BPS
  {
    ParseExact(d);
  }

  /** The maker's share never exceeds the royalty, so the taker's share does not underflow either. */
  lemma MakerShareFits(metadata: Option<MetadataAccount>, mode: byte, pct: byte, want: nat, bill: RoyaltyBill)
    requires Bill(metadata, mode, pct, want) == Ok(bill) && want < U64
    ensures bill.makerShare <= bill.royalty <= want
    ensures mode == ROYALTY_NONE ==> bill == NO_ROYALTY
    ensures mode == ROYALTY_MAKER ==> bill.makerShare == bill.royalty
    ensures mode == ROYALTY_TAKER ==> bill.makerShare == 0
    ensures mode == ROYALTY_SPLIT ==> bill.makerShare == bill.royalty * pct / 100
  {
    hide PercentSum, Bps, MakerShare;
    if mode != ROYALTY_NONE {
      var t := RoyaltyTerms(metadata.value.data).value;
      RateInRange(metadata.value.data);
      BpsFits(want, t.bps);
      ShareOfRoyalty(mode, pct, bill.royalty);
    }
  }

  lemma SharesNotEmpty(bill: RoyaltyBill)
    requires PercentSum(Percentages(bill.shares)) == 100
    ensures Percentages(bill.shares) != []
  {
    assert PercentSum([]) == 0;
  }

  /** A royalty settle takes exactly the price and the taker's share from the taker's account, at most the
      cap, under the taker's own signature; it is the fee, the maker's payment and the creator payouts,
      which add up to the royalty. */
  lemma RoyaltySettleConserves(e: Env, w: World, config: Key, src: Key, mint: Key, feeAccount: Key, maker: Key,
      taker: Key,
                               want: nat, maxWant: nat, shardSeed: byte, mode: byte, pct: byte,
                                   metadata: Option<MetadataAccount>, creators: seq<Key>)
    returns (c: Config, bill: RoyaltyBill)
    requires want < U64
    requires RoyaltyOps(e, w, config, src, mint, feeAccount, maker, taker, want, maxWant, shardSeed, mode, pct,
        metadata, creators).Ok?
    ensures ReadConfig(e, w, config) == Ok(c) && Bill(metadata, mode, pct, want) == Ok(bill) && Payable(bill, creators)
    ensures bill.makerShare <= bill.royalty && Bps(want, c.feeBps) + bill.makerShare <= want
    ensures var moves := Moves(RoyaltyOps(e, w, config, src, mint, feeAccount, maker, taker, want, maxWant, shardSeed,
        mode, pct, metadata, creators).value);
            && moves == RoyaltyMoves(c, bill, src, mint, feeAccount, maker, taker, want, creators)
            && (forall m :: m in moves ==> m.src == src && m.mint == mint && m.auth == taker)
            && Total(moves) == want + (bill.royalty - bill.makerShare) <= maxWant
    ensures Total(FeeMoves(c, src, mint, feeAccount, taker, want)) == Bps(want, c.feeBps)
    ensures Total(RoyaltyLegMoves(src, mint, taker, bill, creators)) == bill.royalty
    ensures bill.royalty > 0 ==>
        Sum(Splits(bill.royalty, Percentages(bill.shares))) == bill.royalty
        && CreatorsMatch(w, mint, bill.shares, creators)
  {
    hide RoyaltyOps, Bill, Splits, Bps, CreatorsMatch, ReadConfig, PercentSum;
    c, bill := RoyaltyOpsMoves(e, w, config, src, mint, feeAccount, maker, taker, want, maxWant, shardSeed, mode, pct,
        metadata, creators);
    MakerShareFits(metadata, mode, pct, want, bill);
    RoyaltyMovesAuth(c, bill, src, mint, feeAccount, maker, taker, want, creators);
    var fee, pay, leg := FeeMoves(c, src, mint, feeAccount, taker, want),
        Move(src, mint, maker, taker, Minus(want, Bps(want, c.feeBps) + bill.makerShare)),
            RoyaltyLegMoves(src, mint, taker, bill, creators);
    TotalSplit(fee + [pay], leg);
    TotalSplit(fee, [pay]);
    OneTotal(pay);
    if fee != [] {
      OneTotal(fee[0]);
    }
    if bill.royalty > 0 {
      SharesNotEmpty(bill);
      SplitsAreExact(bill.royalty, Percentages(bill.shares));
      CreatorMovesTotal(src, mint, taker, Splits(bill.royalty, Percentages(bill.shares)), creators);
    }
  }

  lemma PassedCheck(e: Env, signers: set<Key>, w: World, test: Op)
    requires test.Check? && test.ok
    ensures Apply(e, signers, w, test) == Ok(w)
  {
  }

  lemma PassedTest(e: Env, signers: set<Key>, w: World, before: seq<Op>, test: Op, after: Op)
    requires test.Check? && test.ok
    ensures Exec(e, signers, w, before + [test] + [after]) == Exec(e, signers, w, before + [after])
  {
    hide Apply, Exec;
    ExecAppend(e, signers, w, before + [test], [after]);
    ExecAppend(e, signers, w, before, [test]);
    ExecAppend(e, signers, w, before, [after]);
    if Exec(e, signers, w, before).Ok? {
      OneOp(e, signers, Exec(e, signers, w, before).value, test);
      PassedCheck(e, signers, Exec(e, signers, w, before).value, test);
    }
  }

  /** In every reachable state, with royalty mode NONE and within the cap, the royalty path is the plain want leg: it
      is planned and refused alike, with the same error, and the two plans do the same to any state, to the refusal. */
  lemma NoRoyaltyIsThePlainLeg(e: Env, signers: set<Key>, w: World, u: World, config: Key, src: Key, mint: Key,
      feeAccount: Key, maker: Key, taker: Key, want: nat, maxWant: nat, shardSeed: byte, pct: byte,
      metadata: Option<MetadataAccount>, creators: seq<Key>)
    requires Inv(e, w) && want <= maxWant < U64
    ensures var royal := RoyaltyOps(e, w, config, src, mint, feeAccount, maker, taker, want, maxWant, shardSeed,
                             ROYALTY_NONE, pct, metadata, creators);
            if ReadConfig(e, w, config).Err? then royal == Err(ReadConfig(e, w, config).error)
            else
              var plain := PriceOps(e, w, ReadConfig(e, w, config).value, src, mint, feeAccount, maker, Signer(taker),
                  want, shardSeed);
              royal.Ok? && Exec(e, signers, u, royal.value) == Exec(e, signers, u, plain)
              && Moves(royal.value) == Moves(plain)
  {
    hide Bps, ReadConfig, IsFeeDestination, FeeLeg, Inv, Signed;
    if ReadConfig(e, w, config).Ok? {
      var c := ReadConfig(e, w, config).value;
      ConfigRateFits(e, w, config, c, want);
      var fee, pay := FeeLeg(e, w, c, src, mint, feeAccount, Signer(taker), want, shardSeed),
          Transfer(src, mint, maker, Signer(taker), want - Bps(want, c.feeBps));
      var test := Check(Bps(want, c.feeBps) <= want, ArithmeticOverflow);
      var d, bill := RoyaltyOpsMoves(e, w, config, src, mint, feeAccount, maker, taker, want, maxWant, shardSeed,
          ROYALTY_NONE, pct, metadata, creators);
      PriceOpsMoves(e, w, c, src, mint, feeAccount, maker, Signer(taker), want, shardSeed);
      assert bill == NO_ROYALTY && RoyaltyLegMoves(src, mint, taker, bill, creators) == [];
      assert fee + [pay] + [] == fee + [pay] && fee + [test, pay] == fee + [test] + [pay];
      PassedTest(e, signers, u, fee, test, pay);
    }
  }

  lemma QuotientsFit(p: nat, q: nat, want: nat)
    requires p + q <= want * 10_000
    ensures p / 10_000 + q / 10_000 <= want
  {
  }

  lemma RatesTogetherFit(want: nat, f: nat, g: nat)
    requires f + g <= BPS_DENOM
    ensures want * f / BPS_DENOM + want * g / BPS_DENOM <= want
  {
    Distribute(want, f, g);
    MulBound(want, f + g, BPS_DENOM);
    QuotientsFit(want * f, want * g, want);
  }
}
