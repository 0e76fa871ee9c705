/** The fee policy over runs: every fee a settlement skims is charged at the rate, and goes where, the last accepted
    policy of the run says. */
module Policies {
  import opened Prelude
  import opened Bytes
  import opened Seeds
  import opened Layout
  import opened Ledger
  import opened FeeConfig
  import opened Royalty
  import opened Payments
  import opened Machine
  import opened Shapes
  import opened Runs
  import opened Lifecycle
  import opened Effects
  import opened BasketEffects
  import opened RoyaltySettlement
  import opened Balances
  import opened Provenance
  import opened Fees
  import Swaps
  import Offers
  import Baskets
  import Listings
  import Orders

  /** The 75-byte payload of the last `init_config` or `update_config`. */
  function LatestPolicy(labels: seq<Label>): Option<seq<byte>> {
    if labels == [] then None else
    var l := labels[|labels| - 1];
    if l.Call? && (l.tag == 8 || l.tag == 9) then Some(l.x.data) else LatestPolicy(labels[..|labels| - 1])
  }

  /** The policy in force is the one this payload sets. */
  predicate Sets(d: seq<byte>, c: Config) {
    && |d| == 75 && c.feeWallet == KeyAt(d, 0) && c.feeBps == U16At(d, 32) <= BPS_DENOM && c.delistFee == U64At(d, 34)
    && c.aliasProgram == KeyAt(d, 42) && c.feeShards == d[74]
  }

  lemma EndedLengths(e: Env, w: World, tag: byte, x: Ix, k: Key)
    requires Step(e, w, tag, x).Ok? && k in Ends(tag, x) && k in w.records
    ensures |w.records[k]| != CONFIG_LEN
  {
    hide Baskets.FillBasket, Baskets.ClaimBearer, Baskets.CancelBasket, Baskets.ExpireBasket, ReadBasket, Exec, Create;
    match tag
    case 13 => { var h, c, auth := FillBasketShape(e, x, w); }
    case 14 => { var h, auth := ClaimBearerShape(e, x, w); }
    case 16 => { var h, auth := CancelBasketShape(e, x, w); }
    case 17 => { var h, auth := ExpireBasketShape(e, x, w); }
    case _ => EndsOtherRecords(e, w, tag, x, k);
  }

  /** Only the two policy instructions write a record of the config's length. */
  lemma ConfigStep(e: Env, w: World, l: Label, v: World, k: Key)
    requires StepsRecords(e, w, l, v) && k in v.records && |v.records[k]| == CONFIG_LEN
    ensures (l.Call? && (l.tag == 8 || l.tag == 9) && |l.x.accounts| > 1 && l.x.accounts[1] == k)
        || (k in w.records && w.records[k] == v.records[k])
  {
    hide Live, Step;
    if l.Call? && k in Ends(l.tag, l.x) {
      EndedLengths(e, w, l.tag, l.x, k);
    }
  }

  lemma PolicyIsSet(e: Env, w: World, tag: byte, x: Ix, v: World)
    requires ValidEnv(e) && ValidIx(e, x) && Inv(e, w) && tag in {8, 9} && Step(e, w, tag, x) == Ok(v)
    ensures |x.accounts| > 1 && x.accounts[1] in v.records && |v.records[x.accounts[1]]| == CONFIG_LEN
    ensures Sets(x.data, ReadConfigRecord(v.records[x.accounts[1]]))
  {
    hide InitConfig, UpdateConfig, ReadConfigRecord, Exec, Inv, Live, PolicyPut;
    if tag == 8 {
      var c, b := InitConfigOpens(e, x, w);
    } else {
      var b := RewritesConfig(e, x, w);
    }
  }

  lemma CallOf(e: Env, w: World, l: Label, v: World)
    requires StepsRecords(e, w, l, v) && l.Call?
    ensures ValidIx(e, l.x) && Step(e, w, l.tag, l.x) == Ok(v)
  {
  }

  lemma PolicyIsConfig(e: Env, w: World, tag: byte, x: Ix)
    requires tag in {8, 9} && Step(e, w, tag, x).Ok?
    ensures |x.accounts| > 1 && x.accounts[1] == Address(e.derive, ConfigSeed)
  {
    hide InitConfig, UpdateConfig, Exec, PolicyPut, ConfigImage;
    if tag == 8 {
      var p := InitConfigShape(e, x, w);
    } else {
      var p := UpdateConfigShape(e, x, w);
    }
  }

  /** In every state of every run, the fee policy in force is the one of the last accepted policy instruction. */
  lemma {:induction false} PolicyIsTheLatest(e: Env, r: Trace, n: nat, config: Key)
    requires IsRun(e, r) && n < |r.states| && ReadConfig(e, r.states[n], config).Ok?
    ensures LatestPolicy(r.labels[..n]).Some?
    ensures Sets(LatestPolicy(r.labels[..n]).value, ReadConfig(e, r.states[n], config).value)
  {
    hide Step, Inv, ValidIx, ValidEnv, StepsRecords, Sets, Find, ReadConfigRecord;
    StepAt(e, r, n - 1);
    var w, v, l := r.states[n - 1], r.states[n], r.labels[n - 1];
    assert r.labels[..n][n - 1] == l && r.labels[..n][..n - 1] == r.labels[..n - 1];
    ConfigStep(e, w, l, v, config);
    if l.Call? && (l.tag == 8 || l.tag == 9) {
      CallOf(e, w, l, v);
      PolicyIsSet(e, w, l.tag, l.x, v);
      PolicyIsConfig(e, w, l.tag, l.x);
    } else {
      PolicyIsTheLatest(e, r, n - 1, config);
    }
  }

  // ---- what a settlement is charged on ----

  /** The config it reads, the mint and the account of the fee, the price it is a part of, and the shard seed. */
  datatype Charge = Charge(config: Key, mint: Key, account: Key, price: nat, seed: byte)

  predicate Charges(w: World, tag: byte, x: Ix, t: Charge) {
    var a := x.accounts;
    match tag
    case 1 => |a| >= 12 && |x.data| > 0 && a[1] in w.records && |w.records[a[1]]| == SWAP_LEN
        && t == Charge(a[10], ReadSwap(w.records[a[1]]).wantMint, a[11], ReadSwap(w.records[a[1]]).wantAmount,
            x.data[0])
    case 5 => |a| == 13 && |x.data| > 0 && a[3] in w.records && |w.records[a[3]]| == OFFER_LEN
        && t == Charge(a[11], ReadOffer(w.records[a[3]]).wantMint, a[12], ReadOffer(w.records[a[3]]).wantAmount,
            x.data[0])
    case 27 => |a| >= 12 && |x.data| > 0 && a[1] in w.records && |w.records[a[1]]| == SWAP_LEN
        && t == Charge(a[10], ReadSwap(w.records[a[1]]).wantMint, a[11], ReadSwap(w.records[a[1]]).wantAmount,
            x.data[0])
    case 38 => |a| >= 15 && |x.data| == 90 && t == Charge(a[11], a[3], a[12], U64At(x.data, 8), x.data[56])
    case 41 => |a| >= 15 && |x.data| == 90 && t == Charge(a[7], a[2], a[8], U64At(x.data, 0), x.data[56])
    case _ => false
  }

  /** The fee of the price at the policy's rate, if positive, is transferred to the fee account, and that is an account
      of the policy's wallet, or the vault of the shard the seed picks among the policy's. */
  ghost predicate FollowsPolicy(e: Env, w: World, moves: seq<Move>, t: Charge, d: seq<byte>)
    requires |d| == 75
  {
    var fee := t.price * U16At(d, 32) / BPS_DENOM;
    fee > 0 ==>
      && (exists m :: m in moves && m.mint == t.mint && m.dst == t.account && m.amount == fee)
      && if d[74] == 0 then IsTokenAccount(w, t.account, t.mint, KeyAt(d, 0))
         else Find(e.derive, FeeVaultSeed(t.mint, t.seed % d[74])).Ok?
              && t.account == Address(e.derive, FeeVaultSeed(t.mint, t.seed % d[74]))
  }

  lemma PriceSkims(c: Config, src: Key, mint: Key, feeAccount: Key, payee: Key, auth: Key, amount: nat)
    ensures forall m :: m in FeeMoves(c, src, mint, feeAccount, auth, amount) ==>
        m in PriceMoves(c, src, mint, feeAccount, payee, auth, amount)
    ensures Bps(amount, c.feeBps) > 0 ==>
        FeeMoves(c, src, mint, feeAccount, auth, amount) == [Move(src, mint, feeAccount, auth, Bps(amount, c.feeBps))]
  {
    hide Bps;
  }

  lemma RoyaltySkims(c: Config, bill: RoyaltyBill, src: Key, mint: Key, feeAccount: Key, maker: Key, taker: Key,
      want: nat, creators: seq<Key>)
    requires Payable(bill, creators)
    ensures forall m :: m in FeeMoves(c, src, mint, feeAccount, taker, want) ==>
        m in RoyaltyMoves(c, bill, src, mint, feeAccount, maker, taker, want, creators)
    ensures Bps(want, c.feeBps) > 0 ==>
        FeeMoves(c, src, mint, feeAccount, taker, want) == [Move(src, mint, feeAccount, taker, Bps(want, c.feeBps))]
  {
    hide Bps, Splits;
  }

  lemma Follows(e: Env, w: World, moves: seq<Move>, t: Charge, d: seq<byte>, c: Config, m: Move)
    requires Sets(d, c) && FeeRouted(e, w, c, t.mint, t.account, t.price, t.seed)
    requires Bps(t.price, c.feeBps) == t.price * c.feeBps / BPS_DENOM
    requires Bps(t.price, c.feeBps) > 0 ==>
        m in moves && m.mint == t.mint && m.dst == t.account && m.amount == Bps(t.price, c.feeBps)
    ensures FollowsPolicy(e, w, moves, t, d)
  {
    hide Bps, IsTokenAccount, Find;
  }

  /** A fee transfer among the payments is among the step's transfers. */
  lemma FeeIsLogged(w: World, v: World, paid: seq<Move>, last: seq<Move>, fee: seq<Move>, m: Move, due: nat)
    requires v.log == w.log + paid + last && (forall k :: k in fee ==> k in paid) && (due > 0 ==> fee == [m])
    ensures |w.log| <= |v.log| && (due > 0 ==> m in MovesBetween(w, v))
  {
    assert v.log[|w.log|..] == paid + last;
    if due > 0 {
      assert m in fee;
    }
  }

  /** The fee transfer of an accepted settlement: from whom, under whose authority. */
  lemma FeeIsSkimmed(e: Env, w: World, tag: byte, x: Ix) returns (t: Charge, c: Config, m: Move)
    requires tag in {1, 5, 27, 38, 41} && Step(e, w, tag, x).Ok?
    ensures Charges(w, tag, x, t) && ReadConfig(e, w, t.config) == Ok(c) && t.price < U64
        && FeeRouted(e, w, c, t.mint, t.account, t.price, t.seed)
    ensures |w.log| <= |Step(e, w, tag, x).value.log|
    ensures m.mint == t.mint && m.dst == t.account && m.amount == Bps(t.price, c.feeBps)
    ensures Bps(t.price, c.feeBps) > 0 ==> m in MovesBetween(w, Step(e, w, tag, x).value)
  {
    hide Step, Swaps.Fill, Offers.AcceptOffer, Listings.FillListing, Orders.SettleSignedOrder, Orders.SettleSignedBid,
        ReadSwap, ReadOffer, ReadConfig, FeeRouted, PriceMoves, RoyaltyMoves, FeeMoves, Bill, Bps, Payable,
        IsTokenAccount, Exec, U64At, Orders.ProvesSignature, Find;
    var a, v := x.accounts, Step(e, w, tag, x).value;
    SwapPlans(e, w, x);
    SalePlans(e, w, x);
    if tag == 1 {
      var s, d := FillRoutesItsFee(e, w, x);
      s, c := FillSettles(e, w, x);
      t := Charge(a[10], s.wantMint, a[11], s.wantAmount, x.data[0]);
      m := Move(a[6], t.mint, t.account, a[0], Bps(t.price, c.feeBps));
      PriceSkims(c, a[6], t.mint, t.account, a[8], a[0], t.price);
      FeeIsLogged(w, v, PriceMoves(c, a[6], t.mint, t.account, a[8], a[0], t.price),
          [Move(a[2], s.giveMint, a[7], a[1], s.giveAmount)],
          FeeMoves(c, a[6], t.mint, t.account, a[0], t.price), m, Bps(t.price, c.feeBps));
    } else if tag == 5 {
      var o, d := AcceptRoutesItsFee(e, w, x);
      var s;
      s, o, c := AcceptSettles(e, w, x);
      t := Charge(a[11], o.wantMint, a[12], o.wantAmount, x.data[0]);
      m := Move(a[4], t.mint, t.account, a[3], Bps(t.price, c.feeBps));
      PriceSkims(c, a[4], t.mint, t.account, a[9], a[3], t.price);
      FeeIsLogged(w, v, PriceMoves(c, a[4], t.mint, t.account, a[9], a[3], t.price),
          [Move(a[2], o.giveMint, a[8], a[1], o.giveAmount)],
          FeeMoves(c, a[4], t.mint, t.account, a[3], t.price), m, Bps(t.price, c.feeBps));
    } else if tag == 27 {
      var s, d := ListingRoutesItsFee(e, w, x);
      var bill, creators;
      s, c, bill, creators := ListingSaleIsPaid(e, w, x);
      t := Charge(a[10], s.wantMint, a[11], s.wantAmount, x.data[0]);
      m := Move(a[7], t.mint, t.account, a[0], Bps(t.price, c.feeBps));
      RoyaltySkims(c, bill, a[7], t.mint, t.account, a[8], a[0], t.price, creators);
      FeeIsLogged(w, v, RoyaltyMoves(c, bill, a[7], t.mint, t.account, a[8], a[0], t.price, creators),
          [Move(a[5], s.giveMint, a[6], a[1], s.giveAmount)],
          FeeMoves(c, a[7], t.mint, t.account, a[0], t.price), m, Bps(t.price, c.feeBps));
    } else if tag == 38 {
      var d := OrderRoutesItsFee(e, w, x);
      var deal, bill, creators;
      deal, c, bill, creators := OrderSaleIsPaid(e, w, x);
      t := Charge(a[11], a[3], a[12], U64At(x.data, 8), x.data[56]);
      m := Move(a[6], t.mint, t.account, a[0], Bps(t.price, c.feeBps));
      RoyaltySkims(c, bill, a[6], t.mint, t.account, a[7], a[0], t.price, creators);
      FeeIsLogged(w, v, RoyaltyMoves(c, bill, a[6], t.mint, t.account, a[7], a[0], t.price, creators),
          [Move(a[4], deal.giveMint, a[5], a[8], deal.giveAmount)],
          FeeMoves(c, a[6], t.mint, t.account, a[0], t.price), m, Bps(t.price, c.feeBps));
    } else {
      var d := BidRoutesItsFee(e, w, x);
      var deal;
      deal, c := BidSaleIsDelivered(e, w, x);
      t := Charge(a[7], a[2], a[8], U64At(x.data, 0), x.data[56]);
      m := Move(a[4], t.mint, t.account, a[9], Bps(t.price, c.feeBps));
      PriceSkims(c, a[4], t.mint, t.account, a[5], a[9], t.price);
      FeeIsLogged(w, v, PriceMoves(c, a[4], t.mint, t.account, a[5], a[9], t.price),
          [Move(a[13], deal.wantMint, a[14], a[0], 1)],
          FeeMoves(c, a[4], t.mint, t.account, a[9], t.price), m, Bps(t.price, c.feeBps));
    }
  }

  /** In every run every fee of a fill, an accepted bid, a listing sale, a signed order or a signed bid is charged at
      the rate of the last accepted policy, and lands in an account of that policy's wallet or in the vault of the shard
      that policy picks. */
  lemma FeesFollowTheLatestPolicy(e: Env, r: Trace, n: nat, tag: byte, x: Ix) returns (t: Charge)
    requires IsRun(e, r) && n < |r.labels| && r.labels[n] == Call(tag, x) && tag in {1, 5, 27, 38, 41}
    ensures |r.states[n].log| <= |r.states[n + 1].log| && Charges(r.states[n], tag, x, t)
    ensures LatestPolicy(r.labels[..n]).Some? && |LatestPolicy(r.labels[..n]).value| == 75
        && FollowsPolicy(e, r.states[n], MovesBetween(r.states[n], r.states[n + 1]), t,
             LatestPolicy(r.labels[..n]).value)
  {
    hide Step, Inv, ValidIx, ValidEnv, RecordEffect, ReadConfig, Charges, FeeRouted, Bps, FollowsPolicy, LatestPolicy,
        MovesBetween;
    var w, c, m := r.states[n], *, *;
    StepAt(e, r, n);
    t, c, m := FeeIsSkimmed(e, w, tag, x);
    PolicyIsTheLatest(e, r, n, t.config);
    ConfigRateFits(e, w, t.config, c, t.price);
    Follows(e, w, MovesBetween(w, r.states[n + 1]), t, LatestPolicy(r.labels[..n]).value, c, m);
  }

  // ---- baskets ----

  /** The charge of want leg j. */
  function LegCharge(x: Ix, b: seq<byte>, j: nat): Charge
    requires |b| == BASKET_LEN && ReadBasket(b).wantCount <= MAX_LEG && j < ReadBasket(b).wantCount && |x.data| > 0
    requires |x.accounts| == 5 + ReadBasket(b).giveCount * 3 + ReadBasket(b).wantCount * 4
  {
    var at := 5 + ReadBasket(b).giveCount * 3 + j * 4;
    Charge(x.accounts[4], WantEntry(b, j).mint, x.accounts[at + 3], WantEntry(b, j).amount, x.data[0])
  }

  lemma {:induction false} LegFeeIsPaid(x: Ix, c: Config, b: seq<byte>, i: nat, j: nat)
    requires |b| == BASKET_LEN && ReadBasket(b).wantCount <= MAX_LEG && i <= j < ReadBasket(b).wantCount
    requires |x.accounts| == 5 + ReadBasket(b).giveCount * 3 + ReadBasket(b).wantCount * 4 && |x.data| > 0
    requires Bps(LegCharge(x, b, j).price, c.feeBps) > 0
    ensures var t := LegCharge(x, b, j);
            Move(x.accounts[5 + ReadBasket(b).giveCount * 3 + j * 4 + 1], t.mint, t.account, x.accounts[0],
                Bps(t.price, c.feeBps)) in PayMoves(x, c, b, i)
    decreases j - i
  {
    hide ReadBasket, WantEntry, Bps;
    if i < j {
      LegFeeIsPaid(x, c, b, i + 1, j);
    }
  }

  /** The same for every want leg of a basket. */
  lemma BasketFeesFollowTheLatestPolicy(e: Env, r: Trace, n: nat, x: Ix, j: nat) returns (b: seq<byte>)
    requires IsRun(e, r) && n < |r.labels| && r.labels[n] == Call(13, x)
    ensures |x.data| == 32 && |x.accounts| > 4 && x.accounts[1] in r.states[n].records
        && b == r.states[n].records[x.accounts[1]] && |b| == BASKET_LEN && ReadBasket(b).wantCount <= MAX_LEG
        && |x.accounts| == 5 + ReadBasket(b).giveCount * 3 + ReadBasket(b).wantCount * 4
    ensures |r.states[n].log| <= |r.states[n + 1].log|
    ensures LatestPolicy(r.labels[..n]).Some? && |LatestPolicy(r.labels[..n]).value| == 75
    ensures j < ReadBasket(b).wantCount ==> FollowsPolicy(e, r.states[n], MovesBetween(r.states[n], r.states[n + 1]),
        LegCharge(x, b, j), LatestPolicy(r.labels[..n]).value)
  {
    hide Step, Inv, ValidIx, ValidEnv, RecordEffect, ReadConfig, FeeRouted, Bps, FollowsPolicy, LatestPolicy,
        ReadBasket, WantEntry, Baskets.FillBasket, PaysMaker, PayMoves, UnlockMoves, Exec;
    var w, v := r.states[n], r.states[n + 1];
    StepAt(e, r, n);
    BasketPlans(e, w, x);
    var h, c := BasketFillSettles(e, w, x);
    var k, d := BasketRoutesItsFees(e, w, x);
    b := w.records[x.accounts[1]];
    PolicyIsTheLatest(e, r, n, x.accounts[4]);
    var paid, released := PayMoves(x, c, b, 0), UnlockMoves(e, x, b, x.data, 5, x.accounts[1], 0);
    assert v.log[|w.log|..] == paid + released;
    if j < ReadBasket(b).wantCount {
      var t := LegCharge(x, b, j);
      assert LegFeeRouted(e, w, x, c, b, x.data, j);
      ConfigRateFits(e, w, t.config, c, t.price);
      if Bps(t.price, c.feeBps) > 0 {
        LegFeeIsPaid(x, c, b, 0, j);
      }
      Follows(e, w, MovesBetween(w, v), t, LatestPolicy(r.labels[..n]).value, c,
          Move(x.accounts[5 + ReadBasket(b).giveCount * 3 + j * 4 + 1], t.mint, t.account, x.accounts[0],
              Bps(t.price, c.feeBps)));
    }
  }
}
