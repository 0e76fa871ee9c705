/** The royalty of a sale in terms of the asset's own metadata: when it can be paid, who is paid what, and who funds
    it. */
module RoyaltyPayout {
  import opened Prelude
  import opened Bytes
  import opened Layout
  import opened Ledger
  import opened FeeConfig
  import opened Royalty
  import opened Payments
  import opened Machine
  import opened Shapes
  import opened RoyaltySettlement
  import opened Carry
  import opened Admission

  // ---- what the metadata asks ----

  function ShareSum(cs: seq<Creator>): nat {
    if cs == [] then 0 else cs[0].share + ShareSum(cs[1..])
  }

  /** Genuine metadata with a positive rate and creators whose shares are 100 in all. */
  predicate AsksRoyalty(m: MetadataAccount) {
    && m.Genuine? && Parse(m.data).Some?
    && var t := Parse(m.data).value.0;
       t.bps > 0 && t.creators.Some? && t.creators.value != [] && ShareSum(t.creators.value) == 100
  }

  function CreatorsOf(m: MetadataAccount): seq<Creator>
    requires AsksRoyalty(m)
  {
    Parse(m.data).value.0.creators.value
  }

  /** A rate in ten-thousandths on a price, rounded down. */
  function AtRate(price: nat, bps: nat): nat { price * bps / 10_000 }

  /** The rate of the metadata on the price. */
  function RoyaltyOf(m: MetadataAccount, price: nat): nat
    requires AsksRoyalty(m)
  {
    AtRate(price, Parse(m.data).value.0.bps)
  }

  /** The maker's part: all of it in mode 1, none in mode 2, a percentage in mode 3. */
  function MakerPart(mode: byte, pct: byte, royalty: nat): nat {
    if mode == 1 then royalty else if mode == 3 then royalty * pct / 100 else 0
  }

  /** Whatever the mode asks is there: metadata that asks a royalty, and an account of every creator. */
  predicate RoyaltyShown(w: World, mint: Key, mode: byte, pct: byte, m: MetadataAccount, accounts: seq<Key>) {
    mode == 0 ||
    (&& (mode == 1 || mode == 2 || (mode == 3 && pct <= 100))
     && AsksRoyalty(m) && |accounts| == |CreatorsOf(m)|
     && forall i :: 0 <= i < |accounts| ==> HoldsToken(w, accounts[i], mint, CreatorsOf(m)[i].address))
  }

  function FullRoyalty(mode: byte, m: MetadataAccount, price: nat): nat
    requires mode == 0 || AsksRoyalty(m)
  {
    if mode == 0 then 0 else RoyaltyOf(m, price)
  }

  /** The price, the fee and both parts of the royalty fit: the maker can fund their part, the taker's cap holds. */
  predicate RoyaltyFits(policy: seq<byte>, price: nat, cap: nat, mode: byte, pct: byte, m: MetadataAccount)
    requires |policy| == 108 && (mode == 0 || AsksRoyalty(m))
  {
    var royalty := FullRoyalty(mode, m, price);
    && FeeOf(policy, price) + MakerPart(mode, pct, royalty) <= price
    && price + royalty - MakerPart(mode, pct, royalty) <= cap
  }

  // ---- who is paid what ----

  /** Every creator but the last gets their share rounded down, and together they get the whole. */
  predicate SharedOut(royalty: nat, cs: seq<Creator>, payouts: seq<nat>) {
    && |payouts| == |cs| && Sum(payouts) == royalty
    && forall i :: 0 <= i < |cs| - 1 ==> payouts[i] == royalty * cs[i].share / 100
  }

  /** That says it all: there is one way to share out a royalty. */
  lemma OneWayToShare(royalty: nat, cs: seq<Creator>, p: seq<nat>, q: seq<nat>)
    requires SharedOut(royalty, cs, p) && SharedOut(royalty, cs, q)
    ensures p == q
  {
    if cs != [] {
      var n := |cs| - 1;
      assert p[..n] == q[..n];
      assert p == p[..n] + [p[n]] && q == q[..n] + [q[n]];
      SumSplit(p[..n], [p[n]]);
      SumSplit(q[..n], [q[n]]);
      OneSum(p[n]);
      OneSum(q[n]);
    }
  }

  lemma {:induction false} SharesAdd(cs: seq<Creator>)
    ensures PercentSum(Percentages(SharesOf(cs))) == ShareSum(cs)
  {
    if cs != [] {
      SharesAdd(cs[1..]);
      assert Percentages(SharesOf(cs))[1..] == Percentages(SharesOf(cs[1..]));
    }
  }

  function Payouts(royalty: nat, cs: seq<Creator>): (r: seq<nat>)
    requires cs != [] && ShareSum(cs) == 100
    ensures SharedOut(royalty, cs, r)
  {
    SharesAdd(cs);
    SplitsAreExact(royalty, Percentages(SharesOf(cs)));
    Splits(royalty, Percentages(SharesOf(cs)))
  }

  /** One request for every positive payout. */
  function PayoutTouches(src: Key, mint: Key, auth: Key, payouts: seq<nat>, accounts: seq<Key>): seq<Touch>
    requires |payouts| == |accounts|
  {
    if payouts == [] then [] else
    (if payouts[0] == 0 then [] else [Pay(src, mint, accounts[0], auth, payouts[0])])
    + PayoutTouches(src, mint, auth, payouts[1..], accounts[1..])
  }

  /** The fee, the maker's payment, and the payouts. */
  function RoyaltyTouches(policy: seq<byte>, src: Key, mint: Key, feeAccount: Key, maker: Key, taker: Key, price: nat,
      mode: byte, pct: byte, m: MetadataAccount, accounts: seq<Key>): seq<Touch>
    requires |policy| == 108 && (mode == 0 || (AsksRoyalty(m) && |accounts| == |CreatorsOf(m)|))
  {
    var royalty := FullRoyalty(mode, m, price);
    (if FeeOf(policy, price) == 0 then [] else [Pay(src, mint, feeAccount, taker, FeeOf(policy, price))])
    + [Pay(src, mint, maker, taker, Minus(price, FeeOf(policy, price) + MakerPart(mode, pct, royalty)))]
    + if mode == 0 then [] else PayoutTouches(src, mint, taker, Payouts(royalty, CreatorsOf(m)), accounts)
  }

  // ---- the payment builder ----

  /** The bill of a royalty is the metadata's: it can be drawn up exactly when the metadata asks one. */
  lemma BillMeans(m: MetadataAccount, mode: byte, pct: byte, price: nat)
    requires mode != 0 && price < U64
    ensures Bill(Some(m), mode, pct, price).Ok? <==>
            (mode == 1 || mode == 2 || (mode == 3 && pct <= 100)) && AsksRoyalty(m)
    ensures Bill(Some(m), mode, pct, price).Ok? ==>
            var bill := Bill(Some(m), mode, pct, price).value;
            && bill.royalty == RoyaltyOf(m, price) && bill.makerShare == MakerPart(mode, pct, bill.royalty)
            && bill.shares == SharesOf(CreatorsOf(m))
  {
    hide Parse, Bps, PercentSum;
    if m.Genuine? && Parse(m.data).Some? {
      var t := Parse(m.data).value.0;
      ParseExact(m.data);
      BpsFits(price, t.bps);
      if t.creators.Some? {
        SharesAdd(t.creators.value);
      }
      if mode == 3 && pct <= 100 {
        PercentOf(Bps(price, t.bps), pct);
      }
    }
  }

  lemma NoBill(pct: byte, price: nat)
    ensures Bill(None, 0, pct, price) == Ok(NO_ROYALTY)
  {
  }

  lemma CreatorsMatchMeans(w: World, mint: Key, cs: seq<Creator>, accounts: seq<Key>)
    requires |accounts| == |cs|
    ensures CreatorsMatch(w, mint, SharesOf(cs), accounts) <==>
            forall i :: 0 <= i < |accounts| ==> HoldsToken(w, accounts[i], mint, cs[i].address)
  {
    forall i | 0 <= i < |accounts|
      ensures IsTokenAccount(w, accounts[i], mint, SharesOf(cs)[i].creator) <==>
              HoldsToken(w, accounts[i], mint, cs[i].address)
    {
      TokenAccountMeans(w, accounts[i], mint, cs[i].address);
    }
  }

  /** The royalty payment is planned exactly when the policy can be read, what the mode asks is there, and it fits. */
  lemma RoyaltyPlanned(e: Env, w: World, config: Key, src: Key, mint: Key, feeAccount: Key, maker: Key, taker: Key,
      price: nat, cap: nat, seed: byte, mode: byte, pct: byte, m: MetadataAccount, accounts: seq<Key>)
    requires Inv(e, w) && price < U64 && cap < U64
    ensures RoyaltyOps(e, w, config, src, mint, feeAccount, maker, taker, price, cap, seed, mode, pct,
                if mode == 0 then None else Some(m), accounts).Ok? <==>
            && IsConfig(e, w, config) && RoyaltyShown(w, mint, mode, pct, m, accounts)
            && RoyaltyFits(w.records[config], price, cap, mode, pct, m)
  {
    hide Inv, ReadConfig, At, Bill, Bps, AsksRoyalty, CreatorsOf, RoyaltyOf, HoldsToken, FeeLeg, RoyaltyLeg,
        FeeOf, ReadConfigRecord, CreatorsMatch;
    ConfigReads(e, w, config);
    if IsConfig(e, w, config) {
      FeeInNumbers(e, w, config, price);
      if mode == 0 {
        NoBill(pct, price);
      } else {
        BillMeans(m, mode, pct, price);
        if AsksRoyalty(m) && |accounts| == |CreatorsOf(m)| {
          CreatorsMatchMeans(w, mint, CreatorsOf(m), accounts);
        }
        if Bill(Some(m), mode, pct, price).Ok? {
          var bill := Bill(Some(m), mode, pct, price).value;
          MakerShareFits(Some(m), mode, pct, price, bill);
        }
      }
    }
  }

  lemma {:induction false} CreatorsAsk(e: Env, signers: set<Key>, r: map<Key, seq<byte>>, src: Key, mint: Key,
      auth: Authority, payouts: seq<nat>, accounts: seq<Key>)
    requires |payouts| == |accounts| && Signed(e, signers, auth)
    ensures var ops := CreatorOps(src, mint, auth, payouts, accounts);
            && (forall op :: op in ops ==> !op.NewRecord?) && AllSound(e, signers, r, ops)
            && Touches(ops) == PayoutTouches(src, mint, auth.key, payouts, accounts)
  {
    hide Signed, AllSound, Touches;
    if payouts == [] {
      Nil(e, signers, r);
    } else {
      CreatorsAsk(e, signers, r, src, mint, auth, payouts[1..], accounts[1..]);
      if payouts[0] > 0 {
        Cons(e, signers, r, Transfer(src, mint, accounts[0], auth, payouts[0]),
            CreatorOps(src, mint, auth, payouts[1..], accounts[1..]));
      } else {
        assert [] + CreatorOps(src, mint, auth, payouts[1..], accounts[1..])
            == CreatorOps(src, mint, auth, payouts[1..], accounts[1..]);
      }
    }
  }

  lemma {:induction false} NothingToShare(src: Key, mint: Key, auth: Key, payouts: seq<nat>, accounts: seq<Key>)
    requires |payouts| == |accounts| && Sum(payouts) == 0
    ensures PayoutTouches(src, mint, auth, payouts, accounts) == []
  {
    if payouts != [] {
      NothingToShare(src, mint, auth, payouts[1..], accounts[1..]);
    }
  }

  /** The splits the settle computes share out the royalty. */
  lemma SplitsShareOut(royalty: nat, cs: seq<Creator>)
    requires cs != [] && ShareSum(cs) == 100
    ensures PercentSum(Percentages(SharesOf(cs))) == 100
    ensures Splits(royalty, Percentages(SharesOf(cs))) == Payouts(royalty, cs)
  {
    SharesAdd(cs);
  }

  lemma LegAsks(e: Env, signers: set<Key>, r: map<Key, seq<byte>>, src: Key, mint: Key, auth: Authority,
      bill: RoyaltyBill, cs: seq<Creator>, accounts: seq<Key>)
    requires cs != [] && ShareSum(cs) == 100 && bill.shares == SharesOf(cs) && |accounts| == |cs|
    requires Payable(bill, accounts) && Signed(e, signers, auth)
    ensures var ops := RoyaltyLeg(src, mint, auth, bill, accounts);
            && (forall op :: op in ops ==> !op.NewRecord?) && AllSound(e, signers, r, ops)
            && Touches(ops) == PayoutTouches(src, mint, auth.key, Payouts(bill.royalty, cs), accounts)
  {
    hide Signed, AllSound, Touches, Splits, PercentSum, Payouts, PayoutTouches;
    SplitsShareOut(bill.royalty, cs);
    if bill.royalty == 0 {
      Nil(e, signers, r);
      NothingToShare(src, mint, auth.key, Payouts(0, cs), accounts);
    } else {
      CreatorsAsk(e, signers, r, src, mint, auth, Splits(bill.royalty, Percentages(bill.shares)), accounts);
    }
  }

  lemma NoLeg(src: Key, mint: Key, auth: Authority, accounts: seq<Key>)
    ensures RoyaltyLeg(src, mint, auth, NO_ROYALTY, accounts) == []
  {
  }

  lemma CreatorsAre(m: MetadataAccount)
    requires AsksRoyalty(m)
    ensures CreatorsOf(m) != [] && ShareSum(CreatorsOf(m)) == 100
  {
    hide Parse, ShareSum;
  }

  /** The royalty payment is sound when a positive fee goes where the policy says; it asks for the fee, the maker's
      payment and the payouts. */
  lemma RoyaltyAsks(e: Env, signers: set<Key>, r: map<Key, seq<byte>>, w: World, config: Key, src: Key, mint: Key,
      feeAccount: Key, maker: Key, taker: Key, price: nat, cap: nat, seed: byte, mode: byte, pct: byte,
      m: MetadataAccount, accounts: seq<Key>)
    requires Inv(e, w) && price < U64 && cap < U64 && taker in signers
    requires RoyaltyOps(e, w, config, src, mint, feeAccount, maker, taker, price, cap, seed, mode, pct,
        if mode == 0 then None else Some(m), accounts).Ok?
    ensures IsConfig(e, w, config) && (mode == 0 || (AsksRoyalty(m) && |accounts| == |CreatorsOf(m)|))
    ensures var ops := RoyaltyOps(e, w, config, src, mint, feeAccount, maker, taker, price, cap, seed, mode, pct,
                if mode == 0 then None else Some(m), accounts).value;
            && (forall op :: op in ops ==> !op.NewRecord?)
            && (AllSound(e, signers, r, ops) <==> (FeeOf(w.records[config], price) > 0 ==>
                  FeeGoes(e, w, w.records[config], feeAccount, mint, seed)))
            && Touches(ops) == RoyaltyTouches(w.records[config], src, mint, feeAccount, maker, taker, price, mode, pct,
                   m, accounts)
  {
    hide Inv, ReadConfig, At, Bill, Bps, AsksRoyalty, CreatorsOf, RoyaltyOf, HoldsToken, FeeLeg, FeeOf, FeeGoes,
        ReadConfigRecord, CreatorsMatch, RoyaltyOps, RoyaltyLeg, AllSound, Touches, Payouts, PayoutTouches, ShareSum,
        PercentSum;
    RoyaltyPlanned(e, w, config, src, mint, feeAccount, maker, taker, price, cap, seed, mode, pct, m, accounts);
    ConfigReads(e, w, config);
    FeeInNumbers(e, w, config, price);
    var c, bill := RoyaltyShape(e, w, config, src, mint, feeAccount, maker, taker, price, cap, seed, mode, pct,
        if mode == 0 then None else Some(m), accounts);
    var policy, auth := w.records[config], Signer(taker);
    var fee := FeeLeg(e, w, c, src, mint, feeAccount, auth, price, seed);
    var pay, leg := Transfer(src, mint, maker, auth, price - Bps(price, c.feeBps) - bill.makerShare),
        RoyaltyLeg(src, mint, auth, bill, accounts);
    FeeLegAsks(e, signers, r, w, policy, src, mint, feeAccount, auth, price, seed);
    if mode == 0 {
      NoBill(pct, price);
      NoLeg(src, mint, auth, accounts);
      Nil(e, signers, r);
    } else {
      BillMeans(m, mode, pct, price);
      CreatorsAre(m);
      LegAsks(e, signers, r, src, mint, auth, bill, CreatorsOf(m), accounts);
    }
    BothSound(e, signers, r, fee + [pay], leg);
    BothSound(e, signers, r, fee, [pay] + []);
    TouchesSplit(fee + [pay], leg);
    TouchesSplit(fee, [pay]);
    OneTouch(pay);
    Cons(e, signers, r, pay, []);
    Nil(e, signers, r);
    assert [pay] + [] == [pay];
  }

  // ---- what is paid ----

  lemma {:induction false} PayoutsAddUp(src: Key, mint: Key, auth: Key, payouts: seq<nat>, accounts: seq<Key>)
    requires |payouts| == |accounts|
    ensures var moves := Paid(PayoutTouches(src, mint, auth, payouts, accounts));
            Total(moves) == Sum(payouts) && forall m :: m in moves ==> m.src == src && m.mint == mint && m.auth == auth
  {
    if payouts != [] {
      PayoutsAddUp(src, mint, auth, payouts[1..], accounts[1..]);
      if payouts[0] > 0 {
        var pay := Pay(src, mint, accounts[0], auth, payouts[0]);
        PaidSplit([pay], PayoutTouches(src, mint, auth, payouts[1..], accounts[1..]));
        OnePaid(pay);
        TotalSplit(Paid([pay]), Paid(PayoutTouches(src, mint, auth, payouts[1..], accounts[1..])));
        OneTotal(Move(src, mint, accounts[0], auth, payouts[0]));
      } else {
        assert [] + PayoutTouches(src, mint, auth, payouts[1..], accounts[1..])
            == PayoutTouches(src, mint, auth, payouts[1..], accounts[1..]);
      }
    }
  }

  /** The transfers of a sale with royalty: the fee, the maker's payment, and payouts that share out the royalty of the
      metadata among its creators; the taker pays the price and what of the royalty the maker does not fund. */
  ghost predicate PaysRoyalty(moves: seq<Move>, policy: seq<byte>, src: Key, mint: Key, feeAccount: Key, maker: Key,
      taker: Key, price: nat, mode: byte, pct: byte, m: MetadataAccount, accounts: seq<Key>, payouts: seq<nat>)
    requires |policy| == 108 && AsksRoyalty(m) && |accounts| == |payouts|
  {
    var fee, royalty := FeeOf(policy, price), RoyaltyOf(m, price);
    var shared := Paid(PayoutTouches(src, mint, taker, payouts, accounts));
    && SharedOut(royalty, CreatorsOf(m), payouts)
    && fee + MakerPart(mode, pct, royalty) <= price
    && moves == (if fee == 0 then [] else [Move(src, mint, feeAccount, taker, fee)])
           + [Move(src, mint, maker, taker, price - fee - MakerPart(mode, pct, royalty))] + shared
    && Total(shared) == royalty && Total(moves) == price + royalty - MakerPart(mode, pct, royalty)
    && forall t :: t in moves ==> t.src == src && t.mint == mint && t.auth == taker
  }

  lemma NonePaid()
    ensures Paid([]) == [] && Total([]) == 0
  {
  }

  lemma RoyaltyIsPaid(policy: seq<byte>, src: Key, mint: Key, feeAccount: Key, maker: Key, taker: Key, price: nat,
      cap: nat, mode: byte, pct: byte, m: MetadataAccount, accounts: seq<Key>)
    requires |policy| == 108 && mode != 0 && AsksRoyalty(m) && |accounts| == |CreatorsOf(m)|
    requires RoyaltyFits(policy, price, cap, mode, pct, m)
    ensures CreatorsOf(m) != [] && ShareSum(CreatorsOf(m)) == 100
    ensures PaysRoyalty(
        Paid(RoyaltyTouches(policy, src, mint, feeAccount, maker, taker, price, mode, pct, m, accounts)), policy, src,
        mint, feeAccount, maker, taker, price, mode, pct, m, accounts,
        Payouts(RoyaltyOf(m, price), CreatorsOf(m)))
  {
    hide AsksRoyalty, CreatorsOf, RoyaltyOf, FeeOf, Payouts, ShareSum, PayoutTouches, Paid, Total, Sum;
    CreatorsAre(m);
    var fee, royalty := FeeOf(policy, price), RoyaltyOf(m, price);
    var payouts := Payouts(royalty, CreatorsOf(m));
    var due := Minus(price, fee + MakerPart(mode, pct, royalty));
    var skim := if fee == 0 then [] else [Pay(src, mint, feeAccount, taker, fee)];
    var pay := Pay(src, mint, maker, taker, due);
    var shares := PayoutTouches(src, mint, taker, payouts, accounts);
    PayoutsAddUp(src, mint, taker, payouts, accounts);
    PaidSplit(skim + [pay], shares);
    PaidSplit(skim, [pay]);
    OnePaid(pay);
    OneTotal(Move(src, mint, maker, taker, due));
    if fee > 0 {
      OnePaid(skim[0]);
      OneTotal(Move(src, mint, feeAccount, taker, fee));
    } else {
      NonePaid();
    }
    TotalSplit(Paid(skim) + Paid([pay]), Paid(shares));
    TotalSplit(Paid(skim), Paid([pay]));
  }
}
