/** The conditions several instructions are admitted under, in terms of record bytes and accounts: the config, the
    fee destination, the alias gate, the delist gate, and what the payment of a price asks. */
module Admission {
  import opened Prelude
  import opened Bytes
  import opened Seeds
  import opened Layout
  import opened Ledger
  import opened FeeConfig
  import opened Royalty
  import opened Payments
  import opened Machine
  import opened RoyaltySettlement
  import opened Carry
  import Swaps

  /** The key is the canonical address of the seed. */
  predicate At(e: Env, s: Seed, k: Key) {
    Find(e.derive, s).Ok? && k == Address(e.derive, s)
  }

  /** The key holds the fee policy. */
  predicate IsConfig(e: Env, w: World, k: Key) {
    k in w.records && |w.records[k]| == 108 && At(e, ConfigSeed, k)
  }

  /** The fee of a price under the policy bytes: the rate at offset 64, in ten-thousandths, rounded down. */
  function FeeOf(policy: seq<byte>, price: nat): nat
    requires |policy| == 108
  {
    price * U16At(policy, 64) / 10_000
  }

  /** A fee goes to an account of the wallet at offset 32 when the shard count at offset 106 is zero, and otherwise to
      the vault of shard seed modulo that count. */
  predicate FeeGoes(e: Env, w: World, policy: seq<byte>, account: Key, mint: Key, seed: byte)
    requires |policy| == 108
  {
    if policy[106] == 0 then
      account in w.tokens && w.tokens[account].mint == mint && w.tokens[account].owner == KeyAt(policy, 32)
    else At(e, FeeVaultSeed(mint, seed % policy[106]), account)
  }

  /** The alias program at offset 74 is unset, or the caller showed an alias of theirs. */
  predicate AliasShown(e: Env, w: World, x: Ix, k: Key) {
    IsConfig(e, w, k) && (KeyAt(w.records[k], 74) == ZERO || x.aliasOk)
  }

  /** The delist fee at offset 66 is zero, or its destination is the wallet at offset 32. */
  predicate DelistPaid(e: Env, w: World, k: Key, wallet: Key) {
    IsConfig(e, w, k) && (U64At(w.records[k], 66) == 0 || wallet == KeyAt(w.records[k], 32))
  }

  predicate HoldsToken(w: World, k: Key, mint: Key, owner: Key) {
    k in w.tokens && w.tokens[k].mint == mint && w.tokens[k].owner == owner
  }

  lemma ConfigReads(e: Env, w: World, k: Key)
    ensures ReadConfig(e, w, k).Ok? <==> IsConfig(e, w, k)
    ensures ReadConfig(e, w, k).Ok? ==> ReadConfig(e, w, k).value == ReadConfigRecord(w.records[k])
  {
  }

  lemma AliasGateMeans(e: Env, w: World, x: Ix, k: Key)
    ensures RequireAlias(e, w, x, k) == Gate.Open <==> AliasShown(e, w, x, k)
  {
    hide Find;
    ConfigReads(e, w, k);
  }

  lemma DelistGateMeans(e: Env, w: World, k: Key, wallet: Key)
    ensures Swaps.DelistGate(e, w, k, wallet) == Gate.Open <==> DelistPaid(e, w, k, wallet)
  {
    hide Find;
    ConfigReads(e, w, k);
  }

  lemma TokenAccountMeans(w: World, k: Key, mint: Key, owner: Key)
    ensures IsTokenAccount(w, k, mint, owner) <==> HoldsToken(w, k, mint, owner)
  {
  }

  lemma FeeGoesMeans(e: Env, w: World, b: seq<byte>, account: Key, mint: Key, seed: byte)
    requires |b| == CONFIG_LEN
    ensures IsFeeDestination(e, w, account, mint, ReadConfigRecord(b), seed) <==> FeeGoes(e, w, b, account, mint, seed)
  {
  }

  // ---- the payment of a price ----

  /** The fee, if there is one, and the rest of the price. */
  function PriceTouches(policy: seq<byte>, src: Key, mint: Key, feeAccount: Key, payee: Key, auth: Key,
      price: nat): seq<Touch>
    requires |policy| == 108
  {
    (if FeeOf(policy, price) == 0 then [] else [Pay(src, mint, feeAccount, auth, FeeOf(policy, price))])
    + [Pay(src, mint, payee, auth, Minus(price, FeeOf(policy, price)))]
  }

  lemma FeeInNumbers(e: Env, w: World, k: Key, price: nat)
    requires Inv(e, w) && IsConfig(e, w, k) && price < U64
    ensures Bps(price, ReadConfigRecord(w.records[k]).feeBps) == FeeOf(w.records[k], price) <= price
  {
    hide Inv, Find;
    ConfigReads(e, w, k);
    ConfigRateFits(e, w, k, ReadConfigRecord(w.records[k]), price);
  }

  lemma FeeLegAsks(e: Env, signers: set<Key>, r: map<Key, seq<byte>>, w: World, policy: seq<byte>, src: Key, mint: Key,
      feeAccount: Key, auth: Authority, price: nat, seed: byte)
    requires |policy| == CONFIG_LEN && Signed(e, signers, auth)
    requires Bps(price, ReadConfigRecord(policy).feeBps) == FeeOf(policy, price)
    ensures var ops := FeeLeg(e, w, ReadConfigRecord(policy), src, mint, feeAccount, auth, price, seed);
            && (forall op :: op in ops ==> !op.NewRecord?)
            && (AllSound(e, signers, r, ops) <==>
                  (FeeOf(policy, price) > 0 ==> FeeGoes(e, w, policy, feeAccount, mint, seed)))
            && Touches(ops) == (if FeeOf(policy, price) == 0 then []
                                else [Pay(src, mint, feeAccount, auth.key, FeeOf(policy, price))])
  {
    hide IsFeeDestination, FeeGoes, ReadConfigRecord, Signed, Bps, FeeOf;
    FeeGoesMeans(e, w, policy, feeAccount, mint, seed);
    if FeeOf(policy, price) > 0 {
      var leg := FeeLeg(e, w, ReadConfigRecord(policy), src, mint, feeAccount, auth, price, seed);
      assert leg == [leg[0]] + [leg[1]];
      TouchesSplit([leg[0]], [leg[1]]);
      OneTouch(leg[0]);
      OneTouch(leg[1]);
      assert leg[0] in leg;
    }
  }

  lemma TestThenPay(e: Env, signers: set<Key>, r: map<Key, seq<byte>>, test: Op, pay: Op)
    requires test.Check? && pay.Transfer?
    ensures AllSound(e, signers, r, [test, pay]) <==> test.ok && Signed(e, signers, pay.auth)
    ensures Touches([test, pay]) == TouchOf(pay) && forall op :: op in [test, pay] ==> !op.NewRecord?
  {
    hide Signed;
    assert [test, pay] == [test] + [pay];
    TouchesSplit([test], [pay]);
    OneTouch(test);
    OneTouch(pay);
    assert test in [test, pay] && pay in [test, pay];
  }

  /** The payment of a price is sound when its signer signs and a positive fee goes where the policy says; it asks for
      the fee and the rest. */
  lemma PriceAsks(e: Env, signers: set<Key>, r: map<Key, seq<byte>>, w: World, policy: seq<byte>, src: Key, mint: Key,
      feeAccount: Key, payee: Key, auth: Authority, price: nat, seed: byte)
    requires |policy| == CONFIG_LEN && Signed(e, signers, auth)
    requires Bps(price, ReadConfigRecord(policy).feeBps) == FeeOf(policy, price) <= price
    ensures var ops := PriceOps(e, w, ReadConfigRecord(policy), src, mint, feeAccount, payee, auth, price, seed);
            && (forall op :: op in ops ==> !op.NewRecord?)
            && (AllSound(e, signers, r, ops) <==>
                  (FeeOf(policy, price) > 0 ==> FeeGoes(e, w, policy, feeAccount, mint, seed)))
            && Touches(ops) == PriceTouches(policy, src, mint, feeAccount, payee, auth.key, price)
  {
    hide IsFeeDestination, FeeGoes, ReadConfigRecord, Signed, Bps, FeeOf, FeeLeg, AllSound, Touches;
    FeeLegAsks(e, signers, r, w, policy, src, mint, feeAccount, auth, price, seed);
    var fee := FeeOf(policy, price);
    var leg := FeeLeg(e, w, ReadConfigRecord(policy), src, mint, feeAccount, auth, price, seed);
    var test, pay := Check(fee <= price, ArithmeticOverflow), Transfer(src, mint, payee, auth, Minus(price, fee));
    assert PriceOps(e, w, ReadConfigRecord(policy), src, mint, feeAccount, payee, auth, price, seed)
        == leg + [test, pay];
    TouchesSplit(leg, [test, pay]);
    TestThenPay(e, signers, r, test, pay);
    BothSound(e, signers, r, leg, [test, pay]);
  }
}
