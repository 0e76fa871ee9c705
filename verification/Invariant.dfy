/** Every handler keeps the invariant: vaults always back open records. */
module Invariant {
  import opened Prelude
  import opened Bytes
  import opened Seeds
  import opened Layout
  import opened Ledger
  import opened FeeConfig
  import opened Royalty
  import opened Payments
  import opened Machine
  import opened Shapes
  import Swaps
  import Offers
  import Baskets
  import Listings
  import Orders

  // ---- small facts ----

  lemma ZerosNotLive(n: nat)
    ensures !Live(Zeros(n))
  {
    if n >= 32 {
      assert KeyAt(Zeros(n), 0) == ZERO;
    }
  }

  lemma SignersHoldNoRecord(e: Env, x: Ix, w: World, k: Key)
    requires ValidIx(e, x) && Inv(e, w) && k in x.signers
    ensures k !in w.records
  {
  }

  /** An address of a family that has no records is not a record. */
  lemma NoRecordThere(e: Env, w: World, s: Seed, bump: byte, k: Key)
    requires ValidEnv(e) && Inv(e, w) && Create(e.derive, s, bump) == Some(k)
    requires s.OrderSeed? || s.FeeVaultSeed? || s.VaultSeed? || s.OVaultSeed? || s.BVaultSeed?
    ensures k !in w.records
  {
    if k in w.records {
      var t, c :| IsHome(e, k, |w.records[k]|, t, c);
      OneHome(e.derive, s, bump, t, c);
    }
  }

  lemma {:induction false} RecordsAfterSplit(r: map<Key, seq<byte>>, a: seq<Op>, b: seq<Op>)
    ensures RecordsAfter(r, a + b) == RecordsAfter(RecordsAfter(r, a), b)
    decreases |a|
  {
    if a == [] {
      assert a + b == b;
    } else {
      assert (a + b)[1..] == a[1..] + b;
      RecordsAfterSplit(RecordStep(r, a[0]), a[1..], b);
    }
  }

  lemma {:induction false} NoRecordEffects(r: map<Key, seq<byte>>, a: seq<Op>, auths: set<Key>)
    requires AllConfined(a, auths, {})
    ensures RecordsAfter(r, a) == r
    decreases |a|
  {
    if a != [] {
      assert Confined(a[0], auths, {});
      NoRecordEffects(r, a[1..], auths);
    }
  }

  lemma Join(a: seq<Op>, b: seq<Op>, auths: set<Key>, records: set<Key>, allAuths: set<Key>, allRecords: set<Key>)
    requires AllConfined(a, auths, records) && auths <= allAuths && records <= allRecords
    requires forall op :: op in b ==> Confined(op, allAuths, allRecords)
    ensures AllConfined(a + b, allAuths, allRecords)
  {
    forall op | op in a
      ensures Confined(op, allAuths, allRecords)
    {
      assert Confined(op, auths, records);
    }
  }

  lemma WipedEnds(b: seq<byte>)
    ensures !Live(Zeros(|b|)) && |Zeros(|b|)| == |b|
  {
    ZerosNotLive(|b|);
  }

  lemma WipedOk(e: Env, t: map<Key, Token>, k: Key, b: seq<byte>)
    requires Homed(e, k, |b|)
    ensures RecordOk(e, t, k, Zeros(|b|))
  {
    ZerosNotLive(|b|);
  }

  // ---- what the plan builders are confined to ----

  lemma PriceConfined(e: Env, w: World, c: Config, src: Key, mint: Key, feeAccount: Key, payee: Key, auth: Authority,
      amount: nat, shardSeed: byte)
    ensures AllConfined(PriceOps(e, w, c, src, mint, feeAccount, payee, auth, amount, shardSeed), {auth.key}, {})
  {
  }

  lemma {:induction false} CreatorsConfined(src: Key, mint: Key, auth: Authority, payouts: seq<nat>, accounts: seq<Key>)
    requires |payouts| == |accounts|
    ensures AllConfined(CreatorOps(src, mint, auth, payouts, accounts), {auth.key}, {})
  {
    if payouts != [] {
      CreatorsConfined(src, mint, auth, payouts[1..], accounts[1..]);
    }
  }

  lemma RoyaltyConfined(e: Env, w: World, config: Key, src: Key, mint: Key, feeAccount: Key, maker: Key, taker: Key,
                        want: nat, maxWant: nat, shardSeed: byte, mode: byte, pct: byte,
                            metadata: Option<MetadataAccount>, creators: seq<Key>)
    requires RoyaltyOps(e, w, config, src, mint, feeAccount, maker, taker, want, maxWant, shardSeed, mode, pct,
        metadata, creators).Ok?
    ensures AllConfined(RoyaltyOps(e, w, config, src, mint, feeAccount, maker, taker, want, maxWant, shardSeed, mode,
        pct, metadata, creators).value, {taker}, {})
  {
    hide RoyaltyOps, IsFeeDestination, CreatorsMatch, Splits;
    var c, bill := RoyaltyShape(e, w, config, src, mint, feeAccount, maker, taker, want, maxWant, shardSeed, mode, pct,
        metadata, creators);
    if bill.royalty != 0 {
      CreatorsConfined(src, mint, Signer(taker), Splits(bill.royalty, Percentages(bill.shares)), creators);
    }
  }

  lemma UnlockLegConfined(e: Env, w: World, x: Ix, b: seq<byte>, nonce: Key, base: nat, auth: Authority,
      payee: Option<Key>, i: nat)
    requires |b| == BASKET_LEN && |x.accounts| >= base + ReadBasket(b).giveCount * 3 && i < ReadBasket(b).giveCount
    ensures AllConfined(Baskets.UnlockLeg(e, w, x, b, nonce, base, auth, payee, i), {auth.key}, {})
  {
  }

  lemma PayLegConfined(e: Env, w: World, x: Ix, c: Config, b: seq<byte>, nonce: Key, j: nat)
    requires |b| == BASKET_LEN && j < ReadBasket(b).wantCount
    requires |x.accounts| == 5 + ReadBasket(b).giveCount * 3 + ReadBasket(b).wantCount * 4
    ensures AllConfined(Baskets.PayLeg(e, w, x, c, b, nonce, j), {x.accounts[0]}, {})
  {
  }

  lemma LockLegConfined(e: Env, x: Ix, basket: Key, b: seq<byte>, i: nat)
    requires Baskets.PayloadFits(x.data) && |x.accounts| == 6 + x.data[32] * 3 && |b| == BASKET_LEN && i < x.data[32]
    ensures AllConfined(Baskets.LockLeg(e, x, basket, b, i), {x.accounts[0]}, {basket})
  {
  }

  lemma {:induction false} UnlockConfined(e: Env, w: World, x: Ix, b: seq<byte>, nonce: Key, base: nat,
      auth: Authority, payee: Option<Key>, i: nat)
    requires |b| == BASKET_LEN && |x.accounts| >= base + ReadBasket(b).giveCount * 3 && i <= ReadBasket(b).giveCount
    ensures AllConfined(Baskets.UnlockOps(e, w, x, b, nonce, base, auth, payee, i), {auth.key}, {})
    decreases ReadBasket(b).giveCount - i
  {
    if i < ReadBasket(b).giveCount {
      UnlockLegConfined(e, w, x, b, nonce, base, auth, payee, i);
      UnlockConfined(e, w, x, b, nonce, base, auth, payee, i + 1);
    }
  }

  lemma {:induction false} PayConfined(e: Env, w: World, x: Ix, c: Config, b: seq<byte>, nonce: Key, j: nat)
    requires |b| == BASKET_LEN && j <= ReadBasket(b).wantCount
    requires |x.accounts| == 5 + ReadBasket(b).giveCount * 3 + ReadBasket(b).wantCount * 4
    ensures AllConfined(Baskets.PayOps(e, w, x, c, b, nonce, j), {x.accounts[0]}, {})
    decreases ReadBasket(b).wantCount - j
  {
    if j < ReadBasket(b).wantCount {
      PayLegConfined(e, w, x, c, b, nonce, j);
      PayConfined(e, w, x, c, b, nonce, j + 1);
    }
  }

  lemma {:induction false} LockConfined(e: Env, x: Ix, basket: Key, b: seq<byte>, i: nat)
    requires Baskets.PayloadFits(x.data) && |x.accounts| == 6 + x.data[32] * 3 && |b| == BASKET_LEN && i <= x.data[32]
    ensures AllConfined(Baskets.LockOps(e, x, basket, b, i), {x.accounts[0]}, {basket})
    decreases x.data[32] - i
  {
    if i < x.data[32] {
      LockLegConfined(e, x, basket, b, i);
      LockConfined(e, x, basket, Baskets.WithGive(x, b, i), i + 1);
    }
  }

  lemma {:induction false} WantChecksConfined(d: seq<byte>, j: nat)
    requires Baskets.PayloadFits(d) && j <= d[33]
    ensures AllConfined(Baskets.WantChecks(d, j), {}, {})
    decreases d[33] - j
  {
    if j < d[33] {
      WantChecksConfined(d, j + 1);
    }
  }

  // ---- endings ----

  lemma WipedRecord(e: Env, signers: set<Key>, w: World, a: seq<Op>, auths: set<Key>, k: Key)
    requires k in w.records && AllConfined(a, auths, {}) && Exec(e, signers, w, a + [Wipe(k)]).Ok?
    ensures Exec(e, signers, w, a + [Wipe(k)]).value.records == w.records[k := Zeros(|w.records[k]|)]
  {
    ExecRecords(e, signers, w, a + [Wipe(k)]);
    RecordsAfterSplit(w.records, a, [Wipe(k)]);
    NoRecordEffects(w.records, a, auths);
    assert [Wipe(k)][1..] == [];
  }

  /** Token effects under the authority of signers and of the ended records, then the records are wiped. */
  lemma EndingKeepsInv(e: Env, x: Ix, w: World, a: seq<Op>, auths: set<Key>, k: Key)
    requires ValidEnv(e) && ValidIx(e, x) && Inv(e, w) && k in w.records && |w.records[k]| != MARKER_LEN
    requires AllConfined(a, auths, {}) && Exec(e, x.signers, w, a + [Wipe(k)]).Ok?
    requires forall q :: q in auths && q in w.records && q != k ==> Legs(e, q, w.records[q]) == []
    ensures Inv(e, Exec(e, x.signers, w, a + [Wipe(k)]).value)
  {
    WipedRecord(e, x.signers, w, a, auths, k);
    WipedOk(e, Exec(e, x.signers, w, a + [Wipe(k)]).value.tokens, k, w.records[k]);
    WipedEnds(w.records[k]);
    Join(a, [Wipe(k)], auths, {}, auths, {k});
    ConfinedKeepsInv(e, x, w, a + [Wipe(k)], auths, {k});
  }

  /** Any payment under the authority of signers, one release under the record's own authority, a wipe. */
  lemma ReleaseKeepsInv(e: Env, x: Ix, w: World, pay: seq<Op>, auths: set<Key>, vault: Key, mint: Key, dst: Key,
      amount: nat, auth: Authority)
    requires ValidEnv(e) && ValidIx(e, x) && Inv(e, w) && auth.key in w.records && |w.records[auth.key]| != MARKER_LEN
    requires AllConfined(pay, auths, {}) && auths <= x.signers
    requires Exec(e, x.signers, w, pay + Swaps.ReleaseOps(vault, mint, dst, amount, auth) + [Wipe(auth.key)]).Ok?
    ensures Inv(e, Exec(e, x.signers, w, pay + Swaps.ReleaseOps(vault, mint, dst, amount, auth)
        + [Wipe(auth.key)]).value)
  {
    forall q | q in auths
      ensures q !in w.records
    {
      SignersHoldNoRecord(e, x, w, q);
    }
    EndingKeepsInv(e, x, w, pay + Swaps.ReleaseOps(vault, mint, dst, amount, auth), auths + {auth.key}, auth.key);
  }

  lemma FillKeepsInv(e: Env, x: Ix, w: World)
    requires ValidEnv(e) && ValidIx(e, x) && Inv(e, w) && Run(e, w, x, Swaps.Fill(e, w, x)).Ok?
    ensures Inv(e, Run(e, w, x, Swaps.Fill(e, w, x)).value)
  {
    hide Swaps.Fill, PriceOps, Exec, Inv;
    var s, c, nonce := FillShape(e, x, w);
    var a := x.accounts;
    PriceConfined(e, w, c, a[6], s.wantMint, a[11], a[8], Signer(a[0]), s.wantAmount, nonce[0]);
    ReleaseKeepsInv(e, x, w, PriceOps(e, w, c, a[6], s.wantMint, a[11], a[8], Signer(a[0]), s.wantAmount, nonce[0]),
        {a[0]},
                    a[2], s.giveMint, a[7], s.giveAmount, Seeded(a[1], SwapSeed(s.maker, nonce), s.bump));
  }

  lemma RefundKeepsInv(e: Env, x: Ix, w: World, plan: Plan, vault: Key, mint: Key, dst: Key, amount: nat,
      auth: Authority)
    requires ValidEnv(e) && ValidIx(e, x) && Inv(e, w) && auth.key in w.records && |w.records[auth.key]| != MARKER_LEN
    requires plan == Ok(Swaps.ReleaseOps(vault, mint, dst, amount, auth) + [Wipe(auth.key)]) && Run(e, w, x, plan).Ok?
    ensures Inv(e, Run(e, w, x, plan).value)
  {
    assert [] + Swaps.ReleaseOps(vault, mint, dst, amount, auth) == Swaps.ReleaseOps(vault, mint, dst, amount, auth);
    ReleaseKeepsInv(e, x, w, [], {}, vault, mint, dst, amount, auth);
  }

  lemma CancelSwapKeepsInv(e: Env, x: Ix, w: World)
    requires ValidEnv(e) && ValidIx(e, x) && Inv(e, w) && Run(e, w, x, Swaps.CancelSwap(e, w, x)).Ok?
    ensures Inv(e, Run(e, w, x, Swaps.CancelSwap(e, w, x)).value)
  {
    var s := CancelSwapShape(e, x, w);
    var a := x.accounts;
    RefundKeepsInv(e, x, w, Swaps.CancelSwap(e, w, x), a[2], s.giveMint, a[4], s.giveAmount,
        Seeded(a[1], SwapSeed(s.maker, x.data), s.bump));
  }

  lemma ExpireKeepsInv(e: Env, x: Ix, w: World)
    requires ValidEnv(e) && ValidIx(e, x) && Inv(e, w) && Run(e, w, x, Swaps.Expire(e, w, x)).Ok?
    ensures Inv(e, Run(e, w, x, Swaps.Expire(e, w, x)).value)
  {
    var s := ExpireShape(e, x, w);
    var a := x.accounts;
    RefundKeepsInv(e, x, w, Swaps.Expire(e, w, x), a[2], s.giveMint, a[5], s.giveAmount,
        Seeded(a[1], SwapSeed(s.maker, x.data), s.bump));
  }

  lemma WithdrawOfferKeepsInv(e: Env, x: Ix, w: World)
    requires ValidEnv(e) && ValidIx(e, x) && Inv(e, w) && Run(e, w, x, Offers.WithdrawOffer(e, w, x)).Ok?
    ensures Inv(e, Run(e, w, x, Offers.WithdrawOffer(e, w, x)).value)
  {
    var o := WithdrawOfferShape(e, x, w);
    var a := x.accounts;
    RefundKeepsInv(e, x, w, Offers.WithdrawOffer(e, w, x), a[2], o.wantMint, a[4], o.wantAmount,
        Seeded(a[1], OfferSeed(o.offerer, x.data), o.bump));
  }

  lemma ExpireOfferKeepsInv(e: Env, x: Ix, w: World)
    requires ValidEnv(e) && ValidIx(e, x) && Inv(e, w) && Run(e, w, x, Offers.ExpireOffer(e, w, x)).Ok?
    ensures Inv(e, Run(e, w, x, Offers.ExpireOffer(e, w, x)).value)
  {
    var o := ExpireOfferShape(e, x, w);
    var a := x.accounts;
    RefundKeepsInv(e, x, w, Offers.ExpireOffer(e, w, x), a[2], o.wantMint, a[5], o.wantAmount,
        Seeded(a[1], OfferSeed(o.offerer, x.data), o.bump));
  }

  /** Accepting a bid ends two records at once. */
  lemma TwoWipes(r: map<Key, seq<byte>>, p: Key, q: Key)
    requires p in r && q in r && p != q
    ensures RecordsAfter(r, [Wipe(p), Wipe(q)]) == r[p := Zeros(|r[p]|)][q := Zeros(|r[q]|)]
  {
    assert [Wipe(p), Wipe(q)][1..] == [Wipe(q)];
    assert [Wipe(q)][1..] == [];
    assert RecordsAfter(r, [Wipe(p), Wipe(q)]) == RecordsAfter(RecordStep(r, Wipe(p)), [Wipe(q)]);
  }

  lemma TwoWipedRecords(e: Env, signers: set<Key>, w: World, a: seq<Op>, p: Key, q: Key)
    requires p in w.records && q in w.records && p != q
    requires AllConfined(a, {p, q}, {}) && Exec(e, signers, w, a + [Wipe(p), Wipe(q)]).Ok?
    ensures Exec(e, signers, w, a + [Wipe(p), Wipe(q)]).value.records
        == w.records[p := Zeros(|w.records[p]|)][q := Zeros(|w.records[q]|)]
  {
    ExecRecords(e, signers, w, a + [Wipe(p), Wipe(q)]);
    RecordsAfterSplit(w.records, a, [Wipe(p), Wipe(q)]);
    NoRecordEffects(w.records, a, {p, q});
    TwoWipes(w.records, p, q);
  }

  lemma TwoEndingsKeepInv(e: Env, x: Ix, w: World, a: seq<Op>, p: Key, q: Key)
    requires ValidEnv(e) && ValidIx(e, x) && Inv(e, w)
    requires p in w.records && q in w.records && |w.records[p]| == OFFER_LEN && |w.records[q]| == SWAP_LEN
    requires AllConfined(a, {p, q}, {}) && Exec(e, x.signers, w, a + [Wipe(p), Wipe(q)]).Ok?
    ensures Inv(e, Exec(e, x.signers, w, a + [Wipe(p), Wipe(q)]).value)
  {
    hide WellFormed, Legs, Homed, Backed;
    var ops := a + [Wipe(p), Wipe(q)];
    TwoWipedRecords(e, x.signers, w, a, p, q);
    WipedOk(e, Exec(e, x.signers, w, ops).value.tokens, p, w.records[p]);
    WipedOk(e, Exec(e, x.signers, w, ops).value.tokens, q, w.records[q]);
    WipedEnds(w.records[p]);
    WipedEnds(w.records[q]);
    Join(a, [Wipe(p), Wipe(q)], {p, q}, {}, {p, q}, {p, q});
    ConfinedKeepsInv(e, x, w, ops, {p, q}, {p, q});
  }

  lemma HandOverKeepsInv(e: Env, x: Ix, w: World, pay: seq<Op>, svault: Key, mint: Key, dst: Key, amount: nat,
      swapAuth: Authority, ovault: Key, offerAuth: Authority)
    requires ValidEnv(e) && ValidIx(e, x) && Inv(e, w)
    requires offerAuth.key in w.records && |w.records[offerAuth.key]| == OFFER_LEN && swapAuth.key in w.records
        && |w.records[swapAuth.key]| == SWAP_LEN
    requires AllConfined(pay, {offerAuth.key}, {})
    requires Exec(e, x.signers, w, pay + Offers.HandOver(svault, mint, dst, amount, swapAuth, ovault, offerAuth)
        + [Wipe(offerAuth.key), Wipe(swapAuth.key)]).Ok?
    ensures Inv(e, Exec(e, x.signers, w, pay + Offers.HandOver(svault, mint, dst, amount, swapAuth, ovault, offerAuth)
        + [Wipe(offerAuth.key), Wipe(swapAuth.key)]).value)
  {
    var hand := Offers.HandOver(svault, mint, dst, amount, swapAuth, ovault, offerAuth);
    Join(pay, hand, {offerAuth.key}, {}, {offerAuth.key, swapAuth.key}, {});
    TwoEndingsKeepInv(e, x, w, pay + hand, offerAuth.key, swapAuth.key);
  }

  lemma AcceptOfferKeepsInv(e: Env, x: Ix, w: World)
    requires ValidEnv(e) && ValidIx(e, x) && Inv(e, w) && Run(e, w, x, Offers.AcceptOffer(e, w, x)).Ok?
    ensures Inv(e, Run(e, w, x, Offers.AcceptOffer(e, w, x)).value)
  {
    var s, o, c, sn, on := AcceptOfferShape(e, x, w);
    var a := x.accounts;
    var offerAuth, swapAuth := Seeded(a[3], OfferSeed(o.offerer, on), o.bump),
        Seeded(a[1], SwapSeed(s.maker, sn), s.bump);
    PriceConfined(e, w, c, a[4], s.wantMint, a[12], a[9], offerAuth, o.wantAmount, sn[0]);
    HandOverKeepsInv(e, x, w, PriceOps(e, w, c, a[4], s.wantMint, a[12], a[9], offerAuth, o.wantAmount, sn[0]),
                     a[2], s.giveMint, a[8], s.giveAmount, swapAuth, a[4], offerAuth);
  }

  /** Releases of every leg under the basket's authority, after payments by a signer, then the wipe. */
  lemma UnlockKeepsInv(e: Env, x: Ix, w: World, pay: seq<Op>, unlock: seq<Op>, auths: set<Key>, basket: Key)
    requires ValidEnv(e) && ValidIx(e, x) && Inv(e, w) && basket in w.records && |w.records[basket]| == BASKET_LEN
    requires AllConfined(pay, auths, {}) && auths <= x.signers && AllConfined(unlock, {basket}, {})
    requires Exec(e, x.signers, w, pay + unlock + [Wipe(basket)]).Ok?
    ensures Inv(e, Exec(e, x.signers, w, pay + unlock + [Wipe(basket)]).value)
  {
    forall q | q in auths
      ensures q !in w.records
    {
      SignersHoldNoRecord(e, x, w, q);
    }
    EndingKeepsInv(e, x, w, pay + unlock, auths + {basket}, basket);
  }

  lemma FillBasketKeepsInv(e: Env, x: Ix, w: World)
    requires ValidEnv(e) && ValidIx(e, x) && Inv(e, w) && Run(e, w, x, Baskets.FillBasket(e, w, x)).Ok?
    ensures Inv(e, Run(e, w, x, Baskets.FillBasket(e, w, x)).value)
  {
    hide Baskets.FillBasket, Baskets.PayOps, Baskets.UnlockOps, Inv, Exec;
    var k, c, auth := FillBasketShape(e, x, w);
    var b := w.records[x.accounts[1]];
    PayConfined(e, w, x, c, b, x.data, 0);
    UnlockConfined(e, w, x, b, x.data, 5, auth, None, 0);
    UnlockKeepsInv(e, x, w, Baskets.PayOps(e, w, x, c, b, x.data, 0),
        Baskets.UnlockOps(e, w, x, b, x.data, 5, auth, None, 0), {x.accounts[0]}, x.accounts[1]);
  }

  lemma JustUnlockKeepsInv(e: Env, x: Ix, w: World, unlock: seq<Op>, basket: Key)
    requires ValidEnv(e) && ValidIx(e, x) && Inv(e, w) && basket in w.records && |w.records[basket]| == BASKET_LEN
    requires AllConfined(unlock, {basket}, {}) && Exec(e, x.signers, w, unlock + [Wipe(basket)]).Ok?
    ensures Inv(e, Exec(e, x.signers, w, unlock + [Wipe(basket)]).value)
  {
    assert [] + unlock == unlock;
    UnlockKeepsInv(e, x, w, [], unlock, {}, basket);
  }

  lemma ClaimBearerKeepsInv(e: Env, x: Ix, w: World)
    requires ValidEnv(e) && ValidIx(e, x) && Inv(e, w) && Run(e, w, x, Baskets.ClaimBearer(e, w, x)).Ok?
    ensures Inv(e, Run(e, w, x, Baskets.ClaimBearer(e, w, x)).value)
  {
    var k, auth := ClaimBearerShape(e, x, w);
    var b := w.records[x.accounts[2]];
    UnlockConfined(e, w, x, b, x.data, 5, auth, None, 0);
    JustUnlockKeepsInv(e, x, w, Baskets.UnlockOps(e, w, x, b, x.data, 5, auth, None, 0), x.accounts[2]);
  }

  lemma CancelBasketKeepsInv(e: Env, x: Ix, w: World)
    requires ValidEnv(e) && ValidIx(e, x) && Inv(e, w) && Run(e, w, x, Baskets.CancelBasket(e, w, x)).Ok?
    ensures Inv(e, Run(e, w, x, Baskets.CancelBasket(e, w, x)).value)
  {
    var k, auth := CancelBasketShape(e, x, w);
    var b := w.records[x.accounts[1]];
    UnlockConfined(e, w, x, b, x.data, 6, auth, Some(k.maker), 0);
    JustUnlockKeepsInv(e, x, w, Baskets.UnlockOps(e, w, x, b, x.data, 6, auth, Some(k.maker), 0), x.accounts[1]);
  }

  lemma ExpireBasketKeepsInv(e: Env, x: Ix, w: World)
    requires ValidEnv(e) && ValidIx(e, x) && Inv(e, w) && Run(e, w, x, Baskets.ExpireBasket(e, w, x)).Ok?
    ensures Inv(e, Run(e, w, x, Baskets.ExpireBasket(e, w, x)).value)
  {
    var k, auth := ExpireBasketShape(e, x, w);
    var b := w.records[x.accounts[1]];
    UnlockConfined(e, w, x, b, x.data, 4, auth, Some(k.maker), 0);
    JustUnlockKeepsInv(e, x, w, Baskets.UnlockOps(e, w, x, b, x.data, 4, auth, Some(k.maker), 0), x.accounts[1]);
  }

  // ---- openings ----

  /** A vault just created and funded stays funded through anything its owner does not sign. */
  lemma FundedVault(e: Env, signers: set<Key>, w: World, vault: Key, mint: Key, owner: Key, checked: Op, src: Key,
      auth: Authority, amount: nat, rest: seq<Op>)
    requires checked.Check? && amount > 0 && Spares(rest, owner)
    requires Exec(e, signers, w, [NewToken(vault, mint, owner), checked, Transfer(src, mint, vault, auth, amount)]
        + rest).Ok?
    ensures Holds(Exec(e, signers, w, [NewToken(vault, mint, owner), checked, Transfer(src, mint, vault, auth, amount)]
        + rest).value.tokens,
                  vault, owner, mint, amount)
  {
    var create, move := NewToken(vault, mint, owner), Transfer(src, mint, vault, auth, amount);
    assert [create, checked, move] + rest == [create] + ([checked] + ([move] + rest));
    ExecCons(e, signers, w, create, [checked] + ([move] + rest));
    var w1 := Apply(e, signers, w, create).value;
    ExecCons(e, signers, w1, checked, [move] + rest);
    ExecCons(e, signers, w1, move, rest);
    ExecKeepsHolding(e, signers, Apply(e, signers, w1, move).value, rest, vault, owner, mint, amount);
  }

  /** The five effects of opening a one-vault record. */
  function OpeningOps(k: Key, vault: Key, mint: Key, checked: Op, src: Key, maker: Key, amount: nat,
      image: seq<byte>): seq<Op> {
    [NewRecord(k, |image|), NewToken(vault, mint, k), checked, Transfer(src, mint, vault, Signer(maker), amount),
        Write(k, image)]
  }

  lemma {:induction false} WipesOnlyWipes(ops: seq<Op>)
    requires forall op :: op in ops ==> !op.Wipe?
    ensures Wiped(ops) == {}
  {
    if ops != [] {
      WipesOnlyWipes(ops[1..]);
    }
  }

  lemma OpenedWorld(e: Env, signers: set<Key>, w: World, k: Key, vault: Key, mint: Key, checked: Op, src: Key,
      maker: Key, amount: nat, image: seq<byte>)
    requires checked.Check? && amount > 0 && Exec(e, signers, w,
        OpeningOps(k, vault, mint, checked, src, maker, amount, image)).Ok?
    ensures var v := Exec(e, signers, w, OpeningOps(k, vault, mint, checked, src, maker, amount, image)).value;
            && k !in w.records
            && v.records == w.records[k := image] && v.drained == w.drained
            && Holds(v.tokens, vault, k, mint, amount)
  {
    var create, fund, move, write := NewRecord(k, |image|), NewToken(vault, mint, k),
        Transfer(src, mint, vault, Signer(maker), amount), Write(k, image);
    assert OpeningOps(k, vault, mint, checked, src, maker, amount, image) == [create]
        + ([fund, checked, move] + [write]);
    ExecCons(e, signers, w, create, [fund, checked, move] + [write]);
    var w1 := Apply(e, signers, w, create).value;
    FundedVault(e, signers, w1, vault, mint, k, checked, src, Signer(maker), amount, [write]);
    ExecRecords(e, signers, w1, [fund, checked, move] + [write]);
    RecordsAfterSplit(w1.records, [fund, checked, move], [write]);
    NoRecordEffects(w1.records, [fund, checked, move], {maker});
    assert [write][1..] == [];
    WipedWithin([fund, checked, move] + [write], {maker}, {k});
    WipesOnlyWipes([fund, checked, move] + [write]);
  }

  lemma OpeningConfined(k: Key, vault: Key, mint: Key, checked: Op, src: Key, maker: Key, amount: nat, image: seq<byte>)
    requires checked.Check?
    ensures AllConfined(OpeningOps(k, vault, mint, checked, src, maker, amount, image), {maker}, {k})
  {
  }

  lemma OneLegOk(e: Env, t: map<Key, Token>, k: Key, b: seq<byte>, leg: Leg)
    requires Live(b) && Homed(e, k, |b|) && WellFormed(e, k, b) && Legs(e, k, b) == [leg]
        && Holds(t, leg.vault, k, leg.mint, leg.amount)
    ensures RecordOk(e, t, k, b)
  {
  }

  /** Create a record and its vault, fund the vault, write the record. */
  lemma OpeningKeepsInv(e: Env, x: Ix, w: World, k: Key, vault: Key, mint: Key, checked: Op, src: Key, maker: Key,
      amount: nat, image: seq<byte>)
    requires ValidEnv(e) && ValidIx(e, x) && Inv(e, w) && maker in x.signers && amount > 0 && checked.Check?
    requires Live(image) && Homed(e, k, |image|) && WellFormed(e, k, image)
        && Legs(e, k, image) == [Leg(vault, mint, amount)]
    requires Exec(e, x.signers, w, OpeningOps(k, vault, mint, checked, src, maker, amount, image)).Ok?
    ensures Inv(e, Exec(e, x.signers, w, OpeningOps(k, vault, mint, checked, src, maker, amount, image)).value)
  {
    OpenedWorld(e, x.signers, w, k, vault, mint, checked, src, maker, amount, image);
    SignersHoldNoRecord(e, x, w, maker);
    var ops := OpeningOps(k, vault, mint, checked, src, maker, amount, image);
    var v := Exec(e, x.signers, w, ops).value;
    OneLegOk(e, v.tokens, k, image, Leg(vault, mint, amount));
    OpeningConfined(k, vault, mint, checked, src, maker, amount, image);
    ConfinedKeepsInv(e, x, w, ops, {maker}, {k});
  }

  lemma OpenSwapImageOk(e: Env, k: Key, s: Swap)
    requires s.maker != ZERO && !Derived(e.derive, s.maker) && s.status == STATUS_OPEN
        && Create(e.derive, SwapSeed(s.maker, s.nonce), s.bump) == Some(k)
    ensures Live(SwapImage(s)) && Homed(e, k, SWAP_LEN) && WellFormed(e, k, SwapImage(s))
    ensures Legs(e, k, SwapImage(s)) == [Leg(Address(e.derive, VaultSeed(s.maker, s.nonce)), s.giveMint, s.giveAmount)]
  {
    SwapReadsBack(s);
    assert KeyAt(SwapImage(s), 0) == ReadSwap(SwapImage(s)).maker;
    assert IsHome(e, k, SWAP_LEN, SwapSeed(s.maker, s.nonce), s.bump);
  }

  lemma OfferImageOk(e: Env, k: Key, o: Offer)
    requires o.offerer != ZERO && !Derived(e.derive, o.offerer) && o.status == STATUS_OPEN
        && Create(e.derive, OfferSeed(o.offerer, o.nonce), o.bump) == Some(k)
    ensures Live(OfferImage(o)) && Homed(e, k, OFFER_LEN) && WellFormed(e, k, OfferImage(o))
    ensures Legs(e, k, OfferImage(o)) == [Leg(Address(e.derive, OVaultSeed(o.offerer, o.nonce)), o.wantMint,
        o.wantAmount)]
  {
    OfferReadsBack(o);
    assert KeyAt(OfferImage(o), 0) == ReadOffer(OfferImage(o)).offerer;
    assert IsHome(e, k, OFFER_LEN, OfferSeed(o.offerer, o.nonce), o.bump);
  }

  /** A record at a listing address is not a swap: the families never share an address. */
  lemma ListingLocksNothing(e: Env, k: Key, b: seq<byte>, nonce: Key, bump: byte)
    requires ValidEnv(e) && |b| == SWAP_LEN && Create(e.derive, ListingSeed(ReadSwap(b).maker, nonce), bump) == Some(k)
    ensures Legs(e, k, b) == []
  {
    var s := ReadSwap(b);
    if Create(e.derive, SwapSeed(s.maker, s.nonce), s.bump) == Some(k) {
      OneHome(e.derive, SwapSeed(s.maker, s.nonce), s.bump, ListingSeed(s.maker, nonce), bump);
    }
  }

  lemma ListingImageOk(e: Env, k: Key, s: Swap)
    requires ValidEnv(e)
    requires s.maker != ZERO && !Derived(e.derive, s.maker) && s.status == STATUS_OPEN
        && Create(e.derive, ListingSeed(s.maker, s.nonce), s.bump) == Some(k)
    ensures Live(ListingImage(s)) && Homed(e, k, SWAP_LEN) && WellFormed(e, k, ListingImage(s))
        && Legs(e, k, ListingImage(s)) == []
  {
    hide ListingImage;
    ListingReadsBack(s);
    assert KeyAt(ListingImage(s), 0) == ReadSwap(ListingImage(s)).maker;
    assert IsHome(e, k, SWAP_LEN, ListingSeed(s.maker, s.nonce), s.bump);
    ListingLocksNothing(e, k, ListingImage(s), s.nonce, s.bump);
  }

  lemma OpenSwapKeepsInv(e: Env, x: Ix, w: World)
    requires ValidEnv(e) && ValidIx(e, x) && Inv(e, w) && Run(e, w, x, Swaps.OpenSwap(e, w, x)).Ok?
    ensures Inv(e, Run(e, w, x, Swaps.OpenSwap(e, w, x)).value)
  {
    var s := OpenSwapShape(e, x, w);
    var a := x.accounts;
    OpenSwapImageOk(e, a[1], s);
    OpeningKeepsInv(e, x, w, a[1], a[2], s.giveMint, Check(s.giveMint in e.mints, InvalidAccountData), a[5], s.maker,
        s.giveAmount, SwapImage(s));
  }

  lemma MakeOfferKeepsInv(e: Env, x: Ix, w: World)
    requires ValidEnv(e) && ValidIx(e, x) && Inv(e, w) && Run(e, w, x, Offers.MakeOffer(e, w, x)).Ok?
    ensures Inv(e, Run(e, w, x, Offers.MakeOffer(e, w, x)).value)
  {
    var o, s := MakeOfferShape(e, x, w);
    var a := x.accounts;
    OfferImageOk(e, a[1], o);
    OpeningKeepsInv(e, x, w, a[1], a[2], o.wantMint, Check(o.wantMint in e.mints, InvalidAccountData), a[5], o.offerer,
        o.wantAmount, OfferImage(o));
  }

  /** Rewriting one record, with no legs or with the same legs as before. */
  lemma WriteKeepsInv(e: Env, x: Ix, w: World, k: Key, data: seq<byte>)
    requires ValidEnv(e) && ValidIx(e, x) && Inv(e, w) && k in w.records && Live(w.records[k])
        && |w.records[k]| == |data|
    requires Live(data) && WellFormed(e, k, data) && Legs(e, k, data) == Legs(e, k, w.records[k])
    requires Exec(e, x.signers, w, [Write(k, data)]).Ok?
    ensures Inv(e, Exec(e, x.signers, w, [Write(k, data)]).value)
  {
    hide WellFormed, Legs, Homed, Live;
    assert [Write(k, data)] + [] == [Write(k, data)];
    ExecCons(e, x.signers, w, Write(k, data), []);
    ConfinedKeepsInv(e, x, w, [Write(k, data)], {}, {k});
  }

  lemma UpdateConfigKeepsInv(e: Env, x: Ix, w: World)
    requires ValidEnv(e) && ValidIx(e, x) && Inv(e, w) && Run(e, w, x, UpdateConfig(e, w, x)).Ok?
    ensures Inv(e, Run(e, w, x, UpdateConfig(e, w, x)).value)
  {
    var p := UpdateConfigShape(e, x, w);
    var b := w.records[p.key];
    PolicyReadsBack(b, x.data);
    assert KeyAt(PolicyPut(b, x.data), 0) == KeyAt(b, 0);
    WriteKeepsInv(e, x, w, p.key, PolicyPut(b, x.data));
  }

  lemma RewrappedOk(e: Env, k: Key, b: seq<byte>, claim: Key)
    requires |b| == BASKET_LEN && WellFormed(e, k, b) && Live(b)
    ensures Live(PutClaim(b, claim)) && WellFormed(e, k, PutClaim(b, claim))
        && Legs(e, k, PutClaim(b, claim)) == Legs(e, k, b)
  {
    hide PutClaim, GiveEntry, WantEntry;
    RewrapChangesOnlyTheClaim(b, claim);
    assert KeyAt(PutClaim(b, claim), 0) == ReadBasket(PutClaim(b, claim)).maker == ReadBasket(b).maker == KeyAt(b, 0);
    var n := ReadBasket(b).giveCount;
    forall i | 0 <= i < n
      ensures BasketLeg(e, PutClaim(b, claim), i) == BasketLeg(e, b, i)
    {
    }
  }

  /** A record of bearer mode is not a wiped one. */
  lemma BearerIsLive(e: Env, w: World, k: Key)
    requires Inv(e, w) && k in w.records && |w.records[k]| == BASKET_LEN
        && ReadBasket(w.records[k]).authMode == AUTH_BEARER
    ensures Live(w.records[k]) && WellFormed(e, k, w.records[k])
  {
    hide WellFormed, Legs;
  }

  lemma RewrapKeepsInv(e: Env, x: Ix, w: World)
    requires ValidEnv(e) && ValidIx(e, x) && Inv(e, w) && Run(e, w, x, Baskets.Rewrap(e, w, x)).Ok?
    ensures Inv(e, Run(e, w, x, Baskets.Rewrap(e, w, x)).value)
  {
    hide Baskets.Rewrap, PutClaim, Exec, Inv, ReadBasket, WellFormed, Legs, Live;
    var k := RewrapShape(e, x, w);
    var b, claim := w.records[x.accounts[1]], KeyAt(x.data, 32);
    BearerIsLive(e, w, x.accounts[1]);
    RewrappedOk(e, x.accounts[1], b, claim);
    WriteKeepsInv(e, x, w, x.accounts[1], PutClaim(b, claim));
  }

  /** The record effect of creating one. */
  lemma NewRecordRecords(e: Env, signers: set<Key>, w: World, k: Key, mid: seq<Op>, auths: set<Key>, image: seq<byte>)
    requires AllConfined(mid, auths, {}) && forall op :: op in mid ==> !op.Wipe?
    requires Exec(e, signers, w, [NewRecord(k, |image|)] + mid + [Write(k, image)]).Ok?
    ensures var v := Exec(e, signers, w, [NewRecord(k, |image|)] + mid + [Write(k, image)]).value;
            k !in w.records && v.records == w.records[k := image] && v.drained == w.drained
  {
    var create, write := NewRecord(k, |image|), [Write(k, image)];
    assert [create] + mid + write == [create] + (mid + write);
    ExecCons(e, signers, w, create, mid + write);
    var w1 := Apply(e, signers, w, create).value;
    ExecRecords(e, signers, w1, mid + write);
    RecordsAfterSplit(w1.records, mid, write);
    NoRecordEffects(w1.records, mid, auths);
    assert write[1..] == [];
    WipesOnlyWipes(mid + write);
  }

  /** Creating a record that locks nothing. */
  lemma NewRecordKeepsInv(e: Env, x: Ix, w: World, k: Key, mid: seq<Op>, auths: set<Key>, image: seq<byte>)
    requires ValidEnv(e) && ValidIx(e, x) && Inv(e, w) && auths <= x.signers && AllConfined(mid, auths, {})
    requires forall op :: op in mid ==> !op.Wipe?
    requires Live(image) && Homed(e, k, |image|) && WellFormed(e, k, image) && Legs(e, k, image) == []
    requires Exec(e, x.signers, w, [NewRecord(k, |image|)] + mid + [Write(k, image)]).Ok?
    ensures Inv(e, Exec(e, x.signers, w, [NewRecord(k, |image|)] + mid + [Write(k, image)]).value)
    ensures k !in w.records && Exec(e, x.signers, w, [NewRecord(k, |image|)] + mid + [Write(k, image)]).value.records
        == w.records[k := image]
  {
    hide Legs, WellFormed, Homed, Live, Exec;
    var create, write := NewRecord(k, |image|), [Write(k, image)];
    NewRecordRecords(e, x.signers, w, k, mid, auths, image);
    Join([create], mid, {}, {k}, auths, {k});
    Join([create] + mid, write, auths, {k}, auths, {k});
    forall q | q in auths
      ensures q !in w.records
    {
      SignersHoldNoRecord(e, x, w, q);
    }
    ConfinedKeepsInv(e, x, w, [create] + mid + write, auths, {k});
  }

  lemma InitConfigKeepsInv(e: Env, x: Ix, w: World)
    requires ValidEnv(e) && ValidIx(e, x) && Inv(e, w) && Run(e, w, x, InitConfig(e, w, x)).Ok?
    ensures Inv(e, Run(e, w, x, InitConfig(e, w, x)).value)
  {
    var p := InitConfigShape(e, x, w);
    var image := ConfigImage(x.accounts[0], x.data, p.bump);
    ConfigReadsBack(x.accounts[0], x.data, p.bump);
    assert IsHome(e, p.key, CONFIG_LEN, ConfigSeed, p.bump);
    assert [NewRecord(p.key, CONFIG_LEN), Write(p.key, image)] == [NewRecord(p.key, CONFIG_LEN)] + []
        + [Write(p.key, image)];
    assert KeyAt(image, 0) == ReadConfigRecord(image).admin;
    NewRecordKeepsInv(e, x, w, p.key, [], {}, image);
  }

  lemma ListKeepsInv(e: Env, x: Ix, w: World)
    requires ValidEnv(e) && ValidIx(e, x) && Inv(e, w) && Run(e, w, x, Listings.List(e, w, x)).Ok?
    ensures Inv(e, Run(e, w, x, Listings.List(e, w, x)).value)
  {
    hide WellFormed, Legs, Homed, ListingImage;
    var s := ListShape(e, x, w);
    var a := x.accounts;
    ListingImageOk(e, a[1], s);
    var mid := [Approve(a[4], a[1], Signer(s.maker), s.giveAmount)];
    assert Listings.List(e, w, x).value == [NewRecord(a[1], SWAP_LEN)] + mid + [Write(a[1], ListingImage(s))];
    NewRecordKeepsInv(e, x, w, a[1], mid, {s.maker}, ListingImage(s));
  }

  lemma DelegateSaleKeepsInv(e: Env, x: Ix, w: World, pay: seq<Op>, taker: Key, move: Op, k: Key)
    requires ValidEnv(e) && ValidIx(e, x) && Inv(e, w) && k in w.records && |w.records[k]| == SWAP_LEN
        && taker in x.signers
    requires AllConfined(pay, {taker}, {}) && move.Transfer? && move.auth.key == k
    requires Exec(e, x.signers, w, pay + [move, Wipe(k)]).Ok?
    ensures Inv(e, Exec(e, x.signers, w, pay + [move, Wipe(k)]).value)
  {
    assert pay + [move, Wipe(k)] == (pay + [move]) + [Wipe(k)];
    Join(pay, [move], {taker}, {}, {taker, k}, {});
    SignersHoldNoRecord(e, x, w, taker);
    EndingKeepsInv(e, x, w, pay + [move], {taker, k}, k);
  }

  lemma FillListingKeepsInv(e: Env, x: Ix, w: World)
    requires ValidEnv(e) && ValidIx(e, x) && Inv(e, w) && Run(e, w, x, Listings.FillListing(e, w, x)).Ok?
    ensures Inv(e, Run(e, w, x, Listings.FillListing(e, w, x)).value)
  {
    var s, nonce := FillListingShape(e, x, w);
    var a := x.accounts;
    var none := s.royaltyMode == ROYALTY_NONE;
    RoyaltyConfined(e, w, a[10], a[7], s.wantMint, a[11], a[8], a[0], s.wantAmount, U64At(x.data, 40), x.data[0],
        s.royaltyMode, s.makerPct,
                    if none then None else Some(x.metadata), if none then [] else a[14..]);
    DelegateSaleKeepsInv(e, x, w, ListingRoyalty(e, w, x, s).value, a[0],
        Transfer(a[5], s.giveMint, a[6], Seeded(a[1], ListingSeed(s.maker, nonce), s.bump), s.giveAmount), a[1]);
  }

  lemma CancelListingKeepsInv(e: Env, x: Ix, w: World)
    requires ValidEnv(e) && ValidIx(e, x) && Inv(e, w) && Run(e, w, x, Listings.CancelListing(e, w, x)).Ok?
    ensures Inv(e, Run(e, w, x, Listings.CancelListing(e, w, x)).value)
  {
    var s := CancelListingShape(e, x, w);
    var a := x.accounts;
    var revoke := [Revoke(a[3], Signer(s.maker))];
    assert Listings.CancelListing(e, w, x).value == revoke + [Wipe(a[1])];
    SignersHoldNoRecord(e, x, w, s.maker);
    EndingKeepsInv(e, x, w, revoke, {s.maker}, a[1]);
  }

  lemma ExpireListingKeepsInv(e: Env, x: Ix, w: World)
    requires ValidEnv(e) && ValidIx(e, x) && Inv(e, w) && Run(e, w, x, Listings.ExpireListing(e, w, x)).Ok?
    ensures Inv(e, Run(e, w, x, Listings.ExpireListing(e, w, x)).value)
  {
    var s := ExpireListingShape(e, x, w);
    assert Listings.ExpireListing(e, w, x).value == [] + [Wipe(x.accounts[1])];
    EndingKeepsInv(e, x, w, [], {}, x.accounts[1]);
  }

  // ---- effects on tokens alone ----

  lemma TokensOnlyKeepInv(e: Env, x: Ix, w: World, ops: seq<Op>, auths: set<Key>)
    requires ValidEnv(e) && ValidIx(e, x) && Inv(e, w) && AllConfined(ops, auths, {}) && Exec(e, x.signers, w, ops).Ok?
    requires forall k :: k in auths && k in w.records ==> Legs(e, k, w.records[k]) == []
    ensures Inv(e, Exec(e, x.signers, w, ops).value)
  {
    ConfinedKeepsInv(e, x, w, ops, auths, {});
  }

  lemma InitFeeVaultKeepsInv(e: Env, x: Ix, w: World)
    requires ValidEnv(e) && ValidIx(e, x) && Inv(e, w) && Run(e, w, x, InitFeeVault(e, w, x)).Ok?
    ensures Inv(e, Run(e, w, x, InitFeeVault(e, w, x)).value)
  {
    var p, cfg := InitFeeVaultShape(e, x, w);
    TokensOnlyKeepInv(e, x, w, [NewToken(p.key, x.accounts[2], cfg.key)], {});
  }

  lemma SweepFeesKeepsInv(e: Env, x: Ix, w: World)
    requires ValidEnv(e) && ValidIx(e, x) && Inv(e, w) && Run(e, w, x, SweepFees(e, w, x)).Ok?
    ensures Inv(e, Run(e, w, x, SweepFees(e, w, x)).value)
  {
    hide SweepFees, Exec, WellFormed, Backed, Homed, ReadSwap, ReadOffer, ReadBasket, ReadConfigRecord, IsTokenAccount;
    var vault, mint, dest, cfg := SweepFeesShape(e, x, w);
    TokensOnlyKeepInv(e, x, w, SweepFees(e, w, x).value, {cfg.key});
  }

  /** A signed settle: the marker is created, then tokens move under the order address and the signer. */
  lemma SignedSettleKeepsInv(e: Env, x: Ix, w: World, done: Key, maker: Key, nonce: Key, bump: byte, rest: seq<Op>,
      auth: Pda, signer: Key)
    requires ValidEnv(e) && ValidIx(e, x) && Inv(e, w) && signer in x.signers
    requires Create(e.derive, DoneSeed(maker, nonce), bump) == Some(done)
        && Create(e.derive, OrderSeed(maker), auth.bump) == Some(auth.key)
    requires AllConfined(rest, {auth.key, signer}, {})
    requires Exec(e, x.signers, w, [NewRecord(done, MARKER_LEN)] + rest).Ok?
    ensures Inv(e, Exec(e, x.signers, w, [NewRecord(done, MARKER_LEN)] + rest).value)
    ensures Exec(e, x.signers, w, [NewRecord(done, MARKER_LEN)] + rest).value.records
        == w.records[done := Zeros(MARKER_LEN)]
    ensures done !in w.records
  {
    var create := NewRecord(done, MARKER_LEN);
    ExecCons(e, x.signers, w, create, rest);
    var w1 := Apply(e, x.signers, w, create).value;
    ExecRecords(e, x.signers, w1, rest);
    NoRecordEffects(w1.records, rest, {auth.key, signer});
    WipedWithin(rest, {auth.key, signer}, {});
    assert IsHome(e, done, MARKER_LEN, DoneSeed(maker, nonce), bump);
    NoRecordThere(e, w, OrderSeed(maker), auth.bump, auth.key);
    SignersHoldNoRecord(e, x, w, signer);
    Join([create], rest, {}, {done}, {auth.key, signer}, {done});
    ConfinedKeepsInv(e, x, w, [create] + rest, {auth.key, signer}, {done});
  }

  lemma Regroup(a: seq<Op>, b: seq<Op>, c: seq<Op>, d: seq<Op>)
    ensures a + b + c + d == a + (b + c + d)
  {
  }

  lemma StopConfined(p: Plan, auths: set<Key>)
    requires p.Ok? ==> AllConfined(p.value, auths, {})
    ensures AllConfined(Orders.OrStop(p), auths, {})
  {
  }

  /** Checks, then the payment, then the last leg. */
  lemma AfterMarkerConfined(checks: seq<Op>, pay: seq<Op>, last: Op, auths: set<Key>, all: set<Key>)
    requires (forall op :: op in checks ==> op.Check?) && AllConfined(pay, auths, {}) && last.Transfer?
        && last.auth.key in all && auths <= all
    ensures AllConfined(checks + pay + [last], all, {})
  {
    assert AllConfined(checks, {}, {});
    Join(pay, [last], auths, {}, all, {});
    assert checks + pay + [last] == checks + (pay + [last]);
    Join(checks, pay + [last], {}, {}, all, {});
  }

  lemma SettleOrderKeepsInv(e: Env, x: Ix, w: World)
    requires ValidEnv(e) && ValidIx(e, x) && Inv(e, w) && Run(e, w, x, Orders.SettleSignedOrder(e, w, x)).Ok?
    ensures Inv(e, Run(e, w, x, Orders.SettleSignedOrder(e, w, x)).value)
    ensures var d := Address(e.derive, DoneSeed(x.accounts[1], KeyAt(x.data, 56)));
            d !in w.records && Run(e, w, x, Orders.SettleSignedOrder(e, w, x)).value.records
                == w.records[d := Zeros(MARKER_LEN)]
  {
    hide Inv, RoyaltyOps, Orders.SettleSignedOrder, Orders.OrderChecks, Exec;
    var t, auth, done := SettleOrderShape(e, x, w);
    var a := x.accounts;
    var pay := OrderRoyalty(e, w, x, t);
    if pay.Ok? {
      RoyaltyConfined(e, w, a[11], a[6], t.wantMint, a[12], a[7], a[0], t.wantAmount, U64 - 1, t.nonce[0],
          t.royaltyMode, t.makerPct,
                      if t.royaltyMode == ROYALTY_NONE then None else Some(x.metadata),
                          if |a| > 17 then a[17..] else []);
    }
    StopConfined(pay, {a[0]});
    var checks := Orders.OrderChecks(e, w, x, t);
    var last := Transfer(a[4], t.giveMint, a[5], Seeded(auth.key, OrderSeed(a[1]), auth.bump), t.giveAmount);
    AfterMarkerConfined(checks, Orders.OrStop(pay), last, {a[0]}, {auth.key, a[0]});
    Regroup([NewRecord(done.key, MARKER_LEN)], checks, Orders.OrStop(pay), [last]);
    SignedSettleKeepsInv(e, x, w, done.key, a[1], t.nonce, done.bump, checks + Orders.OrStop(pay) + [last], auth, a[0]);
  }

  lemma SettleBidKeepsInv(e: Env, x: Ix, w: World)
    requires ValidEnv(e) && ValidIx(e, x) && Inv(e, w) && Run(e, w, x, Orders.SettleSignedBid(e, w, x)).Ok?
    ensures Inv(e, Run(e, w, x, Orders.SettleSignedBid(e, w, x)).value)
    ensures var d := Address(e.derive, DoneSeed(x.accounts[1], KeyAt(x.data, 56)));
            d !in w.records && Run(e, w, x, Orders.SettleSignedBid(e, w, x)).value.records
                == w.records[d := Zeros(MARKER_LEN)]
  {
    hide Inv, PriceOps, Orders.SettleSignedBid, Orders.BidChecks, Exec;
    var t, auth, done := SettleBidShape(e, x, w);
    var a := x.accounts;
    var order := Seeded(auth.key, OrderSeed(a[1]), auth.bump);
    var pay := Orders.CoinsOps(e, w, a[7], a[4], t.giveMint, a[8], a[5], order, t.giveAmount, t.nonce[0]);
    if pay.Ok? {
      PriceConfined(e, w, ReadConfig(e, w, a[7]).value, a[4], t.giveMint, a[8], a[5], order, t.giveAmount, t.nonce[0]);
    }
    StopConfined(pay, {auth.key});
    var checks := Orders.BidChecks(e, w, x, t);
    var last := Transfer(a[13], t.wantMint, a[14], Signer(a[0]), 1);
    AfterMarkerConfined(checks, Orders.OrStop(pay), last, {auth.key}, {auth.key, a[0]});
    Regroup([NewRecord(done.key, MARKER_LEN)], checks, Orders.OrStop(pay), [last]);
    SignedSettleKeepsInv(e, x, w, done.key, a[1], t.nonce, done.bump, checks + Orders.OrStop(pay) + [last], auth, a[0]);
  }
}
