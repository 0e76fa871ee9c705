/** Who may debit an account: every transfer the program makes is signed by its owner or delegate, leaves
    an escrow account of the program, or is the one sale the owner listed or signed off chain. */
module Consent {
  import opened Prelude
  import opened Bytes
  import opened Seeds
  import opened Layout
  import opened Ledger
  import opened FeeConfig
  import opened Royalty
  import opened Payments
  import opened Machine
  import opened Shapes
  import Swaps
  import Offers
  import Baskets
  import Listings
  import Orders

  /** A new token account is one of the program's vaults; a fee vault belongs to the config address. */
  ghost predicate IsVault(e: Env, key: Key, mint: Key, owner: Key) {
    && Derived(e.derive, owner)
    && exists s, bump :: Create(e.derive, s, bump) == Some(key) &&
         (s.VaultSeed? || s.OVaultSeed? || s.BVaultSeed? || (s.FeeVaultSeed? && s.mint == mint
             && owner == Address(e.derive, ConfigSeed)))
  }

  /** An effect a user needs no protection from: transfers a signer authorises, or out of an account at a
      program address; approvals by a signer; closings by a program address; accounts owned by one. */
  ghost predicate Escrowed(e: Env, op: Op) {
    match op
    case Transfer(src, _, _, auth, _) =>
      auth.Signer? || (Derived(e.derive, src) && !auth.seed.ListingSeed? && !auth.seed.OrderSeed?
          && !auth.seed.ConfigSeed?)
    case CloseToken(_, auth) => auth.Seeded? && !auth.seed.ConfigSeed?
    case Approve(_, _, auth, _) => auth.Signer?
    case Revoke(_, auth) => auth.Signer?
    case NewToken(key, mint, owner) => IsVault(e, key, mint, owner)
    case _ => true
  }

  /** The account a delegated sale debits: the listed one, or the one of the maker who signed. */
  function SaleAccount(tag: byte, x: Ix): Option<Key> {
    if tag == 27 && |x.accounts| > 5 then Some(x.accounts[5])
    else if (tag == 38 || tag == 41) && |x.accounts| > 4 then Some(x.accounts[4])
    else None
  }

  predicate Sale(tag: byte, x: Ix, op: Op) {
    && op.Transfer? && op.auth.Seeded? && SaleAccount(tag, x) == Some(op.src)
    && if tag == 27 then op.auth.seed.ListingSeed? else op.auth.seed.OrderSeed?
  }

  /** The one transfer of a sweep, out of the vault it names, under the config address. */
  predicate Sweep(e: Env, tag: byte, x: Ix, op: Op) {
    && tag == 11 && op.Transfer? && op.auth.Seeded? && op.auth.seed.ConfigSeed?
    && |x.accounts| > 1 && op.src == x.accounts[1] && Derived(e.derive, op.src)
  }

  ghost predicate Permitted(e: Env, tag: byte, x: Ix, op: Op) {
    Escrowed(e, op) || Sale(tag, x, op) || Sweep(e, tag, x, op)
  }

  ghost predicate AllEscrowed(e: Env, ops: seq<Op>) {
    forall op :: op in ops ==> Escrowed(e, op)
  }

  ghost predicate AllConsented(e: Env, tag: byte, x: Ix, ops: seq<Op>) {
    forall op :: op in ops ==> Permitted(e, tag, x, op)
  }

  /** In an accepted list every condition held. */
  lemma {:induction false} ChecksHold(e: Env, signers: set<Key>, w: World, ops: seq<Op>)
    requires Exec(e, signers, w, ops).Ok?
    ensures forall op :: op in ops && op.Check? ==> op.ok
    decreases |ops|
  {
    if ops != [] {
      ChecksHold(e, signers, Apply(e, signers, w, ops[0]).value, ops[1..]);
    }
  }

  // ---- the plan builders ----

  lemma PriceEscrowed(e: Env, w: World, c: Config, src: Key, mint: Key, feeAccount: Key, payee: Key, auth: Authority,
      amount: nat, shardSeed: byte)
    requires auth.Signer? || (Derived(e.derive, src) && !auth.seed.ListingSeed? && !auth.seed.OrderSeed?
        && !auth.seed.ConfigSeed?)
    ensures AllEscrowed(e, PriceOps(e, w, c, src, mint, feeAccount, payee, auth, amount, shardSeed))
  {
    hide IsFeeDestination;
  }

  lemma {:induction false} CreatorsEscrowed(e: Env, src: Key, mint: Key, taker: Key, payouts: seq<nat>,
      accounts: seq<Key>)
    requires |payouts| == |accounts|
    ensures AllEscrowed(e, CreatorOps(src, mint, Signer(taker), payouts, accounts))
  {
    if payouts != [] {
      CreatorsEscrowed(e, src, mint, taker, payouts[1..], accounts[1..]);
    }
  }

  lemma RoyaltyEscrowed(e: Env, w: World, config: Key, src: Key, mint: Key, feeAccount: Key, maker: Key, taker: Key,
                        want: nat, maxWant: nat, shardSeed: byte, mode: byte, pct: byte,
                            metadata: Option<MetadataAccount>, creators: seq<Key>)
    requires RoyaltyOps(e, w, config, src, mint, feeAccount, maker, taker, want, maxWant, shardSeed, mode, pct,
        metadata, creators).Ok?
    ensures AllEscrowed(e, RoyaltyOps(e, w, config, src, mint, feeAccount, maker, taker, want, maxWant, shardSeed,
        mode, pct, metadata, creators).value)
  {
    hide RoyaltyOps, IsFeeDestination, CreatorsMatch, Splits;
    var c, bill := RoyaltyShape(e, w, config, src, mint, feeAccount, maker, taker, want, maxWant, shardSeed, mode, pct,
        metadata, creators);
    if bill.royalty != 0 {
      CreatorsEscrowed(e, src, mint, taker, Splits(bill.royalty, Percentages(bill.shares)), creators);
    }
  }

  lemma UnlockLegEscrowed(e: Env, w: World, x: Ix, b: seq<byte>, nonce: Key, base: nat, auth: Authority,
      payee: Option<Key>, i: nat)
    requires |b| == BASKET_LEN && |x.accounts| >= base + ReadBasket(b).giveCount * 3 && i < ReadBasket(b).giveCount
    requires auth.Seeded? && auth.seed.BasketSeed?
    requires forall op :: op in Baskets.UnlockLeg(e, w, x, b, nonce, base, auth, payee, i) && op.Check? ==> op.ok
    ensures AllEscrowed(e, Baskets.UnlockLeg(e, w, x, b, nonce, base, auth, payee, i))
  {
    hide GiveEntry, ReadBasket, IsTokenAccount;
    if InRecord(B_GIVE, i) {
      var ops := Baskets.UnlockLeg(e, w, x, b, nonce, base, auth, payee, i);
      assert ops[2] in ops && ops[2].ok;
    }
  }

  lemma {:induction false} UnlockEscrowed(e: Env, w: World, x: Ix, b: seq<byte>, nonce: Key, base: nat,
      auth: Authority, payee: Option<Key>, i: nat)
    requires |b| == BASKET_LEN && |x.accounts| >= base + ReadBasket(b).giveCount * 3 && i <= ReadBasket(b).giveCount
    requires auth.Seeded? && auth.seed.BasketSeed?
    requires forall op :: op in Baskets.UnlockOps(e, w, x, b, nonce, base, auth, payee, i) && op.Check? ==> op.ok
    ensures AllEscrowed(e, Baskets.UnlockOps(e, w, x, b, nonce, base, auth, payee, i))
    decreases ReadBasket(b).giveCount - i
  {
    hide Baskets.UnlockLeg, ReadBasket;
    if i < ReadBasket(b).giveCount {
      UnlockLegEscrowed(e, w, x, b, nonce, base, auth, payee, i);
      UnlockEscrowed(e, w, x, b, nonce, base, auth, payee, i + 1);
    }
  }

  lemma PayLegEscrowed(e: Env, w: World, x: Ix, c: Config, b: seq<byte>, nonce: Key, j: nat)
    requires |b| == BASKET_LEN && j < ReadBasket(b).wantCount
    requires |x.accounts| == 5 + ReadBasket(b).giveCount * 3 + ReadBasket(b).wantCount * 4
    ensures AllEscrowed(e, Baskets.PayLeg(e, w, x, c, b, nonce, j))
  {
    hide WantEntry, ReadBasket, IsTokenAccount, PriceOps;
    if InRecord(B_WANT, j) {
      var at, entry := 5 + ReadBasket(b).giveCount * 3 + j * 4, WantEntry(b, j);
      PriceEscrowed(e, w, c, x.accounts[at + 1], x.accounts[at], x.accounts[at + 3], x.accounts[at + 2],
          Signer(x.accounts[0]), entry.amount, nonce[0]);
    }
  }

  lemma {:induction false} PayEscrowed(e: Env, w: World, x: Ix, c: Config, b: seq<byte>, nonce: Key, j: nat)
    requires |b| == BASKET_LEN && j <= ReadBasket(b).wantCount
    requires |x.accounts| == 5 + ReadBasket(b).giveCount * 3 + ReadBasket(b).wantCount * 4
    ensures AllEscrowed(e, Baskets.PayOps(e, w, x, c, b, nonce, j))
    decreases ReadBasket(b).wantCount - j
  {
    hide Baskets.PayLeg, ReadBasket;
    if j < ReadBasket(b).wantCount {
      PayLegEscrowed(e, w, x, c, b, nonce, j);
      PayEscrowed(e, w, x, c, b, nonce, j + 1);
    }
  }

  lemma LegVaultIsVault(e: Env, maker: Key, nonce: Key, i: nat, vault: Key, mint: Key, basket: Key)
    requires Baskets.IsLegVault(e, maker, nonce, i, vault) && Derived(e.derive, basket)
    ensures IsVault(e, vault, mint, basket)
  {
    assert Create(e.derive, BVaultSeed(maker, nonce, i), Find(e.derive, BVaultSeed(maker, nonce, i)).value.bump)
        == Some(vault);
  }

  lemma LockLegEscrowed(e: Env, x: Ix, basket: Key, b: seq<byte>, i: nat)
    requires Baskets.PayloadFits(x.data) && |x.accounts| == 6 + x.data[32] * 3 && |b| == BASKET_LEN && i < x.data[32]
        && Derived(e.derive, basket)
    requires forall op :: op in Baskets.LockLeg(e, x, basket, b, i) && op.Check? ==> op.ok
    ensures AllEscrowed(e, Baskets.LockLeg(e, x, basket, b, i))
  {
    hide Baskets.WithGive, Baskets.NotWanted, Baskets.IsLegVault, Baskets.GiveAmount, Derived, IsVault;
    var ops := Baskets.LockLeg(e, x, basket, b, i);
    assert ops[2] in ops && ops[2].ok;
    LegVaultIsVault(e, x.accounts[0], KeyAt(x.data, 0), i, x.accounts[6 + i * 3 + 1], x.accounts[6 + i * 3], basket);
  }

  lemma {:induction false} LockEscrowed(e: Env, x: Ix, basket: Key, b: seq<byte>, i: nat)
    requires Baskets.PayloadFits(x.data) && |x.accounts| == 6 + x.data[32] * 3 && |b| == BASKET_LEN && i <= x.data[32]
        && Derived(e.derive, basket)
    requires forall op :: op in Baskets.LockOps(e, x, basket, b, i) && op.Check? ==> op.ok
    ensures AllEscrowed(e, Baskets.LockOps(e, x, basket, b, i))
    decreases x.data[32] - i
  {
    hide Baskets.LockLeg, Baskets.WithGive, Derived, Escrowed;
    if i < x.data[32] {
      LockLegEscrowed(e, x, basket, b, i);
      LockEscrowed(e, x, basket, Baskets.WithGive(x, b, i), i + 1);
    }
  }

  lemma {:induction false} WantsEscrowed(e: Env, d: seq<byte>, j: nat)
    requires Baskets.PayloadFits(d) && j <= d[33]
    ensures AllEscrowed(e, Baskets.WantChecks(d, j))
    decreases d[33] - j
  {
    if j < d[33] {
      WantsEscrowed(e, d, j + 1);
    }
  }

  lemma AddressDerived(e: Env, s: Seed)
    requires Find(e.derive, s).Ok?
    ensures Derived(e.derive, Address(e.derive, s))
  {
  }

  // ---- the handlers ----

  lemma VaultIsVault(e: Env, s: Seed, mint: Key, owner: Key)
    requires Find(e.derive, s).Ok? && (s.VaultSeed? || s.OVaultSeed?) && Derived(e.derive, owner)
    ensures IsVault(e, Address(e.derive, s), mint, owner)
  {
    assert Create(e.derive, s, Find(e.derive, s).value.bump) == Some(Address(e.derive, s));
  }

  lemma OpeningsConsented(e: Env, w: World, tag: byte, x: Ix)
    requires tag in {0, 4, 26} && PlanOf(e, w, tag, x).Ok?
    ensures AllEscrowed(e, PlanOf(e, w, tag, x).value)
  {
    hide Swaps.OpenSwap, Offers.MakeOffer, Listings.List, SwapImage, OfferImage, ListingImage, ReadSwap, IsVault;
    match tag
    case 0 => { var s := OpenSwapShape(e, x, w); VaultIsVault(e, VaultSeed(s.maker, s.nonce), s.giveMint,
        x.accounts[1]); }
    case 4 => { var o, s := MakeOfferShape(e, x, w); VaultIsVault(e, OVaultSeed(o.offerer, o.nonce), o.wantMint,
        x.accounts[1]); }
    case 26 => { var s := ListShape(e, x, w); }
  }

  lemma OpenBasketConsented(e: Env, w: World, x: Ix)
    requires Baskets.OpenBasket(e, w, x).Ok? && forall op ::
        op in Baskets.OpenBasket(e, w, x).value && op.Check? ==> op.ok
    ensures AllEscrowed(e, Baskets.OpenBasket(e, w, x).value)
  {
    hide Baskets.OpenBasket, Baskets.LockOps, Baskets.WantChecks, Baskets.WithWants, HeaderImage;
    var k, b := OpenBasketShape(e, x, w);
    WantsEscrowed(e, x.data, 0);
    LockEscrowed(e, x, x.accounts[1], b, 0);
  }

  lemma FillConsented(e: Env, w: World, x: Ix)
    requires Swaps.Fill(e, w, x).Ok?
    ensures AllEscrowed(e, Swaps.Fill(e, w, x).value)
  {
    hide Swaps.Fill, PriceOps, ReadSwap, IsTokenAccount, Derived;
    var s, c, nonce := FillShape(e, x, w);
    var a := x.accounts;
    AddressDerived(e, VaultSeed(s.maker, nonce));
    PriceEscrowed(e, w, c, a[6], s.wantMint, a[11], a[8], Signer(a[0]), s.wantAmount, nonce[0]);
  }

  lemma SwapEndingsConsented(e: Env, w: World, tag: byte, x: Ix)
    requires tag in {1, 2, 3} && PlanOf(e, w, tag, x).Ok?
    ensures AllEscrowed(e, PlanOf(e, w, tag, x).value)
  {
    hide Swaps.Fill, Swaps.CancelSwap, Swaps.Expire, ReadSwap, IsTokenAccount, Derived;
    match tag
    case 1 => FillConsented(e, w, x);
    case 2 => {
      var s := CancelSwapShape(e, x, w);
      AddressDerived(e, VaultSeed(s.maker, x.data));
    }
    case 3 => {
      var s := ExpireShape(e, x, w);
      AddressDerived(e, VaultSeed(s.maker, x.data));
    }
  }

  lemma AcceptConsented(e: Env, w: World, x: Ix)
    requires Offers.AcceptOffer(e, w, x).Ok?
    ensures AllEscrowed(e, Offers.AcceptOffer(e, w, x).value)
  {
    hide Offers.AcceptOffer, PriceOps, ReadSwap, ReadOffer, IsTokenAccount, Derived;
    var s, o, c, sn, on := AcceptOfferShape(e, x, w);
    var a := x.accounts;
    AddressDerived(e, VaultSeed(s.maker, sn));
    AddressDerived(e, OVaultSeed(o.offerer, on));
    PriceEscrowed(e, w, c, a[4], s.wantMint, a[12], a[9], Seeded(a[3], OfferSeed(o.offerer, on), o.bump), o.wantAmount,
        sn[0]);
  }

  lemma BidEndingsConsented(e: Env, w: World, tag: byte, x: Ix)
    requires tag in {5, 6, 7} && PlanOf(e, w, tag, x).Ok?
    ensures AllEscrowed(e, PlanOf(e, w, tag, x).value)
  {
    hide Offers.AcceptOffer, Offers.WithdrawOffer, Offers.ExpireOffer, ReadOffer, IsTokenAccount, Derived;
    match tag
    case 5 => AcceptConsented(e, w, x);
    case 6 => {
      var o := WithdrawOfferShape(e, x, w);
      AddressDerived(e, OVaultSeed(o.offerer, x.data));
    }
    case 7 => {
      var o := ExpireOfferShape(e, x, w);
      AddressDerived(e, OVaultSeed(o.offerer, x.data));
    }
  }

  lemma UnlockPlanEscrowed(e: Env, w: World, x: Ix, pay: seq<Op>, b: seq<byte>, nonce: Key, base: nat, auth: Authority,
                           payee: Option<Key>, basket: Key)
    requires |b| == BASKET_LEN && |x.accounts| >= base + ReadBasket(b).giveCount * 3
    requires auth.Seeded? && auth.seed.BasketSeed? && AllEscrowed(e, pay)
    requires forall op ::
        op in pay + Baskets.UnlockOps(e, w, x, b, nonce, base, auth, payee, 0) + [Wipe(basket)] && op.Check? ==> op.ok
    ensures AllEscrowed(e, pay + Baskets.UnlockOps(e, w, x, b, nonce, base, auth, payee, 0) + [Wipe(basket)])
  {
    hide Baskets.UnlockOps, ReadBasket;
    UnlockEscrowed(e, w, x, b, nonce, base, auth, payee, 0);
  }

  lemma JustUnlockEscrowed(e: Env, w: World, x: Ix, b: seq<byte>, nonce: Key, base: nat, auth: Authority,
                           payee: Option<Key>, basket: Key)
    requires |b| == BASKET_LEN && |x.accounts| >= base + ReadBasket(b).giveCount * 3
    requires auth.Seeded? && auth.seed.BasketSeed?
    requires forall op ::
        op in Baskets.UnlockOps(e, w, x, b, nonce, base, auth, payee, 0) + [Wipe(basket)] && op.Check? ==> op.ok
    ensures AllEscrowed(e, Baskets.UnlockOps(e, w, x, b, nonce, base, auth, payee, 0) + [Wipe(basket)])
  {
    hide Baskets.UnlockOps, ReadBasket;
    UnlockEscrowed(e, w, x, b, nonce, base, auth, payee, 0);
  }

  lemma FillBasketConsented(e: Env, w: World, x: Ix)
    requires Baskets.FillBasket(e, w, x).Ok?
    requires forall op :: op in Baskets.FillBasket(e, w, x).value && op.Check? ==> op.ok
    ensures AllEscrowed(e, Baskets.FillBasket(e, w, x).value)
  {
    hide Baskets.FillBasket, Baskets.PayOps, Baskets.UnlockOps, ReadBasket, AllEscrowed;
    var k, c, auth := FillBasketShape(e, x, w);
    var b := w.records[x.accounts[1]];
    PayEscrowed(e, w, x, c, b, x.data, 0);
    UnlockPlanEscrowed(e, w, x, Baskets.PayOps(e, w, x, c, b, x.data, 0), b, x.data, 5, auth, None, x.accounts[1]);
  }

  lemma BasketEndingsConsented(e: Env, w: World, tag: byte, x: Ix)
    requires tag in {13, 14, 16, 17} && PlanOf(e, w, tag, x).Ok?
    requires forall op :: op in PlanOf(e, w, tag, x).value && op.Check? ==> op.ok
    ensures AllEscrowed(e, PlanOf(e, w, tag, x).value)
  {
    hide Baskets.FillBasket, Baskets.ClaimBearer, Baskets.CancelBasket, Baskets.ExpireBasket, Baskets.UnlockOps;
    hide ReadBasket, AllEscrowed;
    match tag
    case 13 => FillBasketConsented(e, w, x);
    case 14 => {
      var k, auth := ClaimBearerShape(e, x, w);
      JustUnlockEscrowed(e, w, x, w.records[x.accounts[2]], x.data, 5, auth, None, x.accounts[2]);
    }
    case 16 => {
      var k, auth := CancelBasketShape(e, x, w);
      JustUnlockEscrowed(e, w, x, w.records[x.accounts[1]], x.data, 6, auth, Some(k.maker), x.accounts[1]);
    }
    case 17 => {
      var k, auth := ExpireBasketShape(e, x, w);
      JustUnlockEscrowed(e, w, x, w.records[x.accounts[1]], x.data, 4, auth, Some(k.maker), x.accounts[1]);
    }
  }

  lemma StopEscrowed(e: Env, p: Plan)
    requires p.Ok? ==> AllEscrowed(e, p.value)
    ensures AllEscrowed(e, Orders.OrStop(p))
  {
  }

  lemma Together(e: Env, tag: byte, x: Ix, a: seq<Op>, b: seq<Op>)
    requires AllConsented(e, tag, x, a) && AllConsented(e, tag, x, b)
    ensures AllConsented(e, tag, x, a + b)
  {
    hide Escrowed, Sale;
  }

  lemma EscrowedConsented(e: Env, tag: byte, x: Ix, ops: seq<Op>)
    requires AllEscrowed(e, ops)
    ensures AllConsented(e, tag, x, ops)
  {
  }

  lemma SaleConsented(e: Env, tag: byte, x: Ix, move: Op, k: Key)
    requires Sale(tag, x, move)
    ensures AllConsented(e, tag, x, [move, Wipe(k)]) && AllConsented(e, tag, x, [move])
  {
  }

  lemma FillListingConsented(e: Env, w: World, x: Ix)
    requires Listings.FillListing(e, w, x).Ok?
    ensures AllConsented(e, 27, x, Listings.FillListing(e, w, x).value)
  {
    hide Listings.FillListing, RoyaltyOps, ReadSwap, IsTokenAccount, Derived, AllConsented, LoadFillState;
    var s, nonce := FillListingShape(e, x, w);
    var a, none := x.accounts, s.royaltyMode == ROYALTY_NONE;
    RoyaltyEscrowed(e, w, a[10], a[7], s.wantMint, a[11], a[8], a[0], s.wantAmount, U64At(x.data, 40), x.data[0],
        s.royaltyMode, s.makerPct,
                    if none then None else Some(x.metadata), if none then [] else a[14..]);
    var pay, move := ListingRoyalty(e, w, x, s).value, Transfer(a[5], s.giveMint, a[6],
        Seeded(a[1], ListingSeed(s.maker, nonce), s.bump), s.giveAmount);
    EscrowedConsented(e, 27, x, pay);
    SaleConsented(e, 27, x, move, a[1]);
    Together(e, 27, x, pay, [move, Wipe(a[1])]);
  }

  lemma ChecksConsented(e: Env, tag: byte, x: Ix, ops: seq<Op>, key: Key, n: nat)
    requires forall op :: op in ops ==> op.Check?
    ensures AllConsented(e, tag, x, ops) && AllConsented(e, tag, x, [NewRecord(key, n)])
  {
  }

  lemma SettleConsented(e: Env, tag: byte, x: Ix, done: Key, checks: seq<Op>, pay: seq<Op>, last: Op)
    requires (forall op :: op in checks ==> op.Check?) && AllConsented(e, tag, x, pay)
        && (Sale(tag, x, last) || Escrowed(e, last))
    ensures AllConsented(e, tag, x, [NewRecord(done, MARKER_LEN)] + checks + pay + [last])
  {
    ChecksConsented(e, tag, x, checks, done, MARKER_LEN);
    Together(e, tag, x, [NewRecord(done, MARKER_LEN)], checks);
    Together(e, tag, x, [NewRecord(done, MARKER_LEN)] + checks, pay);
    Together(e, tag, x, [NewRecord(done, MARKER_LEN)] + checks + pay, [last]);
  }

  lemma SettleOrderConsented(e: Env, w: World, x: Ix)
    requires Orders.SettleSignedOrder(e, w, x).Ok?
    ensures AllConsented(e, 38, x, Orders.SettleSignedOrder(e, w, x).value)
  {
    hide Orders.SettleSignedOrder, RoyaltyOps, IsTokenAccount, Derived, AllConsented, Orders.OrderChecks;
    var t, auth, done := SettleOrderShape(e, x, w);
    var a := x.accounts;
    if OrderRoyalty(e, w, x, t).Ok? {
      RoyaltyEscrowed(e, w, a[11], a[6], t.wantMint, a[12], a[7], a[0], t.wantAmount, U64 - 1, t.nonce[0],
          t.royaltyMode, t.makerPct,
                      if t.royaltyMode == ROYALTY_NONE then None else Some(x.metadata),
                          if |a| > 17 then a[17..] else []);
    }
    var pay, checks := Orders.OrStop(OrderRoyalty(e, w, x, t)), Orders.OrderChecks(e, w, x, t);
    StopEscrowed(e, OrderRoyalty(e, w, x, t));
    EscrowedConsented(e, 38, x, pay);
    SettleConsented(e, 38, x, done.key, checks, pay, Transfer(a[4], t.giveMint, a[5],
        Seeded(auth.key, OrderSeed(a[1]), auth.bump), t.giveAmount));
  }

  /** A signed bid pays out of the bidder's own account, fee and price alike. */
  lemma CoinsAreSale(e: Env, w: World, tag: byte, x: Ix, c: Config, src: Key, mint: Key, feeAccount: Key, payee: Key,
      auth: Authority, amount: nat, shardSeed: byte)
    requires tag == 41 && SaleAccount(tag, x) == Some(src) && auth.Seeded? && auth.seed.OrderSeed?
    ensures AllConsented(e, tag, x, PriceOps(e, w, c, src, mint, feeAccount, payee, auth, amount, shardSeed))
  {
    hide IsFeeDestination;
  }

  lemma CoinsConsented(e: Env, w: World, x: Ix, config: Key, src: Key, mint: Key, feeAccount: Key, owner: Key,
      auth: Authority, amount: nat, shardSeed: byte)
    requires SaleAccount(41, x) == Some(src) && auth.Seeded? && auth.seed.OrderSeed?
    ensures AllConsented(e, 41, x, Orders.OrStop(Orders.CoinsOps(e, w, config, src, mint, feeAccount, owner, auth,
        amount, shardSeed)))
  {
    hide AllConsented, PriceOps;
    var coins := Orders.CoinsOps(e, w, config, src, mint, feeAccount, owner, auth, amount, shardSeed);
    if coins.Ok? {
      CoinsAreSale(e, w, 41, x, ReadConfig(e, w, config).value, src, mint, feeAccount, owner, auth, amount, shardSeed);
    } else {
      EscrowedConsented(e, 41, x, Orders.OrStop(coins));
    }
  }

  lemma SettleBidConsented(e: Env, w: World, x: Ix)
    requires Orders.SettleSignedBid(e, w, x).Ok?
    ensures AllConsented(e, 41, x, Orders.SettleSignedBid(e, w, x).value)
  {
    hide Orders.SettleSignedBid, Orders.OrStop, Orders.CoinsOps, Derived, AllConsented, Orders.BidChecks;
    var t, auth, done := SettleBidShape(e, x, w);
    var a := x.accounts;
    var order := Seeded(auth.key, OrderSeed(a[1]), auth.bump);
    var coins := Orders.CoinsOps(e, w, a[7], a[4], t.giveMint, a[8], a[5], order, t.giveAmount, t.nonce[0]);
    CoinsConsented(e, w, x, a[7], a[4], t.giveMint, a[8], a[5], order, t.giveAmount, t.nonce[0]);
    SettleConsented(e, 41, x, done.key, Orders.BidChecks(e, w, x, t), Orders.OrStop(coins),
        Transfer(a[13], t.wantMint, a[14], Signer(a[0]), 1));
  }

  lemma SalesConsented(e: Env, w: World, tag: byte, x: Ix)
    requires tag in {27, 38, 41} && PlanOf(e, w, tag, x).Ok?
    ensures AllConsented(e, tag, x, PlanOf(e, w, tag, x).value)
  {
    hide Listings.FillListing, Orders.SettleSignedOrder, Orders.SettleSignedBid, AllConsented;
    if tag == 27 { FillListingConsented(e, w, x); }
    else if tag == 38 { SettleOrderConsented(e, w, x); }
    else { SettleBidConsented(e, w, x); }
  }

  lemma FeeVaultIsVault(e: Env, mint: Key, shard: byte, p: Pda, cfg: Pda)
    requires Find(e.derive, FeeVaultSeed(mint, shard)) == Ok(p) && Find(e.derive, ConfigSeed) == Ok(cfg)
    ensures IsVault(e, p.key, mint, cfg.key)
  {
    assert Create(e.derive, FeeVaultSeed(mint, shard), p.bump) == Some(p.key);
  }

  lemma SweepConsented(e: Env, w: World, x: Ix)
    requires SweepFees(e, w, x).Ok?
    ensures AllConsented(e, 11, x, SweepFees(e, w, x).value)
  {
    hide SweepFees, IsVault, IsTokenAccount;
    var vault, mint, dest, cfg := SweepFeesShape(e, x, w);
    AddressDerived(e, FeeVaultSeed(mint, x.data[0]));
  }

  lemma PolicyConsented(e: Env, w: World, tag: byte, x: Ix)
    requires tag in {8, 9, 10, 15, 28, 29} && PlanOf(e, w, tag, x).Ok?
    ensures AllEscrowed(e, PlanOf(e, w, tag, x).value)
  {
    hide InitConfig, UpdateConfig, InitFeeVault, IsVault, Baskets.Rewrap, Listings.CancelListing,
        Listings.ExpireListing, ReadSwap, ReadBasket, PutClaim, PolicyPut, ConfigImage;
    match tag
    case 8 => { var p := InitConfigShape(e, x, w); }
    case 9 => { var p := UpdateConfigShape(e, x, w); }
    case 10 => { var p, cfg := InitFeeVaultShape(e, x, w); FeeVaultIsVault(e, x.accounts[2], x.data[0], p, cfg); }
    case 15 => { var k := RewrapShape(e, x, w); }
    case 28 => { var s := CancelListingShape(e, x, w); }
    case 29 => { var s := ExpireListingShape(e, x, w); }
  }

  lemma PlainPlans(e: Env, w: World, x: Ix)
    ensures PlanOf(e, w, 12, x) == Baskets.OpenBasket(e, w, x) && PlanOf(e, w, 11, x) == SweepFees(e, w, x)
  {
    hide Baskets.OpenBasket, SweepFees;
  }

  lemma OutOfScope(e: Env, w: World, tag: byte, x: Ix)
    requires PlanOf(e, w, tag, x).Ok?
    ensures tag <= 17 || tag in {26, 27, 28, 29, 38, 41}
  {
  }

  lemma StepConsented(e: Env, w: World, tag: byte, x: Ix)
    requires Step(e, w, tag, x).Ok?
    ensures AllConsented(e, tag, x, PlanOf(e, w, tag, x).value)
  {
    hide PlanOf, Exec, Escrowed, Sale, Sweep;
    ChecksHold(e, x.signers, w, PlanOf(e, w, tag, x).value);
    OutOfScope(e, w, tag, x);
    if tag in {0, 4, 26} { OpeningsConsented(e, w, tag, x); }
    else if tag == 12 { PlainPlans(e, w, x); OpenBasketConsented(e, w, x); }
    else if tag in {1, 2, 3} { SwapEndingsConsented(e, w, tag, x); }
    else if tag in {5, 6, 7} { BidEndingsConsented(e, w, tag, x); }
    else if tag in {13, 14, 16, 17} { BasketEndingsConsented(e, w, tag, x); }
    else if tag in {27, 38, 41} { SalesConsented(e, w, tag, x); }
    else if tag == 11 { PlainPlans(e, w, x); SweepConsented(e, w, x); }
    else { PolicyConsented(e, w, tag, x); }
  }
}
