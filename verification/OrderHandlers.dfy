/** The sealed-order handlers as the program runs them: rebuild the message, check the signature
    instruction, create the spent-marker, pay, deliver. */
module OrderHandlers {
  import opened Prelude
  import opened Bytes
  import opened Seeds
  import opened Layout
  import opened Ledger
  import opened FeeConfig
  import opened Royalty
  import opened Payments
  import opened SignedMessages
  import opened Bank
  import opened Settle
  import Orders

  /** The message, built by appending each term. */
  method BuildMessage(domain: seq<byte>, t: Deal) returns (m: seq<byte>)
    ensures m == domain + SignedMessages.Terms(t)
  {
    m := domain;
    m := m + t.giveMint;
    m := m + U64Bytes(t.giveAmount);
    m := m + t.wantMint;
    m := m + U64Bytes(t.wantAmount);
    m := m + t.taker;
    m := m + I64Bytes(t.expiry);
    m := m + t.nonce;
    m := m + [t.royaltyMode];
    m := m + [t.makerPct];
    assert m == domain + SignedMessages.Terms(t);
  }

  /** `verify_ed25519_order`. */
  method VerifySignature(x: Ix, signer: Key, message: seq<byte>) returns (r: Outcome)
    ensures r == if Orders.ProvesSignature(x, signer, message) then Pass else Fail(InvalidArgument)
  {
    hide LayoutOk;
    if x.signature.None? {
      return Fail(InvalidArgument);
    }
    r := Ed25519LayoutOk(x.signature.value, signer, message);
  }

  method CheckOrderAccounts(b: Bank, ghost w: World, x: Ix, t: Deal) returns (r: Outcome)
    requires |x.accounts| >= 15 && b.tokens == w.tokens
    ensures r == Verdict(Orders.OrderChecks(b.env, w, x, t))
  {
    var a := x.accounts;
    ghost var checks := Orders.OrderChecks(b.env, w, x, t);
    FiveChecks(checks[0], checks[1], checks[2], checks[3], checks[4]);
    assert checks == [checks[0], checks[1], checks[2], checks[3], checks[4]];
    if !IsTokenAccount(b.View(), a[4], t.giveMint, a[1]) {
      return Fail(InvalidArgument);
    }
    if !IsTokenAccount(b.View(), a[7], t.wantMint, a[1]) {
      return Fail(InvalidArgument);
    }
    if t.giveMint !in b.env.mints || t.wantMint !in b.env.mints {
      return Fail(InvalidAccountData);
    }
    if t.royaltyMode != ROYALTY_NONE && |a| < 17 {
      return Fail(NotEnoughAccountKeys);
    }
    if a[11] == a[9] {
      return Fail(Orders.MarkerRefusal(b.env, a[11]));
    }
    return Pass;
  }

  method CheckBidAccounts(b: Bank, ghost w: World, x: Ix, t: Deal) returns (r: Outcome)
    requires |x.accounts| >= 15 && b.tokens == w.tokens
    ensures r == Verdict(Orders.BidChecks(b.env, w, x, t))
  {
    var a := x.accounts;
    ghost var checks := Orders.BidChecks(b.env, w, x, t);
    SixChecks(checks[0], checks[1], checks[2], checks[3], checks[4], checks[5]);
    assert checks == [checks[0], checks[1], checks[2], checks[3], checks[4], checks[5]];
    if !IsTokenAccount(b.View(), a[4], t.giveMint, a[1]) {
      return Fail(InvalidArgument);
    }
    if !IsTokenAccount(b.View(), a[5], t.giveMint, a[0]) {
      return Fail(InvalidArgument);
    }
    if !IsTokenAccount(b.View(), a[13], t.wantMint, a[0]) {
      return Fail(InvalidArgument);
    }
    if !IsTokenAccount(b.View(), a[14], t.wantMint, a[1]) {
      return Fail(InvalidArgument);
    }
    if t.giveMint !in b.env.mints || t.wantMint !in b.env.mints {
      return Fail(InvalidAccountData);
    }
    if a[7] == a[10] {
      return Fail(Orders.MarkerRefusal(b.env, a[7]));
    }
    return Pass;
  }

  lemma StopPerformed(e: Env, signers: set<Key>, w: World, plan: Plan, v: World)
    requires plan.Err?
    ensures Performed(e, signers, w, Orders.OrStop(plan), Fail(plan.error), v)
  {
    Checked(e, signers, w, false, plan.error);
  }

  lemma SameConfig(e: Env, w: World, v: World, config: Key, marker: Key)
    requires v.records == w.records[marker := Zeros(MARKER_LEN)] && config != marker
    ensures ReadConfig(e, v, config) == ReadConfig(e, w, config)
  {
  }

  lemma ConfigIsNotMarker(e: Env, w: World, x: Ix, t: Deal)
    requires |x.accounts| >= 15 && Verdict(Orders.OrderChecks(e, w, x, t)).Pass?
    ensures x.accounts[11] != x.accounts[9]
  {
    var checks := Orders.OrderChecks(e, w, x, t);
    FiveChecks(checks[0], checks[1], checks[2], checks[3], checks[4]);
    assert checks == [checks[0], checks[1], checks[2], checks[3], checks[4]];
  }

  /** From the marker on: create it, check the accounts, pay, deliver. */
  method SpendOrder(b: Bank, x: Ix, t: Deal, auth: Pda) returns (r: Outcome)
    requires |x.accounts| >= 15
    modifies b
    ensures var a, w := x.accounts, old(b.View());
            Performed(b.env, x.signers, w,
                      [NewRecord(a[9], MARKER_LEN)] + Orders.OrderChecks(b.env, w, x, t)
                      + Orders.OrStop(RoyaltyOps(b.env, w, a[11], a[6], t.wantMint, a[12], a[7], a[0], t.wantAmount,
                          U64 - 1, t.nonce[0], t.royaltyMode, t.makerPct,
                                                 if t.royaltyMode == ROYALTY_NONE then None else Some(x.metadata),
                                                     if |a| > 17 then a[17..] else []))
                      + [Transfer(a[4], t.giveMint, a[5], Seeded(a[8], OrderSeed(a[1]), auth.bump), t.giveAmount)],
                      r, b.View())
  {
    hide Performed, Exec, RoyaltyOps, Orders.OrderChecks, Verdict, ReadConfig, IsTokenAccount;
    var a := x.accounts;
    ghost var w := b.View();
    var metadata := if t.royaltyMode == ROYALTY_NONE then None else Some(x.metadata);
    var creators := if |a| > 17 then a[17..] else [];
    ghost var plan := RoyaltyOps(b.env, w, a[11], a[6], t.wantMint, a[12], a[7], a[0], t.wantAmount, U64 - 1,
        t.nonce[0], t.royaltyMode, t.makerPct, metadata, creators);
    var order := Seeded(a[8], OrderSeed(a[1]), auth.bump);
    ghost var create, checks, pay, last := [NewRecord(a[9], MARKER_LEN)], Orders.OrderChecks(b.env, w, x, t),
        Orders.OrStop(plan), [Transfer(a[4], t.giveMint, a[5], order, t.giveAmount)];
    r := b.CreatePda(x.signers, a[9], MARKER_LEN);
    if r.Fail? {
      Halt(b.env, x.signers, w, create, checks, r, b.View());
      Halt(b.env, x.signers, w, create + checks, pay, r, b.View());
      Halt(b.env, x.signers, w, create + checks + pay, last, r, b.View());
      return;
    }
    ghost var u := b.View();
    r := CheckOrderAccounts(b, w, x, t);
    VerdictPerformed(b.env, x.signers, u, checks);
    Then(b.env, x.signers, w, create, u, checks, r, u);
    if r.Fail? {
      Halt(b.env, x.signers, w, create + checks, pay, r, b.View());
      Halt(b.env, x.signers, w, create + checks + pay, last, r, b.View());
      return;
    }
    ConfigIsNotMarker(b.env, w, x, t);
    SameConfig(b.env, w, u, a[11], a[9]);
    r := PayWantAndRoyalty(b, x.signers, w, a[11], a[6], t.wantMint, a[12], a[7], a[0], t.wantAmount, U64 - 1,
        t.nonce[0], t.royaltyMode, t.makerPct, metadata, creators);
    if plan.Err? {
      StopPerformed(b.env, x.signers, u, plan, b.View());
    }
    Then(b.env, x.signers, w, create + checks, u, pay, r, b.View());
    if r.Fail? {
      Halt(b.env, x.signers, w, create + checks + pay, last, r, b.View());
      return;
    }
    u := b.View();
    r := b.TokenTransfer(x.signers, a[4], t.giveMint, a[5], order, t.giveAmount);
    Then(b.env, x.signers, w, create + checks + pay, u, last, r, b.View());
  }

  /** `settle_signed_order`. */
  method SettleSignedOrder(b: Bank, x: Ix) returns (r: Outcome)
    modifies b
    ensures Ran(b.env, old(b.View()), x, Orders.SettleSignedOrder(b.env, old(b.View()), x), r, b.View())
  {
    hide Performed, Exec, RoyaltyOps, Orders.OrderChecks, Orders.ProvesSignature, Verdict, ReadConfig;
    var d, a := x.data, x.accounts;
    if |d| != 90 {
      return Fail(InvalidInstructionData);
    }
    if d[88] > ROYALTY_SPLIT || d[89] > 100 {
      return Fail(InvalidInstructionData);
    }
    if |a| < 15 {
      return Fail(NotEnoughAccountKeys);
    }
    var taker, maker := a[0], a[1];
    var t := Orders.DealOf(d, a[2], a[3]);
    if taker !in x.signers {
      return Fail(MissingRequiredSignature);
    }
    if t.giveAmount == 0 || t.wantAmount == 0 {
      return Fail(InvalidInstructionData);
    }
    if t.expiry <= b.now {
      return Fail(InvalidArgument);
    }
    if t.taker != ZERO && t.taker != taker {
      return Fail(InvalidArgument);
    }
    var message := BuildMessage(ORDER_DOMAIN, t);
    r := VerifySignature(x, maker, message);
    if r.Fail? {
      return;
    }
    var auth := Find(b.env.derive, OrderSeed(maker));
    if auth.Err? || auth.value.key != a[8] {
      return Fail(InvalidSeeds);
    }
    var done := Find(b.env.derive, DoneSeed(maker, t.nonce));
    if done.Err? || done.value.key != a[9] {
      return Fail(InvalidSeeds);
    }
    r := SpendOrder(b, x, t, auth.value);
  }

  lemma BidConfigIsNotMarker(e: Env, w: World, x: Ix, t: Deal)
    requires |x.accounts| >= 15 && Verdict(Orders.BidChecks(e, w, x, t)).Pass?
    ensures x.accounts[7] != x.accounts[10]
  {
    var checks := Orders.BidChecks(e, w, x, t);
    SixChecks(checks[0], checks[1], checks[2], checks[3], checks[4], checks[5]);
    assert checks == [checks[0], checks[1], checks[2], checks[3], checks[4], checks[5]];
  }

  /** `pay_coins_via_delegate`. */
  method PayCoinsViaDelegate(b: Bank, signers: set<Key>, ghost w: World, config: Key, src: Key, mint: Key,
      feeAccount: Key, owner: Key, auth: Authority, amount: nat, shardSeed: byte)
    returns (r: Outcome)
    requires SameFaces(w.tokens, b.tokens) && ReadConfig(b.env, b.View(), config) == ReadConfig(b.env, w, config)
    modifies b`tokens, b`log
    ensures Performed(b.env, signers, old(b.View()), Orders.OrStop(Orders.CoinsOps(b.env, w, config, src, mint,
        feeAccount, owner, auth, amount, shardSeed)), r, b.View())
  {
    hide Performed, Exec, PriceOps, ReadConfig;
    var c := ReadConfig(b.env, b.View(), config);
    if c.Err? {
      StopPerformed(b.env, signers, b.View(), Orders.CoinsOps(b.env, w, config, src, mint, feeAccount, owner, auth,
          amount, shardSeed), b.View());
      return Fail(c.error);
    }
    r := PayWantLeg(b, signers, w, c.value, src, mint, feeAccount, owner, auth, amount, shardSeed);
  }

  method SpendBid(b: Bank, x: Ix, t: Deal, auth: Pda) returns (r: Outcome)
    requires |x.accounts| == 16
    modifies b
    ensures var a, w := x.accounts, old(b.View());
            Performed(b.env, x.signers, w,
                      [NewRecord(a[10], MARKER_LEN)] + Orders.BidChecks(b.env, w, x, t)
                      + Orders.OrStop(Orders.CoinsOps(b.env, w, a[7], a[4], t.giveMint, a[8], a[5],
                          Seeded(a[9], OrderSeed(a[1]), auth.bump), t.giveAmount, t.nonce[0]))
                      + [Transfer(a[13], t.wantMint, a[14], Signer(a[0]), 1)],
                      r, b.View())
  {
    hide Performed, Exec, Orders.CoinsOps, Orders.BidChecks, Verdict, ReadConfig, IsTokenAccount, Orders.OrStop;
    var a := x.accounts;
    ghost var w := b.View();
    var order := Seeded(a[9], OrderSeed(a[1]), auth.bump);
    ghost var create, checks := [NewRecord(a[10], MARKER_LEN)], Orders.BidChecks(b.env, w, x, t);
    ghost var pay, last := Orders.OrStop(Orders.CoinsOps(b.env, w, a[7], a[4], t.giveMint, a[8], a[5], order,
        t.giveAmount, t.nonce[0])), [Transfer(a[13], t.wantMint, a[14], Signer(a[0]), 1)];
    r := b.CreatePda(x.signers, a[10], MARKER_LEN);
    if r.Fail? {
      Halt(b.env, x.signers, w, create, checks, r, b.View());
      Halt(b.env, x.signers, w, create + checks, pay, r, b.View());
      Halt(b.env, x.signers, w, create + checks + pay, last, r, b.View());
      return;
    }
    ghost var u := b.View();
    r := CheckBidAccounts(b, w, x, t);
    VerdictPerformed(b.env, x.signers, u, checks);
    Then(b.env, x.signers, w, create, u, checks, r, u);
    if r.Fail? {
      Halt(b.env, x.signers, w, create + checks, pay, r, b.View());
      Halt(b.env, x.signers, w, create + checks + pay, last, r, b.View());
      return;
    }
    BidConfigIsNotMarker(b.env, w, x, t);
    SameConfig(b.env, w, u, a[7], a[10]);
    r := PayCoinsViaDelegate(b, x.signers, w, a[7], a[4], t.giveMint, a[8], a[5], order, t.giveAmount, t.nonce[0]);
    Then(b.env, x.signers, w, create + checks, u, pay, r, b.View());
    if r.Fail? {
      Halt(b.env, x.signers, w, create + checks + pay, last, r, b.View());
      return;
    }
    u := b.View();
    r := b.TokenTransfer(x.signers, a[13], t.wantMint, a[14], Signer(a[0]), 1);
    Then(b.env, x.signers, w, create + checks + pay, u, last, r, b.View());
  }

  /** `settle_signed_bid_spl`. */
  method SettleSignedBid(b: Bank, x: Ix) returns (r: Outcome)
    modifies b
    ensures Ran(b.env, old(b.View()), x, Orders.SettleSignedBid(b.env, old(b.View()), x), r, b.View())
  {
    hide Performed, Exec, Orders.CoinsOps, Orders.BidChecks, Orders.ProvesSignature, Verdict, ReadConfig;
    var d, a := x.data, x.accounts;
    if |d| != 90 {
      return Fail(InvalidInstructionData);
    }
    if |a| != 16 {
      return Fail(NotEnoughAccountKeys);
    }
    var owner, bidder := a[0], a[1];
    var t := Orders.DealOf(d, a[2], a[3]);
    if owner !in x.signers {
      return Fail(MissingRequiredSignature);
    }
    if t.giveAmount == 0 || t.wantAmount != 1 {
      return Fail(InvalidInstructionData);
    }
    if t.royaltyMode != ROYALTY_NONE || t.makerPct != 0 {
      return Fail(InvalidInstructionData);
    }
    if t.expiry <= b.now {
      return Fail(InvalidArgument);
    }
    if t.taker != ZERO && t.taker != owner {
      return Fail(InvalidArgument);
    }
    var message := BuildMessage(BID_DOMAIN, t);
    r := VerifySignature(x, bidder, message);
    if r.Fail? {
      return;
    }
    var auth := Find(b.env.derive, OrderSeed(bidder));
    if auth.Err? || auth.value.key != a[9] {
      return Fail(InvalidSeeds);
    }
    var done := Find(b.env.derive, DoneSeed(bidder, t.nonce));
    if done.Err? || done.value.key != a[10] {
      return Fail(InvalidSeeds);
    }
    r := SpendBid(b, x, t, auth.value);
  }
}
